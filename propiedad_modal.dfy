/**
 * The property modal (src/components/PropiedadModal.jsx): it shows a property
 * read-only, lets the user switch to editing a copy of it (`formData`), saves
 * the copy with `updatePropiedad`, reverts it on cancel, and archives the
 * property, closing the modal.
 */
module PropiedadModal {
  import opened Wrappers
  import opened Firestore
  import opened ZonasService

  /** `formData` before the property has been read. */
  const EMPTY_FORM: Doc := map[
    "ubicacion" := Str(""), "descripcion" := Str(""), "precio" := Str(""), "propietario" := Str(""),
    "metrosCuadrados" := Str(""), "amueblado" := Str(""), "imageUrl" := Str("")]

  /**
   * Saving the form as it was loaded stores the displayed object: the stored
   * record gains the `id` field the read added, and keeps every other field.
   */
  lemma SaveLoadedFormStoresDisplayedObject(db: Db, user: Option<string>, zonaId: string, propiedadId: string)
    requires ValidDb(db) && GetPropiedadPorId(db, user, zonaId, propiedadId).Ok?
    ensures var shown := GetPropiedadPorId(db, user, zonaId, propiedadId).value;
      var res := AfterUpdate(db, user, zonaId, propiedadId, shown);
      && res.Ok?
      && ValidDb(res.value)
      && Find(Propiedades(res.value, zonaId), propiedadId) == Some(shown)
  {
    var ps := Propiedades(db, zonaId);
    var shown := GetPropiedadPorId(db, user, zonaId, propiedadId).value;
    FindPresent(ps, propiedadId);
    var i :| 0 <= i < |ps| && Ids(ps)[i] == propiedadId;
    FindAt(ps, propiedadId, i);
    assert shown == map["id" := Str(propiedadId)] + ps[i].data;
    assert ps[i].data + shown == shown;
    var merged := Merge(ps, propiedadId, shown);
    assert forall j :: 0 <= j < |merged| ==> merged[j].id == Ids(ps)[j] == ps[j].id;
    FindAt(merged, propiedadId, i);
    var after := AfterUpdate(db, user, zonaId, propiedadId, shown).value;
    assert Propiedades(after, zonaId) == merged;
  }

  class PropiedadModalView {
    const store: ZoneStore
    const zonaId: string
    const propiedadId: string
    var propiedad: Option<Doc>
    var isEditing: bool
    var formData: Doc
    /** The parent's `showModal`, which this component can only clear. */
    var open: bool

    /** The component as first rendered: nothing loaded, view mode, an empty form. */
    constructor (store: ZoneStore, zonaId: string, propiedadId: string)
      ensures this.store == store && this.zonaId == zonaId && this.propiedadId == propiedadId
      ensures propiedad == None && !isEditing && formData == EMPTY_FORM && open
    {
      this.store, this.zonaId, this.propiedadId := store, zonaId, propiedadId;
      propiedad, isEditing, formData, open := None, false, EMPTY_FORM, true;
    }

    /** `fetchPropiedad`: a successful read sets both the property and the form to it. */
    method FetchPropiedad(user: Option<string>)
      modifies this
      ensures var res := GetPropiedadPorId(store.Snapshot(), user, zonaId, propiedadId);
        && (res.Ok? ==> propiedad == Some(res.value) && formData == res.value)
        && (res.Err? ==> propiedad == old(propiedad) && formData == old(formData))
      ensures isEditing == old(isEditing) && open == old(open)
    {
      var res := GetPropiedadPorId(store.Snapshot(), user, zonaId, propiedadId);
      if res.Ok? {
        propiedad := Some(res.value);
        formData := res.value;
      }
    }

    method HandleEditClick()
      modifies this
      ensures isEditing
      ensures propiedad == old(propiedad) && formData == old(formData) && open == old(open)
    {
      isEditing := true;
    }

    /** Cancel is only offered once the property is shown; it restores the loaded snapshot. */
    method HandleCancelClick()
      requires propiedad.Some?
      modifies this
      ensures propiedad == old(propiedad) && open == old(open)
      ensures !isEditing && formData == propiedad.value
    {
      isEditing := false;
      formData := propiedad.value;
    }

    /** `handleChange`: the input named `name` sets that one field. */
    method HandleChange(name: string, value: string)
      modifies this
      ensures formData == old(formData)[name := Str(value)]
      ensures forall k :: k in old(formData) && k != name ==> k in formData && formData[k] == old(formData)[k]
      ensures propiedad == old(propiedad) && isEditing == old(isEditing) && open == old(open)
    {
      formData := formData[name := Str(value)];
    }

    /**
     * `handleSave`: the form is merged into the stored property; edit mode ends
     * only when that succeeds. The shown snapshot `propiedad` is not refreshed,
     * so a later cancel reverts to the values first loaded.
     */
    method HandleSave(user: Option<string>)
      requires store.Valid()
      modifies this, store
      ensures store.Valid()
      ensures var res := AfterUpdate(old(store.Snapshot()), user, zonaId, propiedadId, old(formData));
        && store.Snapshot() == Applied(res, old(store.Snapshot()))
        && isEditing == (if res.Ok? then false else old(isEditing))
      ensures propiedad == old(propiedad) && formData == old(formData) && open == old(open)
    {
      var r := store.UpdatePropiedad(user, zonaId, propiedadId, formData);
      if r.Err? {
        return;
      }
      isEditing := false;
    }

    /** The primary button: save while editing, otherwise enter edit mode. */
    method PrimaryButton(user: Option<string>)
      requires store.Valid()
      modifies this, store
      ensures store.Valid()
      ensures !old(isEditing) ==> isEditing && store.Snapshot() == old(store.Snapshot())
      ensures old(isEditing) ==>
        var res := AfterUpdate(old(store.Snapshot()), user, zonaId, propiedadId, old(formData));
        store.Snapshot() == Applied(res, old(store.Snapshot())) && isEditing == !res.Ok?
      ensures propiedad == old(propiedad) && formData == old(formData) && open == old(open)
    {
      if isEditing {
        HandleSave(user);
      } else {
        HandleEditClick();
      }
    }

    /** `handleArchive`: archive the property, then close the modal; a failure leaves it open. */
    method HandleArchive(user: Option<string>)
      requires store.Valid()
      modifies this, store
      ensures store.Valid()
      ensures var res := AfterUpdate(old(store.Snapshot()), user, zonaId, propiedadId, ARCHIVADA);
        store.Snapshot() == Applied(res, old(store.Snapshot())) && open == (if res.Ok? then false else old(open))
      ensures propiedad == old(propiedad) && formData == old(formData) && isEditing == old(isEditing)
    {
      var r := store.ArchivePropiedad(user, zonaId, propiedadId);
      if r.Err? {
        return;
      }
      open := false;
    }
  }
}
