/**
 * The property detail page (src/components/DetallePropiedad.jsx). It reads the
 * property document directly, with no sign-in or ownership check, keeps an
 * edit buffer (`propiedadEditada`) that an edit dialog changes field by field,
 * and on save writes the buffer with `updateDoc` and then shows it.
 */
module DetallePropiedad {
  import opened Wrappers
  import opened Firestore
  import opened ZonasService

  /** `getDoc` on `zonas/<zonaId>/propiedades/<propiedadId>`: the document's data, without its id. */
  function ReadPropiedad(db: Db, zonaId: string, propiedadId: string): Option<Doc>
  {
    Find(Propiedades(db, zonaId), propiedadId)
  }

  /**
   * The page finds a property exactly when it is stored, whoever is signed in;
   * when the guarded service read succeeds too, both show the same record, the
   * service's with the id added.
   */
  lemma ReadIgnoresOwnership(db: Db, user: Option<string>, zonaId: string, propiedadId: string)
    requires ValidDb(db)
    ensures ReadPropiedad(db, zonaId, propiedadId).Some? <==> propiedadId in Ids(Propiedades(db, zonaId))
    ensures GetPropiedadPorId(db, user, zonaId, propiedadId).Ok? ==>
      && ReadPropiedad(db, zonaId, propiedadId).Some?
      && GetPropiedadPorId(db, user, zonaId, propiedadId).value
           == WithId(Entry(propiedadId, ReadPropiedad(db, zonaId, propiedadId).value))
  {
    FindPresent(Propiedades(db, zonaId), propiedadId);
  }

  /**
   * Saving a buffer that still has every field of the stored record succeeds,
   * and reading the document afterwards gives exactly the buffer: the page's
   * display after a save matches the store.
   */
  lemma SavedBufferIsStored(db: Db, zonaId: string, propiedadId: string, edited: Doc)
    requires ValidDb(db) && ReadPropiedad(db, zonaId, propiedadId).Some?
    requires ReadPropiedad(db, zonaId, propiedadId).value.Keys <= edited.Keys
    ensures var res := AfterUpdateDoc(db, zonaId, propiedadId, edited);
      && res.Ok? && ValidDb(res.value)
      && ReadPropiedad(res.value, zonaId, propiedadId) == Some(edited)
  {
    var ps := Propiedades(db, zonaId);
    FindPresent(ps, propiedadId);
    var i :| 0 <= i < |ps| && Ids(ps)[i] == propiedadId;
    FindAt(ps, propiedadId, i);
    assert ps[i].data + edited == edited;
    var merged := Merge(ps, propiedadId, edited);
    assert forall j :: 0 <= j < |merged| ==> merged[j].id == Ids(ps)[j] == ps[j].id;
    FindAt(merged, propiedadId, i);
    assert Propiedades(AfterUpdateDoc(db, zonaId, propiedadId, edited).value, zonaId) == merged;
  }

  class DetallePage {
    const store: ZoneStore
    const zonaId: string
    const propiedadId: string
    var propiedad: Option<Doc>
    var mostrarModal: bool
    var propiedadEditada: Option<Doc>

    constructor (store: ZoneStore, zonaId: string, propiedadId: string)
      ensures this.store == store && this.zonaId == zonaId && this.propiedadId == propiedadId
      ensures propiedad == None && !mostrarModal && propiedadEditada == None
    {
      this.store, this.zonaId, this.propiedadId := store, zonaId, propiedadId;
      propiedad, mostrarModal, propiedadEditada := None, false, None;
    }

    /** `fetchPropiedad`: a missing document leaves `propiedad` as it was (the loading view). */
    method FetchPropiedad()
      modifies this
      ensures var d := ReadPropiedad(store.Snapshot(), zonaId, propiedadId);
        propiedad == if d.Some? then d else old(propiedad)
      ensures mostrarModal == old(mostrarModal) && propiedadEditada == old(propiedadEditada)
    {
      var d := Find(Propiedades(store.Snapshot(), zonaId), propiedadId);
      if d.Some? {
        propiedad := d;
      }
    }

    /** `handleEditar`, offered once the property is shown: copy it into the buffer and open the dialog. */
    method HandleEditar()
      requires propiedad.Some?
      modifies this
      ensures propiedadEditada == propiedad == old(propiedad) && mostrarModal
    {
      propiedadEditada := propiedad;
      mostrarModal := true;
    }

    /** An input of the dialog: exactly one buffer field takes the typed value. */
    method SetField(k: string, v: string)
      requires propiedadEditada.Some?
      modifies this
      ensures propiedadEditada == Some(old(propiedadEditada).value[k := Str(v)])
      ensures propiedad == old(propiedad) && mostrarModal == old(mostrarModal)
    {
      propiedadEditada := Some(propiedadEditada.value[k := Str(v)]);
    }

    /** The file input: `url` is what the upload returns; with no file chosen nothing changes. */
    method HandleImageUpload(file: Option<string>, url: string)
      requires propiedadEditada.Some?
      modifies this
      ensures propiedadEditada ==
        if file.Some? then Some(old(propiedadEditada).value["imageUrl" := Str(url)]) else old(propiedadEditada)
      ensures propiedad == old(propiedad) && mostrarModal == old(mostrarModal)
    {
      if file.Some? {
        propiedadEditada := Some(propiedadEditada.value["imageUrl" := Str(url)]);
      }
    }

    /** "Cancelar": close the dialog; the shown property and the buffer stay. */
    method Cancel()
      modifies this
      ensures !mostrarModal
      ensures propiedad == old(propiedad) && propiedadEditada == old(propiedadEditada)
    {
      mostrarModal := false;
    }

    /**
     * `handleActualizarPropiedad`: merge the buffer into the stored document;
     * when that succeeds, show the buffer and close the dialog, and when it
     * throws (the document is gone) change nothing on the page.
     */
    method HandleActualizarPropiedad()
      requires store.Valid() && propiedadEditada.Some?
      modifies this, store
      ensures store.Valid()
      ensures var res := AfterUpdateDoc(old(store.Snapshot()), zonaId, propiedadId, old(propiedadEditada).value);
        && store.Snapshot() == Applied(res, old(store.Snapshot()))
        && (res.Ok? ==> propiedad == old(propiedadEditada) && !mostrarModal)
        && (res.Err? ==> propiedad == old(propiedad) && mostrarModal == old(mostrarModal))
      ensures propiedadEditada == old(propiedadEditada)
    {
      var r := store.UpdateDoc(zonaId, propiedadId, propiedadEditada.value);
      if r.Err? {
        return;
      }
      propiedad := propiedadEditada;
      mostrarModal := false;
    }
  }
}
