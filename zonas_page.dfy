/**
 * The page of one zone (src/pages/Zonas.jsx): its property list, a search box
 * that filters the list by location, and a form whose draft record is sent to
 * `createPropiedad`, then reset, after which the list is re-read and the form
 * closed.
 */
module ZonasPage {
  import opened Wrappers
  import opened Seqs
  import opened Strings
  import opened Firestore
  import opened ZonasService

  /** The draft the form starts from and is reset to: every field empty, the currency "$". */
  const EMPTY_DRAFT: Doc := map[
    "ubicacion" := Str(""), "descripcion" := Str(""), "estado" := Str(""), "tipo" := Str(""),
    "precio" := Str(""), "moneda" := Str("$"), "propietario" := Str(""),
    "metrosCuadrados" := Str(""), "amueblado" := Str(""), "imageUrl" := Str("")]

  /** `propiedad.ubicacion.toLowerCase` can be called: the location is a string. */
  predicate HasUbicacion(p: Doc)
  {
    "ubicacion" in p && p["ubicacion"].Str?
  }

  /** The filter callback: the lower-cased location contains the lower-cased search text. */
  function Matches(search: string): Doc -> bool
  {
    (p: Doc) => HasUbicacion(p) && Includes(Lower(p["ubicacion"].s), Lower(search))
  }

  /**
   * `filteredPropiedades`. Calling `toLowerCase` on a location that is not a
   * string throws, which is modelled as `None`.
   */
  function FilterPropiedades(ps: seq<Doc>, search: string): (r: Option<seq<Doc>>)
    ensures r.None? <==> exists i :: 0 <= i < |ps| && !HasUbicacion(ps[i])
  {
    if forall i :: 0 <= i < |ps| ==> HasUbicacion(ps[i]) then Some(Filter(ps, Matches(search))) else None
  }

  // ---------------------------------------------------------------- lemmas

  /**
   * The filter throws exactly when a listed property has no string location,
   * whatever the search text; otherwise it keeps exactly the properties whose
   * lower-cased location contains the lower-cased search text, in their
   * original order.
   */
  lemma FilterPropiedadesSpec(ps: seq<Doc>, search: string)
    ensures FilterPropiedades(ps, search).None? <==> exists p :: p in ps && !HasUbicacion(p)
    ensures FilterPropiedades(ps, search).Some? ==>
      var r := FilterPropiedades(ps, search).value;
      && IsSubsequence(r, ps)
      && forall p: Doc :: p in r <==> p in ps && HasUbicacion(p) && Includes(Lower(p["ubicacion"].s), Lower(search))
  {
    if FilterPropiedades(ps, search).None? {
      var i :| 0 <= i < |ps| && !HasUbicacion(ps[i]);
      assert ps[i] in ps;
    } else {
      var r := FilterPropiedades(ps, search).value;
      FilterIsSubsequence(ps, Matches(search));
      forall p ensures p in r <==> p in ps && Matches(search)(p) {
        FilterMembership(ps, Matches(search), p);
      }
    }
  }

  /** An empty search keeps the whole list. */
  lemma EmptySearchKeepsAll(ps: seq<Doc>)
    requires forall i :: 0 <= i < |ps| ==> HasUbicacion(ps[i])
    ensures FilterPropiedades(ps, "") == Some(ps)
  {
    forall i | 0 <= i < |ps| ensures Matches("")(ps[i]) {
      IncludesEmpty(Lower(ps[i]["ubicacion"].s));
    }
    FilterAll(ps, Matches(""));
  }

  /** Sets one field of every property. */
  function SetEverywhere(ps: seq<Doc>, k: string, v: Value): seq<Doc>
  {
    Map(ps, (p: Doc) => p[k := v])
  }

  /**
   * Only the location is searched: changing any other field of the properties,
   * such as the owner's name, changes the filtered list in the same way and
   * keeps or drops the same properties.
   */
  lemma OnlyUbicacionSearched(ps: seq<Doc>, search: string, k: string, v: Value)
    requires k != "ubicacion"
    ensures FilterPropiedades(SetEverywhere(ps, k, v), search).Some? <==> FilterPropiedades(ps, search).Some?
    ensures FilterPropiedades(ps, search).Some? ==>
      FilterPropiedades(SetEverywhere(ps, k, v), search).value == SetEverywhere(FilterPropiedades(ps, search).value, k, v)
  {
    var f := (p: Doc) => p[k := v];
    assert forall p :: Matches(search)(f(p)) == Matches(search)(p) by {
      forall p ensures Matches(search)(f(p)) == Matches(search)(p) {
        assert "ubicacion" in f(p) <==> "ubicacion" in p;
        if "ubicacion" in p {
          assert f(p)["ubicacion"] == p["ubicacion"];
        }
      }
    }
    FilterMapCommute(ps, Matches(search), Matches(search), f);
    var qs := SetEverywhere(ps, k, v);
    assert forall i :: 0 <= i < |ps| ==> (HasUbicacion(qs[i]) <==> HasUbicacion(ps[i]));
  }

  /**
   * After a successful `createPropiedad`, re-reading the zone succeeds and lists
   * the stored properties followed by the new one.
   */
  lemma CreateThenListAppends(db: Db, user: Option<string>, zonaId: string, fields: Doc, now: string, newId: string)
    requires AfterCreatePropiedad(db, user, zonaId, fields, now, newId).Ok?
    ensures SignedIn(user)
    ensures GetPropiedadesPorZona(AfterCreatePropiedad(db, user, zonaId, fields, now, newId).value, user, zonaId)
      == Ok(Objects(Propiedades(db, zonaId)) + [WithId(Entry(newId, PropiedadRecord(fields, user.value, now)))])
  {
    var after := AfterCreatePropiedad(db, user, zonaId, fields, now, newId).value;
    var e := Entry(newId, PropiedadRecord(fields, user.value, now));
    assert Propiedades(after, zonaId) == Propiedades(db, zonaId) + [e];
    assert Objects(Propiedades(db, zonaId) + [e]) == Objects(Propiedades(db, zonaId)) + [WithId(e)];
  }

  // ---------------------------------------------------------------- the page

  class ZonaPage {
    const store: ZoneStore
    const zonaId: string
    var propiedades: seq<Doc>
    var nuevaPropiedad: Doc
    var showModal: bool
    var search: string

    /** The list as displayed: the stored list filtered by the search text. */
    function Visible(): Option<seq<Doc>>
      reads this
    {
      FilterPropiedades(propiedades, search)
    }

    constructor (store: ZoneStore, zonaId: string)
      ensures this.store == store && this.zonaId == zonaId
      ensures propiedades == [] && nuevaPropiedad == EMPTY_DRAFT && !showModal && search == ""
    {
      this.store, this.zonaId := store, zonaId;
      propiedades, nuevaPropiedad, showModal, search := [], EMPTY_DRAFT, false, "";
    }

    /** The effect run on mount: the list becomes the zone's properties when they can be read. */
    method FetchPropiedades(user: Option<string>)
      modifies this
      ensures var res := GetPropiedadesPorZona(store.Snapshot(), user, zonaId);
        propiedades == if res.Ok? then res.value else old(propiedades)
      ensures nuevaPropiedad == old(nuevaPropiedad) && showModal == old(showModal) && search == old(search)
    {
      var res := GetPropiedadesPorZona(store.Snapshot(), user, zonaId);
      if res.Ok? {
        propiedades := res.value;
      }
    }

    /** An input of the form: exactly one draft field takes the typed value. */
    method SetDraftField(k: string, v: string)
      modifies this
      ensures nuevaPropiedad == old(nuevaPropiedad)[k := Str(v)]
      ensures propiedades == old(propiedades) && showModal == old(showModal) && search == old(search)
    {
      nuevaPropiedad := nuevaPropiedad[k := Str(v)];
    }

    /** `handleImageUpload`: `url` is what the upload returns for the chosen file. */
    method HandleImageUpload(file: Option<string>, url: string)
      modifies this
      ensures nuevaPropiedad == if file.Some? then old(nuevaPropiedad)["imageUrl" := Str(url)] else old(nuevaPropiedad)
      ensures propiedades == old(propiedades) && showModal == old(showModal) && search == old(search)
    {
      if file.Some? {
        nuevaPropiedad := nuevaPropiedad["imageUrl" := Str(url)];
      }
    }

    method HandleSearch(v: string)
      modifies this
      ensures search == v
      ensures propiedades == old(propiedades) && nuevaPropiedad == old(nuevaPropiedad) && showModal == old(showModal)
    {
      search := v;
    }

    method OpenModal()
      modifies this
      ensures showModal
      ensures propiedades == old(propiedades) && nuevaPropiedad == old(nuevaPropiedad) && search == old(search)
    {
      showModal := true;
    }

    /** The draft goes back to the empty form. */
    method ResetDraft()
      modifies this
      ensures nuevaPropiedad == EMPTY_DRAFT
      ensures propiedades == old(propiedades) && showModal == old(showModal) && search == old(search)
    {
      nuevaPropiedad := EMPTY_DRAFT;
    }

    /**
     * `handleAgregarPropiedad`: create the property from the draft; when that
     * throws, nothing else happens. Otherwise reset the draft, re-read the list
     * (which now ends with the new property) and close the form.
     */
    method HandleAgregarPropiedad(user: Option<string>, now: string, newId: string)
      requires store.Valid() && newId !in Ids(Propiedades(store.Snapshot(), zonaId))
      modifies this, store
      ensures store.Valid()
      ensures var res := AfterCreatePropiedad(old(store.Snapshot()), user, zonaId, old(nuevaPropiedad), now, newId);
        && store.Snapshot() == Applied(res, old(store.Snapshot()))
        && (res.Err? ==>
              nuevaPropiedad == old(nuevaPropiedad) && propiedades == old(propiedades) && showModal == old(showModal))
        && (res.Ok? ==>
              && nuevaPropiedad == EMPTY_DRAFT && !showModal
              && propiedades == Objects(Propiedades(old(store.Snapshot()), zonaId))
                                + [WithId(Entry(newId, PropiedadRecord(old(nuevaPropiedad), user.value, now)))])
      ensures search == old(search)
    {
      ghost var before := store.Snapshot();
      var created := store.CreatePropiedad(user, zonaId, nuevaPropiedad, now, newId);
      if created.Err? {
        return;
      }
      CreateThenListAppends(before, user, zonaId, old(nuevaPropiedad), now, newId);
      ResetDraft();
      var data := GetPropiedadesPorZona(store.Snapshot(), user, zonaId);
      propiedades := data.value;
      showModal := false;
    }
  }
}
