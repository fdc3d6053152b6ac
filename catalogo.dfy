/**
 * The zone catalogue (src/pages/Catalogo.jsx): the user's zones, each shown with
 * the number of its properties, and a form that creates a zone from the typed
 * name unless that name is blank.
 */
module Catalogo {
  import opened Wrappers
  import opened Seqs
  import opened Strings
  import opened Firestore
  import opened ZonasService

  /** `{ ...zona, propiedadesCount }`. */
  function Decorate(zona: Doc, count: nat): (d: Doc)
    ensures d.Keys == zona.Keys + {"propiedadesCount"}
    ensures d["propiedadesCount"] == Num(count)
    ensures forall k :: k in zona && k != "propiedadesCount" ==> d[k] == zona[k]
  {
    zona + map["propiedadesCount" := Num(count)]
  }

  /**
   * The `Promise.all` over the listed zones: each decorated with the number of
   * its properties, in list order; `None` when any one of the loads throws.
   */
  function ZonasConContador(db: Db, user: Option<string>, zonas: seq<Doc>): (r: Option<seq<Doc>>)
    ensures r.None? <==> exists i :: 0 <= i < |zonas| && PropiedadesDe(db, user, zonas[i]).None?
    ensures r.Some? ==> |r.value| == |zonas|
    ensures r.Some? ==>
      forall i :: 0 <= i < |zonas| ==> r.value[i] == Decorate(zonas[i], |PropiedadesDe(db, user, zonas[i]).value|)
  {
    if forall i :: 0 <= i < |zonas| ==> PropiedadesDe(db, user, zonas[i]).Some? then
      Some(seq(|zonas|, i requires 0 <= i < |zonas| => Decorate(zonas[i], |PropiedadesDe(db, user, zonas[i]).value|)))
    else None
  }

  /** What `fetchZonas` would display: `None` when listing or counting throws. */
  function Listing(db: Db, user: Option<string>): Option<seq<Doc>>
  {
    match GetZonas(db, user)
    case Err(_) => None
    case Ok(zonas) => ZonasConContador(db, user, zonas)
  }

  /** `nuevaZona.trim() === ""`. */
  predicate IsBlank(nombre: string)
  {
    Trim(nombre) == ""
  }

  // ---------------------------------------------------------------- lemmas

  /** A name is blank exactly when every character of it is white space, the empty name included. */
  lemma BlankIffWhitespace(nombre: string)
    ensures IsBlank(nombre) <==> AllWhitespace(nombre)
    ensures IsBlank("")
  {
    TrimEmptyIff(nombre);
    TrimEmptyIff("");
  }

  /**
   * For a signed-in user whose zones carry no field named "id", the catalogue
   * loads: it lists every owned zone in store order, each keeping all its fields
   * and counting exactly the properties stored under it.
   */
  lemma {:induction false} ListingCountsStoredProperties(db: Db, user: Option<string>)
    requires ValidDb(db) && SignedIn(user)
    requires forall e :: e in db.zonas ==> "id" !in e.data
    ensures var owned := ZonasDe(db.zonas, user.value);
      && Listing(db, user).Some?
      && |Listing(db, user).value| == |owned|
      && forall i :: 0 <= i < |owned| ==>
           Listing(db, user).value[i] == Decorate(WithId(owned[i]), |Propiedades(db, owned[i].id)|)
  {
    var owned := ZonasDe(db.zonas, user.value);
    var zonas := Objects(owned);
    forall i | 0 <= i < |owned|
      ensures PropiedadesDe(db, user, zonas[i]) == Some(Objects(Propiedades(db, owned[i].id)))
    {
      FilterMembership(db.zonas, OwnerTest(user.value), owned[i]);
      var j :| 0 <= j < |db.zonas| && db.zonas[j] == owned[i];
      FindAt(db.zonas, owned[i].id, j);
      assert Field(zonas[i], "id") == Some(Str(owned[i].id));
    }
  }

  /** A created zone is stored under the name exactly as typed, surrounding blanks included. */
  lemma CreatedZoneKeepsTypedName(db: Db, user: Option<string>, nombre: string, now: string, newId: string)
    requires ValidDb(db) && SignedIn(user) && newId !in Ids(db.zonas)
    ensures var after := AfterCreateZona(db, user, nombre, now, newId).value;
      && ValidDb(after)
      && Find(after.zonas, newId) == Some(ZonaRecord(nombre, user.value, now))
      && ZonaRecord(nombre, user.value, now)["nombre"] == Str(nombre)
  {
    var e := Entry(newId, ZonaRecord(nombre, user.value, now));
    AppendFresh(db.zonas, e);
    FindAt(db.zonas + [e], newId, |db.zonas|);
  }

  // ---------------------------------------------------------------- the page

  class CatalogoPage {
    const store: ZoneStore
    var zonas: seq<Doc>
    var nuevaZona: string

    constructor (store: ZoneStore)
      ensures this.store == store && zonas == [] && nuevaZona == ""
    {
      this.store, zonas, nuevaZona := store, [], "";
    }

    /** `fetchZonas`: the list is replaced only when listing and counting both succeed. */
    method FetchZonas(user: Option<string>)
      modifies this
      ensures var l := Listing(store.Snapshot(), user);
        zonas == if l.Some? then l.value else old(zonas)
      ensures nuevaZona == old(nuevaZona)
    {
      var data := GetZonas(store.Snapshot(), user);
      if data.Err? {
        return;
      }
      var conContador := ZonasConContador(store.Snapshot(), user, data.value);
      if conContador.Some? {
        zonas := conContador.value;
      }
    }

    method SetNuevaZona(v: string)
      modifies this
      ensures nuevaZona == v && zonas == old(zonas)
    {
      nuevaZona := v;
    }

    /**
     * `handleAgregarZona`: a blank name does nothing. Otherwise the name is
     * passed to `createZona` as typed; when that succeeds the input is cleared
     * and the list reloaded, and when it throws nothing else happens.
     */
    method HandleAgregarZona(user: Option<string>, now: string, newId: string)
      requires store.Valid() && newId !in Ids(store.zonas)
      modifies this, store
      ensures store.Valid()
      ensures IsBlank(old(nuevaZona)) ==>
        store.Snapshot() == old(store.Snapshot()) && zonas == old(zonas) && nuevaZona == old(nuevaZona)
      ensures !IsBlank(old(nuevaZona)) ==>
        var res := AfterCreateZona(old(store.Snapshot()), user, old(nuevaZona), now, newId);
        && store.Snapshot() == Applied(res, old(store.Snapshot()))
        && (res.Err? ==> zonas == old(zonas) && nuevaZona == old(nuevaZona))
        && (res.Ok? ==> nuevaZona == "")
        && (res.Ok? ==> var l := Listing(res.value, user); zonas == if l.Some? then l.value else old(zonas))
    {
      if Trim(nuevaZona) == "" {
        return;
      }
      var created := store.CreateZona(user, nuevaZona, now, newId);
      if created.Err? {
        return;
      }
      nuevaZona := "";
      FetchZonas(user);
    }
  }
}
