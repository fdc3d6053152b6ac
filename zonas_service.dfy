/**
 * The zone and property service (src/firebase/zonasService.js). Every operation
 * that names a zone first checks, in this order, that a user is signed in, that
 * the zone exists and that the zone belongs to that user; only then does it read
 * or write the zone's `propiedades` sub-collection. `getZonas` and `createZona`
 * check only that a user is signed in. Reads are functions of the store's contents;
 * writes are methods of `ZoneStore`, each proved against a transition function.
 */
module ZonasService {
  import opened Wrappers
  import opened Seqs
  import opened Firestore

  /** The `zonas` collection, and the `propiedades` sub-collection of each zone id. */
  datatype Db = Db(zonas: seq<Entry>, propiedades: map<string, seq<Entry>>)

  /** The sub-collection `zonas/<zonaId>/propiedades`; empty when nothing was ever added. */
  function Propiedades(db: Db, zonaId: string): seq<Entry>
  {
    if zonaId in db.propiedades then db.propiedades[zonaId] else []
  }

  ghost predicate ValidDb(db: Db)
  {
    && DistinctIds(db.zonas)
    && forall z :: z in db.propiedades ==> DistinctIds(db.propiedades[z])
  }

  /** `getCurrentUserId()` is truthy: a user is signed in and its uid is not empty. */
  predicate SignedIn(user: Option<string>)
  {
    user.Some? && user.value != ""
  }

  /** `data.userId === uid`; a record without a `userId` belongs to nobody. */
  predicate OwnedBy(data: Doc, uid: string)
  {
    "userId" in data && data["userId"] == Str(uid)
  }

  /**
   * The guard every zone-scoped operation runs: signed in, then the zone exists,
   * then it is the caller's. On success, the zone's data.
   */
  function CheckZona(zonas: seq<Entry>, user: Option<string>, zonaId: string, accion: Accion): (r: Result<Doc, AppError>)
    ensures r.Ok? ==> SignedIn(user)
  {
    if !SignedIn(user) then Err(NoAutenticado)
    else match Find(zonas, zonaId)
      case None => Err(ZonaNoEncontrada)
      case Some(zona) => if OwnedBy(zona, user.value) then Ok(zona) else Err(SinPermiso(accion))
  }

  /** The guard's verdict, stated over the stored zones: the three checks in their fixed order. */
  lemma GuardOrder(zonas: seq<Entry>, user: Option<string>, zonaId: string, accion: Accion)
    requires DistinctIds(zonas)
    ensures !SignedIn(user) ==> CheckZona(zonas, user, zonaId, accion) == Err(NoAutenticado)
    ensures SignedIn(user) && zonaId !in Ids(zonas) ==> CheckZona(zonas, user, zonaId, accion) == Err(ZonaNoEncontrada)
    ensures forall i :: SignedIn(user) && 0 <= i < |zonas| && zonas[i].id == zonaId ==>
      CheckZona(zonas, user, zonaId, accion)
        == if OwnedBy(zonas[i].data, user.value) then Ok(zonas[i].data) else Err(SinPermiso(accion))
  {
    FindPresent(zonas, zonaId);
    forall i | SignedIn(user) && 0 <= i < |zonas| && zonas[i].id == zonaId
      ensures Find(zonas, zonaId) == Some(zonas[i].data)
    {
      FindAt(zonas, zonaId, i);
    }
  }

  // ---------------------------------------------------------------- queries

  function OwnerTest(uid: string): Entry -> bool
  {
    (e: Entry) => OwnedBy(e.data, uid)
  }

  /** The query `where("userId", "==", uid)` over the zones. */
  function ZonasDe(zonas: seq<Entry>, uid: string): seq<Entry>
  {
    Filter(zonas, OwnerTest(uid))
  }

  /** `getZonas`: the signed-in user's zones, each with its id. */
  function GetZonas(db: Db, user: Option<string>): Result<seq<Doc>, AppError>
  {
    if !SignedIn(user) then Err(NoAutenticado)
    else Ok(Objects(ZonasDe(db.zonas, user.value)))
  }

  /**
   * A signed-in user gets exactly the zones whose `userId` is theirs, each paired
   * with its id, in store order.
   */
  lemma {:induction false} GetZonasExactlyOwned(db: Db, user: Option<string>)
    requires SignedIn(user)
    ensures GetZonas(db, user).Ok?
    ensures IsSubsequence(ZonasDe(db.zonas, user.value), db.zonas)
    ensures forall e :: e in ZonasDe(db.zonas, user.value) <==> e in db.zonas && OwnedBy(e.data, user.value)
    ensures forall o :: o in GetZonas(db, user).value <==>
      exists e :: e in db.zonas && OwnedBy(e.data, user.value) && o == WithId(e)
  {
    var owned := ZonasDe(db.zonas, user.value);
    FilterIsSubsequence(db.zonas, OwnerTest(user.value));
    forall e ensures e in owned <==> e in db.zonas && OwnedBy(e.data, user.value) {
      FilterMembership(db.zonas, OwnerTest(user.value), e);
    }
    forall o ensures o in GetZonas(db, user).value <==>
      exists e :: e in db.zonas && OwnedBy(e.data, user.value) && o == WithId(e)
    {
      ObjectsMembership(owned, o);
    }
  }

  /** `getPropiedadesPorZona`: every property of an owned zone, each with its id. */
  function GetPropiedadesPorZona(db: Db, user: Option<string>, zonaId: string): Result<seq<Doc>, AppError>
  {
    match CheckZona(db.zonas, user, zonaId, Ver)
    case Err(e) => Err(e)
    case Ok(_) => Ok(Objects(Propiedades(db, zonaId)))
  }

  /**
   * The properties of one listed zone, or `None` when loading them throws: a
   * zone id that is not a string, or any error of `getPropiedadesPorZona`.
   */
  function PropiedadesDe(db: Db, user: Option<string>, zona: Doc): Option<seq<Doc>>
  {
    match Field(zona, "id")
    case Some(Str(id)) =>
      (match GetPropiedadesPorZona(db, user, id)
       case Ok(ps) => Some(ps)
       case Err(_) => None)
    case _ => None
  }

  /** `getPropiedadPorId`: one property of an owned zone, with its id. */
  function GetPropiedadPorId(db: Db, user: Option<string>, zonaId: string, propiedadId: string): Result<Doc, AppError>
  {
    match CheckZona(db.zonas, user, zonaId, Ver)
    case Err(e) => Err(e)
    case Ok(_) =>
      match Find(Propiedades(db, zonaId), propiedadId)
      case None => Err(PropiedadNoEncontrada)
      case Some(d) => Ok(WithId(Entry(propiedadId, d)))
  }

  /** `getPropiedadDetalle`: written with the same checks and result as `getPropiedadPorId`. */
  function GetPropiedadDetalle(db: Db, user: Option<string>, zonaId: string, propiedadId: string): Result<Doc, AppError>
  {
    GetPropiedadPorId(db, user, zonaId, propiedadId)
  }

  /** `getZonaById`: an owned zone, with its id. */
  function GetZonaById(db: Db, user: Option<string>, zonaId: string): Result<Doc, AppError>
  {
    match CheckZona(db.zonas, user, zonaId, Ver)
    case Err(e) => Err(e)
    case Ok(zona) => Ok(WithId(Entry(zonaId, zona)))
  }

  /**
   * Once the zone is found and owned, a property read fails with "Propiedad no
   * encontrada" exactly when the id is absent, and otherwise returns the stored
   * record with its id.
   */
  lemma GetPropiedadPorIdSpec(db: Db, user: Option<string>, zonaId: string, propiedadId: string)
    requires ValidDb(db)
    requires CheckZona(db.zonas, user, zonaId, Ver).Ok?
    ensures GetPropiedadPorId(db, user, zonaId, propiedadId) == Err(PropiedadNoEncontrada)
      <==> propiedadId !in Ids(Propiedades(db, zonaId))
    ensures forall i :: 0 <= i < |Propiedades(db, zonaId)| && Propiedades(db, zonaId)[i].id == propiedadId ==>
      GetPropiedadPorId(db, user, zonaId, propiedadId) == Ok(WithId(Propiedades(db, zonaId)[i]))
  {
    var ps := Propiedades(db, zonaId);
    FindPresent(ps, propiedadId);
    forall i | 0 <= i < |ps| && ps[i].id == propiedadId
      ensures GetPropiedadPorId(db, user, zonaId, propiedadId) == Ok(WithId(ps[i]))
    {
      FindAt(ps, propiedadId, i);
    }
  }

  /** A zone is returned by `getZonaById` exactly when it exists and is the caller's. */
  lemma GetZonaByIdSpec(db: Db, user: Option<string>, zonaId: string)
    requires ValidDb(db) && SignedIn(user)
    ensures forall i :: 0 <= i < |db.zonas| && db.zonas[i].id == zonaId ==>
      (GetZonaById(db, user, zonaId).Ok? <==> OwnedBy(db.zonas[i].data, user.value))
    ensures GetZonaById(db, user, zonaId).Ok? ==> GetZonaById(db, user, zonaId).value["userId"] == Str(user.value)
  {
    GuardOrder(db.zonas, user, zonaId, Ver);
  }

  // ----------------------------------------------------------- transitions

  /** The record `createZona` adds. */
  function ZonaRecord(nombre: string, uid: string, now: string): Doc
  {
    map["nombre" := Str(nombre), "userId" := Str(uid), "createdAt" := Str(now)]
  }

  /**
   * `{ ...propiedad, userId, createdAt }`: the caller's fields, then the owner and
   * the creation time, which win over any caller-supplied fields of those names.
   */
  function PropiedadRecord(fields: Doc, uid: string, now: string): (d: Doc)
    ensures d.Keys == fields.Keys + {"userId", "createdAt"}
    ensures d["userId"] == Str(uid) && d["createdAt"] == Str(now)
    ensures forall k :: k in fields && k != "userId" && k != "createdAt" ==> d[k] == fields[k]
  {
    fields + map["userId" := Str(uid), "createdAt" := Str(now)]
  }

  /** `createZona`: adds the zone under the fresh id when a user is signed in. */
  function AfterCreateZona(db: Db, user: Option<string>, nombre: string, now: string, newId: string): Result<Db, AppError>
  {
    if !SignedIn(user) then Err(NoAutenticado)
    else Ok(db.(zonas := db.zonas + [Entry(newId, ZonaRecord(nombre, user.value, now))]))
  }

  /** `createPropiedad`: after the guard, adds the property to the zone's sub-collection. */
  function AfterCreatePropiedad(db: Db, user: Option<string>, zonaId: string, fields: Doc, now: string, newId: string): Result<Db, AppError>
  {
    match CheckZona(db.zonas, user, zonaId, AgregarPropiedades)
    case Err(e) => Err(e)
    case Ok(_) =>
      var added := Propiedades(db, zonaId) + [Entry(newId, PropiedadRecord(fields, user.value, now))];
      Ok(db.(propiedades := db.propiedades[zonaId := added]))
  }

  /** `updateDoc` on `zonas/<zonaId>/propiedades/<propiedadId>`, with no checks of its own. */
  function AfterUpdateDoc(db: Db, zonaId: string, propiedadId: string, fields: Doc): Result<Db, AppError>
  {
    match Updated(Propiedades(db, zonaId), propiedadId, fields)
    case Err(e) => Err(e)
    case Ok(c) => Ok(db.(propiedades := db.propiedades[zonaId := c]))
  }

  /** The guarded update shared by `updateEstadoPropiedad`, `archivePropiedad` and `updatePropiedad`. */
  function AfterUpdate(db: Db, user: Option<string>, zonaId: string, propiedadId: string, fields: Doc): Result<Db, AppError>
  {
    match CheckZona(db.zonas, user, zonaId, Modificar)
    case Err(e) => Err(e)
    case Ok(_) => AfterUpdateDoc(db, zonaId, propiedadId, fields)
  }

  /** The fields `updateEstadoPropiedad` writes. */
  function EstadoFields(estado: string): Doc
  {
    map["estado" := Str(estado)]
  }

  /** The fields `archivePropiedad` writes. */
  const ARCHIVADA: Doc := map["archived" := Bool(true)]

  /** The store after an operation: the new contents when it succeeded, the old ones when it threw. */
  function Applied(res: Result<Db, AppError>, before: Db): Db
  {
    if res.Ok? then res.value else before
  }

  function Outcome(res: Result<Db, AppError>): Result<(), AppError>
  {
    if res.Ok? then Ok(()) else Err(res.error)
  }

  // ---------------------------------------------------------------- lemmas

  /** Signed out, every operation throws "Usuario no autenticado" and changes nothing. */
  lemma SignedOutFailsEverywhere(db: Db, user: Option<string>, zonaId: string, propiedadId: string,
                                 fields: Doc, nombre: string, now: string, newId: string)
    requires !SignedIn(user)
    ensures GetZonas(db, user) == Err(NoAutenticado)
    ensures GetZonaById(db, user, zonaId) == Err(NoAutenticado)
    ensures GetPropiedadesPorZona(db, user, zonaId) == Err(NoAutenticado)
    ensures GetPropiedadPorId(db, user, zonaId, propiedadId) == Err(NoAutenticado)
    ensures AfterCreateZona(db, user, nombre, now, newId) == Err(NoAutenticado)
    ensures AfterCreatePropiedad(db, user, zonaId, fields, now, newId) == Err(NoAutenticado)
    ensures AfterUpdate(db, user, zonaId, propiedadId, fields) == Err(NoAutenticado)
  {
  }

  /**
   * When the guard fails, the outcome is the guard's error whatever the
   * sub-collections hold: no property is read or written.
   */
  lemma GuardFailureIgnoresProperties(db: Db, other: Db, user: Option<string>, zonaId: string,
                                      propiedadId: string, fields: Doc, now: string, newId: string, accion: Accion)
    requires other.zonas == db.zonas
    requires CheckZona(db.zonas, user, zonaId, accion).Err?
    ensures var e := CheckZona(db.zonas, user, zonaId, accion).error;
      && (accion == Ver ==> GetPropiedadesPorZona(db, user, zonaId) == GetPropiedadesPorZona(other, user, zonaId))
      && (accion == Ver ==> GetPropiedadPorId(db, user, zonaId, propiedadId) == GetPropiedadPorId(other, user, zonaId, propiedadId))
      && (accion == AgregarPropiedades ==> AfterCreatePropiedad(db, user, zonaId, fields, now, newId) == Err(e))
      && (accion == Modificar ==> AfterUpdate(db, user, zonaId, propiedadId, fields) == Err(e))
  {
    assert !SignedIn(user) || Find(db.zonas, zonaId).None? || !OwnedBy(Find(db.zonas, zonaId).value, user.value);
  }

  /** An update of an owned zone's property succeeds exactly when the property exists. */
  lemma UpdateSucceedsIff(db: Db, user: Option<string>, zonaId: string, propiedadId: string, fields: Doc)
    ensures AfterUpdate(db, user, zonaId, propiedadId, fields).Ok?
      <==> CheckZona(db.zonas, user, zonaId, Modificar).Ok? && propiedadId in Ids(Propiedades(db, zonaId))
  {
  }

  /**
   * A successful update merges the fields into the target property only: the
   * zones, the other zones' properties and the other properties are unchanged,
   * and no property is added or removed.
   */
  lemma UpdateMergesIntoTarget(db: Db, user: Option<string>, zonaId: string, propiedadId: string, fields: Doc)
    requires AfterUpdate(db, user, zonaId, propiedadId, fields).Ok?
    ensures var after := AfterUpdate(db, user, zonaId, propiedadId, fields).value;
      && after.zonas == db.zonas
      && (forall z :: z != zonaId ==> Propiedades(after, z) == Propiedades(db, z))
      && Ids(Propiedades(after, zonaId)) == Ids(Propiedades(db, zonaId))
      && forall i :: 0 <= i < |Propiedades(db, zonaId)| ==>
           Propiedades(after, zonaId)[i].data ==
             if Propiedades(db, zonaId)[i].id == propiedadId then Propiedades(db, zonaId)[i].data + fields
             else Propiedades(db, zonaId)[i].data
  {
  }

  /** `updateEstadoPropiedad` changes the `estado` field of the target property and nothing else. */
  lemma UpdateEstadoOnlyEstado(db: Db, user: Option<string>, zonaId: string, propiedadId: string, estado: string)
    requires AfterUpdate(db, user, zonaId, propiedadId, EstadoFields(estado)).Ok?
    ensures var after := AfterUpdate(db, user, zonaId, propiedadId, EstadoFields(estado)).value;
      && after.zonas == db.zonas
      && (forall z :: z != zonaId ==> Propiedades(after, z) == Propiedades(db, z))
      && Ids(Propiedades(after, zonaId)) == Ids(Propiedades(db, zonaId))
      && forall i :: 0 <= i < |Propiedades(db, zonaId)| ==>
           Propiedades(after, zonaId)[i].data ==
             if Propiedades(db, zonaId)[i].id == propiedadId then Propiedades(db, zonaId)[i].data["estado" := Str(estado)]
             else Propiedades(db, zonaId)[i].data
  {
    UpdateMergesIntoTarget(db, user, zonaId, propiedadId, EstadoFields(estado));
    var ps := Propiedades(db, zonaId);
    forall i | 0 <= i < |ps| && ps[i].id == propiedadId
      ensures ps[i].data + EstadoFields(estado) == ps[i].data["estado" := Str(estado)]
    {
    }
  }

  /** Archiving sets `archived = true` on the target and keeps every other field. */
  lemma ArchiveSetsOnlyArchived(db: Db, user: Option<string>, zonaId: string, propiedadId: string, i: int)
    requires AfterUpdate(db, user, zonaId, propiedadId, ARCHIVADA).Ok?
    requires 0 <= i < |Propiedades(db, zonaId)| && Propiedades(db, zonaId)[i].id == propiedadId
    ensures var after := AfterUpdate(db, user, zonaId, propiedadId, ARCHIVADA).value;
      && Propiedades(after, zonaId)[i].data == Propiedades(db, zonaId)[i].data["archived" := Bool(true)]
  {
    UpdateMergesIntoTarget(db, user, zonaId, propiedadId, ARCHIVADA);
  }

  /** Archiving twice leaves the store as archiving once does. */
  lemma ArchiveIdempotent(db: Db, user: Option<string>, zonaId: string, propiedadId: string)
    requires AfterUpdate(db, user, zonaId, propiedadId, ARCHIVADA).Ok?
    ensures var once := AfterUpdate(db, user, zonaId, propiedadId, ARCHIVADA).value;
      AfterUpdate(once, user, zonaId, propiedadId, ARCHIVADA) == Ok(once)
  {
    var ps := Propiedades(db, zonaId);
    var once := AfterUpdate(db, user, zonaId, propiedadId, ARCHIVADA).value;
    MergeIdempotent(ps, propiedadId, ARCHIVADA);
    assert Propiedades(once, zonaId) == Merge(ps, propiedadId, ARCHIVADA);
    assert once.propiedades[zonaId := Merge(ps, propiedadId, ARCHIVADA)] == once.propiedades;
  }

  /**
   * Access to a property is decided by the zone's owner alone: rewriting the
   * property's own `userId` never changes whether it can be read or updated.
   */
  lemma AccessIgnoresPropertyOwner(db: Db, user: Option<string>, zonaId: string, propiedadId: string,
                                   owner: Value, fields: Doc)
    ensures var other := db.(propiedades := db.propiedades[zonaId :=
                           Merge(Propiedades(db, zonaId), propiedadId, map["userId" := owner])]);
      && GetPropiedadPorId(other, user, zonaId, propiedadId).Ok? == GetPropiedadPorId(db, user, zonaId, propiedadId).Ok?
      && AfterUpdate(other, user, zonaId, propiedadId, fields).Ok? == AfterUpdate(db, user, zonaId, propiedadId, fields).Ok?
  {
    var ps := Propiedades(db, zonaId);
    var other := db.(propiedades := db.propiedades[zonaId := Merge(ps, propiedadId, map["userId" := owner])]);
    assert Propiedades(other, zonaId) == Merge(ps, propiedadId, map["userId" := owner]);
    FindPresent(ps, propiedadId);
    FindPresent(Propiedades(other, zonaId), propiedadId);
  }

  /** A created property carries the caller as owner, whatever `userId` the form held. */
  lemma CreatePropiedadForcesOwner(db: Db, user: Option<string>, zonaId: string, fields: Doc, now: string, newId: string)
    requires AfterCreatePropiedad(db, user, zonaId, fields, now, newId).Ok?
    ensures var after := AfterCreatePropiedad(db, user, zonaId, fields, now, newId).value;
      && after.zonas == db.zonas
      && Propiedades(after, zonaId)[..|Propiedades(db, zonaId)|] == Propiedades(db, zonaId)
      && |Propiedades(after, zonaId)| == |Propiedades(db, zonaId)| + 1
      && var added := Propiedades(after, zonaId)[|Propiedades(db, zonaId)|];
         added.id == newId && OwnedBy(added.data, user.value) && added.data["createdAt"] == Str(now)
  {
  }

  // ------------------------------------------------------------ the store

  /** The backend's zone and property collections, updated in place by the service's writes. */
  class ZoneStore {
    var zonas: seq<Entry>
    var propiedades: map<string, seq<Entry>>

    function Snapshot(): Db
      reads this
    {
      Db(zonas, propiedades)
    }

    ghost predicate Valid()
      reads this
    {
      ValidDb(Snapshot())
    }

    constructor ()
      ensures Valid() && zonas == [] && propiedades == map[]
    {
      zonas := [];
      propiedades := map[];
    }

    /** `createZona`: returns the new zone's id. */
    method CreateZona(user: Option<string>, nombre: string, now: string, newId: string) returns (r: Result<string, AppError>)
      requires Valid() && newId !in Ids(zonas)
      modifies this
      ensures Valid()
      ensures var res := AfterCreateZona(old(Snapshot()), user, nombre, now, newId);
        && Snapshot() == Applied(res, old(Snapshot()))
        && r == (if res.Ok? then Ok(newId) else Err(res.error))
    {
      if !SignedIn(user) {
        return Err(NoAutenticado);
      }
      var e := Entry(newId, ZonaRecord(nombre, user.value, now));
      AppendFresh(zonas, e);
      zonas := zonas + [e];
      r := Ok(newId);
    }

    /** `createPropiedad`: returns the new property's id. */
    method CreatePropiedad(user: Option<string>, zonaId: string, fields: Doc, now: string, newId: string)
      returns (r: Result<string, AppError>)
      requires Valid() && newId !in Ids(Propiedades(Snapshot(), zonaId))
      modifies this
      ensures Valid()
      ensures var res := AfterCreatePropiedad(old(Snapshot()), user, zonaId, fields, now, newId);
        && Snapshot() == Applied(res, old(Snapshot()))
        && r == (if res.Ok? then Ok(newId) else Err(res.error))
    {
      var guard := CheckZona(zonas, user, zonaId, AgregarPropiedades);
      if guard.Err? {
        return Err(guard.error);
      }
      var e := Entry(newId, PropiedadRecord(fields, user.value, now));
      var ps := Propiedades(Snapshot(), zonaId);
      AppendFresh(ps, e);
      propiedades := propiedades[zonaId := ps + [e]];
      r := Ok(newId);
    }

    /** `updateDoc` on a property document, as the detail page issues it: no ownership check. */
    method UpdateDoc(zonaId: string, propiedadId: string, fields: Doc) returns (r: Result<(), AppError>)
      requires Valid()
      modifies this
      ensures Valid()
      ensures var res := AfterUpdateDoc(old(Snapshot()), zonaId, propiedadId, fields);
        Snapshot() == Applied(res, old(Snapshot())) && r == Outcome(res)
    {
      var ps := Propiedades(Snapshot(), zonaId);
      if propiedadId !in Ids(ps) {
        return Err(DocumentoInexistente);
      }
      var merged := Merge(ps, propiedadId, fields);
      assert forall i :: 0 <= i < |merged| ==> merged[i].id == Ids(ps)[i];
      propiedades := propiedades[zonaId := merged];
      r := Ok(());
    }

    /** The guard, then the field merge. */
    method GuardedUpdate(user: Option<string>, zonaId: string, propiedadId: string, fields: Doc)
      returns (r: Result<(), AppError>)
      requires Valid()
      modifies this
      ensures Valid()
      ensures var res := AfterUpdate(old(Snapshot()), user, zonaId, propiedadId, fields);
        Snapshot() == Applied(res, old(Snapshot())) && r == Outcome(res)
    {
      var guard := CheckZona(zonas, user, zonaId, Modificar);
      if guard.Err? {
        return Err(guard.error);
      }
      r := UpdateDoc(zonaId, propiedadId, fields);
    }

    /** `updateEstadoPropiedad`. */
    method UpdateEstadoPropiedad(user: Option<string>, zonaId: string, propiedadId: string, estado: string)
      returns (r: Result<(), AppError>)
      requires Valid()
      modifies this
      ensures Valid()
      ensures var res := AfterUpdate(old(Snapshot()), user, zonaId, propiedadId, EstadoFields(estado));
        Snapshot() == Applied(res, old(Snapshot())) && r == Outcome(res)
    {
      r := GuardedUpdate(user, zonaId, propiedadId, EstadoFields(estado));
    }

    /** `archivePropiedad`. */
    method ArchivePropiedad(user: Option<string>, zonaId: string, propiedadId: string)
      returns (r: Result<(), AppError>)
      requires Valid()
      modifies this
      ensures Valid()
      ensures var res := AfterUpdate(old(Snapshot()), user, zonaId, propiedadId, ARCHIVADA);
        Snapshot() == Applied(res, old(Snapshot())) && r == Outcome(res)
    {
      r := GuardedUpdate(user, zonaId, propiedadId, ARCHIVADA);
    }

    /** `updatePropiedad`: merges whatever fields the caller passes. */
    method UpdatePropiedad(user: Option<string>, zonaId: string, propiedadId: string, data: Doc)
      returns (r: Result<(), AppError>)
      requires Valid()
      modifies this
      ensures Valid()
      ensures var res := AfterUpdate(old(Snapshot()), user, zonaId, propiedadId, data);
        Snapshot() == Applied(res, old(Snapshot())) && r == Outcome(res)
    {
      r := GuardedUpdate(user, zonaId, propiedadId, data);
    }
  }
}
