/**
 * The document store as the application sees it: a collection is an ordered
 * sequence of documents, each a generated id plus a map of named fields. Only
 * the store semantics the application depends on are modelled: listing, lookup
 * by id, `addDoc` (append under a fresh id) and `updateDoc` (a top-level field
 * merge that fails when the document does not exist).
 */
module Firestore {
  import opened Wrappers

  /** A field value of a stored or in-memory record. */
  datatype Value = Str(s: string) | Bool(b: bool) | Num(n: int) | Stamp(millis: int)

  /** A JavaScript object with dynamic fields, as stored in a document. */
  type Doc = map<string, Value>

  /** A stored document: its id and its data. */
  datatype Entry = Entry(id: string, data: Doc)

  /** Which action a permission error was raised for; each has its own message. */
  datatype Accion = Ver | AgregarPropiedades | Modificar

  /** What the backend layer throws. */
  datatype AppError =
    | NoAutenticado
    | ZonaNoEncontrada
    | SinPermiso(accion: Accion)
    | PropiedadNoEncontrada
    | DocumentoInexistente

  /** The text of the thrown `Error`; the store's own not-found error has a fixed code instead. */
  function Message(e: AppError): string
  {
    match e
    case NoAutenticado => "Usuario no autenticado"
    case ZonaNoEncontrada => "Zona no encontrada"
    case SinPermiso(Ver) => "No tienes permiso para ver esta zona"
    case SinPermiso(AgregarPropiedades) => "No tienes permiso para agregar propiedades a esta zona"
    case SinPermiso(Modificar) => "No tienes permiso para modificar esta zona"
    case PropiedadNoEncontrada => "Propiedad no encontrada"
    case DocumentoInexistente => "not-found"
  }

  /**
   * `{ id: doc.id, ...doc.data() }`: the data's own fields come after the id, so
   * a stored field named "id" would win over the document id.
   */
  function WithId(e: Entry): (o: Doc)
    ensures o.Keys == e.data.Keys + {"id"}
    ensures forall k :: k in e.data ==> o[k] == e.data[k]
    ensures "id" !in e.data ==> o["id"] == Str(e.id)
  {
    map["id" := Str(e.id)] + e.data
  }

  /** Reading a field of an object; `None` stands for `undefined`. */
  function Field(d: Doc, k: string): Option<Value>
  {
    if k in d then Some(d[k]) else None
  }

  /** The objects a query snapshot maps to, in snapshot order. */
  function Objects(c: seq<Entry>): (r: seq<Doc>)
    ensures |r| == |c|
    ensures forall i :: 0 <= i < |c| ==> r[i] == WithId(c[i])
  {
    seq(|c|, i requires 0 <= i < |c| => WithId(c[i]))
  }

  /** An object is listed exactly when it is the object of a listed document. */
  lemma ObjectsMembership(c: seq<Entry>, o: Doc)
    ensures o in Objects(c) <==> exists e :: e in c && o == WithId(e)
  {
    if exists e :: e in c && o == WithId(e) {
      var e :| e in c && o == WithId(e);
      var k :| 0 <= k < |c| && c[k] == e;
      assert Objects(c)[k] == o;
    }
  }

  function Ids(c: seq<Entry>): (r: seq<string>)
    ensures |r| == |c|
    ensures forall i :: 0 <= i < |c| ==> r[i] == c[i].id
  {
    seq(|c|, i requires 0 <= i < |c| => c[i].id)
  }

  /** Generated document ids never repeat within a collection. */
  ghost predicate DistinctIds(c: seq<Entry>)
  {
    forall i, j :: 0 <= i < j < |c| ==> c[i].id != c[j].id
  }

  /** `getDoc`: the data of the document with this id, if there is one. */
  function Find(c: seq<Entry>, id: string): Option<Doc>
  {
    if c == [] then None
    else if c[0].id == id then Some(c[0].data)
    else Find(c[1..], id)
  }

  /** A lookup finds a document exactly when one with that id is stored. */
  lemma {:induction false} FindPresent(c: seq<Entry>, id: string)
    ensures Find(c, id).Some? <==> id in Ids(c)
  {
    if c != [] && c[0].id != id {
      FindPresent(c[1..], id);
      assert Ids(c) == [c[0].id] + Ids(c[1..]);
    }
  }

  /** With distinct ids, a lookup returns the data of the one document with that id. */
  lemma {:induction false} FindAt(c: seq<Entry>, id: string, i: int)
    requires DistinctIds(c)
    requires 0 <= i < |c| && c[i].id == id
    ensures Find(c, id) == Some(c[i].data)
  {
    if i > 0 {
      assert c[0].id != id;
      FindAt(c[1..], id, i - 1);
    }
  }

  /** `updateDoc` applied to the document with this id: the given fields replace or extend its data. */
  function Merge(c: seq<Entry>, id: string, fields: Doc): (r: seq<Entry>)
    ensures |r| == |c| && Ids(r) == Ids(c)
    ensures forall i :: 0 <= i < |c| && c[i].id != id ==> r[i] == c[i]
    ensures forall i :: 0 <= i < |c| && c[i].id == id ==> r[i].data == c[i].data + fields
  {
    seq(|c|, i requires 0 <= i < |c| => if c[i].id == id then Entry(id, c[i].data + fields) else c[i])
  }

  /** `updateDoc`: fails with the store's not-found error when the document does not exist. */
  function Updated(c: seq<Entry>, id: string, fields: Doc): (r: Result<seq<Entry>, AppError>)
    ensures r.Err? <==> id !in Ids(c)
    ensures r.Err? ==> r.error == DocumentoInexistente
  {
    if id in Ids(c) then Ok(Merge(c, id, fields)) else Err(DocumentoInexistente)
  }

  /** Merging the same fields twice is the same as merging them once. */
  lemma MergeIdempotent(c: seq<Entry>, id: string, fields: Doc)
    ensures Merge(Merge(c, id, fields), id, fields) == Merge(c, id, fields)
  {
    var once := Merge(c, id, fields);
    forall i | 0 <= i < |c| && c[i].id == id
      ensures once[i].data + fields == once[i].data
    {
      assert once[i].data == c[i].data + fields;
    }
  }

  /** Appending a document under a fresh id keeps the ids distinct. */
  lemma AppendFresh(c: seq<Entry>, e: Entry)
    requires DistinctIds(c) && e.id !in Ids(c)
    ensures DistinctIds(c + [e])
  {
    var r := c + [e];
    forall i, j | 0 <= i < j < |r| ensures r[i].id != r[j].id {
      if j == |c| { assert r[i].id == Ids(c)[i]; }
    }
  }
}
