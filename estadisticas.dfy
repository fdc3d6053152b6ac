/**
 * The statistics page (src/pages/Estadisticas.jsx). On mount it lists the
 * user's zones, then loads the properties of each zone in turn, counting the
 * properties, those whose `estado` is "Venta" and those whose `estado` is
 * "Renta", and recording one chart entry per zone that has properties. A zone
 * whose properties fail to load is skipped; a failure to list the zones leaves
 * every counter as it was. The loading flag is cleared whatever happens.
 */
module Estadisticas {
  import opened Wrappers
  import opened Firestore
  import opened ZonasService

  /** One entry of `zonasConDatos`: a zone that has at least one property. */
  datatype ZonaDato = ZonaDato(id: Option<Value>, nombre: Option<Value>, num: nat, venta: nat, renta: nat)

  /** The counters the page computes; `zonasSinPropiedades` is derived from them. */
  datatype Stats = Stats(total: nat, venta: nat, renta: nat, con: nat, datos: seq<ZonaDato>)

  /** A zone together with the outcome of loading its properties (`None`: the load threw). */
  datatype ZoneLoad = ZoneLoad(zona: Doc, props: Option<seq<Doc>>)

  /** `prop.estado === e`. */
  predicate HasEstado(p: Doc, e: string)
  {
    "estado" in p && p["estado"] == Str(e)
  }

  /** How many of the properties have the given `estado`. */
  function CountEstado(ps: seq<Doc>, e: string): nat
  {
    if ps == [] then 0
    else CountEstado(ps[..|ps| - 1], e) + (if HasEstado(ps[|ps| - 1], e) then 1 else 0)
  }

  /** Each listed zone paired with the outcome of loading its properties, in list order. */
  function Loads(db: Db, user: Option<string>, zonas: seq<Doc>): (r: seq<ZoneLoad>)
    ensures |r| == |zonas|
    ensures forall i :: 0 <= i < |zonas| ==> r[i] == ZoneLoad(zonas[i], PropiedadesDe(db, user, zonas[i]))
  {
    seq(|zonas|, i requires 0 <= i < |zonas| => ZoneLoad(zonas[i], PropiedadesDe(db, user, zonas[i])))
  }

  /** The chart entry of a zone whose properties are `ps`. */
  function DatoOf(zona: Doc, ps: seq<Doc>): ZonaDato
  {
    ZonaDato(Field(zona, "id"), Field(zona, "nombre"), |ps|, CountEstado(ps, "Venta"), CountEstado(ps, "Renta"))
  }

  /** One iteration of the zone loop applied to the counters. */
  function Step(s: Stats, ld: ZoneLoad): Stats
  {
    match ld.props
    case None => s
    case Some(ps) =>
      Stats(s.total + |ps|,
            s.venta + CountEstado(ps, "Venta"),
            s.renta + CountEstado(ps, "Renta"),
            if |ps| > 0 then s.con + 1 else s.con,
            if |ps| > 0 then s.datos + [DatoOf(ld.zona, ps)] else s.datos)
  }

  /** The counters after the zone loop has visited every load. */
  function Summary(loads: seq<ZoneLoad>): Stats
  {
    if loads == [] then Stats(0, 0, 0, 0, [])
    else Step(Summary(loads[..|loads| - 1]), loads[|loads| - 1])
  }

  /** Whether a load changes any counter: it succeeded with at least one property. */
  predicate Contributes(ld: ZoneLoad)
  {
    ld.props.Some? && |ld.props.value| > 0
  }

  function SumNum(ds: seq<ZonaDato>): nat
  {
    if ds == [] then 0 else SumNum(ds[..|ds| - 1]) + ds[|ds| - 1].num
  }

  function SumVenta(ds: seq<ZonaDato>): nat
  {
    if ds == [] then 0 else SumVenta(ds[..|ds| - 1]) + ds[|ds| - 1].venta
  }

  function SumRenta(ds: seq<ZonaDato>): nat
  {
    if ds == [] then 0 else SumRenta(ds[..|ds| - 1]) + ds[|ds| - 1].renta
  }

  // ---------------------------------------------------------------- lemmas

  /** A property is counted under at most one of two different states. */
  lemma {:induction false} CountEstadoBound(ps: seq<Doc>, e1: string, e2: string)
    requires e1 != e2
    ensures CountEstado(ps, e1) + CountEstado(ps, e2) <= |ps|
  {
    if ps != [] {
      CountEstadoBound(ps[..|ps| - 1], e1, e2);
    }
  }

  /**
   * The counters are consistent: sales plus rentals never exceed the total, the
   * number of zones with properties is the number of chart entries and at most
   * the number of zones, every chart entry has properties and its own sales and
   * rentals fit in it, and the chart entries add up to the totals.
   */
  lemma {:induction false} SummaryConsistent(loads: seq<ZoneLoad>)
    ensures var s := Summary(loads);
      && s.venta + s.renta <= s.total
      && s.con == |s.datos| <= |loads|
      && (forall d :: d in s.datos ==> d.num > 0 && d.venta + d.renta <= d.num)
      && s.total == SumNum(s.datos)
      && s.venta == SumVenta(s.datos)
      && s.renta == SumRenta(s.datos)
  {
    if loads != [] {
      var prev := loads[..|loads| - 1];
      var ld := loads[|loads| - 1];
      SummaryConsistent(prev);
      if ld.props.Some? {
        var ps := ld.props.value;
        CountEstadoBound(ps, "Venta", "Renta");
        if |ps| > 0 {
          var ds := Summary(prev).datos + [DatoOf(ld.zona, ps)];
          assert ds[..|ds| - 1] == Summary(prev).datos;
        }
      }
    }
  }

  /** A zone whose load failed or found nothing can be dropped without changing any counter. */
  lemma {:induction false} InertLoadIgnored(before: seq<ZoneLoad>, ld: ZoneLoad, after: seq<ZoneLoad>)
    requires !Contributes(ld)
    ensures Summary(before + [ld] + after) == Summary(before + after)
  {
    if after == [] {
      assert before + [ld] + after == before + [ld];
      assert (before + [ld])[..|before|] == before;
      assert before + after == before;
    } else {
      var init := after[..|after| - 1];
      var last := after[|after| - 1];
      InertLoadIgnored(before, ld, init);
      var l1, l2 := before + [ld] + after, before + after;
      assert l1[..|l1| - 1] == before + [ld] + init && l1[|l1| - 1] == last;
      assert l2[..|l2| - 1] == before + init && l2[|l2| - 1] == last;
    }
  }

  /** Chart entries appear in zone order, one for each zone that has properties. */
  lemma {:induction false} ChartEntriesFollowZones(loads: seq<ZoneLoad>, i: int)
    requires 0 <= i < |loads| && Contributes(loads[i])
    ensures DatoOf(loads[i].zona, loads[i].props.value) in Summary(loads).datos
  {
    var prev := loads[..|loads| - 1];
    if i < |loads| - 1 {
      assert prev[i] == loads[i];
      ChartEntriesFollowZones(prev, i);
    }
  }

  /** Every chart entry is the entry of some zone that has properties. */
  lemma {:induction false} ChartEntriesComeFromZones(loads: seq<ZoneLoad>, d: ZonaDato)
    requires d in Summary(loads).datos
    ensures exists i :: 0 <= i < |loads| && Contributes(loads[i]) && d == DatoOf(loads[i].zona, loads[i].props.value)
  {
    var prev := loads[..|loads| - 1];
    var last := loads[|loads| - 1];
    if d in Summary(prev).datos {
      ChartEntriesComeFromZones(prev, d);
      var i :| 0 <= i < |prev| && Contributes(prev[i]) && d == DatoOf(prev[i].zona, prev[i].props.value);
      assert loads[i] == prev[i];
    } else {
      assert Contributes(last) && d == DatoOf(last.zona, last.props.value);
    }
  }

  /** The summary of one more load is one more step. */
  lemma SummaryStep(loads: seq<ZoneLoad>, i: int)
    requires 0 <= i < |loads|
    ensures Summary(loads[..i + 1]) == Step(Summary(loads[..i]), loads[i])
  {
    assert loads[..i + 1][..i] == loads[..i];
  }

  // ---------------------------------------------------------------- methods

  /** The `forEach` over one zone's properties, counting sales and rentals. */
  method CountEstados(ps: seq<Doc>) returns (venta: nat, renta: nat)
    ensures venta == CountEstado(ps, "Venta") && renta == CountEstado(ps, "Renta")
    ensures venta + renta <= |ps|
  {
    venta, renta := 0, 0;
    var i := 0;
    while i < |ps|
      invariant 0 <= i <= |ps|
      invariant venta == CountEstado(ps[..i], "Venta") && renta == CountEstado(ps[..i], "Renta")
    {
      assert ps[..i + 1][..i] == ps[..i];
      if HasEstado(ps[i], "Venta") { venta := venta + 1; }
      if HasEstado(ps[i], "Renta") { renta := renta + 1; }
      i := i + 1;
    }
    assert ps[..i] == ps;
    CountEstadoBound(ps, "Venta", "Renta");
  }

  /**
   * The body of the zone loop for one zone whose properties loaded as `props`
   * (`None`: the load threw and the `catch` skips the zone).
   */
  method VisitZona(s: Stats, zona: Doc, props: Option<seq<Doc>>) returns (t: Stats)
    ensures t == Step(s, ZoneLoad(zona, props))
  {
    t := s;
    if props.Some? {
      var ps := props.value;
      var venta, renta := CountEstados(ps);
      var con, datos := s.con, s.datos;
      if |ps| > 0 {
        con := con + 1;
        datos := datos + [DatoOf(zona, ps)];
      }
      t := Stats(s.total + |ps|, s.venta + venta, s.renta + renta, con, datos);
    }
  }

  /** The zone loop: load each zone's properties in turn and accumulate the counters. */
  method Aggregate(db: Db, user: Option<string>, zonas: seq<Doc>) returns (s: Stats)
    ensures s == Summary(Loads(db, user, zonas))
    ensures s.venta + s.renta <= s.total && s.con <= |zonas|
  {
    ghost var loads := Loads(db, user, zonas);
    s := Stats(0, 0, 0, 0, []);
    var i := 0;
    while i < |zonas|
      invariant 0 <= i <= |zonas|
      invariant s == Summary(loads[..i])
    {
      SummaryStep(loads, i);
      var props := PropiedadesDe(db, user, zonas[i]);
      assert loads[i] == ZoneLoad(zonas[i], props);
      s := VisitZona(s, zonas[i], props);
      i := i + 1;
    }
    assert loads[..i] == loads;
    SummaryConsistent(loads);
  }

  /** The page's state. */
  class EstadisticasPage {
    var zonas: seq<Doc>
    var isLoading: bool
    var totalPropiedades: int
    var propiedadesEnVenta: int
    var propiedadesEnRenta: int
    var zonasConPropiedades: int
    var zonasSinPropiedades: int
    var zonasConDatos: seq<ZonaDato>

    /** The initial state, before the data is fetched. */
    constructor ()
      ensures zonas == [] && isLoading && zonasConDatos == []
      ensures totalPropiedades == 0 && propiedadesEnVenta == 0 && propiedadesEnRenta == 0
      ensures zonasConPropiedades == 0 && zonasSinPropiedades == 0
    {
      zonas, isLoading, zonasConDatos := [], true, [];
      totalPropiedades, propiedadesEnVenta, propiedadesEnRenta := 0, 0, 0;
      zonasConPropiedades, zonasSinPropiedades := 0, 0;
    }

    /**
     * The page shows the zones `zs` and the counters of `s`; the zones without
     * properties are the listed zones less those with properties.
     */
    predicate Shows(zs: seq<Doc>, s: Stats)
      reads this
    {
      && zonas == zs
      && totalPropiedades == s.total && propiedadesEnVenta == s.venta && propiedadesEnRenta == s.renta
      && zonasConPropiedades == s.con && zonasSinPropiedades == |zs| - s.con
      && zonasConDatos == s.datos
    }

    /** The state setters after the zone loop: the zones, the counters and the chart entries. */
    method Show(zs: seq<Doc>, s: Stats)
      requires s.con <= |zs|
      modifies this
      ensures Shows(zs, s) && isLoading == old(isLoading)
    {
      zonas := zs;
      totalPropiedades, propiedadesEnVenta, propiedadesEnRenta := s.total, s.venta, s.renta;
      zonasConPropiedades, zonasSinPropiedades, zonasConDatos := s.con, |zs| - s.con, s.datos;
    }

    /**
     * `fetchData`: when the zones can be listed, every counter is replaced by
     * the summary of their loads; otherwise the counters are kept. Either way
     * the page stops loading.
     */
    method FetchData(db: Db, user: Option<string>)
      modifies this
      ensures !isLoading
      ensures GetZonas(db, user).Err? ==>
        && zonas == old(zonas) && zonasConDatos == old(zonasConDatos)
        && totalPropiedades == old(totalPropiedades)
        && propiedadesEnVenta == old(propiedadesEnVenta) && propiedadesEnRenta == old(propiedadesEnRenta)
        && zonasConPropiedades == old(zonasConPropiedades) && zonasSinPropiedades == old(zonasSinPropiedades)
      ensures GetZonas(db, user).Ok? ==>
        var s := Summary(Loads(db, user, GetZonas(db, user).value));
        Shows(GetZonas(db, user).value, s) && zonasSinPropiedades >= 0
    {
      isLoading := true;
      var listed := GetZonas(db, user);
      if listed.Ok? {
        var s := Aggregate(db, user, listed.value);
        Show(listed.value, s);
      }
      isLoading := false;
    }
  }
}
