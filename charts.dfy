/**
 * `chartsView`: the stats of every stored snapshot pivoted into one label
 * per snapshot and one row of values per resource type.
 */
module Charts {
  import opened Wrappers
  import opened Har
  import opened Stats
  import opened History

  /** One dataset, `[type, v_1, ..., v_n]`. */
  datatype Row = Row(rtype: ResourceType, values: seq<int>)

  datatype Chart = Chart(labels: seq<string>, datasets: seq<Row>)

  /** The reply of the view: a chart, or the TypeError `data.forEach` raises. */
  datatype ChartReply = Reply(chart: Chart) | Crashed

  /** app.js lines 415-418: every listed type, or only the requested one. */
  function ChartTypes(resource: Option<ResourceType>): (ts: seq<ResourceType>)
    ensures Distinct(ts)
    ensures forall t :: t in ts <==> resource.None? || t == resource.value
  {
    ResourceTypesDistinct();
    AllListed();
    if resource.Some? then [resource.value] else RESOURCE_TYPES
  }

  /** The snapshot refs, in history order. */
  function Refs(data: seq<RefStats>): seq<string>
  {
    seq(|data|, i requires 0 <= i < |data| => data[i].ref)
  }

  /** Reference definition of a row's values: statistic `k` of type `t`, snapshot by snapshot. */
  function Series(data: seq<RefStats>, k: Kind, t: ResourceType): seq<int>
    decreases |data|
  {
    if data == [] then []
    else
      var last := data[|data| - 1].stats.Get(k);
      Series(data[..|data| - 1], k, t) + (if t in last then [last[t]] else [])
  }

  /** The number of requests of type `t` over the whole history. */
  function Lifetime(data: seq<RefStats>, t: ResourceType): int
    decreases |data|
  {
    if data == [] then 0
    else
      var last := data[|data| - 1].stats.totals;
      Lifetime(data[..|data| - 1], t) + (if t in last then last[t] else 0)
  }

  /** app.js lines 469-474: the row of `t` is kept unless excluded or never requested. */
  predicate Kept(data: seq<RefStats>, t: ResourceType, exclude: Option<ResourceType>)
  {
    exclude != Some(t) && Lifetime(data, t) != 0
  }

  /** The rows that survive the final filter, in the order of `types`. */
  function KeptRows(data: seq<RefStats>, k: Kind, types: seq<ResourceType>, exclude: Option<ResourceType>): seq<Row>
    decreases |types|
  {
    if types == [] then []
    else
      var t := types[|types| - 1];
      KeptRows(data, k, types[..|types| - 1], exclude) + (if Kept(data, t, exclude) then [Row(t, Series(data, k, t))] else [])
  }

  /** The types whose rows survive; it depends on the totals only, never on `k`. */
  function KeptTypes(data: seq<RefStats>, types: seq<ResourceType>, exclude: Option<ResourceType>): seq<ResourceType>
    decreases |types|
  {
    if types == [] then []
    else
      var t := types[|types| - 1];
      KeptTypes(data, types[..|types| - 1], exclude) + (if Kept(data, t, exclude) then [t] else [])
  }

  function TypesOf(rows: seq<Row>): seq<ResourceType>
  {
    seq(|rows|, j requires 0 <= j < |rows| => rows[j].rtype)
  }

  /** The chart `chartsView` replies with. */
  function ChartOf(data: seq<RefStats>, k: Kind, resource: Option<ResourceType>, exclude: Option<ResourceType>): Chart
  {
    Chart(Refs(data), KeptRows(data, k, ChartTypes(resource), exclude))
  }

  // ---------------------------------------------------------------------
  // The imperative pivot

  /** app.js lines 450-452: add one snapshot's totals to the tracked counters. */
  method AddTotals(counters: map<ResourceType, int>, totals: map<ResourceType, int>) returns (r: map<ResourceType, int>)
    requires forall t: ResourceType :: t in totals
    ensures r.Keys == counters.Keys
    ensures forall t :: t in counters ==> r[t] == counters[t] + totals[t]
  {
    r := counters;
    PositionOfListed();
    for kk := 0 to |RESOURCE_TYPES|
      invariant r.Keys == counters.Keys
      invariant forall t :: t in counters ==> r[t] == counters[t] + (if Position(t) < kk then totals[t] else 0)
    {
      var key := RESOURCE_TYPES[kk];
      
      if key in r {
        r := r[key := r[key] + totals[key]];
      }
    }
  }

  /**
   * app.js lines 454-464: push one snapshot's value of every charted type onto the
   * row of that type (`datasets[types.indexOf(k)]`).
   */
  method PushValues(rows: array<seq<int>>, types: seq<ResourceType>, stat: map<ResourceType, int>, resource: Option<ResourceType>)
    requires types == ChartTypes(resource) && rows.Length == |types|
    requires forall t: ResourceType :: t in stat
    modifies rows
    ensures forall idx :: 0 <= idx < |types| ==> rows[idx] == old(rows[idx]) + [stat[types[idx]]]
  {
    for kk := 0 to |RESOURCE_TYPES|
      invariant forall idx :: 0 <= idx < |types| ==>
        rows[idx] == old(rows[idx]) + (if Position(types[idx]) < kk then [stat[types[idx]]] else [])
    {
      PushKey(rows, types, stat, resource, kk);
    }
  }

  /** The callback for key `RESOURCE_TYPES[kk]`: push its value onto its row, if that type is charted. */
  method PushKey(rows: array<seq<int>>, types: seq<ResourceType>, stat: map<ResourceType, int>, resource: Option<ResourceType>, kk: nat)
    requires types == ChartTypes(resource) && rows.Length == |types|
    requires forall t: ResourceType :: t in stat
    requires kk < |RESOURCE_TYPES|
    modifies rows
    ensures forall idx :: 0 <= idx < |types| ==>
      rows[idx] == old(rows[idx]) + (if Position(types[idx]) == kk then [stat[types[idx]]] else [])
  {
    var key := RESOURCE_TYPES[kk];
    PositionOfListed();
    ResourceTypesDistinct();
    assert forall i :: 0 <= i < |types| ==> (Position(types[i]) == kk <==> types[i] == key);
    if resource.None? || key == resource.value {
      var idx := IndexOf(types, key);
      rows[idx] := rows[idx] + [stat[key]];
    }
  }

  /** `types.indexOf(t)` for a type that is there. */
  function IndexOf(types: seq<ResourceType>, t: ResourceType): (i: nat)
    requires t in types
    ensures i < |types| && types[i] == t
    ensures forall j :: 0 <= j < i ==> types[j] != t
  {
    if types[0] == t then 0 else 1 + IndexOf(types[1..], t)
  }

  /** app.js lines 437-443: a counter starting at 0 for every charted type. */
  method ZeroCounters(types: seq<ResourceType>) returns (counters: map<ResourceType, int>)
    ensures forall t :: t in counters <==> t in types
    ensures forall t :: t in counters ==> counters[t] == 0
  {
    counters := map[];
    for idx := 0 to |types|
      invariant forall t :: t in counters <==> t in types[..idx]
      invariant forall t :: t in counters ==> counters[t] == 0
    {
      counters := counters[types[idx] := 0];
    }
    assert types[..|types|] == types;
  }

  /** app.js lines 469-474: `datasets.filter(...)` on the finished rows. */
  method FilterRows(ghost data: seq<RefStats>, ghost k: Kind, types: seq<ResourceType>, rows: seq<seq<int>>,
                    counters: map<ResourceType, int>, exclude: Option<ResourceType>)
    returns (datasets: seq<Row>)
    requires |rows| == |types|
    requires forall idx :: 0 <= idx < |types| ==> rows[idx] == Series(data, k, types[idx])
    requires forall t :: t in types ==> t in counters && counters[t] == Lifetime(data, t)
    ensures datasets == KeptRows(data, k, types, exclude)
  {
    datasets := [];
    for idx := 0 to |types|
      invariant datasets == KeptRows(data, k, types[..idx], exclude)
    {
      assert types[..idx + 1][..idx] == types[..idx];
      var t := types[idx];
      if !(exclude.Some? && t == exclude.value) && counters[t] != 0 {
        datasets := datasets + [Row(t, rows[idx])];
      }
    }
    assert types[..|types|] == types;
  }

  /**
   * app.js lines 447-465: for every snapshot, push its ref onto the labels, add its
   * request counts to the counters and push its values onto the rows.
   */
  method Pivot(data: seq<RefStats>, k: Kind, resource: Option<ResourceType>, types: seq<ResourceType>,
               rows: array<seq<int>>, counters0: map<ResourceType, int>)
    returns (labels: seq<string>, counters: map<ResourceType, int>)
    requires AllWellFormed(data)
    requires types == ChartTypes(resource) && rows.Length == |types|
    requires forall idx :: 0 <= idx < |types| ==> rows[idx] == []
    requires forall t :: t in counters0 <==> t in types
    requires forall t :: t in counters0 ==> counters0[t] == 0
    modifies rows
    ensures labels == Refs(data)
    ensures forall t :: t in counters <==> t in types
    ensures forall t :: t in counters ==> counters[t] == Lifetime(data, t)
    ensures forall idx :: 0 <= idx < |types| ==> rows[idx] == Series(data, k, types[idx])
  {
    labels, counters := [], counters0;
    for j := 0 to |data|
      invariant labels == Refs(data[..j])
      invariant forall t :: t in counters <==> t in types
      invariant forall t :: t in counters ==> counters[t] == Lifetime(data[..j], t)
      invariant forall idx :: 0 <= idx < |types| ==> rows[idx] == Series(data[..j], k, types[idx])
    {
      labels, counters := PivotSnapshot(data, j, k, resource, types, rows, labels, counters);
    }
    assert data[..|data|] == data;
  }

  /** The body of the `data.forEach` callback for snapshot `j`. */
  method PivotSnapshot(data: seq<RefStats>, j: nat, k: Kind, resource: Option<ResourceType>, types: seq<ResourceType>,
                       rows: array<seq<int>>, labels0: seq<string>, counters0: map<ResourceType, int>)
    returns (labels: seq<string>, counters: map<ResourceType, int>)
    requires AllWellFormed(data) && j < |data|
    requires types == ChartTypes(resource) && rows.Length == |types|
    requires labels0 == Refs(data[..j])
    requires forall t :: t in counters0 <==> t in types
    requires forall t :: t in counters0 ==> counters0[t] == Lifetime(data[..j], t)
    requires forall idx :: 0 <= idx < |types| ==> rows[idx] == Series(data[..j], k, types[idx])
    modifies rows
    ensures labels == Refs(data[..j + 1])
    ensures forall t :: t in counters <==> t in types
    ensures forall t :: t in counters ==> counters[t] == Lifetime(data[..j + 1], t)
    ensures forall idx :: 0 <= idx < |types| ==> rows[idx] == Series(data[..j + 1], k, types[idx])
  {
    PivotStep(data, j, k);
    var entry := data[j];
    labels := labels0 + [entry.ref];
    counters := AddTotals(counters0, entry.stats.totals);
    PushValues(rows, types, entry.stats.Get(k), resource);
  }

  /** One more snapshot adds its ref, one value to every row and its counts. */
  lemma PivotStep(data: seq<RefStats>, j: nat, k: Kind)
    requires AllWellFormed(data) && j < |data|
    ensures Refs(data[..j + 1]) == Refs(data[..j]) + [data[j].ref]
    ensures forall t :: Series(data[..j + 1], k, t) == Series(data[..j], k, t) + [data[j].stats.Get(k)[t]]
    ensures forall t :: Lifetime(data[..j + 1], t) == Lifetime(data[..j], t) + data[j].stats.totals[t]
  {
    assert data[..j + 1][..j] == data[..j];
    assert WellFormed(data[j].stats);
  }

  /**
   * app.js lines 426-474 on the stats of every snapshot: labels and rows are built
   * snapshot by snapshot, request counts are tallied per charted type, and
   * the rows are then filtered.
   */
  method Project(data: seq<RefStats>, k: Kind, resource: Option<ResourceType>, exclude: Option<ResourceType>)
    returns (c: Chart)
    requires AllWellFormed(data)
    ensures c == ChartOf(data, k, resource, exclude)
  {
    var types := ChartTypes(resource);
    var rows := new seq<int>[|types|](_ => []);
    var counters := ZeroCounters(types);
    var labels;
    labels, counters := Pivot(data, k, resource, types, rows, counters);
    var datasets := FilterRows(data, k, types, rows[..], counters, exclude);
    c := Chart(labels, datasets);
  }

  /**
   * `chartsView(req)`: the stats view of the same request, then the pivot.
   * With a `ref`, the stats view hands back one object (or `{}`), on which
   * `data.forEach` throws.
   */
  method ChartsView(list: seq<Har>, k: Kind, ref: Option<string>, resource: Option<ResourceType>, exclude: Option<ResourceType>)
    returns (r: ChartReply)
    ensures r.Crashed? <==> Given(ref)
    ensures r.Reply? ==> r.chart == ChartOf(SnapshotStats(list), k, resource, exclude)
  {
    var data := StatsView(list, ref);
    if !data.All? {
      return Crashed;
    }
    SnapshotStatsWellFormed(list);
    var chart := Project(data.items, k, resource, exclude);
    r := Reply(chart);
  }

  // ---------------------------------------------------------------------
  // Properties of the chart

  /** Each row holds one value per label, value `i` taken from snapshot `i`. */
  lemma {:induction false} SeriesAligned(data: seq<RefStats>, k: Kind, t: ResourceType)
    requires AllWellFormed(data)
    ensures |Series(data, k, t)| == |data|
    ensures forall i :: 0 <= i < |data| ==> Series(data, k, t)[i] == data[i].stats.Get(k)[t]
    decreases |data|
  {
    if data != [] {
      SeriesAligned(data[..|data| - 1], k, t);
    }
  }

  /** A row survives if and only if its type is charted, not excluded, and was ever requested. */
  lemma {:induction false} KeptTypesIff(data: seq<RefStats>, types: seq<ResourceType>, exclude: Option<ResourceType>, t: ResourceType)
    ensures t in KeptTypes(data, types, exclude) <==> t in types && exclude != Some(t) && Lifetime(data, t) != 0
    decreases |types|
  {
    if types != [] {
      KeptTypesIff(data, types[..|types| - 1], exclude, t);
      assert types == types[..|types| - 1] + [types[|types| - 1]];
    }
  }

  /** Which rows survive is decided by the request counts, whatever statistic is charted. */
  lemma {:induction false} KeptRowsFollowTotals(data: seq<RefStats>, k: Kind, types: seq<ResourceType>, exclude: Option<ResourceType>)
    ensures TypesOf(KeptRows(data, k, types, exclude)) == KeptTypes(data, types, exclude)
    ensures forall j :: 0 <= j < |KeptRows(data, k, types, exclude)| ==>
      KeptRows(data, k, types, exclude)[j].values == Series(data, k, KeptRows(data, k, types, exclude)[j].rtype)
    decreases |types|
  {
    if types != [] {
      KeptRowsFollowTotals(data, k, types[..|types| - 1], exclude);
    }
  }

  /**
   * The chart has one label per snapshot, in history order; every row
   * holds one value per label and survives exactly when its type is charted,
   * not excluded and was requested at least once; with `resource` given it
   * is the only possible row.
   */
  lemma ChartShape(data: seq<RefStats>, k: Kind, resource: Option<ResourceType>, exclude: Option<ResourceType>)
    requires AllWellFormed(data)
    ensures
      var c := ChartOf(data, k, resource, exclude);
      && |c.labels| == |data|
      && (forall i :: 0 <= i < |data| ==> c.labels[i] == data[i].ref)
      && (forall j :: 0 <= j < |c.datasets| ==> |c.datasets[j].values| == |c.labels|)
      && (forall j, i :: 0 <= j < |c.datasets| && 0 <= i < |data| ==>
            c.datasets[j].values[i] == data[i].stats.Get(k)[c.datasets[j].rtype])
      && (forall t :: t in TypesOf(c.datasets) <==>
            t in ChartTypes(resource) && exclude != Some(t) && Lifetime(data, t) != 0)
      && (resource.Some? ==> forall j :: 0 <= j < |c.datasets| ==> c.datasets[j].rtype == resource.value)
  {
    var c := ChartOf(data, k, resource, exclude);
    var types := ChartTypes(resource);
    KeptRowsFollowTotals(data, k, types, exclude);
    forall t
      ensures t in TypesOf(c.datasets) <==> t in types && exclude != Some(t) && Lifetime(data, t) != 0
    {
      KeptTypesIff(data, types, exclude, t);
    }
    forall j | 0 <= j < |c.datasets|
      ensures |c.datasets[j].values| == |c.labels|
      ensures forall i :: 0 <= i < |data| ==> c.datasets[j].values[i] == data[i].stats.Get(k)[c.datasets[j].rtype]
    {
      SeriesAligned(data, k, c.datasets[j].rtype);
    }
    if resource.Some? {
      forall j | 0 <= j < |c.datasets|
        ensures c.datasets[j].rtype == resource.value
      {
        assert c.datasets[j].rtype in TypesOf(c.datasets);
      }
    }
  }

  /** A type requested `c` times in every snapshot is requested `c` times per snapshot overall. */
  lemma {:induction false} LifetimeOfSteadyType(data: seq<RefStats>, t: ResourceType, c: int)
    requires forall i :: 0 <= i < |data| ==> t in data[i].stats.totals && data[i].stats.totals[t] == c
    ensures Lifetime(data, t) == c * |data|
    decreases |data|
  {
    if data != [] {
      LifetimeOfSteadyType(data[..|data| - 1], t, c);
    }
  }

  /**
   * Three snapshots `r1`, `r2`, `r3`, each holding one css request of 100
   * bytes, charted by size for css only.
   */
  lemma CssChartExample(data: seq<RefStats>)
    requires AllWellFormed(data)
    requires |data| == 3 && data[0].ref == "r1" && data[1].ref == "r2" && data[2].ref == "r3"
    requires forall i :: 0 <= i < 3 ==> data[i].stats.sizes[Css] == 100 && data[i].stats.totals[Css] == 1
    ensures ChartOf(data, Sizes, Some(Css), None) == Chart(["r1", "r2", "r3"], [Row(Css, [100, 100, 100])])
  {
    SeriesAligned(data, Sizes, Css);
    assert Series(data, Sizes, Css) == [100, 100, 100];
    LifetimeOfSteadyType(data, Css, 1);
    assert Refs(data) == ["r1", "r2", "r3"];
    assert ChartTypes(Some(Css))[..0] == [];
  }
}
