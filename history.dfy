/**
 * `historyView` and `statsView`: the stored snapshots of one URL, all of
 * them in stored order, or with a `ref` the one the scan settles on.
 */
module History {
  import opened Wrappers
  import opened Har
  import opened Stats

  /** The reply of a view: every item, the single item matching `ref`, or `{}`. */
  datatype Lookup<T> = All(items: seq<T>) | Single(item: T) | NoMatch

  /** Snapshot `i` has ref `r` and no later snapshot has. */
  ghost predicate IsLastMatch(list: seq<Har>, r: string, i: int)
  {
    && 0 <= i < |list|
    && list[i].log.ref == r
    && forall j :: i < j < |list| ==> list[j].log.ref != r
  }

  /** No snapshot has ref `r`. */
  ghost predicate NoneMatches(list: seq<Har>, r: string)
  {
    forall j :: 0 <= j < |list| ==> list[j].log.ref != r
  }

  /** app.js lines 220-236: the scan keeps overwriting `singleOutput`, so the last match wins. */
  method HistoryView(list: seq<Har>, ref: Option<string>) returns (out: Lookup<Har>)
    ensures !Given(ref) ==> out == All(list)
    ensures Given(ref) ==> !out.All?
    ensures Given(ref) ==> (out.NoMatch? <==> NoneMatches(list, ref.value))
    ensures Given(ref) && out.Single? ==> exists i :: IsLastMatch(list, ref.value, i) && out.item == list[i]
  {
    var single: Option<Har> := None;
    var output: seq<Har> := [];
    ghost var at := -1;
    for i := 0 to |list|
      invariant output == list[..i]
      invariant Given(ref) ==> (single.None? <==> NoneMatches(list[..i], ref.value))
      invariant single.Some? ==> Given(ref) && IsLastMatch(list[..i], ref.value, at) && single.value == list[at]
    {
      if Given(ref) && ref.value == list[i].log.ref {
        single := Some(list[i]);
        at := i;
      }
      output := output + [list[i]];
    }
    assert list[..|list|] == list;
    if Given(ref) {
      out := if single.Some? then Single(single.value) else NoMatch;
    } else {
      out := All(output);
    }
  }

  /** The stats of every stored snapshot, tagged with its ref, in stored order. */
  function SnapshotStats(list: seq<Har>): seq<RefStats>
  {
    seq(|list|, i requires 0 <= i < |list| => RefStats(list[i].log.ref, StatsOf(list[i].log.entries)))
  }

  /** Every stats record of the history is keyed by every listed type and tagged with its snapshot's ref. */
  lemma SnapshotStatsWellFormed(list: seq<Har>)
    ensures |SnapshotStats(list)| == |list|
    ensures forall i :: 0 <= i < |list| ==> SnapshotStats(list)[i].ref == list[i].log.ref
    ensures AllWellFormed(SnapshotStats(list))
  {
    forall i | 0 <= i < |list|
      ensures WellFormed(SnapshotStats(list)[i].stats)
    {
      StatsOfWellFormed(list[i].log.entries);
    }
  }

  /** app.js lines 334-360: `getStats` of every snapshot, with the same ref scan as the history view. */
  method StatsView(list: seq<Har>, ref: Option<string>) returns (out: Lookup<RefStats>)
    ensures !Given(ref) ==> out == All(SnapshotStats(list))
    ensures Given(ref) ==> !out.All?
    ensures Given(ref) ==> (out.NoMatch? <==> NoneMatches(list, ref.value))
    ensures Given(ref) && out.Single? ==>
      exists i :: IsLastMatch(list, ref.value, i) && out.item == SnapshotStats(list)[i]
  {
    var single: Option<RefStats> := None;
    var output: seq<RefStats> := [];
    ghost var at := -1;
    for i := 0 to |list|
      invariant output == SnapshotStats(list[..i])
      invariant Given(ref) ==> (single.None? <==> NoneMatches(list[..i], ref.value))
      invariant single.Some? ==>
        Given(ref) && IsLastMatch(list[..i], ref.value, at) && single.value == SnapshotStats(list)[at]
    {
      var stats := GetStats(list[i]);
      var tagged := RefStats(list[i].log.ref, stats);
      if Given(ref) && ref.value == list[i].log.ref {
        single := Some(tagged);
        at := i;
      }
      output := output + [tagged];
    }
    assert list[..|list|] == list;
    if Given(ref) {
      out := if single.Some? then Single(single.value) else NoMatch;
    } else {
      out := All(output);
    }
  }

  /** A snapshot just appended under its ref is the one a lookup by that ref returns. */
  lemma AppendedSnapshotIsFound(list: seq<Har>, h: Har)
    ensures IsLastMatch(list + [h], h.log.ref, |list|)
    ensures forall i :: IsLastMatch(list + [h], h.log.ref, i) ==> i == |list|
  {
  }
}
