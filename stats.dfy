/**
 * `getStats`: one HAR document reduced to per-resource-type byte sizes,
 * wait+receive times and request counts.
 */
module Stats {
  import opened Wrappers
  import opened Har

  /** The three statistics a document is reduced to (`sizes`, `times`, `totals`). */
  datatype Kind = Sizes | Times | Totals

  datatype Stats = Stats(sizes: map<ResourceType, int>, times: map<ResourceType, int>, totals: map<ResourceType, int>)
  {
    /** `stats[stat]`: the map for one kind of statistic. */
    function Get(k: Kind): map<ResourceType, int>
    {
      match k
      case Sizes => sizes
      case Times => times
      case Totals => totals
    }
  }

  /** The stats of one stored snapshot, tagged with the snapshot's `_ref`. */
  datatype RefStats = RefStats(ref: string, stats: Stats)

  /** The bucket of a `_type`: the type it names when listed, otherwise Other. */
  function Classify(ctype: Option<string>): (t: ResourceType)
    ensures t != Other ==> ctype == Some(Name(t))
    ensures ctype.None? ==> t == Other
  {
    if ctype.Some? && ParseType(ctype.value).Some? then ParseType(ctype.value).value else Other
  }

  /** A `_type` that names a listed bucket is classified into that bucket. */
  lemma ClassifyName(t: ResourceType)
    ensures Classify(Some(Name(t))) == t
  {
    ParseName(t);
  }

  /** What an entry with content contributes to a statistic. */
  function Amount(e: Entry, k: Kind): int
    requires HasContent(e)
  {
    match k
    case Sizes => e.response.value.bodySize
    case Times => e.timings.wait + e.timings.receive
    case Totals => 1
  }

  /**
   * What entry `e` adds to bucket `t`: its amount once into the bucket of its
   * type and once into Total; nothing when it lacks a response or content.
   */
  function Credit(e: Entry, t: ResourceType, k: Kind): int
  {
    if HasContent(e) then
      (if Classify(TypeTag(e)) == t then Amount(e, k) else 0)
      + (if t == Total then Amount(e, k) else 0)
    else
      0
  }

  /** Reference definition of bucket `t` of statistic `k`: the credits of all entries. */
  function Bucket(es: seq<Entry>, t: ResourceType, k: Kind): int
    decreases |es|
  {
    if es == [] then 0 else Bucket(es[..|es| - 1], t, k) + Credit(es[|es| - 1], t, k)
  }

  /** The stats `getStats` computes: every listed type keyed, each bucket per Bucket. */
  function StatsOf(es: seq<Entry>): Stats
  {
    Stats(map t | t in RESOURCE_TYPES :: Bucket(es, t, Sizes),
          map t | t in RESOURCE_TYPES :: Bucket(es, t, Times),
          map t | t in RESOURCE_TYPES :: Bucket(es, t, Totals))
  }

  /** Every statistic is keyed by exactly the listed resource types. */
  ghost predicate WellFormed(s: Stats)
  {
    forall t: ResourceType :: t in s.sizes && t in s.times && t in s.totals
  }

  /** Every stats record of a history is well formed. */
  ghost predicate AllWellFormed(data: seq<RefStats>)
  {
    forall i :: 0 <= i < |data| ==> WellFormed(data[i].stats)
  }

  /** `getStats` keys all three maps by every listed type. */
  lemma StatsOfWellFormed(es: seq<Entry>)
    ensures WellFormed(StatsOf(es))
  {
    forall t: ResourceType
      ensures t in StatsOf(es).sizes
    {
      ResourceTypesComplete(t);
    }
  }

  /** Map `m` holds bucket `t` of statistic `k` over `es`, for every listed type `t`. */
  ghost predicate Tallies(m: map<ResourceType, int>, es: seq<Entry>, k: Kind)
  {
    forall t: ResourceType :: t in m && m[t] == Bucket(es, t, k)
  }

  lemma TalliesAreStatsOf(m: map<ResourceType, int>, es: seq<Entry>, k: Kind)
    requires Tallies(m, es, k)
    ensures m == StatsOf(es).Get(k)
  {
    forall t: ResourceType
      ensures t in StatsOf(es).Get(k)
    {
      ResourceTypesComplete(t);
    }
  }

  /** Adding an entry with content to its own bucket and to Total keeps the tally. */
  lemma TallyStep(m: map<ResourceType, int>, es: seq<Entry>, e: Entry, k: Kind)
    requires Tallies(m, es, k) && HasContent(e)
    ensures
      var ty := Classify(TypeTag(e));
      var m1 := m[ty := m[ty] + Amount(e, k)];
      Tallies(m1[Total := m1[Total] + Amount(e, k)], es + [e], k)
  {
    assert (es + [e])[..|es|] == es;
  }

  /** Skipping an entry without response or content keeps the tally. */
  lemma TallySkip(m: map<ResourceType, int>, es: seq<Entry>, e: Entry, k: Kind)
    requires Tallies(m, es, k) && !HasContent(e)
    ensures Tallies(m, es + [e], k)
  {
    assert (es + [e])[..|es|] == es;
  }

  /** app.js lines 282-286 of `getStats`: every listed type, Total included, starts at 0. */
  method ZeroStats() returns (s: Stats)
    ensures Tallies(s.sizes, [], Sizes) && Tallies(s.times, [], Times) && Tallies(s.totals, [], Totals)
  {
    var zeros: map<ResourceType, int> := map[];
    for i := 0 to |RESOURCE_TYPES|
      invariant forall t :: t in zeros <==> t in RESOURCE_TYPES[..i]
      invariant forall t :: t in zeros ==> zeros[t] == 0
    {
      zeros := zeros[RESOURCE_TYPES[i] := 0];
    }
    assert RESOURCE_TYPES[..|RESOURCE_TYPES|] == RESOURCE_TYPES;
    forall t: ResourceType
      ensures t in zeros
    {
      ResourceTypesComplete(t);
    }
    s := Stats(zeros, zeros, zeros);
  }

  /**
   * `getStats(har)`: zero every listed type (including Total) in the three
   * maps, then fold the entries in, skipping those without response or content.
   */
  method GetStats(h: Har) returns (s: Stats)
    ensures WellFormed(s)
    ensures s == StatsOf(h.log.entries)
  {
    var zero := ZeroStats();
    var sizes, times, totals := zero.sizes, zero.times, zero.totals;
    var es := h.log.entries;
    for i := 0 to |es|
      invariant Tallies(sizes, es[..i], Sizes)
      invariant Tallies(times, es[..i], Times)
      invariant Tallies(totals, es[..i], Totals)
    {
      assert es[..i + 1] == es[..i] + [es[i]];
      var e := es[i];
      if e.response.None? || e.response.value.content.None? {
        TallySkip(sizes, es[..i], e, Sizes);
        TallySkip(times, es[..i], e, Times);
        TallySkip(totals, es[..i], e, Totals);
      } else {
        TallyStep(sizes, es[..i], e, Sizes);
        TallyStep(times, es[..i], e, Times);
        TallyStep(totals, es[..i], e, Totals);
        var ty := Classify(e.response.value.content.value.ctype);
        var size := e.response.value.bodySize;
        var time := e.timings.wait + e.timings.receive;
        sizes := sizes[ty := sizes[ty] + size];
        times := times[ty := times[ty] + time];
        totals := totals[ty := totals[ty] + 1];
        sizes := sizes[Total := sizes[Total] + size];
        times := times[Total := times[Total] + time];
        totals := totals[Total := totals[Total] + 1];
      }
    }
    assert es[..|es|] == es;
    TalliesAreStatsOf(sizes, es, Sizes);
    TalliesAreStatsOf(times, es, Times);
    TalliesAreStatsOf(totals, es, Totals);
    s := Stats(sizes, times, totals);
  }

  // ---------------------------------------------------------------------
  // Counting and summing identities

  /** The entries that have both response and content, in order. */
  function WithContent(es: seq<Entry>): (r: seq<Entry>)
    ensures forall e :: e in r ==> HasContent(e)
    ensures |r| <= |es|
    decreases |es|
  {
    if es == [] then []
    else WithContent(es[..|es| - 1]) + (if HasContent(es[|es| - 1]) then [es[|es| - 1]] else [])
  }

  /** The entries with content whose `_type` is Total. */
  function TypedTotal(es: seq<Entry>): (r: seq<Entry>)
    ensures forall e :: e in r ==> HasContent(e) && Classify(TypeTag(e)) == Total
    ensures |r| <= |es|
    decreases |es|
  {
    if es == [] then []
    else
      var e := es[|es| - 1];
      TypedTotal(es[..|es| - 1]) + (if HasContent(e) && Classify(TypeTag(e)) == Total then [e] else [])
  }

  /** The plain sum of the amounts of some entries with content. */
  function AmountSum(es: seq<Entry>, k: Kind): int
    requires forall e :: e in es ==> HasContent(e)
    decreases |es|
  {
    if es == [] then 0 else AmountSum(es[..|es| - 1], k) + Amount(es[|es| - 1], k)
  }

  lemma {:induction false} CountingSumIsLength(es: seq<Entry>)
    requires forall e :: e in es ==> HasContent(e)
    ensures AmountSum(es, Totals) == |es|
    decreases |es|
  {
    if es != [] {
      CountingSumIsLength(es[..|es| - 1]);
    }
  }

  /**
   * The "total" bucket receives every counted entry once, and an entry whose
   * `_type` is Total a second time.
   */
  lemma {:induction false} TotalBucketCountsTwice(es: seq<Entry>, k: Kind)
    ensures Bucket(es, Total, k) == AmountSum(WithContent(es), k) + AmountSum(TypedTotal(es), k)
    decreases |es|
  {
    if es != [] {
      TotalBucketCountsTwice(es[..|es| - 1], k);
      ContentSumsStep(es, k);
    }
  }

  lemma {:induction false} AmountSumAppend(a: seq<Entry>, b: seq<Entry>, k: Kind)
    requires forall e :: e in a ==> HasContent(e)
    requires forall e :: e in b ==> HasContent(e)
    ensures AmountSum(a + b, k) == AmountSum(a, k) + AmountSum(b, k)
    decreases |b|
  {
    if b != [] {
      assert (a + b)[..|a + b| - 1] == a + b[..|b| - 1];
      AmountSumAppend(a, b[..|b| - 1], k);
    } else {
      assert a + b == a;
    }
  }

  /**
   * `totals.total` is the number of entries with response and content, plus
   * the number of those whose `_type` is Total (counted twice).
   */
  lemma TotalRequestCount(es: seq<Entry>)
    ensures Bucket(es, Total, Totals) == |WithContent(es)| + |TypedTotal(es)|
    ensures TypedTotal(es) == [] ==> Bucket(es, Total, Totals) == |WithContent(es)|
  {
    TotalBucketCountsTwice(es, Totals);
    CountingSumIsLength(WithContent(es));
    CountingSumIsLength(TypedTotal(es));
  }

  /** RESOURCE_TYPES without Total: the buckets that partition the entries. */
  const TYPE_BUCKETS: seq<ResourceType> :=
    [Audio, Css, CssImage, Doc, Flash, Font, InlineCssImage,
     InlineImage, Js, Json, Other, Video]

  lemma TypeBucketsAreTheOtherTypes(t: ResourceType)
    ensures t in TYPE_BUCKETS <==> t != Total
    ensures Distinct(TYPE_BUCKETS)
  {
  }

  /** The sum of buckets `ts` of statistic `k`. */
  function BucketSum(ts: seq<ResourceType>, es: seq<Entry>, k: Kind): int
    decreases |ts|
  {
    if ts == [] then 0 else BucketSum(ts[..|ts| - 1], es, k) + Bucket(es, ts[|ts| - 1], k)
  }

  /** The credits one entry gives to the buckets `ts`. */
  function CreditSum(ts: seq<ResourceType>, e: Entry, k: Kind): int
    decreases |ts|
  {
    if ts == [] then 0 else CreditSum(ts[..|ts| - 1], e, k) + Credit(e, ts[|ts| - 1], k)
  }

  lemma {:induction false} BucketSumStep(ts: seq<ResourceType>, es: seq<Entry>, k: Kind)
    requires es != []
    ensures BucketSum(ts, es, k) == BucketSum(ts, es[..|es| - 1], k) + CreditSum(ts, es[|es| - 1], k)
    decreases |ts|
  {
    if ts != [] {
      BucketSumStep(ts[..|ts| - 1], es, k);
    }
  }

  /** Over distinct buckets without Total, an entry is credited once, to its own type. */
  lemma {:induction false} CreditSumOfEntry(ts: seq<ResourceType>, e: Entry, k: Kind)
    requires Distinct(ts) && Total !in ts
    ensures CreditSum(ts, e, k) == if HasContent(e) && Classify(TypeTag(e)) in ts then Amount(e, k) else 0
    decreases |ts|
  {
    if ts != [] {
      var init := ts[..|ts| - 1];
      assert Distinct(init);
      CreditSumOfEntry(init, e, k);
      if HasContent(e) {
        var c := Classify(TypeTag(e));
        assert c in ts <==> c in init || c == ts[|ts| - 1];
        assert c == ts[|ts| - 1] ==> c !in init;
      }
    }
  }

  /**
   * The buckets other than Total add up to the counted amount minus what
   * the `_type` Total entries contribute.
   */
  lemma {:induction false} TypeBucketsSum(es: seq<Entry>, k: Kind)
    ensures BucketSum(TYPE_BUCKETS, es, k) == AmountSum(WithContent(es), k) - AmountSum(TypedTotal(es), k)
    decreases |es|
  {
    if es == [] {
      ZeroBuckets(TYPE_BUCKETS, k);
    } else {
      TypeBucketsSum(es[..|es| - 1], k);
      BucketSumStep(TYPE_BUCKETS, es, k);
      TypeBucketsCredit(es[|es| - 1], k);
      ContentSumsStep(es, k);
    }
  }

  /** Over the buckets other than Total, an entry is credited its amount unless it is typed Total. */
  lemma TypeBucketsCredit(e: Entry, k: Kind)
    ensures CreditSum(TYPE_BUCKETS, e, k) == if HasContent(e) && Classify(TypeTag(e)) != Total then Amount(e, k) else 0
  {
    TypeBucketsAreTheOtherTypes(if HasContent(e) then Classify(TypeTag(e)) else Other);
    CreditSumOfEntry(TYPE_BUCKETS, e, k);
  }

  /** The last entry adds its amount to the counted sum, and to the Total-typed sum when it is typed Total. */
  lemma ContentSumsStep(es: seq<Entry>, k: Kind)
    requires es != []
    ensures
      var init, e := es[..|es| - 1], es[|es| - 1];
      && AmountSum(WithContent(es), k) == AmountSum(WithContent(init), k) + (if HasContent(e) then Amount(e, k) else 0)
      && AmountSum(TypedTotal(es), k) == AmountSum(TypedTotal(init), k)
           + (if HasContent(e) && Classify(TypeTag(e)) == Total then Amount(e, k) else 0)
  {
    var init, e := es[..|es| - 1], es[|es| - 1];
    AmountSumAppend(WithContent(init), if HasContent(e) then [e] else [], k);
    AmountSumAppend(TypedTotal(init), if HasContent(e) && Classify(TypeTag(e)) == Total then [e] else [], k);
  }

  lemma {:induction false} ZeroBuckets(ts: seq<ResourceType>, k: Kind)
    ensures BucketSum(ts, [], k) == 0
    decreases |ts|
  {
    if ts != [] {
      ZeroBuckets(ts[..|ts| - 1], k);
    }
  }

  /**
   * The per-type buckets add up to the "total" bucket exactly when the
   * `_type` Total entries contribute nothing to statistic `k`.
   */
  lemma BucketsAddUpIff(es: seq<Entry>, k: Kind)
    ensures BucketSum(TYPE_BUCKETS, es, k) + 2 * AmountSum(TypedTotal(es), k) == Bucket(es, Total, k)
    ensures BucketSum(TYPE_BUCKETS, es, k) == Bucket(es, Total, k) <==> AmountSum(TypedTotal(es), k) == 0
  {
    TypeBucketsSum(es, k);
    TotalBucketCountsTwice(es, k);
  }

  /**
   * For the request counts, the per-type buckets add up to `totals.total`
   * if and only if no counted entry has `_type` Total.
   */
  lemma TotalsAddUpIff(es: seq<Entry>)
    ensures BucketSum(TYPE_BUCKETS, es, Totals) == Bucket(es, Total, Totals)
        <==> forall i :: 0 <= i < |es| && HasContent(es[i]) ==> Classify(TypeTag(es[i])) != Total
  {
    BucketsAddUpIff(es, Totals);
    CountingSumIsLength(TypedTotal(es));
    TypedTotalEmptyIff(es);
  }

  lemma {:induction false} TypedTotalEmptyIff(es: seq<Entry>)
    ensures TypedTotal(es) == []
        <==> forall i :: 0 <= i < |es| && HasContent(es[i]) ==> Classify(TypeTag(es[i])) != Total
    decreases |es|
  {
    if es != [] {
      var init := es[..|es| - 1];
      TypedTotalEmptyIff(init);
      assert forall i :: 0 <= i < |init| ==> init[i] == es[i];
    }
  }

  /** Request counts are never negative. */
  lemma {:induction false} CountsNonNegative(es: seq<Entry>, t: ResourceType)
    ensures Bucket(es, t, Totals) >= 0
    decreases |es|
  {
    if es != [] {
      CountsNonNegative(es[..|es| - 1], t);
    }
  }
}
