/**
 * `processResponses`: every entry of a captured document is requested again
 * and the live response is written back into the entry, at its original index.
 */
module Enrich {
  import opened Wrappers
  import opened Har

  /**
   * The outcome of re-issuing one entry's request: the live status code,
   * the numeric `content-length` header and the body, or a request error.
   */
  datatype Fetched = Ok(status: int, contentLength: int, body: string) | Failed

  /** The options re-issuing a request is given. */
  datatype Options = Options(verb: string, url: string, headers: map<string, string>)

  /**
   * app.js lines 61-69: the request's method and URL, and its header list turned
   * into an object, where a later header overwrites an earlier one of the
   * same name.
   */
  method RequestOptions(r: Request) returns (o: Options)
    ensures o.verb == r.verb && o.url == r.url
    ensures forall name :: name in o.headers <==> exists i :: 0 <= i < |r.headers| && r.headers[i].name == name
    ensures forall i :: 0 <= i < |r.headers| && IsLastNamed(r.headers, i) ==> o.headers[r.headers[i].name] == r.headers[i].value
  {
    var headers: map<string, string> := map[];
    for k := 0 to |r.headers|
      invariant forall name :: name in headers <==> exists i :: 0 <= i < k && r.headers[i].name == name
      invariant forall i :: 0 <= i < k && IsLastNamed(r.headers[..k], i) ==> headers[r.headers[i].name] == r.headers[i].value
    {
      headers := headers[r.headers[k].name := r.headers[k].value];
    }
    assert r.headers[..|r.headers|] == r.headers;
    o := Options(r.verb, r.url, headers);
  }

  /** No header after position `i` has the same name as header `i`. */
  ghost predicate IsLastNamed(hs: seq<Header>, i: int)
    requires 0 <= i < |hs|
  {
    forall j :: i < j < |hs| ==> hs[j].name != hs[i].name
  }

  /** `ALLOWED_CONTENT_TYPES.indexOf(content._type) !== -1`. */
  predicate KeepsText(ctype: Option<string>)
  {
    ctype.Some? && ctype.value in ALLOWED_CONTENT_TYPES
  }

  /**
   * The request callback's writes to entry `e` (app.js lines 72-83). On an error
   * nothing is written. An entry without `response` throws before any write;
   * one without `response.content` throws after `bodySize` and `status` are
   * written.
   */
  function Applied(e: Entry, f: Fetched): (r: Entry)
    ensures r.request == e.request && r.timings == e.timings
    ensures f.Failed? || e.response.None? ==> r == e
    ensures f.Ok? && e.response.Some? ==>
      && r.response.Some?
      && r.response.value.status == f.status
      && r.response.value.bodySize == f.contentLength
      && (r.response.value.content.Some? <==> e.response.value.content.Some?)
    ensures f.Ok? && HasContent(e) ==>
      var c, c' := e.response.value.content.value, r.response.value.content.value;
      && c'.size == r.response.value.bodySize
      && c'.ctype == c.ctype
      && c'.text == (if KeepsText(c.ctype) then Some(f.body) else c.text)
  {
    match f
    case Failed => e
    case Ok(status, contentLength, body) =>
      match e.response
      case None => e
      case Some(resp) =>
        var resp' := resp.(bodySize := contentLength, status := status);
        match resp'.content
        case None => e.(response := Some(resp'))
        case Some(c) =>
          var text := if KeepsText(c.ctype) then Some(body) else c.text;
          e.(response := Some(resp'.(content := Some(c.(size := resp'.bodySize, text := text)))))
  }

  /** The entry's promise resolves: its request succeeded and the callback did not throw. */
  predicate Resolves(e: Entry, f: Fetched)
  {
    f.Ok? && HasContent(e)
  }

  /** A completion order: every index below `n` exactly once. */
  ghost predicate IsCompletionOrder(order: seq<nat>, n: nat)
  {
    && (forall k :: 0 <= k < |order| ==> order[k] < n)
    && (forall j, k :: 0 <= j < k < |order| ==> order[j] != order[k])
    && (forall i :: 0 <= i < n ==> i in order)
  }

  /**
   * `processResponses(data, cb)` on `data.log.entries`, with the requests
   * completing in `order`. Each callback writes into its entry as it completes;
   * `Promise.all` resolves only when every promise resolves, and then each entry
   * is stored back at its own index. The result says whether `cb` is called.
   */
  method ProcessResponses(entries: array<Entry>, fetched: seq<Fetched>, order: seq<nat>) returns (called: bool)
    requires |fetched| == entries.Length
    requires IsCompletionOrder(order, entries.Length)
    modifies entries
    ensures called <==> forall i :: 0 <= i < entries.Length ==> Resolves(old(entries[i]), fetched[i])
    ensures forall i :: 0 <= i < entries.Length ==> entries[i] == Applied(old(entries[i]), fetched[i])
  {
    var resolved := new Option<Entry>[entries.Length](_ => None);
    var rejected := SettleAll(entries, resolved, fetched, order);
    if rejected {
      return false;
    }
    MergeByIndex(entries, resolved, fetched);
    return true;
  }

  /**
   * app.js lines 58-89: every callback runs, in completion order; `resolved[i]` is
   * what promise `i` resolves with, None when it rejects.
   */
  method SettleAll(entries: array<Entry>, resolved: array<Option<Entry>>, fetched: seq<Fetched>, order: seq<nat>)
    returns (rejected: bool)
    requires entries.Length == resolved.Length == |fetched|
    requires IsCompletionOrder(order, entries.Length)
    requires forall i :: 0 <= i < resolved.Length ==> resolved[i] == None
    modifies entries, resolved
    ensures rejected <==> exists i :: 0 <= i < entries.Length && !Resolves(old(entries[i]), fetched[i])
    ensures forall i :: 0 <= i < entries.Length ==> entries[i] == Applied(old(entries[i]), fetched[i])
    ensures forall i :: 0 <= i < entries.Length ==>
      resolved[i] == if Resolves(old(entries[i]), fetched[i]) then Some(entries[i]) else None
  {
    ghost var orig := entries[..];
    var n := entries.Length;
    rejected := false;
    ghost var done: set<nat> := {};
    for k := 0 to |order|
      invariant done == set m | 0 <= m < k :: order[m]
      invariant forall i :: 0 <= i < n && i in done ==> entries[i] == Applied(orig[i], fetched[i])
      invariant forall i :: 0 <= i < n && i !in done ==> entries[i] == orig[i] && resolved[i] == None
      invariant forall i :: 0 <= i < n && i in done ==>
        resolved[i] == if Resolves(orig[i], fetched[i]) then Some(Applied(orig[i], fetched[i])) else None
      invariant rejected <==> exists i :: 0 <= i < n && i in done && !Resolves(orig[i], fetched[i])
    {
      var idx := order[k];
      assert idx !in done;
      var ok := Settle(entries, resolved, fetched, idx);
      rejected := rejected || !ok;
      done := done + {idx};
    }
    assert forall i :: 0 <= i < n ==> i in done by {
      forall i | 0 <= i < n
        ensures i in done
      {
        assert i in order;
        var m :| 0 <= m < |order| && order[m] == i;
      }
    }
  }

  /** app.js lines 91-95: `Promise.all` resolved, so each entry is stored back at its own index. */
  method MergeByIndex(entries: array<Entry>, resolved: array<Option<Entry>>, fetched: seq<Fetched>)
    requires entries.Length == resolved.Length
    requires forall i :: 0 <= i < resolved.Length ==> resolved[i].Some?
    modifies entries
    ensures forall i :: 0 <= i < entries.Length ==> entries[i] == resolved[i].value
  {
    for i := 0 to entries.Length
      invariant forall j :: 0 <= j < i ==> entries[j] == resolved[j].value
    {
      entries[i] := resolved[i].value;
    }
  }

  /**
   * app.js lines 71-85: the request callback of entry `idx` writes into the entry;
   * its promise resolves with the entry, or rejects on a request error or a
   * throw.
   */
  method Settle(entries: array<Entry>, resolved: array<Option<Entry>>, fetched: seq<Fetched>, idx: nat) returns (ok: bool)
    requires entries.Length == resolved.Length == |fetched| && idx < entries.Length
    modifies entries, resolved
    ensures ok == Resolves(old(entries[idx]), fetched[idx])
    ensures entries[idx] == Applied(old(entries[idx]), fetched[idx])
    ensures resolved[idx] == if ok then Some(entries[idx]) else old(resolved[idx])
    ensures forall i :: 0 <= i < entries.Length && i != idx ==> entries[i] == old(entries[i]) && resolved[i] == old(resolved[i])
  {
    var e := entries[idx];
    entries[idx] := Applied(e, fetched[idx]);
    ok := Resolves(e, fetched[idx]);
    if ok {
      resolved[idx] := Some(entries[idx]);
    }
  }

  /**
   * The entries of a document after every callback has run. Enrichment keeps
   * every entry at its position: the same request, the same timings, and a
   * response exactly where the capture recorded one.
   */
  function EnrichedEntries(es: seq<Entry>, fetched: seq<Fetched>): (r: seq<Entry>)
    requires |fetched| == |es|
    ensures |r| == |es|
    ensures forall i :: 0 <= i < |es| ==>
      && r[i].request == es[i].request
      && r[i].timings == es[i].timings
      && (r[i].response.Some? <==> es[i].response.Some?)
      && (HasContent(r[i]) <==> HasContent(es[i]))
  {
    seq(|es|, i requires 0 <= i < |es| => Applied(es[i], fetched[i]))
  }
}
