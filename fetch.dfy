/**
 * `fetchView` once its deferred work runs: capture, tag, enrich and append
 * one snapshot, or stop at the first failure without storing anything.
 */
module Fetch {
  import opened Wrappers
  import opened Har
  import opened Capture
  import opened Payload
  import opened Enrich
  import opened Store

  /**
   * What the capture process left behind: how it ended, its stderr, and its
   * stdout as the HAR document `JSON.parse` makes of it.
   */
  datatype CaptureRun = CaptureRun(exit: Exit, stderr: string, har: Har)

  /** app.js line 141: the `ref` parameter, or the current time when it is missing or empty. */
  function RefOrNow(ref: Option<string>, now: string): string
  {
    if Given(ref) then ref.value else now
  }

  /** The document appended for a run: its entries enriched, its log tagged. */
  function Snapshot(h: Har, ref: string, commit: Commit, fetched: seq<Fetched>): Har
    requires |fetched| == |h.log.entries|
  {
    Har(Log(EnrichedEntries(h.log.entries, fetched), ref, commit.sha, commit.repoUrl))
  }

  /** A run is stored when the capture reported no error and every re-fetch resolved. */
  predicate Persists(run: CaptureRun, script: string, fetched: seq<Fetched>)
    requires |fetched| == |run.har.log.entries|
  {
    && ExitError(run.exit, run.stderr, script) == ""
    && forall i :: 0 <= i < |fetched| ==> Resolves(run.har.log.entries[i], fetched[i])
  }

  /**
   * app.js lines 139-177 without the scheduling: `key` is the encoded URL,
   * `script` the capture script, `url` the URL it captures, `delay` the
   * request's `phantom_delay` the capture is started with (app.js line 159;
   * `DATA.delay` only defers the work, app.js line 178), `run` how the
   * capture ended, `now` the current time, `raw`/`parsed` the payload and its
   * parse, `fetched` the live responses and `order` the order in which they
   * complete.
   */
  method FetchView(store: Store, key: string, script: string, url: string, delay: Option<string>, run: CaptureRun,
                   ref: Option<string>, now: string,
                   raw: Option<string>, parsed: Option<JsonValue>, fetched: seq<Fetched>, order: seq<nat>)
    returns (persisted: bool)
    requires |fetched| == |run.har.log.entries|
    requires IsCompletionOrder(order, |fetched|)
    modifies store
    ensures persisted <==> Persists(run, script, fetched)
    ensures persisted ==>
      store.LRange(key) == old(store.LRange(key)) + [Snapshot(run.har, RefOrNow(ref, now), CommitOf(raw, parsed), fetched)]
    ensures forall k :: k != key || !persisted ==> store.LRange(k) == old(store.LRange(k))
  {
    var tag := RefOrNow(ref, now);
    var commit := CommitOf(raw, parsed);
    var args := CaptureArgs(script, url, delay);
    var err := ExitError(run.exit, run.stderr, args[0]);
    if err != "" {
      return false;
    }
    var es := run.har.log.entries;
    var entries := new Entry[|es|](i requires 0 <= i < |es| => es[i]);
    var called := ProcessResponses(entries, fetched, order);
    if !called {
      return false;
    }
    assert entries[..] == EnrichedEntries(es, fetched);
    var data := Har(Log(entries[..], tag, commit.sha, commit.repoUrl));
    store.RPush(key, data);
    return true;
  }
}
