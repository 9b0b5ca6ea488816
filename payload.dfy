/** The commit sha and repository URL `fetchView` takes from a webhook payload. */
module Payload {
  import opened Wrappers
  import opened Har

  /** JavaScript truthiness of a JSON value. */
  predicate Truthy(v: JsonValue)
  {
    match v
    case JNull => false
    case JBool(b) => b
    case JNum(n) => n != 0
    case JStr(s) => s != ""
    case JArr(_) => true
    case JObj(_) => true
  }

  /** `v.name`: only an object has own members; anything else reads `undefined`. */
  function Member(v: JsonValue, name: string): Option<JsonValue>
  {
    if v.JObj? && name in v.fields then Some(v.fields[name]) else None
  }

  /** `v.name` is present and truthy. */
  predicate HasTruthy(v: JsonValue, name: string)
  {
    Member(v, name).Some? && Truthy(Member(v, name).value)
  }

  /** `log._sha` and `log._repo` of the snapshot; JNull when not set. */
  datatype Commit = Commit(sha: JsonValue, repoUrl: JsonValue)

  /**
   * app.js lines 143-156. `raw` is the `payload` parameter and `parsed` what
   * `JSON.parse` made of it (None when it threw, in which case `payload`
   * stays the raw string, on which `.after` reads `undefined`).
   */
  function CommitOf(raw: Option<string>, parsed: Option<JsonValue>): (c: Commit)
    ensures c.sha == JNull <==> c.repoUrl == JNull
    ensures c.sha != JNull <==>
      && Given(raw) && parsed.Some?
      && HasTruthy(parsed.value, "after")
      && HasTruthy(parsed.value, "repository")
      && HasTruthy(parsed.value.fields["repository"], "url")
    ensures c.sha != JNull ==>
      c.sha == parsed.value.fields["after"] && c.repoUrl == parsed.value.fields["repository"].fields["url"]
  {
    if Given(raw) then
      var payload := if parsed.Some? then parsed.value else JStr(raw.value);
      if Truthy(payload) && HasTruthy(payload, "after") && HasTruthy(payload, "repository")
         && HasTruthy(Member(payload, "repository").value, "url")
      then
        Commit(Member(payload, "after").value, Member(Member(payload, "repository").value, "url").value)
      else
        Commit(JNull, JNull)
    else
      Commit(JNull, JNull)
  }
}
