/**
 * The HAR (HTTP Archive) documents the service captures, enriches and stores,
 * restricted to the fields its code reads or writes.
 */
module Har {
  import opened Wrappers

  /** A parsed JSON value; numbers are modelled as integers. */
  datatype JsonValue =
    | JNull
    | JBool(b: bool)
    | JNum(n: int)
    | JStr(s: string)
    | JArr(items: seq<JsonValue>)
    | JObj(fields: map<string, JsonValue>)

  datatype Header = Header(name: string, value: string)

  datatype Request = Request(verb: string, url: string, headers: seq<Header>)

  /** `response.content`; `ctype` is the capture tool's `_type` classification. */
  datatype Content = Content(ctype: Option<string>, size: int, text: Option<string>)

  datatype Response = Response(status: int, bodySize: int, content: Option<Content>)

  datatype Timings = Timings(wait: int, receive: int)

  /** One request/response pair; `response` may be missing in a captured log. */
  datatype Entry = Entry(request: Request, response: Option<Response>, timings: Timings)

  /** `har.log`, extended with the service's `_ref`, `_sha` and `_repo` tags. */
  datatype Log = Log(entries: seq<Entry>, ref: string, sha: JsonValue, repo: JsonValue)

  datatype Har = Har(log: Log)

  /**
   * The stats buckets. The service keys its maps by the names below; note
   * that the list of buckets contains "total" itself.
   */
  datatype ResourceType =
    | Audio | Css | CssImage | Doc | Flash | Font | InlineCssImage
    | InlineImage | Js | Json | Other | Total | Video

  /** The buckets in the order `resourceTypes` lists them (and objects are keyed). */
  const RESOURCE_TYPES: seq<ResourceType> :=
    [Audio, Css, CssImage, Doc, Flash, Font, InlineCssImage,
     InlineImage, Js, Json, Other, Total, Video]

  /** The key under which the service stores a bucket. */
  function Name(t: ResourceType): string
  {
    match t
    case Audio => "audio"
    case Css => "css"
    case CssImage => "cssimage"
    case Doc => "doc"
    case Flash => "flash"
    case Font => "font"
    case InlineCssImage => "inlinecssimage"
    case InlineImage => "inlineimage"
    case Js => "js"
    case Json => "json"
    case Other => "other"
    case Total => "total"
    case Video => "video"
  }

  /** `resourceTypes.indexOf(s) !== -1`, returning the bucket named `s`. */
  function ParseType(s: string): (r: Option<ResourceType>)
    ensures r.Some? ==> Name(r.value) == s
  {
    if s == "audio" then Some(Audio)
    else if s == "css" then Some(Css)
    else if s == "cssimage" then Some(CssImage)
    else if s == "doc" then Some(Doc)
    else if s == "flash" then Some(Flash)
    else if s == "font" then Some(Font)
    else if s == "inlinecssimage" then Some(InlineCssImage)
    else if s == "inlineimage" then Some(InlineImage)
    else if s == "js" then Some(Js)
    else if s == "json" then Some(Json)
    else if s == "other" then Some(Other)
    else if s == "total" then Some(Total)
    else if s == "video" then Some(Video)
    else None
  }

  /** Every bucket name is recognised, so a `_type` is listed exactly when it names a bucket. */
  lemma ParseName(t: ResourceType)
    ensures ParseType(Name(t)) == Some(t)
  {
  }

  lemma ResourceTypesComplete(t: ResourceType)
    ensures t in RESOURCE_TYPES
  {
  }

  /** Every bucket is listed. */
  lemma AllListed()
    ensures forall t: ResourceType :: t in RESOURCE_TYPES
  {
    forall t: ResourceType
      ensures t in RESOURCE_TYPES
    {
      ResourceTypesComplete(t);
    }
  }

  /** The position of a bucket in RESOURCE_TYPES. */
  function Position(t: ResourceType): (i: nat)
    ensures i < |RESOURCE_TYPES| && RESOURCE_TYPES[i] == t
  {
    match t
    case Audio => 0
    case Css => 1
    case CssImage => 2
    case Doc => 3
    case Flash => 4
    case Font => 5
    case InlineCssImage => 6
    case InlineImage => 7
    case Js => 8
    case Json => 9
    case Other => 10
    case Total => 11
    case Video => 12
  }

  /** Every bucket is listed once. */
  lemma PositionOfListed()
    ensures forall i :: 0 <= i < |RESOURCE_TYPES| ==> Position(RESOURCE_TYPES[i]) == i
  {
  }

  /** The resource types whose body text is kept in a stored snapshot. */
  const ALLOWED_CONTENT_TYPES: seq<string> := ["css", "js", "json", "doc"]

  /** An entry that has both `response` and `response.content`. */
  predicate HasContent(e: Entry)
  {
    e.response.Some? && e.response.value.content.Some?
  }

  /** The `_type` recorded for an entry that has content. */
  function TypeTag(e: Entry): Option<string>
    requires HasContent(e)
  {
    e.response.value.content.value.ctype
  }

  predicate Distinct<T(==)>(s: seq<T>)
  {
    forall i, j :: 0 <= i < j < |s| ==> s[i] != s[j]
  }

  lemma ResourceTypesDistinct()
    ensures Distinct(RESOURCE_TYPES)
  {
  }
}
