/** The frontend's runtime check of issue lists received from the backend: a
    structural test of an untyped JSON value and an order-preserving filter.
    JSON is modelled as a datatype; a property that is absent reads as
    JavaScript's undefined. */
module IssueValidation {
  import opened Schema
  import opened Seqs

  datatype Json =
    | JNull
    | JBool(b: bool)
    | JNumber(n: real)
    | JString(s: string)
    | JArray(items: seq<Json>)
    | JObject(fields: map<string, Json>)

  /** JavaScript's `typeof v === 'object'`: true for null and for arrays as well. */
  predicate IsObjectType(v: Json) {
    v.JNull? || v.JArray? || v.JObject?
  }

  /** The property read `v.name`; None stands for undefined. An array has none
      of the named properties read here. */
  function Property(v: Json, name: string): (r: Option<Json>)
    ensures r.Some? <==> v.JObject? && name in v.fields
  {
    if v.JObject? && name in v.fields then Some(v.fields[name]) else None
  }

  const ValidSeverities: seq<string> := ["info", "warning", "error"]

  const ValidTypes: seq<string> := [
    "unconnected_net",
    "short_circuit",
    "clearance_violation",
    "board_edge",
    "missing_component",
    "invalid_connection"]

  /** The frontend's tables name exactly the severities and issue types of the schema. */
  lemma TablesMatchSchema(name: string)
    ensures name in ValidSeverities <==> ParseSeverity(name).Some?
    ensures name in ValidTypes <==> ParseIssueType(name).Some?
  {
  }

  predicate IsStringProperty(v: Json, name: string) {
    Property(v, name).Some? && Property(v, name).value.JString?
  }

  predicate IsStringIn(v: Json, name: string, table: seq<string>) {
    IsStringProperty(v, name) && Property(v, name).value.s in table
  }

  predicate AllStrings(items: seq<Json>) {
    forall k :: 0 <= k < |items| ==> items[k].JString?
  }

  /** `relatedIds` is an array whose every element is a string. */
  predicate HasRelatedIds(v: Json) {
    Property(v, "relatedIds").Some? && Property(v, "relatedIds").value.JArray? &&
    AllStrings(Property(v, "relatedIds").value.items)
  }

  /** `location` is undefined, or of type object (null and arrays included). */
  predicate HasLocationShape(v: Json) {
    Property(v, "location").None? || IsObjectType(Property(v, "location").value)
  }

  /** The type guard: an object, not null, with the fields of an issue. */
  predicate IsIssue(v: Json)
    ensures IsIssue(v) ==>
      (v.JObject? && "id" in v.fields && "type" in v.fields && "severity" in v.fields &&
       "message" in v.fields && "relatedIds" in v.fields)
  {
    if !IsObjectType(v) || v == JNull then false
    else
      && IsStringProperty(v, "id")
      && IsStringIn(v, "type", ValidTypes)
      && IsStringIn(v, "severity", ValidSeverities)
      && IsStringProperty(v, "message")
      && HasRelatedIds(v)
      && HasLocationShape(v)
  }

  /** A non-array yields no issue; an array keeps its issues, in order. */
  function ValidateIssues(raw: Json): (r: seq<Json>)
    ensures !raw.JArray? ==> r == []
    ensures raw.JArray? ==> |r| <= |raw.items|
    ensures forall k :: 0 <= k < |r| ==> IsIssue(r[k])
    ensures raw.JArray? ==> forall k :: 0 <= k < |raw.items| && IsIssue(raw.items[k]) ==> raw.items[k] in r
  {
    if raw.JArray? then Filter(raw.items, IsIssue) else []
  }

  /** The output is the input with some elements removed, the rest in order,
      and every issue is kept as often as it occurs. */
  lemma ValidateIssuesSubsequence(raw: Json, x: Json)
    requires raw.JArray?
    ensures IsSubsequence(ValidateIssues(raw), raw.items)
    ensures multiset(ValidateIssues(raw))[x] == if IsIssue(x) then multiset(raw.items)[x] else 0
  {
    FilterIsSubsequence(raw.items, IsIssue);
    FilterMultiplicity(raw.items, IsIssue, x);
  }

  lemma ValidateIssuesIdempotent(raw: Json)
    ensures ValidateIssues(JArray(ValidateIssues(raw))) == ValidateIssues(raw)
  {
    if raw.JArray? {
      FilterIdempotent(raw.items, IsIssue);
    }
  }

  /** Nothing is dropped exactly when every element is an issue. */
  lemma ValidateIssuesKeepsAll(raw: Json)
    requires raw.JArray?
    ensures ValidateIssues(raw) == raw.items <==> forall k :: 0 <= k < |raw.items| ==> IsIssue(raw.items[k])
  {
    FilterUnchanged(raw.items, IsIssue);
  }

  /** The reasons a value is refused, one per field rule. */
  lemma IsIssueRejects(v: Json)
    ensures !v.JObject? ==> !IsIssue(v)
    ensures !IsStringProperty(v, "id") || !IsStringProperty(v, "message") ==> !IsIssue(v)
    ensures IsStringProperty(v, "type") && Property(v, "type").value.s !in ValidTypes ==> !IsIssue(v)
    ensures IsStringProperty(v, "severity") && Property(v, "severity").value.s !in ValidSeverities ==> !IsIssue(v)
    ensures Property(v, "relatedIds").Some? && !Property(v, "relatedIds").value.JArray? ==> !IsIssue(v)
    ensures Property(v, "relatedIds").Some? && Property(v, "relatedIds").value.JArray? &&
      (exists k :: 0 <= k < |Property(v, "relatedIds").value.items| && !Property(v, "relatedIds").value.items[k].JString?)
      ==> !IsIssue(v)
  {
  }

  // ---------------------------------------------------------------------------
  // Decoding an accepted value back to the schema's issue

  function EncodeLocationValue(x: LocationValue): Json {
    match x
    case LocText(t) => JString(t)
    case LocNumber(n) => JNumber(n)
  }

  function EncodeLocation(loc: map<string, LocationValue>): map<string, Json> {
    map k | k in loc :: EncodeLocationValue(loc[k])
  }

  function DecodeLocationValue(j: Json): LocationValue
    requires j.JString? || j.JNumber?
  {
    if j.JString? then LocText(j.s) else LocNumber(j.n)
  }

  /** A location object whose values are all strings or numbers. */
  function DecodeLocation(fields: map<string, Json>): Option<map<string, LocationValue>> {
    if forall k :: k in fields ==> fields[k].JString? || fields[k].JNumber? then
      Some(map k | k in fields :: DecodeLocationValue(fields[k]))
    else None
  }

  lemma LocationRoundTrip(loc: map<string, LocationValue>)
    ensures DecodeLocation(EncodeLocation(loc)) == Some(loc)
  {
    var e := EncodeLocation(loc);
    assert forall k :: k in e ==> e[k].JString? || e[k].JNumber?;
    var d := map k | k in e :: DecodeLocationValue(e[k]);
    assert forall k :: k in d ==> d[k] == loc[k];
    assert d == loc;
  }

  function StringsOf(items: seq<Json>): (r: seq<string>)
    requires AllStrings(items)
    ensures |r| == |items| && forall k :: 0 <= k < |r| ==> items[k] == JString(r[k])
  {
    seq(|items|, k requires 0 <= k < |items| => items[k].s)
  }

  /** The issue an accepted value denotes. A location that is null is None; a
      location that is an array or holds values other than strings and numbers
      lies outside the model's `LocationValue` and is refused. */
  function DecodeIssue(v: Json): (r: Option<Issue>)
    ensures r.Some? ==> IsIssue(v)
  {
    if !IsIssue(v) then None
    else
      var kind := ParseIssueType(Property(v, "type").value.s);
      var severity := ParseSeverity(Property(v, "severity").value.s);
      TablesMatchSchema(Property(v, "type").value.s);
      TablesMatchSchema(Property(v, "severity").value.s);
      var location: Option<Option<map<string, LocationValue>>> :=
        match Property(v, "location")
        case None => Some(None)
        case Some(JNull) => Some(None)
        case Some(JObject(fields)) =>
          (match DecodeLocation(fields)
           case None => None
           case Some(m) => Some(Some(m)))
        case Some(_) => None;
      if location.None? then None
      else
        Some(Issue(
          id := Property(v, "id").value.s,
          kind := kind.value,
          severity := severity.value,
          message := Property(v, "message").value.s,
          relatedIds := StringsOf(Property(v, "relatedIds").value.items),
          location := location.value))
  }

  // ---------------------------------------------------------------------------
  // The wire form of an issue

  function StringArray(ids: seq<string>): (r: Json)
    ensures r.JArray? && AllStrings(r.items) && StringsOf(r.items) == ids
  {
    var r := JArray(seq(|ids|, k requires 0 <= k < |ids| => JString(ids[k])));
    assert StringsOf(r.items) == ids;
    r
  }

  function LocationJson(location: Option<map<string, LocationValue>>): Json {
    match location
    case None => JNull
    case Some(m) => JObject(EncodeLocation(m))
  }

  /** The backend's response body for an issue: the model's field names, so
      the related ids travel under "related_ids". */
  function BackendIssueJson(iss: Issue): Json {
    JObject(map[
      "id" := JString(iss.id),
      "type" := JString(IssueTypeName(iss.kind)),
      "severity" := JString(SeverityName(iss.severity)),
      "message" := JString(iss.message),
      "related_ids" := StringArray(iss.relatedIds),
      "location" := LocationJson(iss.location)])
  }

  /** The frontend never sees a "relatedIds" property in the backend's issues,
      so it refuses every one of them. */
  lemma BackendIssueRejected(iss: Issue)
    ensures !IsIssue(BackendIssueJson(iss))
  {
    var v := BackendIssueJson(iss);
    assert "relatedIds" !in v.fields;
  }

  /** Whatever the design-rule check reports, the frontend keeps nothing of it. */
  lemma BackendReportDropped(issues: seq<Issue>)
    ensures ValidateIssues(JArray(seq(|issues|, k requires 0 <= k < |issues| => BackendIssueJson(issues[k])))) == []
  {
    var items := seq(|issues|, k requires 0 <= k < |issues| => BackendIssueJson(issues[k]));
    forall k | 0 <= k < |items|
      ensures !IsIssue(items[k])
    {
      BackendIssueRejected(issues[k]);
    }
    FilterEmpty(items, IsIssue);
  }

  /** The issue as the frontend reads it: the same fields, the related ids
      under "relatedIds". */
  function ClientIssueJson(iss: Issue): Json {
    JObject(map[
      "id" := JString(iss.id),
      "type" := JString(IssueTypeName(iss.kind)),
      "severity" := JString(SeverityName(iss.severity)),
      "message" := JString(iss.message),
      "relatedIds" := StringArray(iss.relatedIds),
      "location" := LocationJson(iss.location)])
  }

  /** Every issue in the frontend's form is accepted and decodes back to itself. */
  lemma ClientIssueRoundTrip(iss: Issue)
    ensures IsIssue(ClientIssueJson(iss))
    ensures DecodeIssue(ClientIssueJson(iss)) == Some(iss)
  {
    var v := ClientIssueJson(iss);
    SeverityRoundTrip(iss.severity, SeverityName(iss.severity));
    IssueTypeRoundTrip(iss.kind, IssueTypeName(iss.kind));
    assert IsIssue(v);
    if iss.location.Some? {
      LocationRoundTrip(iss.location.value);
    }
  }

  /** An issue whose location property is absent altogether is accepted too,
      and decodes to the issue without a location. */
  lemma ClientIssueWithoutLocation(iss: Issue)
    ensures IsIssue(JObject(ClientIssueJson(iss).fields - {"location"}))
    ensures DecodeIssue(JObject(ClientIssueJson(iss).fields - {"location"})) == Some(iss.(location := None))
  {
    ClientIssueRoundTrip(iss);
    var v := JObject(ClientIssueJson(iss).fields - {"location"});
    assert Property(v, "location").None?;
  }

  /** In the frontend's form a whole report passes validation unchanged. */
  lemma ClientReportKept(issues: seq<Issue>)
    ensures var items := seq(|issues|, k requires 0 <= k < |issues| => ClientIssueJson(issues[k]));
      ValidateIssues(JArray(items)) == items
  {
    var items := seq(|issues|, k requires 0 <= k < |issues| => ClientIssueJson(issues[k]));
    forall k | 0 <= k < |items|
      ensures IsIssue(items[k])
    {
      ClientIssueRoundTrip(issues[k]);
    }
    ValidateIssuesKeepsAll(JArray(items));
  }
}
