// The error-monitoring endpoints of apps/web/src/lib/store/api/operationsApi.ts:
// the query string of getSchoolErrors (built step by step, like the
// URLSearchParams it fills), the envelope unwrapping of every transformResponse,
// the status-update request with the cache tags it invalidates, and the stats
// request. A request is returned as a value; nothing is sent.

module OperationsApi {
  import opened Wrappers
  import opened Text

  datatype Severity = LOW | MEDIUM | HIGH | CRITICAL {
    function Name(): string {
      match this
      case LOW => "LOW"
      case MEDIUM => "MEDIUM"
      case HIGH => "HIGH"
      case CRITICAL => "CRITICAL"
    }
  }

  datatype Status = UNRESOLVED | INVESTIGATING | RESOLVED | IGNORED {
    function Name(): string {
      match this
      case UNRESOLVED => "UNRESOLVED"
      case INVESTIGATING => "INVESTIGATING"
      case RESOLVED => "RESOLVED"
      case IGNORED => "IGNORED"
    }
  }

  /** The request context recorded with an error; every part is optional. */
  datatype RequestContext = RequestContext(
    verb: Option<string>, path: Option<string>, ip: Option<string>, userAgent: Option<string>)

  /** `ApplicationError`, with the fields the views read. `id` is the record's key and
      `errorId` the identifier the status endpoint takes. */
  datatype ApplicationError = ApplicationError(
    id: string, errorId: string, errorType: string, message: string,
    stackTrace: Option<string>, context: Option<RequestContext>,
    severity: Severity, status: Status, occurrences: int)

  /** `ErrorFilters`: every filter is optional. */
  datatype ErrorFilters = ErrorFilters(
    severity: Option<Severity>, status: Option<Status>, errorType: Option<string>,
    startDate: Option<string>, endDate: Option<string>, limit: Option<int>, offset: Option<int>)

  const NoFilters := ErrorFilters(None, None, None, None, None, None, None)

  /** `if (n)` on an optional number: absent and 0 are both falsy. */
  predicate NumTruthy(n: Option<int>) { n.Some? && n.value != 0 }

  // ---------------------------------------------------------------------------
  // The getSchoolErrors query string
  // ---------------------------------------------------------------------------

  /** The seven parameter names, each with its place in the query. */
  datatype ParamKey = SeverityKey | StatusKey | ErrorTypeKey | StartDateKey | EndDateKey | LimitKey | OffsetKey {
    function Name(): string {
      match this
      case SeverityKey => "severity"
      case StatusKey => "status"
      case ErrorTypeKey => "errorType"
      case StartDateKey => "startDate"
      case EndDateKey => "endDate"
      case LimitKey => "limit"
      case OffsetKey => "offset"
    }
    function Rank(): nat {
      match this
      case SeverityKey => 0
      case StatusKey => 1
      case ErrorTypeKey => 2
      case StartDateKey => 3
      case EndDateKey => 4
      case LimitKey => 5
      case OffsetKey => 6
    }
  }

  datatype Param = Param(key: ParamKey, value: string)

  /** The value a filter contributes, when it is truthy. */
  function ValueOf(f: ErrorFilters, k: ParamKey): (v: Option<string>)
    ensures v.Some? ==> v.value != ""
  {
    match k
    case SeverityKey => if f.severity.Some? then Some(f.severity.value.Name()) else None
    case StatusKey => if f.status.Some? then Some(f.status.value.Name()) else None
    case ErrorTypeKey => if Truthy(f.errorType) then f.errorType else None
    case StartDateKey => if Truthy(f.startDate) then f.startDate else None
    case EndDateKey => if Truthy(f.endDate) then f.endDate else None
    case LimitKey => if NumTruthy(f.limit) then Some(IntToString(f.limit.value)) else None
    case OffsetKey => if NumTruthy(f.offset) then Some(IntToString(f.offset.value)) else None
  }

  /** The key of each rank. */
  function KeyAt(n: nat): (k: ParamKey)
    requires n < 7
    ensures k.Rank() == n
  {
    if n == 0 then SeverityKey else if n == 1 then StatusKey else if n == 2 then ErrorTypeKey
    else if n == 3 then StartDateKey else if n == 4 then EndDateKey else if n == 5 then LimitKey
    else OffsetKey
  }

  /** One key's contribution: a single parameter when its filter is truthy. */
  function Only(f: ErrorFilters, k: ParamKey): (ps: seq<Param>)
    ensures forall p :: p in ps <==> p.key == k && ValueOf(f, k) == Some(p.value)
  {
    ParamIf(k, ValueOf(f, k))
  }

  /** A single parameter for a present value, none for an absent one. */
  function ParamIf(k: ParamKey, v: Option<string>): (ps: seq<Param>)
    ensures v.Some? ==> ps == [Param(k, v.value)]
    ensures v.None? ==> ps == []
  {
    if v.Some? then [Param(k, v.value)] else []
  }

  /** The reference definition: the keys of rank below `n`, in rank order, each kept
      when its filter is truthy. */
  function Upto(f: ErrorFilters, n: nat): seq<Param>
    requires n <= 7
  {
    if n == 0 then [] else Upto(f, n - 1) + Only(f, KeyAt(n - 1))
  }

  function QueryParams(f: ErrorFilters): seq<Param> { Upto(f, 7) }

  predicate RankedBefore(ps: seq<Param>) {
    forall i, j :: 0 <= i < j < |ps| ==> ps[i].key.Rank() < ps[j].key.Rank()
  }

  /** The parameters below rank `n` are exactly the truthy filters of those ranks, in rank order. */
  lemma {:induction false} UptoMeaning(f: ErrorFilters, n: nat)
    requires n <= 7
    ensures forall p :: p in Upto(f, n) <==> p.key.Rank() < n && ValueOf(f, p.key) == Some(p.value)
    ensures RankedBefore(Upto(f, n))
  {
    if n > 0 {
      UptoMeaning(f, n - 1);
      var ps := Upto(f, n - 1);
      var k := KeyAt(n - 1);
      var qs := ps + Only(f, k);
      assert Upto(f, n) == qs;
      forall p ensures p in qs <==> p.key.Rank() < n && ValueOf(f, p.key) == Some(p.value) {
        if p.key.Rank() == n - 1 {
          assert p.key == k;
        }
      }
      forall i, j | 0 <= i < j < |qs| ensures qs[i].key.Rank() < qs[j].key.Rank() {
        assert qs[i] in ps;
        if j >= |ps| {
          assert qs[j] in Only(f, k);
        } else {
          assert qs[j] == ps[j];
        }
      }
    }
  }

  /** The query's parameters: one per truthy filter, and in the fixed order severity,
      status, errorType, startDate, endDate, limit, offset. */
  lemma {:induction false} QueryParamsMeaning(f: ErrorFilters)
    ensures forall p :: p in QueryParams(f) <==> ValueOf(f, p.key) == Some(p.value)
    ensures RankedBefore(QueryParams(f))
  {
    UptoMeaning(f, 7);
  }

  /** `if (value) params.append(key, value)`, with the filter's truthiness folded
      into `ValueOf`. */
  method AppendIf(params: seq<Param>, k: ParamKey, v: Option<string>) returns (r: seq<Param>)
    ensures r == params + ParamIf(k, v)
  {
    r := params;
    if v.Some? {
      r := r + [Param(k, v.value)];
    }
  }

  /** The `params.append` sequence of the query builder: severity, status, errorType,
      startDate, endDate, limit and offset, each appended when its filter is truthy. */
  method BuildParams(f: ErrorFilters) returns (params: seq<Param>)
    ensures params == QueryParams(f)
  {
    params := [];
    ghost var before0 := params;
    params := AppendIf(params, SeverityKey, ValueOf(f, SeverityKey));
    UptoNext(f, 0, SeverityKey, before0, params);
    ghost var before1 := params;
    params := AppendIf(params, StatusKey, ValueOf(f, StatusKey));
    UptoNext(f, 1, StatusKey, before1, params);
    ghost var before2 := params;
    params := AppendIf(params, ErrorTypeKey, ValueOf(f, ErrorTypeKey));
    UptoNext(f, 2, ErrorTypeKey, before2, params);
    ghost var before3 := params;
    params := AppendIf(params, StartDateKey, ValueOf(f, StartDateKey));
    UptoNext(f, 3, StartDateKey, before3, params);
    ghost var before4 := params;
    params := AppendIf(params, EndDateKey, ValueOf(f, EndDateKey));
    UptoNext(f, 4, EndDateKey, before4, params);
    ghost var before5 := params;
    params := AppendIf(params, LimitKey, ValueOf(f, LimitKey));
    UptoNext(f, 5, LimitKey, before5, params);
    ghost var before6 := params;
    params := AppendIf(params, OffsetKey, ValueOf(f, OffsetKey));
    UptoNext(f, 6, OffsetKey, before6, params);
  }

  /** One more rank adds that rank's parameter, when its filter is truthy, at the end. */
  lemma {:induction false} UptoNext(f: ErrorFilters, n: nat, k: ParamKey, before: seq<Param>, after: seq<Param>)
    requires n < 7 && k.Rank() == n && before == Upto(f, n)
    requires after == before + Only(f, k)
    ensures after == Upto(f, n + 1)
  {
    assert KeyAt(n) == k;
  }

  /** `params.toString()`, with the encoding left out: `key=value` pairs joined by '&'. */
  function QueryString(params: seq<Param>): string {
    Join(seq(|params|, i requires 0 <= i < |params| => params[i].key.Name() + "=" + params[i].value), "&")
  }

  /** A join of non-empty pieces is empty only when there are no pieces. */
  lemma {:induction false} JoinEmpty(xs: seq<string>, sep: string)
    requires forall i :: 0 <= i < |xs| ==> xs[i] != ""
    ensures Join(xs, sep) == "" <==> xs == []
  {
    if |xs| > 1 {
      assert |Join(xs, sep)| >= |xs[0]|;
    }
  }

  lemma {:induction false} QueryStringEmpty(params: seq<Param>)
    ensures QueryString(params) == "" <==> params == []
  {
    var xs := seq(|params|, i requires 0 <= i < |params| => params[i].key.Name() + "=" + params[i].value);
    forall i | 0 <= i < |xs| ensures xs[i] != "" {
      assert |xs[i]| >= 1;
    }
    JoinEmpty(xs, "&");
  }

  datatype Request = Request(url: string, verb: string, body: Option<Status>, params: seq<Param>)

  function SchoolErrorsPath(schoolId: string): string {
    "/operations/schools/" + schoolId + "/errors"
  }

  /** getSchoolErrors' request: the school's errors path, and `?query` only when the
      query is non-empty. Absent filters count as `{}`. */
  method SchoolErrorsQuery(schoolId: string, filters: Option<ErrorFilters>) returns (req: Request)
    ensures req.verb == "GET" && req.params == [] && req.body.None?
    ensures QueryParams(filters.GetOr(NoFilters)) == [] ==> req.url == SchoolErrorsPath(schoolId)
    ensures QueryParams(filters.GetOr(NoFilters)) != [] ==>
      req.url == SchoolErrorsPath(schoolId) + "?" + QueryString(QueryParams(filters.GetOr(NoFilters)))
  {
    var params := BuildParams(filters.GetOr(NoFilters));
    var queryString := QueryString(params);
    QueryStringEmpty(params);
    var suffix := if queryString != "" then "?" + queryString else "";
    req := Request(SchoolErrorsPath(schoolId) + suffix, "GET", None, []);
  }

  /** With no filter set, the request is for the bare path. */
  lemma {:induction false} NoFiltersBarePath(f: ErrorFilters)
    requires f.severity.None? && f.status.None? && !Truthy(f.errorType) && !Truthy(f.startDate)
    requires !Truthy(f.endDate) && !NumTruthy(f.limit) && !NumTruthy(f.offset)
    ensures QueryParams(f) == []
  {
    QueryParamsMeaning(f);
  }

  /** A limit or offset of 0 is left out of the query, like an absent one. */
  lemma {:induction false} ZeroPagingOmitted(f: ErrorFilters)
    ensures QueryParams(f.(limit := Some(0), offset := Some(0))) == QueryParams(f.(limit := None, offset := None))
  {
    var z, n := f.(limit := Some(0), offset := Some(0)), f.(limit := None, offset := None);
    forall k: ParamKey ensures ValueOf(z, k) == ValueOf(n, k) {
    }
    UptoSameValues(z, n, 7);
  }

  /** Filter sets that contribute the same values yield the same parameters. */
  lemma {:induction false} UptoSameValues(f: ErrorFilters, g: ErrorFilters, n: nat)
    requires n <= 7
    requires forall k: ParamKey :: ValueOf(f, k) == ValueOf(g, k)
    ensures Upto(f, n) == Upto(g, n)
  {
    if n > 0 {
      UptoSameValues(f, g, n - 1);
    }
  }

  // ---------------------------------------------------------------------------
  // transformResponse
  // ---------------------------------------------------------------------------

  /** A JSON reply body. */
  datatype Json = Null | Bool(b: bool) | Num(n: int) | Str(s: string) | Arr(items: seq<Json>) | Obj(fields: map<string, Json>)

  /** JavaScript truthiness of a JSON value: objects and arrays, even empty, are truthy. */
  predicate JsonTruthy(j: Json) {
    match j
    case Null => false
    case Bool(b) => b
    case Num(n) => n != 0
    case Str(s) => s != ""
    case Arr(_) => true
    case Obj(_) => true
  }

  /** `response?.data`: a field of an object, absent otherwise. */
  function DataOf(response: Json): Option<Json> {
    if response.Obj? && "data" in response.fields then Some(response.fields["data"]) else None
  }

  /** `response?.data || response`: the envelope's data when truthy, else the whole reply. */
  function TransformResponse(response: Json): (r: Json)
    ensures DataOf(response).Some? && JsonTruthy(DataOf(response).value) ==> r == DataOf(response).value
    ensures !(DataOf(response).Some? && JsonTruthy(DataOf(response).value)) ==> r == response
  {
    var d := DataOf(response);
    if d.Some? && JsonTruthy(d.value) then d.value else response
  }

  /** A ResponseDto envelope around a truthy payload gives back the payload. */
  lemma {:induction false} EnvelopeUnwrapped(payload: Json, rest: map<string, Json>)
    requires JsonTruthy(payload)
    ensures TransformResponse(Obj(rest["data" := payload])) == payload
  {
  }

  /** An empty list is still data, but a falsy payload (0, "", false, null) leaves the
      envelope in place. */
  lemma {:induction false} FalsyPayloadKeepsEnvelope(rest: map<string, Json>)
    ensures TransformResponse(Obj(rest["data" := Arr([])])) == Arr([])
    ensures TransformResponse(Obj(rest["data" := Num(0)])) == Obj(rest["data" := Num(0)])
    ensures TransformResponse(Obj(rest["data" := Null])) == Obj(rest["data" := Null])
  {
  }

  // ---------------------------------------------------------------------------
  // Error details, status updates and cache tags
  // ---------------------------------------------------------------------------

  datatype Tag = Tag(kind: string, id: string)

  function ErrorDetailsRequest(errorId: string): (req: Request)
    ensures req.url == "/operations/errors/" + errorId && req.verb == "GET"
  {
    Request("/operations/errors/" + errorId, "GET", None, [])
  }

  function ErrorDetailsTags(errorId: string): seq<Tag> { [Tag("Error", errorId)] }

  function SchoolErrorsTags(schoolId: string): seq<Tag> { [Tag("SchoolErrors", schoolId)] }

  function StatsTags(schoolId: string): seq<Tag> { [Tag("ErrorStats", schoolId)] }

  /** updateErrorStatus: a PATCH of `{status}` to the error's status path. */
  function UpdateStatusRequest(errorId: string, status: Status): (req: Request)
    ensures req.verb == "PATCH" && req.body == Some(status) && req.params == []
    ensures req.url == "/operations/errors/" + errorId + "/status"
  {
    Request("/operations/errors/" + errorId + "/status", "PATCH", Some(status), [])
  }

  /** The tags a status update invalidates: the error itself and the two LIST tags. */
  function UpdateStatusInvalidates(errorId: string): (tags: seq<Tag>)
    ensures |tags| == 3
    ensures forall t :: t in tags <==>
      (t == ErrorDetailsTags(errorId)[0] || (t.id == "LIST" && (t.kind == "SchoolErrors" || t.kind == "ErrorStats")))
  {
    [Tag("Error", errorId), Tag("SchoolErrors", "LIST"), Tag("ErrorStats", "LIST")]
  }

  /** The LIST tags are not the tags the list and stats queries provide (those carry the
      school id), so an exact tag match only refreshes the error's details. */
  lemma {:induction false} ListTagsDifferFromProvided(errorId: string, schoolId: string)
    requires schoolId != "LIST"
    ensures SchoolErrorsTags(schoolId)[0] !in UpdateStatusInvalidates(errorId)
    ensures StatsTags(schoolId)[0] !in UpdateStatusInvalidates(errorId)
  {
  }

  // ---------------------------------------------------------------------------
  // getSchoolErrorStats
  // ---------------------------------------------------------------------------

  const DefaultStatsDays := 30

  /** The stats request; `days` is its only query parameter. */
  datatype StatsQuery = StatsQuery(url: string, verb: string, days: Option<string>)

  /** `days` defaults to 30 when absent and is sent only when truthy. */
  function StatsRequest(schoolId: string, days: Option<int>): (req: StatsQuery)
    ensures req.url == "/operations/schools/" + schoolId + "/errors/stats" && req.verb == "GET"
    ensures days.None? ==> req.days == Some("30")
    ensures days == Some(0) ==> req.days.None?
    ensures days.Some? && days.value != 0 ==> req.days == Some(IntToString(days.value))
  {
    var d := days.GetOr(DefaultStatsDays);
    assert IntToString(30) == "30";
    StatsQuery("/operations/schools/" + schoolId + "/errors/stats", "GET",
               if d != 0 then Some(IntToString(d)) else None)
  }
}
