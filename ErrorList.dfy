// The error list of apps/web/src/components/schools/ErrorList.tsx: its filter
// state and the query it derives (always limit 50, offset 0), the actions each
// row offers, and the status updates sent from a row or from the detail modal.
// The mutation is a parameter: its outcome is passed in as a reply, and the
// request that was sent is recorded.

module ErrorList {
  import opened Wrappers
  import opened Text
  import opened OperationsApi
  import ErrorDetail

  /** The component's `filters` state. */
  datatype ListFilters = ListFilters(severity: Option<Severity>, status: Option<Status>, errorType: Option<string>)

  const PageLimit := 50

  /** `{...filters, limit: 50, offset: 0}`: the filters the list asks for. */
  function QueryFilters(f: ListFilters): (q: ErrorFilters)
    ensures q.severity == f.severity && q.status == f.status && q.errorType == f.errorType
    ensures q.startDate.None? && q.endDate.None?
    ensures q.limit == Some(PageLimit) && q.offset == Some(0)
  {
    ErrorFilters(f.severity, f.status, f.errorType, None, None, Some(PageLimit), Some(0))
  }

  /** The query always carries the limit, and never the offset: 0 is falsy, so the
      query builder drops it. */
  lemma {:induction false} ListQueryPaging(f: ListFilters)
    ensures Param(LimitKey, IntToString(PageLimit)) in QueryParams(QueryFilters(f))
    ensures forall p :: p in QueryParams(QueryFilters(f)) ==> p.key != OffsetKey
  {
    QueryParamsMeaning(QueryFilters(f));
  }

  /** The value of a `<select>` option: "" is All, the others name a level. */
  function ParseSeverity(value: string): (s: Option<Severity>)
    ensures s.Some? ==> s.value.Name() == value
    ensures value == "" ==> s.None?
  {
    if value == "LOW" then Some(LOW) else if value == "MEDIUM" then Some(MEDIUM)
    else if value == "HIGH" then Some(HIGH) else if value == "CRITICAL" then Some(CRITICAL)
    else None
  }

  function ParseStatus(value: string): (s: Option<Status>)
    ensures s.Some? ==> s.value.Name() == value
    ensures value == "" ==> s.None?
  {
    if value == "UNRESOLVED" then Some(UNRESOLVED) else if value == "INVESTIGATING" then Some(INVESTIGATING)
    else if value == "RESOLVED" then Some(RESOLVED) else if value == "IGNORED" then Some(IGNORED)
    else None
  }

  /** `value || undefined` for the free-text type filter. */
  function TypeFilter(value: string): (t: Option<string>)
    ensures t.None? <==> value == ""
    ensures t.Some? ==> t.value == value
  {
    if value == "" then None else Some(value)
  }

  // ---------------------------------------------------------------------------
  // What each row shows
  // ---------------------------------------------------------------------------

  /** The row's action buttons: resolve unless already resolved, investigate only
      while unresolved. */
  function RowActions(e: ApplicationError): (ts: seq<Status>)
    ensures RESOLVED in ts <==> e.status != RESOLVED
    ensures INVESTIGATING in ts <==> e.status == UNRESOLVED
    ensures forall t :: t in ts ==> t == RESOLVED || t == INVESTIGATING
  {
    (if e.status != RESOLVED then [RESOLVED] else []) + (if e.status == UNRESOLVED then [INVESTIGATING] else [])
  }

  /** An unresolved row offers both actions, an investigating or ignored row only
      resolve, a resolved row none. */
  lemma {:induction false} RowActionCases(e: ApplicationError)
    ensures e.status == UNRESOLVED ==> RowActions(e) == [RESOLVED, INVESTIGATING]
    ensures e.status == INVESTIGATING || e.status == IGNORED ==> RowActions(e) == [RESOLVED]
    ensures e.status == RESOLVED ==> RowActions(e) == []
  {
  }

  /** Every action a row offers is also enabled in the detail modal. */
  lemma {:induction false} RowActionsEnabledInDetail(e: ApplicationError)
    ensures forall t :: t in RowActions(e) ==> t in ErrorDetail.EnabledTargets(e)
  {
    ErrorDetail.EnabledTargetsAreTheOthers(e);
  }

  /** `{occurrences}x`, shown only for an error seen more than once. */
  function OccurrencesBadge(e: ApplicationError): (badge: Option<string>)
    ensures badge.Some? <==> e.occurrences > 1
    ensures badge.Some? ==> badge.value == IntToString(e.occurrences) + "x"
  {
    if e.occurrences > 1 then Some(IntToString(e.occurrences) + "x") else None
  }

  /** The row's `method path` line, shown whenever the path is set. An absent method
      renders as nothing, leaving the separating space. */
  function RequestLine(e: ApplicationError): (line: Option<string>)
    ensures line.Some? <==> e.context.Some? && Truthy(e.context.value.path)
    ensures line.Some? ==> line.value == e.context.value.verb.GetOr("") + " " + e.context.value.path.value
  {
    if e.context.Some? && Truthy(e.context.value.path)
    then Some(e.context.value.verb.GetOr("") + " " + e.context.value.path.value)
    else None
  }

  /** The modal's Method & Path row is stricter than the list's line, and where both
      show they say the same. */
  lemma {:induction false} DetailLineImpliesRowLine(e: ApplicationError)
    requires e.context.Some?
    ensures ErrorDetail.MethodAndPath(e.context.value).Some? ==> RequestLine(e) == ErrorDetail.MethodAndPath(e.context.value)
    ensures Truthy(e.context.value.verb) ==> (RequestLine(e).Some? <==> ErrorDetail.MethodAndPath(e.context.value).Some?)
  {
  }

  /** `Recent Errors ({total})`, where a missing total counts as 0. */
  function Heading(total: Option<int>): (h: string)
    ensures total.None? ==> h == "Recent Errors (0)"
    ensures total.Some? ==> h == "Recent Errors (" + IntToString(total.value) + ")"
  {
    "Recent Errors (" + IntToString(if total.Some? then total.value else 0) + ")"
  }

  // ---------------------------------------------------------------------------
  // The component
  // ---------------------------------------------------------------------------

  datatype Notice = SuccessToast(text: string) | ErrorToast(text: string)

  /** The outcome of `updateStatus(...).unwrap()`: success, or a failure with the
      server's optional `data.message`. */
  datatype UpdateReply = Updated | UpdateFailed(message: Option<string>)

  /** The toast a status update shows. */
  function UpdateNotice(status: Status, reply: UpdateReply): (n: Notice)
    ensures reply.Updated? ==> n == SuccessToast("Error marked as " + LowerStr(status.Name()))
    ensures reply.UpdateFailed? && Truthy(reply.message) ==> n == ErrorToast(reply.message.value)
    ensures reply.UpdateFailed? && !Truthy(reply.message) ==> n == ErrorToast("Failed to update error status")
  {
    if reply.Updated? then SuccessToast("Error marked as " + LowerStr(status.Name()))
    else ErrorToast(OrElse(reply.message, "Failed to update error status"))
  }

  class ErrorListView {
    var filters: ListFilters
    var selectedError: Option<ApplicationError>
    var showFilters: bool
    var sent: seq<Request>
    var notices: seq<Notice>

    constructor ()
      ensures filters == ListFilters(None, None, None) && selectedError.None? && !showFilters
      ensures sent == [] && notices == []
    {
      filters := ListFilters(None, None, None);
      selectedError := None;
      showFilters := false;
      sent := [];
      notices := [];
    }

    /** The filters of the current query. */
    function CurrentQuery(): ErrorFilters
      reads this
    {
      QueryFilters(filters)
    }

    method ToggleFilters()
      modifies this
      ensures showFilters == !old(showFilters)
      ensures filters == old(filters) && selectedError == old(selectedError)
      ensures sent == old(sent) && notices == old(notices)
    {
      showFilters := !showFilters;
    }

    /** The severity select: "All" clears just this filter. */
    method ChooseSeverity(value: string)
      requires value == "" || ParseSeverity(value).Some?
      modifies this
      ensures filters == old(filters).(severity := ParseSeverity(value))
      ensures value == "" ==> filters.severity.None?
      ensures showFilters == old(showFilters) && selectedError == old(selectedError)
      ensures sent == old(sent) && notices == old(notices)
    {
      filters := filters.(severity := ParseSeverity(value));
    }

    /** The status select: "All" clears just this filter. */
    method ChooseStatus(value: string)
      requires value == "" || ParseStatus(value).Some?
      modifies this
      ensures filters == old(filters).(status := ParseStatus(value))
      ensures value == "" ==> filters.status.None?
      ensures showFilters == old(showFilters) && selectedError == old(selectedError)
      ensures sent == old(sent) && notices == old(notices)
    {
      filters := filters.(status := ParseStatus(value));
    }

    /** The type box: an empty value clears just this filter. */
    method TypeErrorType(value: string)
      modifies this
      ensures filters == old(filters).(errorType := TypeFilter(value))
      ensures showFilters == old(showFilters) && selectedError == old(selectedError)
      ensures sent == old(sent) && notices == old(notices)
    {
      filters := filters.(errorType := TypeFilter(value));
    }

    /** The eye button opens the detail modal on that row. */
    method Select(e: ApplicationError)
      modifies this
      ensures selectedError == Some(e)
      ensures filters == old(filters) && showFilters == old(showFilters)
      ensures sent == old(sent) && notices == old(notices)
    {
      selectedError := Some(e);
    }

    method CloseDetail()
      modifies this
      ensures selectedError.None?
      ensures filters == old(filters) && showFilters == old(showFilters)
      ensures sent == old(sent) && notices == old(notices)
    {
      selectedError := None;
    }

    /** `handleStatusUpdate`: send the update for `errorId`, then toast its outcome. */
    method HandleStatusUpdate(errorId: string, status: Status, reply: UpdateReply)
      modifies this
      ensures sent == old(sent) + [UpdateStatusRequest(errorId, status)]
      ensures notices == old(notices) + [UpdateNotice(status, reply)]
      ensures filters == old(filters) && showFilters == old(showFilters) && selectedError == old(selectedError)
    {
      sent := sent + [UpdateStatusRequest(errorId, status)];
      notices := notices + [UpdateNotice(status, reply)];
    }

    /** A row's resolve or investigate button: only the offered actions exist, and the
      update is addressed by the row's errorId, not its id. */
    method RowStatusUpdate(e: ApplicationError, target: Status, reply: UpdateReply)
      requires target in RowActions(e)
      modifies this
      ensures sent == old(sent) + [UpdateStatusRequest(e.errorId, target)]
      ensures notices == old(notices) + [UpdateNotice(target, reply)]
      ensures filters == old(filters) && showFilters == old(showFilters) && selectedError == old(selectedError)
    {
      HandleStatusUpdate(e.errorId, target, reply);
    }

    /** The modal's `onStatusUpdate`: the update goes to the selected error's errorId
      and the modal closes whatever the outcome (the update is not awaited). */
    method DetailStatusUpdate(i: int, reply: UpdateReply)
      requires selectedError.Some? && 0 <= i < 3
      requires ErrorDetail.Press(selectedError.value, i).Some?
      modifies this
      ensures sent == old(sent) + [UpdateStatusRequest(old(selectedError).value.errorId, ErrorDetail.Press(old(selectedError).value, i).value)]
      ensures notices == old(notices) + [UpdateNotice(ErrorDetail.Press(old(selectedError).value, i).value, reply)]
      ensures selectedError.None?
      ensures filters == old(filters) && showFilters == old(showFilters)
    {
      var status := ErrorDetail.Press(selectedError.value, i).value;
      HandleStatusUpdate(selectedError.value.errorId, status, reply);
      selectedError := None;
    }
  }
}
