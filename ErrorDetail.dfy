// The error-detail modal of apps/web/src/components/schools/ErrorDetail.tsx: the
// badges and context rows it shows and its three status buttons, each of which
// hands its own target status to the caller and is disabled when the error already
// has that status. Copying the stack trace to the clipboard is not modelled.

module ErrorDetail {
  import opened Wrappers
  import opened Text
  import opened OperationsApi

  /** A status button: the status it sends and whether it can be pressed. */
  datatype StatusButton = StatusButton(caption: string, target: Status, enabled: bool)

  /** Mark Resolved, Mark Investigating and Ignore, in that order. */
  function Buttons(e: ApplicationError): (bs: seq<StatusButton>)
    ensures |bs| == 3
    ensures bs[0].target == RESOLVED && bs[1].target == INVESTIGATING && bs[2].target == IGNORED
    ensures forall b :: b in bs ==> (b.enabled <==> b.target != e.status)
  {
    [StatusButton("Mark Resolved", RESOLVED, e.status != RESOLVED),
     StatusButton("Mark Investigating", INVESTIGATING, e.status != INVESTIGATING),
     StatusButton("Ignore", IGNORED, e.status != IGNORED)]
  }

  /** The statuses the modal lets the user pick. */
  function EnabledTargets(e: ApplicationError): set<Status> {
    set b | b in Buttons(e) && b.enabled :: b.target
  }

  /** The enabled targets are exactly the other members of {RESOLVED, INVESTIGATING,
      IGNORED}: UNRESOLVED is never offered, and the current status never is. */
  lemma {:induction false} EnabledTargetsAreTheOthers(e: ApplicationError)
    ensures EnabledTargets(e) == {RESOLVED, INVESTIGATING, IGNORED} - {e.status}
    ensures UNRESOLVED !in EnabledTargets(e)
  {
    var bs := Buttons(e);
    forall t | t != UNRESOLVED && t != e.status ensures t in EnabledTargets(e) {
      var i := if t == RESOLVED then 0 else if t == INVESTIGATING then 1 else 2;
      assert bs[i] in bs && bs[i].target == t;
    }
  }

  /** Three choices from an unresolved error, two from any other. */
  lemma {:induction false} EnabledTargetCount(e: ApplicationError)
    ensures |EnabledTargets(e)| == if e.status == UNRESOLVED then 3 else 2
  {
    EnabledTargetsAreTheOthers(e);
    var want := {RESOLVED, INVESTIGATING, IGNORED} - {e.status};
    match e.status
    case UNRESOLVED => assert want == {RESOLVED, INVESTIGATING, IGNORED};
    case RESOLVED => assert want == {INVESTIGATING, IGNORED};
    case INVESTIGATING => assert want == {RESOLVED, IGNORED};
    case IGNORED => assert want == {RESOLVED, INVESTIGATING};
  }

  /** Pressing an enabled button hands its own target to `onStatusUpdate`. */
  function Press(e: ApplicationError, i: int): (sent: Option<Status>)
    requires 0 <= i < 3
    ensures sent.Some? <==> Buttons(e)[i].target != e.status
    ensures sent.Some? ==> sent.value == Buttons(e)[i].target && sent.value != UNRESOLVED
  {
    var b := Buttons(e)[i];
    if b.enabled then Some(b.target) else None
  }

  /** "Occurred N times", shown only for an error seen more than once. */
  function OccurrenceBadge(e: ApplicationError): (badge: Option<string>)
    ensures badge.Some? <==> e.occurrences > 1
    ensures badge.Some? ==> badge.value == "Occurred " + IntToString(e.occurrences) + " times"
  {
    if e.occurrences > 1 then Some("Occurred " + IntToString(e.occurrences) + " times") else None
  }

  /** The rows of the Request Context box: "Method & Path" when both are set, then the
      IP address and the user agent when set. The request body row is not modelled. */
  function ContextRows(c: RequestContext): (rows: seq<string>)
    ensures "Method & Path" in rows <==> Truthy(c.verb) && Truthy(c.path)
    ensures "IP Address" in rows <==> Truthy(c.ip)
    ensures "User Agent" in rows <==> Truthy(c.userAgent)
    ensures |rows| <= 3
  {
    (if Truthy(c.verb) && Truthy(c.path) then ["Method & Path"] else []) +
    (if Truthy(c.ip) then ["IP Address"] else []) +
    (if Truthy(c.userAgent) then ["User Agent"] else [])
  }

  /** The text of the Method & Path row. */
  function MethodAndPath(c: RequestContext): (line: Option<string>)
    ensures line.Some? <==> Truthy(c.verb) && Truthy(c.path)
    ensures line.Some? ==> line.value == c.verb.value + " " + c.path.value
  {
    if Truthy(c.verb) && Truthy(c.path) then Some(c.verb.value + " " + c.path.value) else None
  }

  /** The modal's sections: the stack trace when there is one, the context box when
      there is a context. */
  datatype Sections = Sections(stackTrace: Option<string>, contextRows: Option<seq<string>>)

  function ShownSections(e: ApplicationError): (s: Sections)
    ensures s.stackTrace.Some? <==> Truthy(e.stackTrace)
    ensures s.stackTrace.Some? ==> s.stackTrace == e.stackTrace
    ensures s.contextRows.Some? <==> e.context.Some?
    ensures s.contextRows.Some? ==> s.contextRows.value == ContextRows(e.context.value)
  {
    Sections(if Truthy(e.stackTrace) then e.stackTrace else None,
             if e.context.Some? then Some(ContextRows(e.context.value)) else None)
  }
}
