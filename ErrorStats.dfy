// The statistics panel of apps/web/src/components/schools/ErrorStats.tsx: which
// view is shown, the four summary counts, the severity and status pie series
// (fixed order, missing counts as 0, empty slices dropped), the trend series and
// the top-ten list of error types. Date formatting for the trend axis is not
// modelled: a trend point keeps the date string it was given.

module ErrorStats {
  import opened Wrappers
  import opened OperationsApi

  datatype TrendItem = TrendItem(date: string, count: Option<int>)
  datatype TopType = TopType(errorType: string, count: int)

  /** The stats record as it arrives; every part may be missing in practice. */
  datatype Stats = Stats(
    total: Option<int>,
    bySeverity: Option<map<Severity, int>>,
    byStatus: Option<map<Status, int>>,
    recentTrends: Option<seq<TrendItem>>,
    topErrorTypes: Option<seq<TopType>>)

  /** `x || 0` on an optional number: absent and 0 both give 0. */
  function OrZero(n: Option<int>): (r: int)
    ensures n.Some? ==> r == n.value
    ensures n.None? ==> r == 0
  {
    if n.Some? then n.value else 0
  }

  /** `record?.KEY || 0`. */
  function CountOf<K>(m: Option<map<K, int>>, k: K): (r: int)
    ensures m.Some? && k in m.value ==> r == m.value[k]
    ensures m.None? || k !in m.value ==> r == 0
  {
    if m.Some? && k in m.value then m.value[k] else 0
  }

  // ---------------------------------------------------------------------------
  // Pie series
  // ---------------------------------------------------------------------------

  datatype Slice = Slice(name: string, value: int)

  /** `.filter(item => item.value > 0)`. */
  function Positive(xs: seq<Slice>): (r: seq<Slice>)
    ensures |r| <= |xs|
  {
    if xs == [] then [] else
      (if xs[0].value > 0 then [xs[0]] else []) + Positive(xs[1..])
  }

  /** A slice survives the filter iff it was there and its value is positive. */
  lemma {:induction false} PositiveMembers(xs: seq<Slice>)
    ensures forall s :: s in Positive(xs) <==> s in xs && s.value > 0
  {
    if xs != [] {
      PositiveMembers(xs[1..]);
      assert xs == [xs[0]] + xs[1..];
    }
  }

  /** Filtering distributes over concatenation: the kept slices keep their order. */
  lemma {:induction false} PositiveAppend(xs: seq<Slice>, ys: seq<Slice>)
    ensures Positive(xs + ys) == Positive(xs) + Positive(ys)
  {
    if xs == [] {
      assert xs + ys == ys;
    } else {
      var h := if xs[0].value > 0 then [xs[0]] else [];
      assert (xs + ys)[0] == xs[0] && (xs + ys)[1..] == xs[1..] + ys;
      assert Positive(xs + ys) == h + Positive(xs[1..] + ys);
      PositiveAppend(xs[1..], ys);
      assert Positive(xs) == h + Positive(xs[1..]);
      assert h + (Positive(xs[1..]) + Positive(ys)) == (h + Positive(xs[1..])) + Positive(ys);
    }
  }

  function SeverityLabel(s: Severity): string {
    match s
    case LOW => "Low"
    case MEDIUM => "Medium"
    case HIGH => "High"
    case CRITICAL => "Critical"
  }

  function StatusLabel(s: Status): string {
    match s
    case UNRESOLVED => "Unresolved"
    case INVESTIGATING => "Investigating"
    case RESOLVED => "Resolved"
    case IGNORED => "Ignored"
  }

  function SeverityData(m: Option<map<Severity, int>>): seq<Slice> {
    Positive([Slice(SeverityLabel(LOW), CountOf(m, LOW)), Slice(SeverityLabel(MEDIUM), CountOf(m, MEDIUM)),
              Slice(SeverityLabel(HIGH), CountOf(m, HIGH)), Slice(SeverityLabel(CRITICAL), CountOf(m, CRITICAL))])
  }

  function StatusData(m: Option<map<Status, int>>): seq<Slice> {
    Positive([Slice(StatusLabel(UNRESOLVED), CountOf(m, UNRESOLVED)), Slice(StatusLabel(INVESTIGATING), CountOf(m, INVESTIGATING)),
              Slice(StatusLabel(RESOLVED), CountOf(m, RESOLVED)), Slice(StatusLabel(IGNORED), CountOf(m, IGNORED))])
  }

  /** The slice kept for one level: itself when its count is positive, else nothing. */
  function Kept(name: string, value: int): seq<Slice> {
    if value > 0 then [Slice(name, value)] else []
  }

  lemma {:induction false} PositiveStep(xs: seq<Slice>)
    requires xs != []
    ensures Positive(xs) == Kept(xs[0].name, xs[0].value) + Positive(xs[1..])
  {
  }

  /** Filtering four slices keeps each positive one, in place. */
  lemma {:induction false} FourSlices(xs: seq<Slice>)
    requires |xs| == 4
    ensures Positive(xs) == Kept(xs[0].name, xs[0].value) + (Kept(xs[1].name, xs[1].value)
      + (Kept(xs[2].name, xs[2].value) + Kept(xs[3].name, xs[3].value)))
  {
    PositiveStep(xs);
    PositiveStep(xs[1..]);
    assert xs[1..][1..] == xs[2..];
    PositiveStep(xs[2..]);
    assert xs[2..][1..] == xs[3..];
    PositiveStep(xs[3..]);
    assert xs[3..][1..] == [];
  }

  /** The severity series is Low, Medium, High, Critical in that order, each present
      exactly when its (defaulted) count is positive. */
  lemma {:induction false} SeverityDataOrder(m: Option<map<Severity, int>>)
    ensures SeverityData(m) ==
      Kept("Low", CountOf(m, LOW)) + (Kept("Medium", CountOf(m, MEDIUM)) +
      (Kept("High", CountOf(m, HIGH)) + Kept("Critical", CountOf(m, CRITICAL))))
  {
    var a, b := Slice("Low", CountOf(m, LOW)), Slice("Medium", CountOf(m, MEDIUM));
    var c, d := Slice("High", CountOf(m, HIGH)), Slice("Critical", CountOf(m, CRITICAL));
    FourSlices([a, b, c, d]);
  }

  /** The status series is Unresolved, Investigating, Resolved, Ignored in that order. */
  lemma {:induction false} StatusDataOrder(m: Option<map<Status, int>>)
    ensures StatusData(m) ==
      Kept("Unresolved", CountOf(m, UNRESOLVED)) + (Kept("Investigating", CountOf(m, INVESTIGATING)) +
      (Kept("Resolved", CountOf(m, RESOLVED)) + Kept("Ignored", CountOf(m, IGNORED))))
  {
    var a, b := Slice("Unresolved", CountOf(m, UNRESOLVED)), Slice("Investigating", CountOf(m, INVESTIGATING));
    var c, d := Slice("Resolved", CountOf(m, RESOLVED)), Slice("Ignored", CountOf(m, IGNORED));
    FourSlices([a, b, c, d]);
  }

  // ---------------------------------------------------------------------------
  // Trend series and top error types
  // ---------------------------------------------------------------------------

  datatype TrendPoint = TrendPoint(date: string, errors: int)

  /** `(recentTrends || []).map(item => ({date, errors: item.count || 0}))`. */
  function TrendData(trends: Option<seq<TrendItem>>): (r: seq<TrendPoint>)
    ensures trends.None? ==> r == []
    ensures trends.Some? ==> |r| == |trends.value|
    ensures trends.Some? ==> forall i :: 0 <= i < |r| ==>
      r[i].date == trends.value[i].date && r[i].errors == OrZero(trends.value[i].count)
  {
    if trends.None? then [] else
      seq(|trends.value|, i requires 0 <= i < |trends.value| =>
        TrendPoint(trends.value[i].date, OrZero(trends.value[i].count)))
  }

  /** `topErrorTypes.slice(0, 10)`, shown only when the list is present and non-empty. */
  function TopTen(top: Option<seq<TopType>>): (r: Option<seq<TopType>>)
    ensures r.Some? <==> top.Some? && |top.value| > 0
    ensures r.Some? ==> |r.value| == if |top.value| < 10 then |top.value| else 10
    ensures r.Some? ==> r.value == top.value[..|r.value|]
  {
    if top.None? || |top.value| == 0 then None
    else if |top.value| <= 10 then Some(top.value)
    else Some(top.value[..10])
  }

  // ---------------------------------------------------------------------------
  // The panel
  // ---------------------------------------------------------------------------

  datatype Summary = Summary(total: int, critical: int, unresolved: int, resolved: int)

  datatype View =
    | Loading
    | Failed
    | Charts(summary: Summary, severityData: seq<Slice>, statusData: seq<Slice>,
             trendData: Option<seq<TrendPoint>>, topTypes: Option<seq<TopType>>)

  /** The failure view's guard. */
  predicate ShowsFailure(error: bool, stats: Option<Stats>) {
    error || stats.None? || stats.value.bySeverity.None? || stats.value.byStatus.None?
  }

  /** What the panel renders. The trend card appears only for a non-empty series, so
      `trendData` is `None` when there is nothing to draw. */
  function Render(isLoading: bool, error: bool, stats: Option<Stats>): (v: View)
    ensures isLoading ==> v == Loading
    ensures !isLoading ==> (v == Failed <==> ShowsFailure(error, stats))
    ensures v.Charts? ==> !isLoading && stats.Some?
    ensures v.Charts? ==> v.summary == Summary(
      OrZero(stats.value.total), CountOf(stats.value.bySeverity, CRITICAL),
      CountOf(stats.value.byStatus, UNRESOLVED), CountOf(stats.value.byStatus, RESOLVED))
    ensures v.Charts? ==> (v.severityData ==
      Kept("Low", CountOf(stats.value.bySeverity, LOW)) + (Kept("Medium", CountOf(stats.value.bySeverity, MEDIUM)) +
      (Kept("High", CountOf(stats.value.bySeverity, HIGH)) + Kept("Critical", CountOf(stats.value.bySeverity, CRITICAL)))))
    ensures v.Charts? ==> (v.statusData ==
      Kept("Unresolved", CountOf(stats.value.byStatus, UNRESOLVED)) + (Kept("Investigating", CountOf(stats.value.byStatus, INVESTIGATING)) +
      (Kept("Resolved", CountOf(stats.value.byStatus, RESOLVED)) + Kept("Ignored", CountOf(stats.value.byStatus, IGNORED)))))
    ensures v.Charts? ==> (v.trendData.Some? <==> TrendData(stats.value.recentTrends) != [])
    ensures v.Charts? && v.trendData.Some? ==> v.trendData.value == TrendData(stats.value.recentTrends)
    ensures v.Charts? ==> v.topTypes == TopTen(stats.value.topErrorTypes)
  {
    if isLoading then Loading
    else if ShowsFailure(error, stats) then Failed
    else
      var s := stats.value;
      var trend := TrendData(s.recentTrends);
      SeverityDataOrder(s.bySeverity);
      StatusDataOrder(s.byStatus);
      Charts(
        Summary(OrZero(s.total), CountOf(s.bySeverity, CRITICAL), CountOf(s.byStatus, UNRESOLVED), CountOf(s.byStatus, RESOLVED)),
        SeverityData(s.bySeverity), StatusData(s.byStatus),
        if trend == [] then None else Some(trend),
        TopTen(s.topErrorTypes))
  }
}
