// The subscription view of apps/web/src/hooks/useToolAccess.ts: the AI credit
// figures, defaulted only when absent, and the tools the school can use, copied
// in their original order.

module ToolAccess {
  import opened Wrappers

  /** A tool of the subscription summary. Its status is kept as the server's string. */
  datatype SummaryTool = SummaryTool(slug: string, name: string, status: Option<string>, hasAccess: bool)

  datatype SubscriptionSummary = SubscriptionSummary(
    aiCreditsRemaining: Option<int>, aiCredits: Option<int>, tools: Option<seq<SummaryTool>>)

  datatype Credits = Credits(remaining: int, total: int)

  /** The tool as the hook hands it out. */
  datatype Tool = Tool(slug: string, name: string, status: Option<string>)

  /** `x ?? 0`: only an absent value is replaced, so 0 and -1 stay as they are. */
  function Nullish(n: Option<int>): (r: int)
    ensures n.Some? ==> r == n.value
    ensures n.None? ==> r == 0
  {
    if n.Some? then n.value else 0
  }

  function AiCredits(summary: Option<SubscriptionSummary>): (c: Credits)
    ensures summary.None? ==> c == Credits(0, 0)
    ensures summary.Some? ==> c == Credits(Nullish(summary.value.aiCreditsRemaining), Nullish(summary.value.aiCredits))
  {
    if summary.None? then Credits(0, 0)
    else Credits(Nullish(summary.value.aiCreditsRemaining), Nullish(summary.value.aiCredits))
  }

  /** The unlimited-credits sentinel -1 reaches the caller unchanged. */
  lemma {:induction false} SentinelPassesThrough(tools: Option<seq<SummaryTool>>)
    ensures AiCredits(Some(SubscriptionSummary(Some(-1), Some(-1), tools))) == Credits(-1, -1)
  {
  }

  function Project(t: SummaryTool): Tool {
    Tool(t.slug, t.name, t.status)
  }

  /** `.filter(tool => tool.hasAccess).map(...)`. */
  function Accessible(tools: seq<SummaryTool>): (r: seq<Tool>)
    ensures |r| <= |tools|
  {
    if tools == [] then []
    else (if tools[0].hasAccess then [Project(tools[0])] else []) + Accessible(tools[1..])
  }

  function AccessibleTools(summary: Option<SubscriptionSummary>): (r: seq<Tool>)
    ensures summary.None? || summary.value.tools.None? ==> r == []
  {
    if summary.None? || summary.value.tools.None? then [] else Accessible(summary.value.tools.value)
  }

  /** The filter keeps order: the tools of a concatenation are the tools of each part. */
  lemma {:induction false} AccessibleAppend(a: seq<SummaryTool>, b: seq<SummaryTool>)
    ensures Accessible(a + b) == Accessible(a) + Accessible(b)
  {
    if a == [] {
      assert a + b == b;
    } else {
      var h := if a[0].hasAccess then [Project(a[0])] else [];
      assert (a + b)[0] == a[0] && (a + b)[1..] == a[1..] + b;
      assert Accessible(a + b) == h + Accessible(a[1..] + b);
      AccessibleAppend(a[1..], b);
      assert Accessible(a) == h + Accessible(a[1..]);
    }
  }

  /** Every output is the copy of an accessible input, and every accessible input is
      copied. */
  lemma {:induction false} AccessibleMembers(tools: seq<SummaryTool>)
    ensures forall o :: o in Accessible(tools) ==> exists t :: t in tools && t.hasAccess && Project(t) == o
    ensures forall t :: t in tools && t.hasAccess ==> Project(t) in Accessible(tools)
  {
    if tools != [] {
      AccessibleMembers(tools[1..]);
      assert tools == [tools[0]] + tools[1..];
      forall o | o in Accessible(tools) ensures exists t :: t in tools && t.hasAccess && Project(t) == o {
        if tools[0].hasAccess && o == Project(tools[0]) {
          assert tools[0] in tools;
        } else {
          var t :| t in tools[1..] && t.hasAccess && Project(t) == o;
          assert t in tools;
        }
      }
    }
  }

  /** With access to every tool, all of them come out, in order. */
  lemma {:induction false} FullAccessKeepsAll(tools: seq<SummaryTool>)
    requires forall t :: t in tools ==> t.hasAccess
    ensures |Accessible(tools)| == |tools|
    ensures forall i :: 0 <= i < |tools| ==> Accessible(tools)[i] == Project(tools[i])
  {
    if tools != [] {
      assert forall t :: t in tools[1..] ==> t in tools;
      FullAccessKeepsAll(tools[1..]);
    }
  }

  /** With access to no tool, nothing comes out. */
  lemma {:induction false} NoAccessKeepsNone(tools: seq<SummaryTool>)
    requires forall t :: t in tools ==> !t.hasAccess
    ensures Accessible(tools) == []
  {
    if tools != [] {
      assert forall t :: t in tools[1..] ==> t in tools;
      NoAccessKeepsNone(tools[1..]);
    }
  }
}
