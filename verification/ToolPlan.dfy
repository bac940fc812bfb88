/** `DavinciPlanner`: the least risky registered tool for each required category. */
module ToolPlan {
  import opened Common

  datatype Tool = Tool(id: string, categories: seq<string>, functions: map<string, string>, risk: string)

  datatype Request = Request(categories: seq<string>, tolerance: string)

  /** One signal: the tool, the category and the function it is asked for. */
  datatype Signal = Signal(tool: Tool, category: string, function_: string)

  datatype Plan = Plan(signals: seq<Signal>, missing: seq<string>, review: bool)

  function RiskRank(level: string): nat {
    match level
    case "low" => 0
    case "medium" => 1
    case "high" => 2
    case _ => 99
  }

  /** Low before medium before high, and any other level after them. */
  lemma RisksAreRanked(other: string)
    requires other != "low" && other != "medium" && other != "high"
    ensures RiskRank("low") < RiskRank("medium") < RiskRank("high") < RiskRank(other)
  {
  }

  /** Strings compare by their first difference. */
  predicate Before(a: string, b: string) {
    b != "" && (a == "" || a[0] < b[0] || (a[0] == b[0] && Before(a[1..], b[1..])))
  }

  /** The sort key: risk first, then the id. */
  predicate Precedes(a: Tool, b: Tool) {
    RiskRank(a.risk) < RiskRank(b.risk) || (RiskRank(a.risk) == RiskRank(b.risk) && Before(a.id, b.id))
  }

  /** The strings first differ at `k`, where `a` is less. */
  ghost predicate LessAt(a: string, b: string, k: nat) {
    k < |a| && k < |b| && a[..k] == b[..k] && a[k] < b[k]
  }

  lemma LessAtTail(a: string, b: string, k: nat)
    requires a != "" && b != "" && a[0] == b[0]
    ensures LessAt(a, b, k + 1) <==> LessAt(a[1..], b[1..], k)
  {
    if k < |a| - 1 && k < |b| - 1 {
      assert a[..k + 1] == [a[0]] + a[1..][..k] && b[..k + 1] == [b[0]] + b[1..][..k];
    }
  }

  lemma LessAtHead(a: string, b: string, k: nat)
    requires a != "" && b != "" && a[0] > b[0]
    ensures !LessAt(a, b, k)
  {
    if 0 < k <= |a| && k <= |b| {
      assert a[..k][0] == a[0] && b[..k][0] == b[0];
    }
  }

  lemma TailDecides(a: string, b: string)
    requires a != "" && b != "" && a[0] == b[0]
    ensures (exists k :: LessAt(a, b, k)) <==> (exists k :: LessAt(a[1..], b[1..], k))
    ensures a < b <==> a[1..] < b[1..]
  {
    if k: nat :| LessAt(a, b, k) {
      LessAtTail(a, b, k - 1);
    }
    if k: nat :| LessAt(a[1..], b[1..], k) {
      LessAtTail(a, b, k);
    }
    assert a == [a[0]] + a[1..] && b == [b[0]] + b[1..];
  }

  /** One string comes before another when it is a proper prefix of it, or less where they first differ. */
  lemma {:induction false} BeforeMeans(a: string, b: string)
    ensures Before(a, b) <==> a < b || exists k :: LessAt(a, b, k)
  {
    if a != "" && b != "" {
      if a[0] == b[0] {
        BeforeMeans(a[1..], b[1..]);
        TailDecides(a, b);
      } else if a[0] < b[0] {
        assert LessAt(a, b, 0);
      } else {
        forall k: nat
          ensures !LessAt(a, b, k)
        {
          LessAtHead(a, b, k);
        }
      }
    }
  }

  lemma {:induction false} BeforeIsTotal(a: string, b: string)
    ensures Before(a, b) || Before(b, a) || a == b
    ensures !(Before(a, b) && Before(b, a))
  {
    if a != "" && b != "" && a[0] == b[0] {
      BeforeIsTotal(a[1..], b[1..]);
      assert a == [a[0]] + a[1..] && b == [b[0]] + b[1..];
    }
  }

  lemma {:induction false} BeforeIsTransitive(a: string, b: string, c: string)
    requires Before(a, b) && Before(b, c)
    ensures Before(a, c)
  {
    if a != "" && a[0] == b[0] == c[0] {
      BeforeIsTransitive(a[1..], b[1..], c[1..]);
    }
  }

  /** Where the head of the stable sort by that key stands. */
  function LeastIndex(options: seq<Tool>): (i: nat)
    requires options != []
    ensures i < |options|
  {
    if |options| == 1 then 0
    else
      var i := LeastIndex(options[..|options| - 1]);
      if Precedes(options[|options| - 1], options[i]) then |options| - 1 else i
  }

  function Least(options: seq<Tool>): Tool
    requires options != []
  {
    options[LeastIndex(options)]
  }

  /** No option comes before this one, and those registered earlier come strictly after it. */
  ghost predicate IsFirstLeast(options: seq<Tool>, i: nat) {
    && i < |options|
    && (forall k :: 0 <= k < |options| ==> !Precedes(options[k], options[i]))
    && (forall k :: 0 <= k < i ==> Precedes(options[i], options[k]))
  }

  lemma {:induction false} LeastMeans(options: seq<Tool>)
    requires options != []
    ensures IsFirstLeast(options, LeastIndex(options))
  {
    if |options| == 1 {
      BeforeIsTotal(options[0].id, options[0].id);
    } else {
      var front, last := options[..|options| - 1], options[|options| - 1];
      LeastMeans(front);
      LeastOfMore(front, last, LeastIndex(front));
      assert options == front + [last];
    }
  }

  lemma LeastOfMore(front: seq<Tool>, last: Tool, i: nat)
    requires IsFirstLeast(front, i)
    ensures IsFirstLeast(front + [last], if Precedes(last, front[i]) then |front| else i)
  {
    var options := front + [last];
    if Precedes(last, front[i]) {
      forall k | 0 <= k < |options|
        ensures !Precedes(options[k], last) && (k < |front| ==> Precedes(last, options[k]))
      {
        if k < |front| {
          LessIsLess(last, front[i], front[k]);
        } else {
          BeforeIsTotal(last.id, last.id);
        }
      }
    }
  }

  lemma LessIsLess(a: Tool, b: Tool, c: Tool)
    requires Precedes(a, b) && !Precedes(c, b)
    ensures Precedes(a, c) && !Precedes(c, a)
  {
    BeforeIsTotal(a.id, b.id);
    BeforeIsTotal(a.id, c.id);
    BeforeIsTotal(b.id, c.id);
    if Before(a.id, b.id) && Before(b.id, c.id) {
      BeforeIsTransitive(a.id, b.id, c.id);
    }
  }

  // ---- the index ------------------------------------------------------------

  /** One entry for each time the tool lists the category. */
  function Copies(t: Tool, categories: seq<string>, category: string): seq<Tool> {
    if categories == [] then []
    else Copies(t, categories[..|categories| - 1], category) +
         if categories[|categories| - 1] == category then [t] else []
  }

  function Options(tools: seq<Tool>, category: string): seq<Tool> {
    if tools == [] then []
    else
      var last := tools[|tools| - 1];
      Options(tools[..|tools| - 1], category) + Copies(last, last.categories, category)
  }

  lemma {:induction false} CopiesMean(t: Tool, categories: seq<string>, category: string)
    ensures category in categories <==> Copies(t, categories, category) != []
    ensures forall u :: u in Copies(t, categories, category) ==> u == t
  {
    if categories != [] {
      CopiesMean(t, categories[..|categories| - 1], category);
      assert categories == categories[..|categories| - 1] + [categories[|categories| - 1]];
    }
  }

  lemma {:induction false} OptionsMean(tools: seq<Tool>, category: string)
    ensures forall t :: t in Options(tools, category) <==> t in tools && category in t.categories
  {
    if tools != [] {
      var front, last := tools[..|tools| - 1], tools[|tools| - 1];
      assert tools == front + [last];
      OptionsMean(front, category);
      CopiesMean(last, last.categories, category);
      var copies := Copies(last, last.categories, category);
      if copies != [] {
        assert copies[0] in copies;
      }
    }
  }

  function At(index: map<string, seq<Tool>>, category: string): seq<Tool> {
    if category in index then index[category] else []
  }

  /** Files one tool under each of its categories. */
  method AddTool(before: map<string, seq<Tool>>, tool: Tool) returns (index: map<string, seq<Tool>>)
    ensures forall c :: At(index, c) == At(before, c) + Copies(tool, tool.categories, c)
  {
    index := before;
    for j := 0 to |tool.categories|
      invariant forall c :: At(index, c) == At(before, c) + Copies(tool, tool.categories[..j], c)
    {
      var category := tool.categories[j];
      var was := index;
      index := index[category := At(index, category) + [tool]];
      forall c
        ensures At(index, c) == At(before, c) + Copies(tool, tool.categories[..j + 1], c)
      {
        CopiesGrow(tool, tool.categories, j, c);
        assert At(index, c) == At(was, c) + if c == category then [tool] else [];
        Reassociate(At(before, c), Copies(tool, tool.categories[..j], c), if c == category then [tool] else []);
      }
    }
    assert tool.categories[..|tool.categories|] == tool.categories;
  }

  lemma CopiesGrow(t: Tool, categories: seq<string>, j: nat, c: string)
    requires j < |categories|
    ensures Copies(t, categories[..j + 1], c) == Copies(t, categories[..j], c) + if c == categories[j] then [t] else []
  {
    assert categories[..j + 1][..j] == categories[..j];
  }

  /** `tools_by_category`. */
  method Index(tools: seq<Tool>) returns (index: map<string, seq<Tool>>)
    ensures forall c :: At(index, c) == Options(tools, c)
  {
    index := map[];
    for i := 0 to |tools|
      invariant forall c :: At(index, c) == Options(tools[..i], c)
    {
      assert tools[..i + 1][..i] == tools[..i];
      index := AddTool(index, tools[i]);
    }
    assert tools[..|tools|] == tools;
  }

  // ---- the plan -------------------------------------------------------------

  function SignalTo(tool: Tool, category: string): Signal {
    Signal(tool, category, if category in tool.functions then tool.functions[category] else "invoke")
  }

  function Signals(tools: seq<Tool>, categories: seq<string>): seq<Signal> {
    if categories == [] then []
    else
      var (front, last) := (categories[..|categories| - 1], categories[|categories| - 1]);
      Signals(tools, front) +
      if Options(tools, last) == [] then [] else [SignalTo(Least(Options(tools, last)), last)]
  }

  function Missing(tools: seq<Tool>, categories: seq<string>): seq<string> {
    if categories == [] then []
    else
      var (front, last) := (categories[..|categories| - 1], categories[|categories| - 1]);
      Missing(tools, front) + if Options(tools, last) == [] then [last] else []
  }

  predicate AnyHigh(signals: seq<Signal>) {
    exists i :: 0 <= i < |signals| && signals[i].tool.risk == "high"
  }

  lemma AnyHighGrows(signals: seq<Signal>, s: Signal)
    ensures AnyHigh(signals + [s]) <==> AnyHigh(signals) || s.tool.risk == "high"
  {
    var all := signals + [s];
    assert all[|signals|] == s && forall i :: 0 <= i < |signals| ==> all[i] == signals[i];
  }

  method MakePlan(tools: seq<Tool>, req: Request) returns (plan: Plan)
    ensures plan.signals == Signals(tools, req.categories) && plan.missing == Missing(tools, req.categories)
    ensures plan.review <==> plan.missing != [] || req.tolerance == "low" || AnyHigh(plan.signals)
  {
    var index := Index(tools);
    var signals: seq<Signal>, missing: seq<string>, highRisk := [], [], false;
    for n := 0 to |req.categories|
      invariant signals == Signals(tools, req.categories[..n])
      invariant missing == Missing(tools, req.categories[..n])
      invariant highRisk == AnyHigh(signals)
    {
      var category := req.categories[n];
      assert req.categories[..n + 1][..n] == req.categories[..n];
      var options := At(index, category);
      if options == [] {
        missing := missing + [category];
      } else {
        var tool := Least(options);
        AnyHighGrows(signals, SignalTo(tool, category));
        highRisk := highRisk || tool.risk == "high";
        signals := signals + [SignalTo(tool, category)];
      }
    }
    assert req.categories[..|req.categories|] == req.categories;
    plan := Plan(signals, missing, highRisk || missing != [] || req.tolerance == "low");
  }

  /** The signal goes to a registered tool for its category, and no such tool is less risky, or as risky with
      an id that comes before. */
  ghost predicate GoesToLeastRisky(tools: seq<Tool>, s: Signal) {
    && s.tool in tools && s.category in s.tool.categories
    && forall t :: t in tools && s.category in t.categories ==> !Outranks(t, s.tool)
  }

  ghost predicate Outranks(a: Tool, b: Tool) {
    RiskRank(a.risk) < RiskRank(b.risk) ||
    (RiskRank(a.risk) == RiskRank(b.risk) && (a.id < b.id || exists k :: LessAt(a.id, b.id, k)))
  }

  lemma NoneIsLessRisky(options: seq<Tool>, t: Tool)
    requires t in options
    ensures Least(options) in options && !Outranks(t, Least(options))
  {
    LeastMeans(options);
    BeforeMeans(t.id, Least(options).id);
    var k :| 0 <= k < |options| && options[k] == t;
    assert !Precedes(options[k], Least(options));
  }

  lemma LeastIsLeastRisky(tools: seq<Tool>, category: string)
    requires Options(tools, category) != []
    ensures GoesToLeastRisky(tools, SignalTo(Least(Options(tools, category)), category))
  {
    var options := Options(tools, category);
    OptionsMean(tools, category);
    NoneIsLessRisky(options, options[0]);
    forall t | t in tools && category in t.categories
      ensures !Outranks(t, Least(options))
    {
      NoneIsLessRisky(options, t);
    }
  }

  /** Whether some registered tool lists the category. */
  ghost predicate Covered(tools: seq<Tool>, category: string) {
    exists t :: t in tools && category in t.categories
  }

  lemma CoveredMeans(tools: seq<Tool>, category: string)
    ensures Covered(tools, category) <==> Options(tools, category) != []
  {
    OptionsMean(tools, category);
    if Options(tools, category) != [] {
      assert Options(tools, category)[0] in Options(tools, category);
    }
  }

  function SignalFor(tools: seq<Tool>): string -> Option<Signal> {
    category => if Options(tools, category) == [] then None
                else Some(SignalTo(Least(Options(tools, category)), category))
  }

  function MissingFor(tools: seq<Tool>): string -> Option<string> {
    category => if Options(tools, category) == [] then Some(category) else None
  }

  lemma {:induction false} PlanIsCollected(tools: seq<Tool>, categories: seq<string>)
    ensures Signals(tools, categories) == Collect(SignalFor(tools), categories)
    ensures Missing(tools, categories) == Collect(MissingFor(tools), categories)
  {
    if categories != [] {
      PlanIsCollected(tools, categories[..|categories| - 1]);
    }
  }

  /** This signal is for this category: it goes to a least risky tool, and asks for the function that the
      tool names for the category, or for "invoke". */
  ghost predicate IsSignalFor(tools: seq<Tool>, s: Signal, category: string) {
    && GoesToLeastRisky(tools, s) && s.category == category
    && (category in s.tool.functions ==> s.function_ == s.tool.functions[category])
    && (category !in s.tool.functions ==> s.function_ == "invoke")
  }

  lemma SignalIs(tools: seq<Tool>, category: string)
    ensures SignalFor(tools)(category).Some? <==> Covered(tools, category)
    ensures MissingFor(tools)(category).None? <==> Covered(tools, category)
    ensures SignalFor(tools)(category).Some? ==> IsSignalFor(tools, SignalFor(tools)(category).value, category)
  {
    CoveredMeans(tools, category);
    if Options(tools, category) != [] {
      LeastIsLeastRisky(tools, category);
    }
  }

  /**
    One signal for each required category that some tool covers, in the order they were asked for, each to a
    least risky tool. `at` lists the positions of these categories, and `out` those of the others, which are
    reported missing in the same order.
   */
  lemma SignalsAreLeastRisky(tools: seq<Tool>, categories: seq<string>) returns (at: seq<nat>, out: seq<nat>)
    ensures forall k :: 0 <= k < |categories| ==> (k in at <==> Covered(tools, categories[k]))
    ensures forall k :: 0 <= k < |categories| ==> (k in out <==> !Covered(tools, categories[k]))
    ensures forall i, j :: 0 <= i < j < |at| ==> at[i] < at[j]
    ensures forall i, j :: 0 <= i < j < |out| ==> out[i] < out[j]
    ensures |Signals(tools, categories)| == |at|
    ensures forall i :: 0 <= i < |at| ==>
              at[i] < |categories| && IsSignalFor(tools, Signals(tools, categories)[i], categories[at[i]])
    ensures |Missing(tools, categories)| == |out|
    ensures forall i :: 0 <= i < |out| ==> out[i] < |categories| && Missing(tools, categories)[i] == categories[out[i]]
  {
    at := CollectPicks(SignalFor(tools), categories);
    out := CollectPicks(MissingFor(tools), categories);
    PlanIsCollected(tools, categories);
    forall k | 0 <= k < |categories|
      ensures SignalFor(tools)(categories[k]).Some? <==> Covered(tools, categories[k])
      ensures MissingFor(tools)(categories[k]).None? <==> Covered(tools, categories[k])
      ensures SignalFor(tools)(categories[k]).Some? ==>
                IsSignalFor(tools, SignalFor(tools)(categories[k]).value, categories[k])
    {
      SignalIs(tools, categories[k]);
    }
  }

  /** Tools are listed in the order of their registration. */
  lemma {:induction false} OptionsGrowInOrder(tools: seq<Tool>, category: string, n: nat)
    requires n <= |tools|
    ensures Options(tools[..n], category) <= Options(tools, category)
  {
    if n == |tools| {
      assert tools[..n] == tools;
    } else {
      assert tools[..|tools| - 1][..n] == tools[..n];
      OptionsGrowInOrder(tools[..|tools| - 1], category, n);
    }
  }
}
