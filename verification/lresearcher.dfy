/** The local-model research agent (agents/lresearcher.py): a three-node graph that plans,
    researches every plan line over web search, and writes a report from the drafts. The
    local LLM and the search tool are oracle functions. */
module LocalResearcher {
  import opened Wrappers
  import opened Strs

  /** The graph state (`AgentState`). */
  datatype AgentState = AgentState(query: string, plan: string, drafts: seq<string>,
                                   critiques: seq<string>, report: string)

  /** What the search tool hands back: a list of strings, or a single value used as is. */
  datatype SearchOutput = ListOutput(items: seq<string>) | RawOutput(text: string)

  /** The search tool is created with `max_results=3`. */
  const LocalMaxResults: nat := 3

  /** Separator between drafts in the report prompt. */
  const DraftSeparator := "\n\n---\n\n"

  type Planner = string -> Result<string>
  type LocalSearch = (string, nat) -> Result<SearchOutput>
  type Drafter = (string, string) -> Result<string>
  type Reporter = string -> Result<string>

  /** The context handed to the drafter: list items joined by newlines, otherwise the raw value. */
  function ContextOf(o: SearchOutput): string {
    match o
    case ListOutput(items) => Join(items, "\n")
    case RawOutput(text) => text
  }

  /** `state["plan"].strip().split("\n")` */
  function PlanSteps(plan: string): seq<string> {
    Split(Strip(plan), '\n')
  }

  /** The plan lines that get researched: the loop skips only lines that are exactly empty. */
  function ResearchedSteps(steps: seq<string>): (r: seq<string>)
    ensures |r| <= |steps|
    ensures forall k :: 0 <= k < |r| ==> r[k] != ""
  {
    if steps == [] then []
    else
      var init := ResearchedSteps(steps[..|steps| - 1]);
      if steps[|steps| - 1] == "" then init else init + [steps[|steps| - 1]]
  }

  /** Searching one plan line and drafting an answer from the context. */
  function DraftFor(step: string, search: LocalSearch, draft: Drafter): Result<string> {
    var found :- search(step, LocalMaxResults);
    draft(step, ContextOf(found))
  }

  /** The drafts `research_step` produces for a list of plan lines, in order; the first failing
      search or draft call ends the step with its error. */
  function Drafts(steps: seq<string>, search: LocalSearch, draft: Drafter): Result<seq<string>> {
    if steps == [] then Ok([])
    else
      var ds :- Drafts(steps[..|steps| - 1], search, draft);
      var last := steps[|steps| - 1];
      if last == "" then Ok(ds)
      else
        var d :- DraftFor(last, search, draft);
        Ok(ds + [d])
  }

  /** One draft per researched line, in plan order, each the draft of that line; the step
      succeeds exactly when every researched line's search and draft succeed. */
  lemma {:induction false} DraftsSpec(steps: seq<string>, search: LocalSearch, draft: Drafter)
    ensures var r := Drafts(steps, search, draft);
      var todo := ResearchedSteps(steps);
      && (r.Ok? <==> forall k :: 0 <= k < |todo| ==> DraftFor(todo[k], search, draft).Ok?)
      && (r.Ok? ==> |r.value| == |todo|)
      && (r.Ok? ==> forall k :: 0 <= k < |todo| ==> r.value[k] == DraftFor(todo[k], search, draft).value)
  {
    if steps != [] {
      var init := steps[..|steps| - 1];
      var last := steps[|steps| - 1];
      DraftsSpec(init, search, draft);
      var before := ResearchedSteps(init);
      if last != "" {
        var todo := before + [last];
        assert ResearchedSteps(steps) == todo;
        assert forall k :: 0 <= k < |before| ==> todo[k] == before[k];
        assert todo[|before|] == last;
        if Drafts(init, search, draft).Ok? && DraftFor(last, search, draft).Ok? {
          assert forall k :: 0 <= k < |todo| ==> DraftFor(todo[k], search, draft).Ok? by {
            forall k | 0 <= k < |todo| ensures DraftFor(todo[k], search, draft).Ok? {
              if k < |before| { assert todo[k] == before[k]; }
            }
          }
        }
      }
    }
  }

  /** A line holding only whitespace is still researched; only an empty line is skipped. */
  lemma BlankLineIsResearched()
    ensures ResearchedSteps(["a", " ", "", "b"]) == ["a", " ", "b"]
  {
    assert ["a", " ", "", "b"][..3] == ["a", " ", ""];
    assert ["a", " ", ""][..2] == ["a", " "];
    assert ["a", " "][..1] == ["a"];
    assert ["a"][..0] == [];
  }

  /** `research_step`: the loop over the plan lines, appending one draft per non-empty line. */
  method ResearchStep(state: AgentState, search: LocalSearch, draft: Drafter) returns (r: Result<seq<string>>)
    ensures r == Drafts(PlanSteps(state.plan), search, draft)
  {
    var steps := PlanSteps(state.plan);
    var drafts: seq<string> := [];
    var i := 0;
    while i < |steps|
      invariant 0 <= i <= |steps|
      invariant Drafts(steps[..i], search, draft) == Ok(drafts)
    {
      var step := steps[i];
      assert steps[..i + 1][..i] == steps[..i];
      if step != "" {
        var d := DraftFor(step, search, draft);
        if d.Err? {
          r := Err(d.error);
          FailureSticks(steps, i + 1, search, draft);
          return;
        }
        drafts := drafts + [d.value];
      }
      i := i + 1;
    }
    assert steps[..i] == steps;
    r := Ok(drafts);
  }

  /** Once a prefix of the lines fails, the whole list fails with the same error. */
  lemma {:induction false} FailureSticks(steps: seq<string>, n: nat, search: LocalSearch, draft: Drafter)
    requires n <= |steps|
    requires Drafts(steps[..n], search, draft).Err?
    ensures Drafts(steps, search, draft) == Drafts(steps[..n], search, draft)
    decreases |steps| - n
  {
    if n < |steps| {
      assert steps[..n + 1][..n] == steps[..n];
      FailureSticks(steps, n + 1, search, draft);
    } else {
      assert steps[..n] == steps;
    }
  }

  /** `report_step`'s prompt input: the drafts in order, separated by a horizontal rule. */
  function DraftsText(drafts: seq<string>): string {
    Join(drafts, DraftSeparator)
  }

  lemma DraftsTextShape(drafts: seq<string>, d: string)
    ensures DraftsText([]) == ""
    ensures DraftsText(drafts + [d]) == if drafts == [] then d else DraftsText(drafts) + DraftSeparator + d
  {
    JoinSnoc(drafts, d, DraftSeparator);
  }

  /** The three graph nodes, each returning the updated state. */
  function PlanStep(s: AgentState, planner: Planner): Result<AgentState> {
    var plan :- planner(s.query);
    Ok(s.(plan := plan))
  }

  function ResearchNode(s: AgentState, search: LocalSearch, draft: Drafter): Result<AgentState> {
    var drafts :- Drafts(PlanSteps(s.plan), search, draft);
    Ok(s.(drafts := drafts))
  }

  function ReportStep(s: AgentState, reporter: Reporter): Result<AgentState> {
    var report :- reporter(DraftsText(s.drafts));
    Ok(s.(report := report))
  }

  /** The graph's nodes and the `END` marker. */
  datatype Node = PlannerNode | ResearcherNode | ReporterNode | EndNode

  /** `set_entry_point("planner")` */
  const Entry := PlannerNode

  /** The edges added by `build_agent_graph`. */
  const Edges: seq<(Node, Node)> :=
    [(PlannerNode, ResearcherNode), (ResearcherNode, ReporterNode), (ReporterNode, EndNode)]

  /** The successor of a node along the edge list, if it has one. */
  function Successor(n: Node, edges: seq<(Node, Node)>): (r: Option<Node>)
    ensures r.Some? ==> (n, r.value) in edges
    ensures r.None? ==> forall k :: 0 <= k < |edges| ==> edges[k].0 != n
  {
    if edges == [] then None
    else if edges[0].0 == n then Some(edges[0].1)
    else Successor(n, edges[1..])
  }

  /** The nodes visited from `n` until `END`, following at most `fuel` edges. */
  function Walk(n: Node, fuel: nat): seq<Node>
    decreases fuel
  {
    if n == EndNode || fuel == 0 then []
    else
      match Successor(n, Edges)
      case None => [n]
      case Some(m) => [n] + Walk(m, fuel - 1)
  }

  /** The compiled graph runs planner, researcher and reporter, in that order, then ends. */
  lemma ExecutionOrder()
    ensures Walk(Entry, 3) == [PlannerNode, ResearcherNode, ReporterNode]
    ensures Walk(Entry, 10) == Walk(Entry, 3)
  {
    assert Successor(PlannerNode, Edges) == Some(ResearcherNode);
    assert Successor(ResearcherNode, Edges) == Some(ReporterNode);
    assert Successor(ReporterNode, Edges) == Some(EndNode);
  }

  /** Running one node on the state. */
  function RunNode(n: Node, s: AgentState, planner: Planner, search: LocalSearch, draft: Drafter,
                   reporter: Reporter): Result<AgentState>
  {
    match n
    case PlannerNode => PlanStep(s, planner)
    case ResearcherNode => ResearchNode(s, search, draft)
    case ReporterNode => ReportStep(s, reporter)
    case EndNode => Ok(s)
  }

  /** Running the nodes of a walk in order; a failing node stops the run. */
  function RunWalk(nodes: seq<Node>, s: AgentState, planner: Planner, search: LocalSearch, draft: Drafter,
                   reporter: Reporter): Result<AgentState>
  {
    if nodes == [] then Ok(s)
    else
      var s1 :- RunNode(nodes[0], s, planner, search, draft, reporter);
      RunWalk(nodes[1..], s1, planner, search, draft, reporter)
  }

  /** Invoking the graph on a query: the final report is written from the drafts of the lines of
      the plan made for that query, and the query itself is kept. */
  lemma GraphRun(s: AgentState, planner: Planner, search: LocalSearch, draft: Drafter, reporter: Reporter)
    ensures var r := RunWalk(Walk(Entry, 3), s, planner, search, draft, reporter);
      r.Ok? ==>
        && planner(s.query).Ok?
        && r.value.plan == planner(s.query).value
        && Drafts(PlanSteps(r.value.plan), search, draft) == Ok(r.value.drafts)
        && reporter(DraftsText(r.value.drafts)) == Ok(r.value.report)
        && r.value.query == s.query
        && r.value.critiques == s.critiques
  {
    ExecutionOrder();
    var nodes := [PlannerNode, ResearcherNode, ReporterNode];
    assert nodes[1..] == [ResearcherNode, ReporterNode];
    assert nodes[1..][1..] == [ReporterNode];
    assert nodes[1..][1..][1..] == [];
    match PlanStep(s, planner)
    case Err(_) =>
    case Ok(s1) =>
      match ResearchNode(s1, search, draft)
      case Err(_) =>
      case Ok(s2) =>
        assert RunWalk(nodes, s, planner, search, draft, reporter)
            == RunWalk(nodes[1..], s1, planner, search, draft, reporter);
        assert RunWalk(nodes[1..], s1, planner, search, draft, reporter)
            == RunWalk([ReporterNode], s2, planner, search, draft, reporter);
        match ReportStep(s2, reporter)
        case Err(_) =>
        case Ok(s3) =>
          assert RunWalk([ReporterNode], s2, planner, search, draft, reporter)
              == RunWalk([], s3, planner, search, draft, reporter);
  }
}
