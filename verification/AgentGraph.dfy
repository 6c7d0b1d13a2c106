/**
 The agent graph: its edges as `tradingagents/graph/setup.py` lays them, its routers
 (`conditional_logic.py`), and the debate states its speakers write. What models answer, and
 how often an analyst asks for tools, are parameters of a run.
 */
module AgentGraph {
  import opened Wrappers

  datatype Key = Market | Social | News | Fundamentals

  datatype Node =
    | Analyst(key: Key)
    | Tools(key: Key)
    | Clear(key: Key)
    | BullResearcher
    | BearResearcher
    | ResearchManager
    | Trader
    | AggressiveAnalyst
    | ConservativeAnalyst
    | NeutralAnalyst
    | PortfolioManager
    | End

  /** A plain edge, or a router with the nodes its path map admits. */
  datatype Edge = To(node: Node) | AskTools(key: Key, paths: set<Node>) | AskDebate(paths: set<Node>) | AskRisk(paths: set<Node>)

  const DEBATE_PATHS: set<Node> := {BullResearcher, BearResearcher, ResearchManager}

  const RISK_PATHS: set<Node> := {AggressiveAnalyst, ConservativeAnalyst, NeutralAnalyst, PortfolioManager}

  datatype Debate = Debate(history: string, bullHistory: string, bearHistory: string, current: string, count: nat)

  datatype Risk = Risk(history: string, aggressiveHistory: string, conservativeHistory: string, neutralHistory: string,
                       latest: string, aggressive: string, conservative: string, neutral: string, count: nat)

  /** The configuration of a run, and what its models will do. */
  datatype Config = Config(specs: seq<Key>, debateRounds: int, riskRounds: int,
                           calls: Key -> nat, argue: nat -> string, assess: nat -> string)

  /** The next node, the tool rounds its analyst has had, and the two debate states. */
  datatype State = State(node: Node, used: nat, debate: Debate, risk: Risk)

  // ---------------------------------------------------------------- speakers

  function Says(name: string, content: string): string {
    name + " Analyst: " + content
  }

  function BullSpeaks(d: Debate, content: string): Debate {
    var argument := Says("Bull", content);
    Debate(d.history + "\n" + argument, d.bullHistory + "\n" + argument, d.bearHistory, argument, d.count + 1)
  }

  function BearSpeaks(d: Debate, content: string): Debate {
    var argument := Says("Bear", content);
    Debate(d.history + "\n" + argument, d.bullHistory, d.bearHistory + "\n" + argument, argument, d.count + 1)
  }

  function AggressiveSpeaks(r: Risk, content: string): Risk {
    var argument := Says("Aggressive", content);
    Risk(r.history + "\n" + argument, r.aggressiveHistory + "\n" + argument, r.conservativeHistory, r.neutralHistory,
         "Aggressive", argument, r.conservative, r.neutral, r.count + 1)
  }

  function ConservativeSpeaks(r: Risk, content: string): Risk {
    var argument := Says("Conservative", content);
    Risk(r.history + "\n" + argument, r.aggressiveHistory, r.conservativeHistory + "\n" + argument, r.neutralHistory,
         "Conservative", r.aggressive, argument, r.neutral, r.count + 1)
  }

  function NeutralSpeaks(r: Risk, content: string): Risk {
    var argument := Says("Neutral", content);
    Risk(r.history + "\n" + argument, r.aggressiveHistory, r.conservativeHistory, r.neutralHistory + "\n" + argument,
         "Neutral", r.aggressive, r.conservative, argument, r.count + 1)
  }

  // ---------------------------------------------------------------- routers

  function ShouldContinueTools(key: Key, toolCalls: bool): Node {
    if toolCalls then Tools(key) else Clear(key)
  }

  function ShouldContinueDebate(rounds: int, d: Debate): Node {
    if d.count >= 2 * rounds then ResearchManager
    else if "Bull" <= d.current then BearResearcher
    else BullResearcher
  }

  function ShouldContinueRisk(rounds: int, r: Risk): Node {
    if r.count >= 3 * rounds then PortfolioManager
    else if "Aggressive" <= r.latest then ConservativeAnalyst
    else if "Conservative" <= r.latest then NeutralAnalyst
    else AggressiveAnalyst
  }

  /** Where an edge leads; nothing when a router leaves its path map. */
  function Follow(cfg: Config, e: Edge, s: State): Option<Node> {
    match e
    case To(n) => Some(n)
    case AskTools(key, paths) =>
      var n := ShouldContinueTools(key, s.used < cfg.calls(key));
      if n in paths then Some(n) else None
    case AskDebate(paths) =>
      var n := ShouldContinueDebate(cfg.debateRounds, s.debate);
      if n in paths then Some(n) else None
    case AskRisk(paths) =>
      var n := ShouldContinueRisk(cfg.riskRounds, s.risk);
      if n in paths then Some(n) else None
  }

  // ---------------------------------------------------------------- the edges

  predicate Distinct(specs: seq<Key>) {
    forall i, j :: 0 <= i < j < |specs| ==> specs[i] != specs[j]
  }

  function IndexOf(specs: seq<Key>, key: Key): (i: nat)
    ensures i <= |specs| && (i < |specs| ==> specs[i] == key) && (key in specs ==> i < |specs|)
  {
    if specs == [] then 0 else if specs[0] == key then 0 else 1 + IndexOf(specs[1..], key)
  }

  function AfterClear(specs: seq<Key>, i: nat): Node {
    if i + 1 < |specs| then Analyst(specs[i + 1]) else BullResearcher
  }

  /** The edge leaving a node, as a definition. */
  function EdgeFrom(specs: seq<Key>, n: Node): Option<Edge> {
    match n
    case Analyst(key) => if key in specs then Some(AskTools(key, {Tools(key), Clear(key)})) else None
    case Tools(key) => if key in specs then Some(To(Analyst(key))) else None
    case Clear(key) => if key in specs then Some(To(AfterClear(specs, IndexOf(specs, key)))) else None
    case BullResearcher => Some(AskDebate(DEBATE_PATHS))
    case BearResearcher => Some(AskDebate(DEBATE_PATHS))
    case ResearchManager => Some(To(Trader))
    case Trader => Some(To(AggressiveAnalyst))
    case AggressiveAnalyst => Some(AskRisk(RISK_PATHS))
    case ConservativeAnalyst => Some(AskRisk(RISK_PATHS))
    case NeutralAnalyst => Some(AskRisk(RISK_PATHS))
    case PortfolioManager => Some(To(End))
    case End => None
  }

  lemma {:induction false} IndexIs(specs: seq<Key>, i: nat)
    requires Distinct(specs) && i < |specs|
    ensures IndexOf(specs, specs[i]) == i
  {
    if i == 0 {
    } else {
      assert specs[0] != specs[i];
      IndexIs(specs[1..], i - 1);
    }
  }

  predicate OfAnalyst(n: Node) {
    n.Analyst? || n.Tools? || n.Clear?
  }

  /** Registering the analysts' nodes; the same node twice is an error. */
  method AddNodes(specs: seq<Key>) returns (ok: bool)
    ensures ok <==> Distinct(specs)
  {
    var nodes: set<Key>, k := {}, 0;
    while k < |specs|
      invariant 0 <= k <= |specs| && Distinct(specs[..k])
      invariant forall key :: key in nodes <==> key in specs[..k]
    {
      assert specs[..k + 1] == specs[..k] + [specs[k]];
      if specs[k] in nodes {
        var j :| 0 <= j < k && specs[..k][j] == specs[k];
        assert specs[j] == specs[k];
        return false;
      }
      nodes := nodes + {specs[k]};
      k := k + 1;
    }
    assert specs[..k] == specs;
    ok := true;
  }

  /** The loop over the analysts: tools and back, and on to the next analyst or the debate. */
  method AddAnalystEdges(specs: seq<Key>) returns (edges: map<Node, Edge>)
    requires Distinct(specs)
    ensures forall n :: n in edges <==> OfAnalyst(n) && n.key in specs
    ensures forall n :: n in edges ==> EdgeFrom(specs, n) == Some(edges[n])
  {
    edges := map[];
    var i := 0;
    while i < |specs|
      invariant 0 <= i <= |specs|
      invariant forall n :: n in edges <==> OfAnalyst(n) && n.key in specs[..i]
      invariant forall n :: n in edges ==> EdgeFrom(specs, n) == Some(edges[n])
    {
      var key := specs[i];
      IndexIs(specs, i);
      assert specs[..i + 1] == specs[..i] + [key];
      edges := edges[Analyst(key) := AskTools(key, {Tools(key), Clear(key)})];
      edges := edges[Tools(key) := To(Analyst(key))];
      if i < |specs| - 1 {
        edges := edges[Clear(key) := To(Analyst(specs[i + 1]))];
      } else {
        edges := edges[Clear(key) := To(BullResearcher)];
      }
      i := i + 1;
    }
    assert specs[..i] == specs;
  }

  /** The edges so far are the analysts' and those of `shared`, each as defined. */
  ghost predicate Wired(specs: seq<Key>, edges: map<Node, Edge>, shared: set<Node>) {
    && (forall n :: n in edges <==> (OfAnalyst(n) && n.key in specs) || n in shared)
    && (forall n :: n in edges ==> EdgeFrom(specs, n) == Some(edges[n]))
  }

  lemma {:induction false} WireOne(specs: seq<Key>, edges: map<Node, Edge>, shared: set<Node>, n: Node, e: Edge)
    requires Wired(specs, edges, shared) && EdgeFrom(specs, n) == Some(e)
    ensures Wired(specs, edges[n := e], shared + {n})
  {
  }

  const DEBATE_NODES: set<Node> := {BullResearcher, BearResearcher, ResearchManager, Trader}

  const RISK_NODES: set<Node> := {AggressiveAnalyst, ConservativeAnalyst, NeutralAnalyst, PortfolioManager}

  function NodesIn(nodes: seq<Node>): set<Node> {
    set n | n in nodes
  }

  /** The loops over the speakers that share a router. */
  method AddRouted(specs: seq<Key>, before: map<Node, Edge>, nodes: seq<Node>, e: Edge, ghost shared: set<Node>) returns (edges: map<Node, Edge>)
    requires Wired(specs, before, shared) && forall i :: 0 <= i < |nodes| ==> EdgeFrom(specs, nodes[i]) == Some(e)
    ensures Wired(specs, edges, shared + NodesIn(nodes))
  {
    edges := before;
    var i := 0;
    assert shared + NodesIn(nodes[..0]) == shared;
    while i < |nodes|
      invariant 0 <= i <= |nodes|
      invariant Wired(specs, edges, shared + NodesIn(nodes[..i]))
    {
      WireOne(specs, edges, shared + NodesIn(nodes[..i]), nodes[i], e);
      assert nodes[..i + 1] == nodes[..i] + [nodes[i]];
      assert shared + NodesIn(nodes[..i + 1]) == shared + NodesIn(nodes[..i]) + {nodes[i]};
      edges := edges[nodes[i] := e];
      i := i + 1;
    }
    assert nodes[..i] == nodes;
  }

  /** The debate, its manager and the trader. */
  method AddDebateEdges(specs: seq<Key>, analysts: map<Node, Edge>) returns (edges: map<Node, Edge>)
    requires Wired(specs, analysts, {})
    ensures Wired(specs, edges, DEBATE_NODES)
  {
    edges := AddRouted(specs, analysts, [BullResearcher, BearResearcher], AskDebate(DEBATE_PATHS), {});
    edges := AddRouted(specs, edges, [ResearchManager], To(Trader), NodesIn([BullResearcher, BearResearcher]));
    ghost var done := NodesIn([BullResearcher, BearResearcher]) + NodesIn([ResearchManager]);
    edges := AddRouted(specs, edges, [Trader], To(AggressiveAnalyst), done);
    assert done + NodesIn([Trader]) == DEBATE_NODES;
  }

  lemma {:induction false} RiskSides(shared: set<Node>)
    ensures shared + NodesIn([AggressiveAnalyst, ConservativeAnalyst, NeutralAnalyst]) + NodesIn([PortfolioManager]) == shared + RISK_NODES
  {
    assert NodesIn([AggressiveAnalyst, ConservativeAnalyst, NeutralAnalyst]) == {AggressiveAnalyst, ConservativeAnalyst, NeutralAnalyst};
    assert NodesIn([PortfolioManager]) == {PortfolioManager};
  }

  lemma {:induction false} RiskRouted(specs: seq<Key>, speakers: seq<Node>)
    requires speakers == [AggressiveAnalyst, ConservativeAnalyst, NeutralAnalyst]
    ensures forall i :: 0 <= i < |speakers| ==> EdgeFrom(specs, speakers[i]) == Some(AskRisk(RISK_PATHS))
  {
  }

  /** The risk discussion and its manager. */
  method AddRiskEdges(specs: seq<Key>, before: map<Node, Edge>, ghost shared: set<Node>) returns (edges: map<Node, Edge>)
    requires Wired(specs, before, shared)
    ensures Wired(specs, edges, shared + RISK_NODES)
  {
    var speakers := [AggressiveAnalyst, ConservativeAnalyst, NeutralAnalyst];
    RiskRouted(specs, speakers);
    edges := AddRouted(specs, before, speakers, AskRisk(RISK_PATHS), shared);
    edges := AddRouted(specs, edges, [PortfolioManager], To(End), shared + NodesIn(speakers));
    RiskSides(shared);
  }

  lemma {:induction false} EveryNode(n: Node)
    ensures n == End || OfAnalyst(n) || n in DEBATE_NODES + RISK_NODES
  {
  }

  /** The nodes every graph has. */
  method AddSharedEdges(specs: seq<Key>, analysts: map<Node, Edge>) returns (edges: map<Node, Edge>)
    requires Wired(specs, analysts, {})
    ensures forall n :: n in edges <==> EdgeFrom(specs, n).Some?
    ensures forall n :: n in edges ==> EdgeFrom(specs, n) == Some(edges[n])
  {
    edges := AddDebateEdges(specs, analysts);
    edges := AddRiskEdges(specs, edges, DEBATE_NODES);
    forall n
      ensures n in edges <==> EdgeFrom(specs, n).Some?
    {
      EveryNode(n);
    }
  }

  /** `setup_graph`: the edges added one by one. */
  method SetupGraph(specs: seq<Key>) returns (g: Result<map<Node, Edge>>)
    ensures g.Ok? <==> specs != [] && Distinct(specs)
    ensures g.Ok? ==> forall n :: (n in g.value <==> EdgeFrom(specs, n).Some?) && (n in g.value ==> EdgeFrom(specs, n) == Some(g.value[n]))
  {
    if specs == [] {
      return Err("at least one analyst must be selected");
    }
    var ok := AddNodes(specs);
    if !ok {
      return Err("node already present");
    }
    var edges := AddAnalystEdges(specs);
    edges := AddSharedEdges(specs, edges);
    g := Ok(edges);
  }

  // ---------------------------------------------------------------- running

  /** Executing the node at hand. */
  function Execute(cfg: Config, s: State): State {
    match s.node
    case Tools(_) => s.(used := s.used + 1)
    case Clear(_) => s.(used := 0)
    case BullResearcher => s.(debate := BullSpeaks(s.debate, cfg.argue(s.debate.count)))
    case BearResearcher => s.(debate := BearSpeaks(s.debate, cfg.argue(s.debate.count)))
    case AggressiveAnalyst => s.(risk := AggressiveSpeaks(s.risk, cfg.assess(s.risk.count)))
    case ConservativeAnalyst => s.(risk := ConservativeSpeaks(s.risk, cfg.assess(s.risk.count)))
    case NeutralAnalyst => s.(risk := NeutralSpeaks(s.risk, cfg.assess(s.risk.count)))
    case _ => s
  }

  /** One step: execute, then follow the edge. Without an edge, or off the path map, the run stops. */
  function Step(cfg: Config, s: State): Option<State> {
    match EdgeFrom(cfg.specs, s.node)
    case None => None
    case Some(e) =>
      var done := Execute(cfg, s);
      match Follow(cfg, e, done)
      case None => None
      case Some(n) => Some(done.(node := n))
  }

  /** From `s` the run executes exactly `nodes` and is then at `after`. */
  ghost predicate Visits(cfg: Config, s: State, nodes: seq<Node>, after: State)
    decreases |nodes|
  {
    if nodes == [] then s == after
    else s.node == nodes[0] && Step(cfg, s).Some? && Visits(cfg, Step(cfg, s).value, nodes[1..], after)
  }

  const SILENT_DEBATE := Debate("", "", "", "", 0)

  const SILENT_RISK := Risk("", "", "", "", "", "", "", "", 0)

  function Start(cfg: Config): State
    requires cfg.specs != []
  {
    State(Analyst(cfg.specs[0]), 0, SILENT_DEBATE, SILENT_RISK)
  }

  // ---------------------------------------------------------------- the expected run

  function Repeat(nodes: seq<Node>, n: nat): (r: seq<Node>)
    ensures |r| == n * |nodes|
  {
    if n == 0 then []
    else
      Unroll(n, |nodes|);
      nodes + Repeat(nodes, n - 1)
  }

  lemma {:induction false} Unroll(n: nat, k: nat)
    requires n > 0
    ensures n * k == k + (n - 1) * k
  {
  }

  /** An analyst who asks for tools `k` times. */
  function AnalystTurn(key: Key, k: nat): seq<Node> {
    [Analyst(key)] + Repeat([Tools(key), Analyst(key)], k) + [Clear(key)]
  }

  function AnalystPhase(cfg: Config, i: nat): seq<Node>
    requires i <= |cfg.specs|
    decreases |cfg.specs| - i
  {
    if i == |cfg.specs| then [] else AnalystTurn(cfg.specs[i], cfg.calls(cfg.specs[i])) + AnalystPhase(cfg, i + 1)
  }

  function DebateSpeaker(j: nat): Node {
    if j % 2 == 0 then BullResearcher else BearResearcher
  }

  function RiskSpeaker(j: nat): Node {
    if j % 3 == 0 then AggressiveAnalyst else if j % 3 == 1 then ConservativeAnalyst else NeutralAnalyst
  }

  /** The turns of the debate from `at` up to `end`, and of the risk discussion. */
  function DebateTurns(at: nat, end: nat): (r: seq<Node>)
    ensures at <= end ==> |r| == end - at
    decreases if at < end then end - at else 0
  {
    if at >= end then [] else [DebateSpeaker(at)] + DebateTurns(at + 1, end)
  }

  function RiskTurns(at: nat, end: nat): (r: seq<Node>)
    ensures at <= end ==> |r| == end - at
    decreases if at < end then end - at else 0
  {
    if at >= end then [] else [RiskSpeaker(at)] + RiskTurns(at + 1, end)
  }

  /** The first speaker always speaks. */
  function Turns(sides: nat, rounds: int): (n: nat)
    ensures n >= 1
  {
    if sides * rounds > 1 then sides * rounds else 1
  }

  function Expected(cfg: Config): seq<Node> {
    AnalystPhase(cfg, 0) + DebateTurns(0, Turns(2, cfg.debateRounds)) + [ResearchManager, Trader] +
    RiskTurns(0, Turns(3, cfg.riskRounds)) + [PortfolioManager]
  }

  // ---------------------------------------------------------------- what has been said

  function DebateSpeech(cfg: Config, j: nat): string {
    Says(if j % 2 == 0 then "Bull" else "Bear", cfg.argue(j))
  }

  function RiskSpeech(cfg: Config, j: nat): string {
    Says(if j % 3 == 0 then "Aggressive" else if j % 3 == 1 then "Conservative" else "Neutral", cfg.assess(j))
  }

  /** The speeches before the `n`-th that `side` gave (of `sides` taking turns), each on a new line. */
  function Told(speech: nat -> string, n: nat, sides: nat, side: nat): string
    requires sides > 0
  {
    if n == 0 then ""
    else
      var before := Told(speech, n - 1, sides, side);
      if (n - 1) % sides == side then before + "\n" + speech(n - 1) else before
  }

  /** The last of them. */
  function LastOf(speech: nat -> string, n: nat, sides: nat, side: nat): string
    requires sides > 0
  {
    if n == 0 then ""
    else if (n - 1) % sides == side then speech(n - 1)
    else LastOf(speech, n - 1, sides, side)
  }

  function DebateSpeeches(cfg: Config): nat -> string {
    (j: nat) => DebateSpeech(cfg, j)
  }

  function RiskSpeeches(cfg: Config): nat -> string {
    (j: nat) => RiskSpeech(cfg, j)
  }

  function DebateAfter(cfg: Config, n: nat): Debate {
    var speech := DebateSpeeches(cfg);
    Debate(Told(speech, n, 1, 0), Told(speech, n, 2, 0), Told(speech, n, 2, 1), LastOf(speech, n, 1, 0), n)
  }

  function RiskAfter(cfg: Config, n: nat): Risk {
    var speech := RiskSpeeches(cfg);
    Risk(Told(speech, n, 1, 0), Told(speech, n, 3, 0), Told(speech, n, 3, 1), Told(speech, n, 3, 2),
         if n == 0 then "" else if (n - 1) % 3 == 0 then "Aggressive" else if (n - 1) % 3 == 1 then "Conservative" else "Neutral",
         LastOf(speech, n, 3, 0), LastOf(speech, n, 3, 1), LastOf(speech, n, 3, 2), n)
  }

  /** The same, one speech at a time. */
  function DebateTalk(cfg: Config, n: nat): (d: Debate)
    ensures d.count == n
  {
    if n == 0 then SILENT_DEBATE
    else
      var before := DebateTalk(cfg, n - 1);
      if (n - 1) % 2 == 0 then BullSpeaks(before, cfg.argue(n - 1)) else BearSpeaks(before, cfg.argue(n - 1))
  }

  function RiskTalk(cfg: Config, n: nat): (r: Risk)
    ensures r.count == n
  {
    if n == 0 then SILENT_RISK
    else
      var before := RiskTalk(cfg, n - 1);
      if (n - 1) % 3 == 0 then AggressiveSpeaks(before, cfg.assess(n - 1))
      else if (n - 1) % 3 == 1 then ConservativeSpeaks(before, cfg.assess(n - 1))
      else NeutralSpeaks(before, cfg.assess(n - 1))
  }

  // ---------------------------------------------------------------- the run is as expected

  lemma {:induction false} VisitsThen(cfg: Config, a: State, x: seq<Node>, b: State, y: seq<Node>, c: State)
    requires Visits(cfg, a, x, b) && Visits(cfg, b, y, c)
    ensures Visits(cfg, a, x + y, c)
    decreases |x|
  {
    if x == [] {
      assert x + y == y;
    } else {
      assert (x + y)[1..] == x[1..] + y;
      VisitsThen(cfg, Step(cfg, a).value, x[1..], b, y, c);
    }
  }

  lemma {:induction false} VisitOne(cfg: Config, a: State, b: State)
    requires Step(cfg, a) == Some(b)
    ensures Visits(cfg, a, [a.node], b)
  {
    assert [a.node][1..] == [];
  }

  /** What is left of an analyst's turn after `used` tool rounds. */
  lemma {:induction false} TurnRuns(cfg: Config, i: nat, used: nat, d: Debate, r: Risk)
    requires Distinct(cfg.specs) && i < |cfg.specs| && used <= cfg.calls(cfg.specs[i])
    ensures var key := cfg.specs[i];
            Visits(cfg, State(Analyst(key), used, d, r),
                   [Analyst(key)] + Repeat([Tools(key), Analyst(key)], cfg.calls(key) - used) + [Clear(key)],
                   State(AfterClear(cfg.specs, i), 0, d, r))
    decreases cfg.calls(cfg.specs[i]) - used
  {
    var key := cfg.specs[i];
    var k := cfg.calls(key) - used;
    var here, after := State(Analyst(key), used, d, r), State(AfterClear(cfg.specs, i), 0, d, r);
    IndexIs(cfg.specs, i);
    if k == 0 {
      var clearing := State(Clear(key), used, d, r);
      VisitOne(cfg, here, clearing);
      VisitOne(cfg, clearing, after);
      VisitsThen(cfg, here, [Analyst(key)], clearing, [Clear(key)], after);
      assert [Analyst(key)] + [] + [Clear(key)] == [Analyst(key)] + [Clear(key)];
    } else {
      var tooling, back := State(Tools(key), used, d, r), State(Analyst(key), used + 1, d, r);
      VisitOne(cfg, here, tooling);
      VisitOne(cfg, tooling, back);
      VisitsThen(cfg, here, [Analyst(key)], tooling, [Tools(key)], back);
      TurnRuns(cfg, i, used + 1, d, r);
      var rest := Repeat([Tools(key), Analyst(key)], k - 1);
      VisitsThen(cfg, here, [Analyst(key)] + [Tools(key)], back, [Analyst(key)] + rest + [Clear(key)], after);
      assert [Analyst(key)] + [Tools(key)] + ([Analyst(key)] + rest + [Clear(key)]) ==
             [Analyst(key)] + ([Tools(key), Analyst(key)] + rest) + [Clear(key)];
    }
  }

  lemma {:induction false} AnalystsRun(cfg: Config, i: nat, d: Debate, r: Risk)
    requires Distinct(cfg.specs) && i < |cfg.specs|
    ensures Visits(cfg, State(Analyst(cfg.specs[i]), 0, d, r), AnalystPhase(cfg, i), State(BullResearcher, 0, d, r))
    decreases |cfg.specs| - i
  {
    var key := cfg.specs[i];
    var after := State(AfterClear(cfg.specs, i), 0, d, r);
    TurnRuns(cfg, i, 0, d, r);
    if i + 1 < |cfg.specs| {
      AnalystsRun(cfg, i + 1, d, r);
    }
    VisitsThen(cfg, State(Analyst(key), 0, d, r), AnalystTurn(key, cfg.calls(key)), after,
               AnalystPhase(cfg, i + 1), State(BullResearcher, 0, d, r));
  }

  lemma {:induction false} OneMore(speech: nat -> string, n: nat, sides: nat, side: nat)
    requires sides > 0
    ensures Told(speech, n + 1, sides, side) == 
              if n % sides == side then Told(speech, n, sides, side) + "\n" + speech(n) else Told(speech, n, sides, side)
    ensures LastOf(speech, n + 1, sides, side) == if n % sides == side then speech(n) else LastOf(speech, n, sides, side)
  {
  }

  /** A speech extends the histories by itself, and is its side's last. */
  lemma {:induction false} DebateSpeechWrites(cfg: Config, n: nat)
    ensures DebateAfter(cfg, n + 1) ==
            if n % 2 == 0 then BullSpeaks(DebateAfter(cfg, n), cfg.argue(n)) else BearSpeaks(DebateAfter(cfg, n), cfg.argue(n))
  {
  }

  lemma {:induction false} RiskSpeechWrites(cfg: Config, n: nat)
    ensures RiskAfter(cfg, n + 1) ==
            if n % 3 == 0 then AggressiveSpeaks(RiskAfter(cfg, n), cfg.assess(n))
            else if n % 3 == 1 then ConservativeSpeaks(RiskAfter(cfg, n), cfg.assess(n))
            else NeutralSpeaks(RiskAfter(cfg, n), cfg.assess(n))
  {
    var speech := RiskSpeeches(cfg);
    assert speech(n) == RiskSpeech(cfg, n);
    OneMore(speech, n, 1, 0);
    OneMore(speech, n, 3, 0);
    OneMore(speech, n, 3, 1);
    OneMore(speech, n, 3, 2);
  }

  lemma {:induction false} SpeakersDiffer(content: string)
    ensures "Bull" <= Says("Bull", content) && !("Bull" <= Says("Bear", content))
  {
    assert Says("Bull", content)[..4] == "Bull";
    assert Says("Bear", content)[1] == 'e';
  }

  /** After `n` speeches each history is the speeches of its side, in order, and each last speech is its side's last. */
  lemma {:induction false} DebateIsTold(cfg: Config, n: nat)
    ensures DebateTalk(cfg, n) == DebateAfter(cfg, n)
  {
    if n == 0 {
    } else {
      DebateIsTold(cfg, n - 1);
      DebateSpeechWrites(cfg, n - 1);
    }
  }

  lemma {:induction false} RiskIsTold(cfg: Config, n: nat)
    ensures RiskTalk(cfg, n) == RiskAfter(cfg, n)
  {
    if n == 0 {
    } else {
      RiskIsTold(cfg, n - 1);
      RiskSpeechWrites(cfg, n - 1);
    }
  }

  /** `Step` takes `s` to `t`. The definition is looked into only where `Unsealed` is mentioned. */
  ghost predicate Leads(cfg: Config, s: State, t: State) {
    forall k: nat {:trigger Unsealed(k)} :: Unsealed(k) ==> Step(cfg, s) == Some(t)
  }

  lemma {:induction false} LeadsMeans(cfg: Config, s: State, t: State)
    ensures Leads(cfg, s, t) <==> Step(cfg, s) == Some(t)
  {
    assert Unsealed(0);
  }

  lemma {:induction false} DebateStep(cfg: Config, n: nat, r: Risk)
    requires n < Turns(2, cfg.debateRounds)
    ensures DebateState(cfg, r, n).node == DebateSpeaker(n)
    ensures Leads(cfg, DebateState(cfg, r, n), DebateState(cfg, r, n + 1))
  {
    LeadsMeans(cfg, DebateState(cfg, r, n), DebateState(cfg, r, n + 1));
    SpeakersDiffer(cfg.argue(n));
  }

  lemma {:induction false} VisitsCons(cfg: Config, s: State, t: State, rest: seq<Node>, after: State)
    requires Step(cfg, s) == Some(t) && Visits(cfg, t, rest, after)
    ensures Visits(cfg, s, [s.node] + rest, after)
  {
    assert ([s.node] + rest)[1..] == rest;
  }

  function DebateState(cfg: Config, r: Risk, n: nat): State {
    State(if n < Turns(2, cfg.debateRounds) then DebateSpeaker(n) else ResearchManager, 0, DebateTalk(cfg, n), r)
  }

  function RiskState(cfg: Config, d: Debate, n: nat): State {
    State(if n < Turns(3, cfg.riskRounds) then RiskSpeaker(n) else PortfolioManager, 0, d, RiskTalk(cfg, n))
  }

  lemma {:induction false} VisitsNone(cfg: Config, s: State)
    ensures Visits(cfg, s, [], s)
  {
  }

  lemma {:induction false} WalkOn(cfg: Config, s: State, t: State, nodes: seq<Node>, after: State)
    requires nodes != [] && s.node == nodes[0] && Leads(cfg, s, t) && Visits(cfg, t, nodes[1..], after)
    ensures Visits(cfg, s, nodes, after)
  {
    LeadsMeans(cfg, s, t);
    VisitsCons(cfg, s, t, nodes[1..], after);
    assert [nodes[0]] + nodes[1..] == nodes;
  }

  /** The debate alternates, starting with Bull, for exactly its number of turns. */
  lemma {:induction false} DebateRuns(cfg: Config, r: Risk, n: nat, turns: nat)
    requires turns == Turns(2, cfg.debateRounds) && n <= turns
    ensures Visits(cfg, DebateState(cfg, r, n), DebateTurns(n, turns), DebateState(cfg, r, turns))
    decreases turns - n
  {
    if n == turns {
      VisitsNone(cfg, DebateState(cfg, r, n));
    } else {
      DebateRuns(cfg, r, n + 1, turns);
      DebateRunsOn(cfg, r, n, turns, DebateState(cfg, r, n + 1), DebateState(cfg, r, turns));
    }
  }

  lemma {:induction false} DebateRunsOn(cfg: Config, r: Risk, n: nat, turns: nat, next: State, after: State)
    requires turns == Turns(2, cfg.debateRounds) && n < turns
    requires next == DebateState(cfg, r, n + 1) && Visits(cfg, next, DebateTurns(n + 1, turns), after)
    ensures Visits(cfg, DebateState(cfg, r, n), DebateTurns(n, turns), after)
  {
    DebateStep(cfg, n, r);
    DebateTurnsCons(n, turns);
    WalkOn(cfg, DebateState(cfg, r, n), next, DebateTurns(n, turns), after);
  }

  lemma {:induction false} DebateTurnsCons(n: nat, turns: nat)
    requires n < turns
    ensures DebateTurns(n, turns) != [] && DebateTurns(n, turns)[0] == DebateSpeaker(n)
    ensures DebateTurns(n, turns)[1..] == DebateTurns(n + 1, turns)
  {
  }

  lemma {:induction false} RiskStep(cfg: Config, n: nat, d: Debate)
    requires n < Turns(3, cfg.riskRounds)
    ensures RiskState(cfg, d, n).node == RiskSpeaker(n)
    ensures Leads(cfg, RiskState(cfg, d, n), RiskState(cfg, d, n + 1))
  {
    LeadsMeans(cfg, RiskState(cfg, d, n), RiskState(cfg, d, n + 1));
    assert "Conservative"[0] == 'C' && "Neutral"[0] == 'N' && "Aggressive"[0] == 'A';
  }

  /** The risk discussion cycles through its three sides. */
  lemma {:induction false} RiskRuns(cfg: Config, d: Debate, n: nat, turns: nat)
    requires turns == Turns(3, cfg.riskRounds) && n <= turns
    ensures Visits(cfg, RiskState(cfg, d, n), RiskTurns(n, turns), RiskState(cfg, d, turns))
    decreases turns - n
  {
    if n == turns {
      VisitsNone(cfg, RiskState(cfg, d, n));
    } else {
      RiskRuns(cfg, d, n + 1, turns);
      RiskRunsOn(cfg, d, n, turns, RiskState(cfg, d, n + 1), RiskState(cfg, d, turns));
    }
  }

  lemma {:induction false} RiskRunsOn(cfg: Config, d: Debate, n: nat, turns: nat, next: State, after: State)
    requires turns == Turns(3, cfg.riskRounds) && n < turns
    requires next == RiskState(cfg, d, n + 1) && Visits(cfg, next, RiskTurns(n + 1, turns), after)
    ensures Visits(cfg, RiskState(cfg, d, n), RiskTurns(n, turns), after)
  {
    RiskStep(cfg, n, d);
    RiskTurnsCons(n, turns);
    WalkOn(cfg, RiskState(cfg, d, n), next, RiskTurns(n, turns), after);
  }

  lemma {:induction false} RiskTurnsCons(n: nat, turns: nat)
    requires n < turns
    ensures RiskTurns(n, turns) != [] && RiskTurns(n, turns)[0] == RiskSpeaker(n)
    ensures RiskTurns(n, turns)[1..] == RiskTurns(n + 1, turns)
  {
  }

  lemma {:induction false} ManagersRun(cfg: Config, d: Debate, r: Risk)
    ensures Visits(cfg, State(ResearchManager, 0, d, r), [ResearchManager, Trader], State(AggressiveAnalyst, 0, d, r))
    ensures Visits(cfg, State(PortfolioManager, 0, d, r), [PortfolioManager], State(End, 0, d, r))
  {
    var trading, risking := State(Trader, 0, d, r), State(AggressiveAnalyst, 0, d, r);
    VisitOne(cfg, trading, risking);
    VisitsCons(cfg, State(ResearchManager, 0, d, r), trading, [Trader], risking);
    assert [ResearchManager] + [Trader] == [ResearchManager, Trader];
    VisitOne(cfg, State(PortfolioManager, 0, d, r), State(End, 0, d, r));
  }

  lemma {:induction false} Phases(cfg: Config, s0: State, a: seq<Node>, s1: State, b: seq<Node>, s2: State, c: seq<Node>, s3: State,
                                      d: seq<Node>, s4: State, e: seq<Node>, s5: State)
    requires Visits(cfg, s0, a, s1) && Visits(cfg, s1, b, s2) && Visits(cfg, s2, c, s3) && Visits(cfg, s3, d, s4) && Visits(cfg, s4, e, s5)
    ensures Visits(cfg, s0, a + b + c + d + e, s5)
  {
    VisitsThen(cfg, s0, a, s1, b, s2);
    VisitsThen(cfg, s0, a + b, s2, c, s3);
    VisitsThen(cfg, s0, a + b + c, s3, d, s4);
    VisitsThen(cfg, s0, a + b + c + d, s4, e, s5);
  }

  /**
   Every run executes exactly the expected nodes and then ends, with the histories the ordered
   records of the speeches: the graph terminates whenever its analysts stop asking for tools.
   */
  lemma {:induction false} RunIsExpected(cfg: Config)
    requires cfg.specs != [] && Distinct(cfg.specs)
    ensures Visits(cfg, Start(cfg), Expected(cfg),
                   State(End, 0, DebateAfter(cfg, Turns(2, cfg.debateRounds)), RiskAfter(cfg, Turns(3, cfg.riskRounds))))
  {
    var m, n := Turns(2, cfg.debateRounds), Turns(3, cfg.riskRounds);
    var d, r, d', r' := SILENT_DEBATE, SILENT_RISK, DebateAfter(cfg, m), RiskAfter(cfg, n);
    DebateIsTold(cfg, m);
    RiskIsTold(cfg, n);
    AnalystsRun(cfg, 0, d, r);
    DebateRuns(cfg, r, 0, m);
    ManagersRun(cfg, d', r);
    RiskRuns(cfg, d', 0, n);
    ManagersRun(cfg, d', r');
    Phases(cfg, Start(cfg), AnalystPhase(cfg, 0), State(BullResearcher, 0, d, r), DebateTurns(0, m), State(ResearchManager, 0, d', r),
               [ResearchManager, Trader], State(AggressiveAnalyst, 0, d', r), RiskTurns(0, n), State(PortfolioManager, 0, d', r'),
               [PortfolioManager], State(End, 0, d', r'));
  }

  /** A run is determined: executing `nodes` from a state is the only thing it can do. */
  lemma {:induction false} OnlyOneRun(cfg: Config, s: State, x: seq<Node>, a: State, y: seq<Node>, b: State)
    requires Visits(cfg, s, x, a) && Visits(cfg, s, y, b) && a.node == End && b.node == End
    ensures x == y && a == b
    decreases |x|
  {
    if x == [] || y == [] {
      assert EdgeFrom(cfg.specs, End) == None;
    } else {
      OnlyOneRun(cfg, Step(cfg, s).value, x[1..], a, y[1..], b);
      assert x == [x[0]] + x[1..] && y == [y[0]] + y[1..];
    }
  }

  // ---------------------------------------------------------------- counting

  function ToolRounds(cfg: Config, i: nat): nat
    requires i <= |cfg.specs|
    decreases |cfg.specs| - i
  {
    if i == |cfg.specs| then 0 else cfg.calls(cfg.specs[i]) + ToolRounds(cfg, i + 1)
  }

  lemma {:induction false} AnalystPhaseLength(cfg: Config, i: nat)
    requires i <= |cfg.specs|
    ensures |AnalystPhase(cfg, i)| == 2 * ToolRounds(cfg, i) + 2 * (|cfg.specs| - i)
    decreases |cfg.specs| - i
  {
    if i == |cfg.specs| {
    } else {
      AnalystPhaseLength(cfg, i + 1);
      assert |Repeat([Tools(cfg.specs[i]), Analyst(cfg.specs[i])], cfg.calls(cfg.specs[i]))| == cfg.calls(cfg.specs[i]) * 2;
    }
  }

  /** How many nodes a run executes. */
  lemma {:induction false} RunLength(cfg: Config)
    requires cfg.debateRounds >= 1 && cfg.riskRounds >= 1
    ensures |Expected(cfg)| == 2 * ToolRounds(cfg, 0) + 2 * |cfg.specs| + 2 * cfg.debateRounds + 3 * cfg.riskRounds + 3
  {
    AnalystPhaseLength(cfg, 0);
  }

  const NODE_LIMIT: nat := 100

  /** Four analysts at the highest round counts stay within the limit up to 32 tool rounds. */
  lemma {:induction false} DeepestRunFits(cfg: Config)
    requires |cfg.specs| == 4 && cfg.debateRounds == 5 && cfg.riskRounds == 5
    ensures |Expected(cfg)| <= NODE_LIMIT <==> ToolRounds(cfg, 0) <= 32
  {
    RunLength(cfg);
  }

  /** Routers shared by several nodes never leave the path map. */
  lemma {:induction false} RoutersStayOnTheMap(cfg: Config, s: State)
    requires s.node != End && (OfAnalyst(s.node) ==> s.node.key in cfg.specs)
    ensures Step(cfg, s).Some?
  {
  }
}
