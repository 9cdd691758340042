/**
 * The natural-language agent creator: case-sensitive keyword rules that read
 * a sentence as a trigger, a schedule and a list of tools, the generator that
 * turns the sentence into a chain of workflow nodes, and the draft agent the
 * creator assembles (with its name cut from the first five words).
 */
module NLCreator {
  import opened Text
  import opened Js
  import opened AgentTypes

  /** Does the text contain any of the keywords (checked left to right, as `a || b || ...`)? */
  predicate MentionsAny(text: string, keywords: seq<string>)
    decreases |keywords|
  {
    keywords != [] && (Contains(text, keywords[0]) || MentionsAny(text, keywords[1..]))
  }

  /** A keyword rule: it fires when the text contains one of its keywords. */
  datatype Rule = Rule(keywords: seq<string>, tag: string)

  predicate Fires(rule: Rule, text: string) {
    MentionsAny(text, rule.keywords)
  }

  /** An if-chain of rules: the label of the first rule that fires, or `default`. */
  function FirstMatch(rules: seq<Rule>, text: string, default: string): (tag: string)
    ensures (forall k :: 0 <= k < |rules| ==> !Fires(rules[k], text)) ==> tag == default
    ensures forall k :: 0 <= k < |rules| && Fires(rules[k], text) && (forall j :: 0 <= j < k ==> !Fires(rules[j], text))
              ==> tag == rules[k].tag
  {
    var k := FirstFiring(rules, text);
    if k < |rules| then rules[k].tag else default
  }

  /** The position of the first rule that fires, or the number of rules when none does. */
  function FirstFiring(rules: seq<Rule>, text: string): (k: nat)
    ensures k <= |rules|
    ensures k < |rules| ==> Fires(rules[k], text)
    ensures forall j :: 0 <= j < k ==> !Fires(rules[j], text)
  {
    if rules == [] then 0
    else if Fires(rules[0], text) then 0
    else 1 + FirstFiring(rules[1..], text)
  }

  // ---------------------------------------------------------------------------
  // detectTriggers and detectSchedule
  // ---------------------------------------------------------------------------

  const EmailTrigger := "📧 Email Trigger"
  const ScheduleTrigger := "📅 Schedule Trigger"
  const EventTrigger := "⚡ Event Trigger"
  const WebhookTrigger := "🔔 Webhook Trigger"

  const TriggerRules := [
    Rule(["email", "gmail"], EmailTrigger),
    Rule(["every", "daily"], ScheduleTrigger),
    Rule(["when", "if"], EventTrigger)]

  /** `detectTriggers`: always one trigger label. */
  function DetectTriggers(text: string): (r: seq<string>)
    ensures |r| == 1
  {
    [FirstMatch(TriggerRules, text, WebhookTrigger)]
  }

  /** The trigger rules in their order: e-mail words win over schedule words, which win over event words. */
  lemma TriggerOrder(text: string)
    ensures Contains(text, "email") || Contains(text, "gmail") ==> DetectTriggers(text) == [EmailTrigger]
    ensures !(Contains(text, "email") || Contains(text, "gmail")) && (Contains(text, "every") || Contains(text, "daily"))
      ==> DetectTriggers(text) == [ScheduleTrigger]
    ensures !(Contains(text, "email") || Contains(text, "gmail")) && !(Contains(text, "every") || Contains(text, "daily"))
      && (Contains(text, "when") || Contains(text, "if"))
      ==> DetectTriggers(text) == [EventTrigger]
    ensures !(Contains(text, "email") || Contains(text, "gmail")) && !(Contains(text, "every") || Contains(text, "daily"))
      && !(Contains(text, "when") || Contains(text, "if"))
      ==> DetectTriggers(text) == [WebhookTrigger]
  {
    var rules := TriggerRules;
    PairRule(text, "email", "gmail");
    PairRule(text, "every", "daily");
    PairRule(text, "when", "if");
    assert Fires(rules[0], text) <==> Contains(text, "email") || Contains(text, "gmail");
    assert Fires(rules[1], text) <==> Contains(text, "every") || Contains(text, "daily");
    assert Fires(rules[2], text) <==> Contains(text, "when") || Contains(text, "if");
  }

  /** A two-keyword rule fires exactly when one of its keywords occurs. */
  lemma PairRule(text: string, a: string, b: string)
    ensures MentionsAny(text, [a, b]) <==> Contains(text, a) || Contains(text, b)
  {
    assert [a, b][1..] == [b];
    OneRule(text, b);
  }

  lemma OneRule(text: string, a: string)
    ensures MentionsAny(text, [a]) <==> Contains(text, a)
  {
    assert [a][1..] == [];
  }

  const DailySchedule := "🕐 Daily"
  const WeeklySchedule := "📅 Weekly"
  const MorningSchedule := "🌅 9:00 AM"
  const EveningSchedule := "🌙 8:00 PM"
  const RealTime := "⚡ Real-time"

  const ScheduleRules := [
    Rule(["daily", "every day"], DailySchedule),
    Rule(["sunday", "monday"], WeeklySchedule),
    Rule(["morning"], MorningSchedule),
    Rule(["8pm", "evening"], EveningSchedule)]

  /** `detectSchedule`. */
  function DetectSchedule(text: string): (r: string)
    ensures r == RealTime <==> forall k :: 0 <= k < |ScheduleRules| ==> !Fires(ScheduleRules[k], text)
  {
    FirstMatch(ScheduleRules, text, RealTime)
  }

  /** The schedule rules in their order, and real time when none fires. */
  lemma ScheduleOrder(text: string)
    ensures Contains(text, "daily") || Contains(text, "every day") ==> DetectSchedule(text) == DailySchedule
    ensures !(Contains(text, "daily") || Contains(text, "every day")) && (Contains(text, "sunday") || Contains(text, "monday"))
      ==> DetectSchedule(text) == WeeklySchedule
    ensures !(Contains(text, "daily") || Contains(text, "every day")) && !(Contains(text, "sunday") || Contains(text, "monday"))
      && Contains(text, "morning")
      ==> DetectSchedule(text) == MorningSchedule
    ensures !(Contains(text, "daily") || Contains(text, "every day")) && !(Contains(text, "sunday") || Contains(text, "monday"))
      && !Contains(text, "morning") && (Contains(text, "8pm") || Contains(text, "evening"))
      ==> DetectSchedule(text) == EveningSchedule
    ensures !(Contains(text, "daily") || Contains(text, "every day")) && !(Contains(text, "sunday") || Contains(text, "monday"))
      && !Contains(text, "morning") && !(Contains(text, "8pm") || Contains(text, "evening"))
      ==> DetectSchedule(text) == RealTime
  {
    ScheduleRulesFire(text);
  }

  lemma ScheduleRulesFire(text: string)
    ensures |ScheduleRules| == 4
    ensures Fires(ScheduleRules[0], text) <==> Contains(text, "daily") || Contains(text, "every day")
    ensures Fires(ScheduleRules[1], text) <==> Contains(text, "sunday") || Contains(text, "monday")
    ensures Fires(ScheduleRules[2], text) <==> Contains(text, "morning")
    ensures Fires(ScheduleRules[3], text) <==> Contains(text, "8pm") || Contains(text, "evening")
  {
    PairRule(text, "daily", "every day");
    PairRule(text, "sunday", "monday");
    OneRule(text, "morning");
    PairRule(text, "8pm", "evening");
  }

  // ---------------------------------------------------------------------------
  // detectActions
  // ---------------------------------------------------------------------------

  const SendEmailAction := "📨 Send Email"
  const SlackAction := "💬 Slack Message"
  const WhatsAppAction := "📱 WhatsApp"
  const AnalysisAction := "🤖 AI Analysis"
  const ScraperAction := "🔍 Web Scraper"
  const ExecuteAction := "✅ Execute Action"

  const ActionRules := [
    Rule(["email", "send"], SendEmailAction),
    Rule(["slack", "alert"], SlackAction),
    Rule(["whatsapp"], WhatsAppAction),
    Rule(["summarize", "analyze"], AnalysisAction),
    Rule(["track", "check"], ScraperAction)]

  /** The labels of the rules that fire, in rule order. */
  function Fired(rules: seq<Rule>, text: string): seq<string> {
    if rules == [] then []
    else Fired(rules[..|rules| - 1], text) + (if Fires(rules[|rules| - 1], text) then [rules[|rules| - 1].tag] else [])
  }

  /** What `detectActions` returns: the labels of the rules that fire, or the generic action when none does. */
  function ActionsFor(text: string): seq<string> {
    if Fired(ActionRules, text) == [] then [ExecuteAction] else Fired(ActionRules, text)
  }

  /** `detectActions`: the rules are tried one after the other, each firing rule appending its label. */
  method DetectActions(text: string) returns (actions: seq<string>)
    ensures actions == ActionsFor(text)
  {
    actions := [];
    assert ActionRules[..0] == [];
    actions := ApplyRule(text, 0, actions);
    actions := ApplyRule(text, 1, actions);
    actions := ApplyRule(text, 2, actions);
    actions := ApplyRule(text, 3, actions);
    actions := ApplyRule(text, 4, actions);
    assert ActionRules[..5] == ActionRules;
    if |actions| == 0 {
      actions := [ExecuteAction];
    }
  }

  /** One `if (...) actions.push(...)` of `detectActions`: rule i appends its label when it fires. */
  method ApplyRule(text: string, i: nat, actions: seq<string>) returns (r: seq<string>)
    requires i < |ActionRules| && actions == Fired(ActionRules[..i], text)
    ensures r == Fired(ActionRules[..i + 1], text)
  {
    r := actions;
    if MentionsAny(text, ActionRules[i].keywords) {
      r := r + [ActionRules[i].tag];
    }
    FiredStep(ActionRules, i, text);
  }

  lemma FiredStep(rules: seq<Rule>, i: nat, text: string)
    requires i < |rules|
    ensures Fired(rules[..i + 1], text) == Fired(rules[..i], text) + (if Fires(rules[i], text) then [rules[i].tag] else [])
  {
    assert rules[..i + 1][..i] == rules[..i];
  }

  /** A label is among those fired exactly when a rule carrying it fires. */
  lemma {:induction false} FiredMembers(rules: seq<Rule>, text: string)
    ensures forall tag :: tag in Fired(rules, text) <==>
              exists k :: 0 <= k < |rules| && rules[k].tag == tag && Fires(rules[k], text)
  {
    if rules != [] {
      var n := |rules| - 1;
      FiredMembers(rules[..n], text);
      forall tag
        ensures tag in Fired(rules, text) <==> exists k :: 0 <= k < |rules| && rules[k].tag == tag && Fires(rules[k], text)
      {
        if tag in Fired(rules[..n], text) {
          var k :| 0 <= k < n && rules[..n][k].tag == tag && Fires(rules[..n][k], text);
          assert rules[k] == rules[..n][k];
        }
        if k :| 0 <= k < |rules| && rules[k].tag == tag && Fires(rules[k], text) {
          if k < n {
            assert rules[..n][k] == rules[k];
          }
        }
      }
    }
  }

  /**
   * `detectActions` never returns an empty list; the generic action appears
   * exactly when no rule fires, and otherwise the list holds precisely the
   * labels of the rules that fire.
   */
  lemma ActionsShape(text: string)
    ensures ActionsFor(text) != []
    ensures ExecuteAction in ActionsFor(text) <==> forall k :: 0 <= k < |ActionRules| ==> !Fires(ActionRules[k], text)
    ensures (exists k :: 0 <= k < |ActionRules| && Fires(ActionRules[k], text)) ==>
              forall tag :: tag in ActionsFor(text) <==>
                exists k :: 0 <= k < |ActionRules| && ActionRules[k].tag == tag && Fires(ActionRules[k], text)
  {
    FiredMembers(ActionRules, text);
    forall k | 0 <= k < |ActionRules|
      ensures Fires(ActionRules[k], text) ==> ActionRules[k].tag in Fired(ActionRules, text)
    {
    }
    if Fired(ActionRules, text) == [] {
    } else {
      assert forall k :: 0 <= k < |ActionRules| ==> ActionRules[k].tag != ExecuteAction;
      var tag := Fired(ActionRules, text)[0];
      assert tag in Fired(ActionRules, text);
    }
  }

  // ---------------------------------------------------------------------------
  // generateWorkflow
  // ---------------------------------------------------------------------------

  const TriggerId := "trigger-1"
  const NodeX := 100
  const StartY := 50
  const StepY := 100

  /** One optional node of the generated chain: the keywords that include it, and what it is. */
  datatype Stage = Stage(keywords: seq<string>, id: string, nodeType: string, data: NodeData)

  const EmailStage := Stage(["email", "send"], "action-email", "sendEmail",
    NodeData("Send Email", Action, map["to" := Str("user@example.com"), "subject" := Str("Automated Email")]))

  function AiStage(text: string): Stage {
    Stage(["summarize", "analyze"], "action-ai", "aiProcess",
      NodeData("AI Process", Action, map["prompt" := Str("Analyze and summarize: " + text)]))
  }

  const ApiStage := Stage(["api", "fetch", "get data"], "action-api", "apiCall",
    NodeData("API Call", Action, map["method" := Str("GET")]))

  const ConditionStage := Stage(["if", "when", "alert if"], "condition-1", "ifElse",
    NodeData("If/Else", Condition, map["condition" := Str("value > 0")]))

  /** The optional nodes, in the order the generator considers them. */
  function Stages(text: string): seq<Stage> {
    [EmailStage, AiStage(text), ApiStage, ConditionStage]
  }

  /** The first node: a schedule trigger when the text says "every" or "daily", else a webhook trigger. */
  function TriggerNode(text: string): AgentNode {
    var scheduled := Contains(text, "every") || Contains(text, "daily");
    AgentNode(
      TriggerId,
      if scheduled then "scheduleTrigger" else "webhookTrigger",
      Position(NodeX, StartY),
      NodeData(if scheduled then "Schedule Trigger" else "Webhook Trigger", Trigger,
        map["schedule" := Str(DetectSchedule(text))]))
  }

  function StageNode(stage: Stage, y: int): AgentNode {
    AgentNode(stage.id, stage.nodeType, Position(NodeX, y), stage.data)
  }

  /** The edge from one node to the next, named after both. */
  function Link(source: string, target: string): AgentEdge {
    AgentEdge("e-" + source + "-" + target, source, target)
  }

  /** The chain after considering one more stage: its node goes below the others when the text mentions it. */
  function Grown(text: string, nodes: seq<AgentNode>, stage: Stage): seq<AgentNode> {
    if MentionsAny(text, stage.keywords) then nodes + [StageNode(stage, StartY + StepY * |nodes|)] else nodes
  }

  /** The nodes after considering the given stages in order. */
  function Chain(text: string, stages: seq<Stage>): seq<AgentNode> {
    if stages == [] then [TriggerNode(text)]
    else Grown(text, Chain(text, stages[..|stages| - 1]), stages[|stages| - 1])
  }

  function WorkflowNodes(text: string): seq<AgentNode> {
    Chain(text, Stages(text))
  }

  /** The edges linking each node to the next. */
  function ChainEdges(nodes: seq<AgentNode>): seq<AgentEdge> {
    if |nodes| <= 1 then []
    else ChainEdges(nodes[..|nodes| - 1]) + [Link(nodes[|nodes| - 2].id, nodes[|nodes| - 1].id)]
  }

  /** The generator's state: nodes so far, the edges linking them, the last node's id and the next row. */
  ghost predicate Linked(nodes: seq<AgentNode>, edges: seq<AgentEdge>, lastNodeId: string, y: int) {
    && nodes != []
    && edges == ChainEdges(nodes)
    && lastNodeId == nodes[|nodes| - 1].id
    && y == StartY + StepY * |nodes|
  }

  /**
   * `generateWorkflow`: the trigger node first, then the e-mail, AI, API and
   * condition nodes for the keywords the text contains, each 100 below the
   * previous one and linked to it.
   */
  method GenerateWorkflow(text: string) returns (nodes: seq<AgentNode>, edges: seq<AgentEdge>)
    ensures nodes == WorkflowNodes(text)
    ensures edges == ChainEdges(nodes)
  {
    var lastNodeId, y;
    nodes, edges, lastNodeId, y := AddTrigger(text);
    nodes, edges, lastNodeId, y := AddStage(text, EmailStage, nodes, edges, lastNodeId, y);
    nodes, edges, lastNodeId, y := AddStage(text, AiStage(text), nodes, edges, lastNodeId, y);
    nodes, edges, lastNodeId, y := AddStage(text, ApiStage, nodes, edges, lastNodeId, y);
    nodes, edges, lastNodeId, y := AddStage(text, ConditionStage, nodes, edges, lastNodeId, y);
    ChainUnrolled(text);
  }

  /** The start of `generateWorkflow`: the trigger node alone, at the first row. */
  method AddTrigger(text: string) returns (nodes: seq<AgentNode>, edges: seq<AgentEdge>, lastNodeId: string, y: int)
    ensures nodes == [TriggerNode(text)]
    ensures Linked(nodes, edges, lastNodeId, y)
  {
    y := StartY;
    nodes := [TriggerNode(text)];
    edges := [];
    lastNodeId := TriggerId;
    y := y + StepY;
  }

  /**
   * One `if (text.includes(...))` block of `generateWorkflow`: when the text
   * mentions the stage, its node is pushed at the current row, linked from
   * the last node, and becomes the last node.
   */
  method AddStage(text: string, stage: Stage, nodes: seq<AgentNode>, edges: seq<AgentEdge>, lastNodeId: string, y: int)
    returns (nodes': seq<AgentNode>, edges': seq<AgentEdge>, lastNodeId': string, y': int)
    requires Linked(nodes, edges, lastNodeId, y)
    ensures nodes' == Grown(text, nodes, stage)
    ensures Linked(nodes', edges', lastNodeId', y')
  {
    nodes', edges', lastNodeId', y' := nodes, edges, lastNodeId, y;
    if MentionsAny(text, stage.keywords) {
      nodes' := nodes' + [StageNode(stage, y')];
      edges' := edges' + [Link(lastNodeId', stage.id)];
      lastNodeId' := stage.id;
      y' := y' + StepY;
      assert nodes'[..|nodes'| - 1] == nodes;
    }
  }

  /** The chain over the four stages, one stage at a time. */
  lemma ChainUnrolled(text: string)
    ensures WorkflowNodes(text) ==
      Grown(text, Grown(text, Grown(text, Grown(text, [TriggerNode(text)], EmailStage), AiStage(text)), ApiStage), ConditionStage)
  {
    var stages := Stages(text);
    assert stages[..0] == [];
    ChainSnoc(text, stages, 0);
    ChainSnoc(text, stages, 1);
    ChainSnoc(text, stages, 2);
    ChainSnoc(text, stages, 3);
    assert stages[..4] == stages;
  }

  lemma ChainSnoc(text: string, stages: seq<Stage>, i: nat)
    requires i < |stages|
    ensures Chain(text, stages[..i + 1]) == Grown(text, Chain(text, stages[..i]), stages[i])
  {
    assert stages[..i + 1][..i] == stages[..i];
  }

  /** Each edge links node k to node k + 1, so there is one edge fewer than nodes. */
  lemma {:induction false} ChainEdgesShape(nodes: seq<AgentNode>)
    requires nodes != []
    ensures |ChainEdges(nodes)| == |nodes| - 1
    ensures forall k :: 0 <= k < |nodes| - 1 ==> ChainEdges(nodes)[k] == Link(nodes[k].id, nodes[k + 1].id)
  {
    if |nodes| > 1 {
      var front := nodes[..|nodes| - 1];
      ChainEdgesShape(front);
      forall k | 0 <= k < |nodes| - 2
        ensures ChainEdges(nodes)[k] == Link(nodes[k].id, nodes[k + 1].id)
      {
        assert ChainEdges(nodes)[k] == ChainEdges(front)[k];
        assert front[k] == nodes[k] && front[k + 1] == nodes[k + 1];
      }
    }
  }

  /** The stages whose keywords the text mentions, in stage order. */
  function Included(text: string, stages: seq<Stage>): seq<Stage> {
    if stages == [] then []
    else Included(text, stages[..|stages| - 1])
         + (if MentionsAny(text, stages[|stages| - 1].keywords) then [stages[|stages| - 1]] else [])
  }

  /** The stages a chain is built from have distinct ids, none of them the trigger's. */
  ghost predicate FreshIds(stages: seq<Stage>) {
    && (forall k :: 0 <= k < |stages| ==> stages[k].id != TriggerId)
    && (forall i, j :: 0 <= i < j < |stages| ==> stages[i].id != stages[j].id)
  }

  /**
   * The chain is the trigger followed by the included stages in order, each
   * on its own row 100 below the previous one.
   */
  lemma {:induction false} ChainShape(text: string, stages: seq<Stage>)
    ensures var nodes := Chain(text, stages);
      && |nodes| == 1 + |Included(text, stages)|
      && nodes[0] == TriggerNode(text)
      && forall k :: 1 <= k < |nodes| ==> nodes[k] == StageNode(Included(text, stages)[k - 1], StartY + StepY * k)
  {
    if stages != [] {
      ChainShape(text, stages[..|stages| - 1]);
    }
  }

  /** A stage is included exactly when it is one of the stages and the text mentions one of its keywords. */
  lemma {:induction false} IncludedMembers(text: string, stages: seq<Stage>)
    ensures forall s :: s in Included(text, stages) <==> s in stages && MentionsAny(text, s.keywords)
  {
    if stages != [] {
      var n := |stages| - 1;
      IncludedMembers(text, stages[..n]);
      assert stages == stages[..n] + [stages[n]];
    }
  }

  /** Inclusion keeps the stages' order, so distinct ids stay distinct. */
  lemma {:induction false} IncludedFresh(text: string, stages: seq<Stage>)
    requires FreshIds(stages)
    ensures FreshIds(Included(text, stages))
  {
    if stages != [] {
      var n := |stages| - 1;
      var front := stages[..n];
      assert FreshIds(front);
      IncludedFresh(text, front);
      IncludedMembers(text, front);
      var inc := Included(text, stages);
      forall i, j | 0 <= i < j < |inc|
        ensures inc[i].id != inc[j].id
      {
        if j == |inc| - 1 && MentionsAny(text, stages[n].keywords) {
          assert inc[i] in Included(text, front);
          var m :| 0 <= m < n && front[m] == inc[i];
          assert inc[j] == stages[n];
        }
      }
    }
  }

  lemma StagesFresh(text: string)
    ensures FreshIds(Stages(text))
  {
  }

  /**
   * The generated graph: the trigger node comes first, with the schedule
   * type exactly when the text says "every" or "daily"; the other nodes are
   * the stages the text mentions, in the fixed order e-mail, AI, API,
   * condition; node k sits at (100, 50 + 100k); all ids differ.
   */
  lemma WorkflowShape(text: string)
    ensures var nodes := WorkflowNodes(text);
      && |nodes| == 1 + |Included(text, Stages(text))|
      && nodes[0].id == TriggerId
      && (nodes[0].nodeType == "scheduleTrigger" <==> Contains(text, "every") || Contains(text, "daily"))
      && (forall k :: 1 <= k < |nodes| ==> nodes[k].id == Included(text, Stages(text))[k - 1].id)
      && (forall k :: 0 <= k < |nodes| ==> nodes[k].position == Position(NodeX, StartY + StepY * k))
      && (forall i, j :: 0 <= i < j < |nodes| ==> nodes[i].id != nodes[j].id)
  {
    var stages := Stages(text);
    var nodes := WorkflowNodes(text);
    ChainShape(text, stages);
    StagesFresh(text);
    IncludedFresh(text, stages);
    var inc := Included(text, stages);
    forall i, j | 0 <= i < j < |nodes|
      ensures nodes[i].id != nodes[j].id
    {
      if i == 0 {
        assert nodes[j].id == inc[j - 1].id;
      }
    }
  }

  /** Each optional node is in the graph exactly when the text mentions one of its keywords. */
  lemma StageNodeIncluded(text: string, k: nat)
    requires k < |Stages(text)|
    ensures var nodes := WorkflowNodes(text);
      (exists n :: 0 <= n < |nodes| && nodes[n].id == Stages(text)[k].id)
      <==> MentionsAny(text, Stages(text)[k].keywords)
  {
    if MentionsAny(text, Stages(text)[k].keywords) {
      MentionedStageHasNode(text, k);
    }
    if n :| 0 <= n < |WorkflowNodes(text)| && WorkflowNodes(text)[n].id == Stages(text)[k].id {
      NodeStageMentioned(text, k, n);
    }
  }

  /** A stage the text mentions has its node in the graph, one place after its place among the included. */
  lemma MentionedStageHasNode(text: string, k: nat)
    requires k < |Stages(text)| && MentionsAny(text, Stages(text)[k].keywords)
    ensures exists n :: 0 <= n < |WorkflowNodes(text)| && WorkflowNodes(text)[n].id == Stages(text)[k].id
  {
    var stages := Stages(text);
    var nodes := WorkflowNodes(text);
    var inc := Included(text, stages);
    WorkflowShape(text);
    IncludedMembers(text, stages);
    assert stages[k] in inc;
    var m :| 0 <= m < |inc| && inc[m] == stages[k];
    assert nodes[m + 1].id == stages[k].id;
  }

  /** A node carrying a stage's id comes from that stage, which the text therefore mentions. */
  lemma NodeStageMentioned(text: string, k: nat, n: nat)
    requires k < |Stages(text)|
    requires n < |WorkflowNodes(text)| && WorkflowNodes(text)[n].id == Stages(text)[k].id
    ensures MentionsAny(text, Stages(text)[k].keywords)
  {
    var stages := Stages(text);
    var nodes := WorkflowNodes(text);
    var inc := Included(text, stages);
    WorkflowShape(text);
    IncludedMembers(text, stages);
    StagesFresh(text);
    assert n != 0;
    assert inc[n - 1] in stages;
    var m :| 0 <= m < |stages| && stages[m] == inc[n - 1];
    assert m == k;
  }

  /** The e-mail node, concretely: present exactly when the text says "email" or "send". */
  lemma EmailNodeIncluded(text: string)
    ensures (exists n :: 0 <= n < |WorkflowNodes(text)| && WorkflowNodes(text)[n].id == "action-email")
            <==> Contains(text, "email") || Contains(text, "send")
  {
    StageNodeIncluded(text, 0);
    PairRule(text, "email", "send");
  }

  // ---------------------------------------------------------------------------
  // handleCreate
  // ---------------------------------------------------------------------------

  /** The agent the creator assembles before saving it. */
  datatype Draft = Draft(
    id: string,
    name: string,
    description: string,
    nodes: seq<AgentNode>,
    edges: seq<AgentEdge>,
    status: string,
    triggers: seq<string>,
    actions: seq<string>,
    schedule: string)

  const NameWords := 5

  /** `input.split(' ').slice(0, 5).join(' ') + '...'`. */
  function AgentName(input: string): string {
    var words := Split(input, ' ');
    Join(words[..if |words| < NameWords then |words| else NameWords], " ") + "..."
  }

  /** The name is a prefix of the input followed by "...", and the whole input when it has at most five words. */
  lemma NameShape(input: string)
    ensures exists p :: AgentName(input) == p + "..." && StartsWith(input, p)
    ensures |Split(input, ' ')| <= NameWords ==> AgentName(input) == input + "..."
    ensures |Split(input, ' ')| > NameWords ==>
      Split(AgentName(input)[..|AgentName(input)| - 3], ' ') == Split(input, ' ')[..NameWords]
  {
    var words := Split(input, ' ');
    var n := if |words| < NameWords then |words| else NameWords;
    JoinSplit(input, ' ');
    JoinPrefix(words, n, " ");
    assert words[..|words|] == words;
    var name := Join(words[..n], " ");
    assert AgentName(input)[..|AgentName(input)| - 3] == name;
    SplitJoin(words[..n], ' ');
  }

  /**
   * `handleCreate`: a blank input creates nothing; otherwise the draft holds
   * the input as its description, the derived name, the generated graph and
   * the detected trigger, tools and schedule, under the id `agent_<now>`.
   */
  method HandleCreate(input: string, now: nat) returns (draft: Option<Draft>)
    ensures draft.None? <==> AllSpace(input)
    ensures draft.Some? ==>
      var d := draft.value;
      && d.id == "agent_" + NatToDecimal(now)
      && d.name == AgentName(input) && d.description == input
      && d.nodes == WorkflowNodes(input) && d.edges == ChainEdges(d.nodes)
      && d.status == "draft"
      && d.triggers == DetectTriggers(input) && d.actions == ActionsFor(input) && d.schedule == DetectSchedule(input)
  {
    TrimEmpty(input);
    if Trim(input) == [] {
      return None;
    }
    var triggers := DetectTriggers(input);
    var actions := DetectActions(input);
    var schedule := DetectSchedule(input);
    var nodes, edges := GenerateWorkflow(input);
    draft := Some(Draft("agent_" + NatToDecimal(now), AgentName(input), input, nodes, edges, "draft", triggers, actions, schedule));
  }
}
