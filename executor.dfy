/**
 * The smart (AI-planned) execution of an agent: the execution record with its
 * append-only logs and results, the step interpreter that walks a plan in
 * array order, the AI planning call with its tolerant reply parser, and the
 * run lifecycle running -> completed | failed.
 *
 * The AI service, JSON.parse and the spreadsheet and e-mail integrations are
 * outside the model; they are the parameters bundled in `Services`.
 */
module Executor {
  import opened Text
  import opened Js
  import opened AgentTypes

  /**
   * One planned step as the code reads it: the texts its fields render to in
   * a template literal; a missing `details` is the empty string.
   */
  datatype Step = Step(action: string, stepType: string, details: string, status: string)

  /**
   * An element of the parsed `steps`: a value whose fields can be read, read
   * as a step, or null or undefined (`what` names which), whose fields cannot.
   */
  datatype Item = StepItem(step: Step) | Unreadable(what: string)

  /**
   * The parsed `steps` as the code sees it: the items an iteration yields (an
   * absent field, or one whose `length` is falsy, reads as no items), or a
   * value with a truthy `length` that cannot be iterated.
   */
  datatype Steps = Items(items: seq<Item>) | NotIterable

  /** The parsed reply; a JSON value without the expected fields reads as a plan without steps. */
  datatype Plan = Plan(steps: Steps, summary: string)

  /** The plan a reply that does not parse degrades to. */
  const FallbackPlan := Plan(Items([]), "Failed to parse AI response")

  /** What a result entry carries: rows read from the sheet, or the whole plan. */
  datatype Payload = SheetRows(rows: Value) | PlannerPlan(plan: Plan)

  type Result = ResultEntry<Payload>

  /** How the interpreter dispatches a step's free-form `type`. */
  datatype StepKind = SheetFetch | Email | Skipped(stepType: string)

  /**
   * The world outside the model. `ai` answers a prompt; `parse` is JSON.parse
   * read as a plan (None when it throws); `sheet(k)` and `mail(k)` are the
   * outcomes of the spreadsheet read and the e-mail send made for the step at
   * index k of the plan.
   */
  datatype Services = Services(
    ai: string -> Outcome<string>,
    parse: string -> Option<Plan>,
    sheet: nat -> Outcome<Value>,
    mail: nat -> Outcome<()>)

  /** The outcome of a smart run: the agent was not found, or the run returned, or it rethrew. */
  datatype RunOutcome =
    | AgentNotFound
    | Returned(execution: Execution)
    | Rethrown(execution: Execution, message: string)

  /** One run of an agent, as stored. */
  class Execution {
    const agentId: string
    const userId: string
    const startTime: int
    var status: Status
    var endTime: Option<int>
    var duration: Option<int>
    var error: Option<string>
    var logs: seq<LogEntry>
    var results: seq<Result>

    /**
     * The lifecycle invariant: no end time exactly while running; a duration
     * only once completed, and then end minus start; an error only once failed.
     */
    ghost predicate Valid()
      reads this
    {
      && (status == Running <==> endTime.None?)
      && (status == Running ==> duration.None? && error.None?)
      && (status == Completed ==> duration == Some(endTime.value - startTime) && error.None?)
      && (status == Failed ==> error.Some? && duration.None?)
    }

    constructor (agentId: string, userId: string, startTime: int)
      ensures this.agentId == agentId && this.userId == userId && this.startTime == startTime
      ensures status == Running && endTime == None && duration == None && error == None
      ensures logs == [] && results == []
      ensures Valid()
    {
      this.agentId := agentId;
      this.userId := userId;
      this.startTime := startTime;
      status := Running;
      endTime := None;
      duration := None;
      error := None;
      logs := [];
      results := [];
    }
  }

  /** The collection of stored execution records. */
  class ExecutionStore {
    var executions: seq<Execution>

    constructor ()
      ensures executions == []
    {
      executions := [];
    }

    /** The first save of a new record inserts it. */
    method Insert(e: Execution)
      modifies this
      ensures executions == old(executions) + [e]
    {
      executions := executions + [e];
    }
  }

  /** `Agent.findById`: the first stored agent with that id. */
  function FindAgentById(agents: seq<StoredAgent>, id: string): (r: Option<StoredAgent>)
    ensures r.Some? ==> r.value in agents && r.value.id == id
    ensures r.None? <==> forall k :: 0 <= k < |agents| ==> agents[k].id != id
  {
    if agents == [] then None
    else if agents[0].id == id then Some(agents[0])
    else FindAgentById(agents[1..], id)
  }

  /** `logExecution`: appends one entry at the given level; every store write is taken to succeed. */
  method LogExecution(e: Execution, level: LogLevel, message: string, now: int)
    modifies e`logs
    ensures e.logs == old(e.logs) + [LogEntry(now, level, message)]
  {
    e.logs := e.logs + [LogEntry(now, level, message)];
  }

  // ---------------------------------------------------------------------------
  // The step interpreter
  // ---------------------------------------------------------------------------

  /** The `switch` on a step's `type`: two cases read the sheet, one sends mail, the default skips. */
  function KindOf(stepType: string): (k: StepKind)
    ensures k.Skipped? <==> stepType !in {"data_fetch", "google_sheets", "email"}
    ensures k.Skipped? ==> k.stepType == stepType
    ensures k == Email <==> stepType == "email"
  {
    if stepType == "data_fetch" || stepType == "google_sheets" then SheetFetch
    else if stepType == "email" then Email
    else Skipped(stepType)
  }

  const SheetLabel := "Google Sheets"

  function SheetResult(rows: Value, now: int): Result {
    ResultEntry("google-sheets", "data", SheetLabel, SheetRows(rows), now)
  }

  /** The messages the step interpreter logs; a "Prefix" is followed by a step type or an error message. */
  const FetchingSheetMessage := "📊 Fetching Google Sheets data..."
  const SheetFetchedMessage := "✅ Google Sheets data fetched"
  const SheetFailedPrefix := "❌ Sheet fetch failed: "
  const SendingEmailMessage := "📧 Sending email..."
  const EmailSentMessage := "✅ Email sent successfully"
  const EmailFailedPrefix := "❌ Email failed: "
  const SkippingPrefix := "ℹ️ Skipping action: "
  const NoStepsMessage := "No steps to execute"

  /** The log entries the step at index k adds. */
  function StepLogs(step: Step, k: nat, svc: Services, now: int): seq<LogEntry> {
    match KindOf(step.stepType)
    case SheetFetch =>
      [LogEntry(now, Info, FetchingSheetMessage)]
      + (match svc.sheet(k)
         case Done(_) => [LogEntry(now, Info, SheetFetchedMessage)]
         case Threw(m) => [LogEntry(now, Error, SheetFailedPrefix + m)])
    case Email =>
      [LogEntry(now, Info, SendingEmailMessage)]
      + (match svc.mail(k)
         case Done(_) => [LogEntry(now, Info, EmailSentMessage)]
         case Threw(m) => [LogEntry(now, Error, EmailFailedPrefix + m)])
    case Skipped(t) => [LogEntry(now, Info, SkippingPrefix + t)]
  }

  /** The result entries the step at index k adds. */
  function StepResults(step: Step, k: nat, svc: Services, now: int): seq<Result> {
    if KindOf(step.stepType) == SheetFetch && svc.sheet(k).Done? then [SheetResult(svc.sheet(k).value, now)]
    else []
  }

  /** The logs of the steps, each step's entries after those of the steps before it. */
  function ActionLogs(steps: seq<Step>, svc: Services, now: int): seq<LogEntry> {
    if steps == [] then []
    else ActionLogs(steps[..|steps| - 1], svc, now) + StepLogs(steps[|steps| - 1], |steps| - 1, svc, now)
  }

  function ActionResults(steps: seq<Step>, svc: Services, now: int): seq<Result> {
    if steps == [] then []
    else ActionResults(steps[..|steps| - 1], svc, now) + StepResults(steps[|steps| - 1], |steps| - 1, svc, now)
  }

  /** Does the external call made for the step at index k throw? */
  predicate StepFails(step: Step, k: nat, svc: Services) {
    match KindOf(step.stepType)
    case SheetFetch => svc.sheet(k).Threw?
    case Email => svc.mail(k).Threw?
    case Skipped(_) => false
  }

  function FailedSteps(steps: seq<Step>, svc: Services): nat {
    if steps == [] then 0
    else FailedSteps(steps[..|steps| - 1], svc) + (if StepFails(steps[|steps| - 1], |steps| - 1, svc) then 1 else 0)
  }

  function DispatchedSteps(steps: seq<Step>): nat {
    if steps == [] then 0
    else DispatchedSteps(steps[..|steps| - 1]) + (if KindOf(steps[|steps| - 1].stepType).Skipped? then 0 else 1)
  }

  function FetchedSteps(steps: seq<Step>, svc: Services): nat {
    if steps == [] then 0
    else
      var k := |steps| - 1;
      FetchedSteps(steps[..k], svc) + (if KindOf(steps[k].stepType) == SheetFetch && svc.sheet(k).Done? then 1 else 0)
  }

  /** What `executeRealActions` logs: one warning for a plan without steps, else the steps' logs. */
  function RealActionLogs(steps: seq<Step>, svc: Services, now: int): seq<LogEntry> {
    if steps == [] then [LogEntry(now, Warning, NoStepsMessage)]
    else ActionLogs(steps, svc, now)
  }

  function RealActionResults(steps: seq<Step>, svc: Services, now: int): seq<Result> {
    if steps == [] then [] else ActionResults(steps, svc, now)
  }

  /** The body of the interpreter's loop: one step, dispatched on its type, its failure caught. */
  method ExecuteStep(e: Execution, step: Step, k: nat, svc: Services, now: int)
    modifies e`logs, e`results
    ensures e.logs == old(e.logs) + StepLogs(step, k, svc, now)
    ensures e.results == old(e.results) + StepResults(step, k, svc, now)
  {
    match KindOf(step.stepType) {
      case SheetFetch =>
        LogExecution(e, Info, FetchingSheetMessage, now);
        match svc.sheet(k) {
          case Done(rows) =>
            LogExecution(e, Info, SheetFetchedMessage, now);
            e.results := e.results + [SheetResult(rows, now)];
          case Threw(m) =>
            LogExecution(e, Error, SheetFailedPrefix + m, now);
        }
      case Email =>
        LogExecution(e, Info, SendingEmailMessage, now);
        match svc.mail(k) {
          case Done(_) =>
            LogExecution(e, Info, EmailSentMessage, now);
          case Threw(m) =>
            LogExecution(e, Error, EmailFailedPrefix + m, now);
        }
      case Skipped(t) =>
        LogExecution(e, Info, SkippingPrefix + t, now);
    }
  }

  /**
   * `executeRealActions`: every step is attempted in array order; a failing
   * sheet read or e-mail send is logged and the walk goes on.
   */
  method ExecuteRealActions(e: Execution, steps: seq<Step>, svc: Services, now: int)
    modifies e`logs, e`results
    ensures e.logs == old(e.logs) + RealActionLogs(steps, svc, now)
    ensures e.results == old(e.results) + RealActionResults(steps, svc, now)
  {
    if steps == [] {
      LogExecution(e, Warning, NoStepsMessage, now);
      return;
    }
    ghost var logs0, results0 := e.logs, e.results;
    var i := 0;
    while i < |steps|
      invariant 0 <= i <= |steps|
      invariant e.logs == logs0 + ActionLogs(steps[..i], svc, now)
      invariant e.results == results0 + ActionResults(steps[..i], svc, now)
    {
      ExecuteStep(e, steps[i], i, svc, now);
      ActionsSnoc(steps, i, svc, now);
      AppendAssoc(logs0, ActionLogs(steps[..i], svc, now), StepLogs(steps[i], i, svc, now));
      AppendAssoc(results0, ActionResults(steps[..i], svc, now), StepResults(steps[i], i, svc, now));
      i := i + 1;
    }
    assert steps[..i] == steps;
  }

  /** One more step of the walk adds that step's entries. */
  lemma ActionsSnoc(steps: seq<Step>, i: nat, svc: Services, now: int)
    requires i < |steps|
    ensures ActionLogs(steps[..i + 1], svc, now) == ActionLogs(steps[..i], svc, now) + StepLogs(steps[i], i, svc, now)
    ensures ActionResults(steps[..i + 1], svc, now) == ActionResults(steps[..i], svc, now) + StepResults(steps[i], i, svc, now)
  {
    assert steps[..i + 1][..i] == steps[..i];
  }

  /**
   * Failure isolation: each failing step contributes exactly one error entry,
   * no step logs a warning, every step logs at least once (twice when it is
   * dispatched to a service).
   */
  lemma {:induction false} ActionLogsCount(steps: seq<Step>, svc: Services, now: int)
    ensures CountLevel(ActionLogs(steps, svc, now), Error) == FailedSteps(steps, svc)
    ensures CountLevel(ActionLogs(steps, svc, now), Warning) == 0
    ensures |ActionLogs(steps, svc, now)| == |steps| + DispatchedSteps(steps)
  {
    if steps != [] {
      var k := |steps| - 1;
      ActionLogsCount(steps[..k], svc, now);
      var last := StepLogs(steps[k], k, svc, now);
      StepLogsLevels(steps[k], k, svc, now);
      CountLevelAppend(ActionLogs(steps[..k], svc, now), last, Error);
      CountLevelAppend(ActionLogs(steps[..k], svc, now), last, Warning);
    }
  }

  /** One step logs an error exactly when its call throws, never a warning, and two entries when dispatched. */
  lemma StepLogsLevels(step: Step, k: nat, svc: Services, now: int)
    ensures CountLevel(StepLogs(step, k, svc, now), Error) == if StepFails(step, k, svc) then 1 else 0
    ensures CountLevel(StepLogs(step, k, svc, now), Warning) == 0
    ensures |StepLogs(step, k, svc, now)| == if KindOf(step.stepType).Skipped? then 1 else 2
  {
    var logs := StepLogs(step, k, svc, now);
    CountLevelOne(logs[0], Error);
    CountLevelOne(logs[0], Warning);
    if |logs| == 2 {
      assert logs == [logs[0]] + [logs[1]];
      CountLevelAppend([logs[0]], [logs[1]], Error);
      CountLevelAppend([logs[0]], [logs[1]], Warning);
      CountLevelOne(logs[1], Error);
      CountLevelOne(logs[1], Warning);
    } else {
      assert logs == [logs[0]];
    }
  }

  /** The step interpreter's only results are the sheet reads that succeeded, one entry each. */
  lemma {:induction false} ActionResultsShape(steps: seq<Step>, svc: Services, now: int)
    ensures |ActionResults(steps, svc, now)| == FetchedSteps(steps, svc)
    ensures forall r :: r in ActionResults(steps, svc, now) ==>
              r.nodeId == "google-sheets" && r.nodeType == "data" && r.nodeLabel == SheetLabel
  {
    if steps != [] {
      ActionResultsShape(steps[..|steps| - 1], svc, now);
    }
  }

  /** The entry logged for a step of an unknown type. */
  function SkipEntry(step: Step, now: int): LogEntry {
    LogEntry(now, Info, SkippingPrefix + step.stepType)
  }

  /** A plan whose steps are all of unknown types yields one "Skipping" entry per step, in order, and no result. */
  lemma {:induction false} UnknownStepsAreSkipped(steps: seq<Step>, svc: Services, now: int)
    requires forall k :: 0 <= k < |steps| ==> KindOf(steps[k].stepType).Skipped?
    ensures |ActionLogs(steps, svc, now)| == |steps|
    ensures forall k :: 0 <= k < |steps| ==> ActionLogs(steps, svc, now)[k] == SkipEntry(steps[k], now)
    ensures ActionResults(steps, svc, now) == []
  {
    if steps != [] {
      var k := |steps| - 1;
      UnknownStepsAreSkipped(steps[..k], svc, now);
      SkippedStep(steps[k], k, svc, now);
    }
  }

  /** A step of an unknown type only logs that it is skipped. */
  lemma SkippedStep(step: Step, k: nat, svc: Services, now: int)
    requires KindOf(step.stepType).Skipped?
    ensures StepLogs(step, k, svc, now) == [SkipEntry(step, now)]
    ensures StepResults(step, k, svc, now) == []
  {
  }

  // ---------------------------------------------------------------------------
  // The AI planning call
  // ---------------------------------------------------------------------------

  // The planning prompt, line by line (kept in short pieces, which the verifier handles cheaply).
  const PromptRole: string := "\nYou are an AI automation agent. "
  const PromptAsk: string := "Understand this user automation task and generate a structured execution plan.\n"
  const PromptTask: string := "Task: \""
  const PromptStrict: string := "\"\nReturn STRICT JSON ONLY. Format exactly like:\n"
  const PromptShapeOpen: string := "{\n  \"steps\": [\n    {\n"
  const PromptShapeAction: string := "      \"action\": \"What to do\",\n"
  const PromptShapeType: string := "      \"type\": \"api_call | data_fetch | email | analysis | automation\",\n"
  const PromptShapeDetails: string := "      \"details\": \"Explain specifically\",\n"
  const PromptShapeStatus: string := "      \"status\": \"planned\"\n"
  const PromptShapeClose: string := "    }\n  ],\n  \"summary\": \"Short description\"\n}\n"

  /** The text of the planning prompt before the description. */
  const PlanPromptHead: string := PromptRole + PromptAsk + PromptTask

  /** The text of the planning prompt after the description: the required JSON shape. */
  const PlanPromptTail: string :=
    PromptStrict + PromptShapeOpen + PromptShapeAction + PromptShapeType
    + PromptShapeDetails + PromptShapeStatus + PromptShapeClose

  /** The fixed prompt that embeds the description. */
  function PlanPrompt(description: string): (p: string)
    ensures |p| == |PlanPromptHead| + |description| + |PlanPromptTail|
    ensures p[|PlanPromptHead|..|PlanPromptHead| + |description|] == description
  {
    PlanPromptHead + description + PlanPromptTail
  }

  /** The Markdown code fence with the JSON language tag. */
  const JsonFence: string := "```json"

  /**
   * The text handed to JSON.parse: the trimmed reply, and when it starts with
   * a fence, with every "```json" (any case) and then every "```" removed and
   * trimmed again.
   */
  function CleanAIText(text: string): (c: string)
    ensures Trimmed(c)
    ensures !StartsWith(Trim(text), Fence) ==> c == Trim(text)
  {
    var t := Trim(text);
    if StartsWith(t, Fence) then Trim(RemoveAll(RemoveAll(t, JsonFence, true), Fence, false)) else t
  }

  /** `parseAIJson`: never fails; a reply that does not parse becomes the fallback plan. */
  function ParseAIJson(text: string, parse: string -> Option<Plan>): (p: Plan)
    ensures parse(CleanAIText(text)).None? ==> p == FallbackPlan
    ensures parse(CleanAIText(text)).Some? ==> p == parse(CleanAIText(text)).value
  {
    match parse(CleanAIText(text))
    case Some(plan) => plan
    case None => FallbackPlan
  }

  /** A reply that wraps `json` in a fence opened by `open` ("```json" or "```") and closed by "```". */
  function FencedReply(open: string, json: string): string {
    open + "\n" + json + "\n" + Fence
  }

  /** A backtick-free JSON text reads the same bare or wrapped in a "```json" fence, with white space around. */
  lemma FencedReplyParsesAsBare(pre: string, json: string, post: string, parse: string -> Option<Plan>)
    requires AllSpace(pre) && AllSpace(post) && Trimmed(json) && '`' !in json
    ensures ParseAIJson(pre + FencedReply(JsonFence, json) + post, parse) == ParseAIJson(json, parse)
  {
    TaggedFenceCleans(pre, json, post);
    BareReply(json);
    SameTextSamePlan(pre + FencedReply(JsonFence, json) + post, json, parse);
  }

  /** The same for a fence without a language tag. */
  lemma PlainFencedReplyParsesAsBare(pre: string, json: string, post: string, parse: string -> Option<Plan>)
    requires AllSpace(pre) && AllSpace(post) && Trimmed(json) && '`' !in json
    ensures ParseAIJson(pre + FencedReply(Fence, json) + post, parse) == ParseAIJson(json, parse)
  {
    PlainFenceCleans(pre, json, post);
    BareReply(json);
    SameTextSamePlan(pre + FencedReply(Fence, json) + post, json, parse);
  }

  /** Replies whose cleaned texts agree parse to the same plan. */
  lemma SameTextSamePlan(a: string, b: string, parse: string -> Option<Plan>)
    requires CleanAIText(a) == CleanAIText(b)
    ensures ParseAIJson(a, parse) == ParseAIJson(b, parse)
  {
  }

  lemma TaggedFenceCleans(pre: string, json: string, post: string)
    requires AllSpace(pre) && AllSpace(post) && Trimmed(json) && '`' !in json
    ensures CleanAIText(pre + FencedReply(JsonFence, json) + post) == json
  {
    var inner := "\n" + json + "\n";
    FencedBody(json, inner);
    JsonFenceOpensFence();
    FenceShape(JsonFence, json, inner);
    StripJsonFence(inner);
    StripClosingFence(inner);
    CleanOfFenced(pre, FencedReply(JsonFence, json), post, inner, json);
  }

  lemma PlainFenceCleans(pre: string, json: string, post: string)
    requires AllSpace(pre) && AllSpace(post) && Trimmed(json) && '`' !in json
    ensures CleanAIText(pre + FencedReply(Fence, json) + post) == json
  {
    var inner := "\n" + json + "\n";
    FencedBody(json, inner);
    FenceShape(Fence, json, inner);
    NoJsonTag(inner);
    StripFence(inner);
    CleanOfFenced(pre, FencedReply(Fence, json), post, inner, json);
  }

  lemma JsonFenceOpensFence()
    ensures StartsWith(JsonFence, Fence)
  {
    assert |Fence| == 3 && |JsonFence| == 7;
    assert forall i :: 0 <= i < 3 ==> Fence[i] == '`' && JsonFence[i] == '`';
  }

  /** A fenced reply is its opening, its body and its closing; it starts and ends with a backtick. */
  lemma FenceShape(open: string, json: string, inner: string)
    requires StartsWith(open, Fence) && inner == "\n" + json + "\n"
    ensures FencedReply(open, json) == open + inner + Fence
    ensures StartsWith(FencedReply(open, json), Fence) && Trimmed(FencedReply(open, json))
  {
    var r := FencedReply(open, json);
    assert r == open + inner + Fence;
    assert r[0] == open[0] == '`';
    assert r[|r| - 1] == Fence[2] == '`';
  }

  /** How CleanAIText treats white space around a fence whose contents strip to a body that trims to `json`. */
  lemma CleanOfFenced(pre: string, fenced: string, post: string, inner: string, json: string)
    requires AllSpace(pre) && AllSpace(post) && Trimmed(fenced) && StartsWith(fenced, Fence)
    requires RemoveAll(RemoveAll(fenced, JsonFence, true), Fence, false) == inner
    requires Trim(inner) == json
    ensures CleanAIText(pre + fenced + post) == json
  {
    TrimAround(pre, fenced, post);
  }

  /** The body of a fence, a JSON text between two line breaks, holds no backtick and trims to the JSON text. */
  lemma FencedBody(json: string, inner: string)
    requires Trimmed(json) && '`' !in json && inner == "\n" + json + "\n"
    ensures forall i :: 0 <= i < |inner| ==> FoldAscii(inner[i]) != '`'
    ensures Trim(inner) == json
  {
    forall i | 0 <= i < |inner|
      ensures FoldAscii(inner[i]) != '`'
    {
      if 0 < i < |inner| - 1 {
        assert inner[i] == json[i - 1];
      }
    }
    assert AllSpace("\n");
    TrimAround("\n", json, "\n");
  }

  /** Removing every "```json" from an opening tagged fence, a body and a closing fence leaves the body and the closing fence. */
  lemma StripJsonFence(inner: string)
    requires forall i :: 0 <= i < |inner| ==> FoldAscii(inner[i]) != '`'
    ensures RemoveAll(JsonFence + inner + Fence, JsonFence, true) == inner + Fence
  {
    AppendAssoc(JsonFence, inner, Fence);
    RemoveAllAtStart(JsonFence, inner + Fence, true);
    assert JsonFence[0] == '`';
    RemoveAllPrefix(inner, Fence, JsonFence, true);
    assert |Fence| < |JsonFence|;
    RemoveAllShort(Fence, JsonFence, true);
  }

  /** With an untagged opening fence there is no "```json" to remove: its fourth character is the body's line break. */
  lemma NoJsonTag(inner: string)
    requires inner != [] && inner[0] == '\n'
    requires forall i :: 0 <= i < |inner| ==> FoldAscii(inner[i]) != '`'
    ensures RemoveAll(Fence + inner + Fence, JsonFence, true) == Fence + inner + Fence
  {
    AppendAssoc(Fence, inner, Fence);
    NoJsonTagInBody(inner);
    NoJsonTagAfterFence(inner + Fence);
  }

  /** A backtick-free body and a closing fence hold no "```json". */
  lemma NoJsonTagInBody(inner: string)
    requires forall i :: 0 <= i < |inner| ==> FoldAscii(inner[i]) != '`'
    ensures RemoveAll(inner + Fence, JsonFence, true) == inner + Fence
  {
    assert JsonFence[0] == '`';
    assert |Fence| < |JsonFence|;
    RemoveAllPrefix(inner, Fence, JsonFence, true);
    RemoveAllShort(Fence, JsonFence, true);
  }

  /** No "```json" starts in an untagged opening fence followed by a line break. */
  lemma NoJsonTagAfterFence(t: string)
    requires t != [] && t[0] == '\n' && RemoveAll(t, JsonFence, true) == t
    ensures RemoveAll(Fence + t, JsonFence, true) == Fence + t
  {
    var t2 := ['`'] + t;
    KeepBacktick(t, 1);
    var t1 := ['`'] + t2;
    KeepBacktick(t2, 2);
    var t0 := ['`'] + t1;
    KeepBacktick(t1, 3);
    assert t0 == Fence + t;
  }

  /** A backtick followed by `t` does not open "```json" when the line break at `t[k - 1]` falls inside it. */
  lemma KeepBacktick(t: string, k: nat)
    requires 1 <= k <= 3 && k <= |t| && t[k - 1] == '\n'
    ensures RemoveAll(['`'] + t, JsonFence, true) == ['`'] + RemoveAll(t, JsonFence, true)
  {
    var s := ['`'] + t;
    assert s[k] == '\n';
    assert FoldAscii(JsonFence[k]) != '\n';
    RemoveAllKeep('`', t, JsonFence, true);
  }

  /** Removing every "```" from a fenced, backtick-free body leaves the body. */
  lemma StripFence(inner: string)
    requires forall i :: 0 <= i < |inner| ==> FoldAscii(inner[i]) != '`'
    ensures RemoveAll(Fence + inner + Fence, Fence, false) == inner
  {
    AppendAssoc(Fence, inner, Fence);
    RemoveAllAtStart(Fence, inner + Fence, false);
    StripClosingFence(inner);
  }

  /** Removing every "```" from a backtick-free body and a closing fence leaves the body. */
  lemma StripClosingFence(inner: string)
    requires forall i :: 0 <= i < |inner| ==> FoldAscii(inner[i]) != '`'
    ensures RemoveAll(inner + Fence, Fence, false) == inner
  {
    assert Fence[0] == '`';
    RemoveAllPrefix(inner, Fence, Fence, false);
    RemoveAllAtStart(Fence, [], false);
    assert Fence + [] == Fence;
    assert inner + [] == inner;
  }

  /** A trimmed, backtick-free reply is handed to JSON.parse as it is. */
  lemma BareReply(json: string)
    requires Trimmed(json) && '`' !in json
    ensures CleanAIText(json) == json
  {
    TrimOfTrimmed(json);
    if json != [] {
      assert json[0] != '`';
    }
  }

  // ---------------------------------------------------------------------------
  // executeWithAI and the run lifecycle
  // ---------------------------------------------------------------------------

  const DelegatingMessage := "🐍 Delegating task to Agno (Python) Engine..."
  const PlanGeneratedMessage := "✅ Agno Agent generated execution plan"
  const HybridFailedPrefix := "❌ Hybrid Execution Failed: "
  const PlanStepPrefix := "📌 "
  const StartingMessage := "🚀 Starting smart agent execution"
  const TaskPrefix := "📋 Task: "

  /** The TypeErrors the step listing throws, in the wording of the V8 engine. */
  const NotIterableMessage := "plan.steps is not iterable"

  function ReadFailure(what: string): string {
    "Cannot read properties of " + what + " (reading 'action')"
  }

  /** The aggregate result recording the whole plan under the synthetic planner node. */
  function PlannerResult(plan: Plan, now: int): Result {
    ResultEntry("agno-planner", "smart-execution", "Agno AI Planner", PlannerPlan(plan), now)
  }

  /** The entry that lists one planned step. */
  function StepLine(step: Step, now: int): LogEntry {
    LogEntry(now, Info, PlanStepPrefix + step.action + ": " + step.details)
  }

  /** One "📌 action: details" entry per planned step, in order. */
  function PlanStepLogs(steps: seq<Step>, now: int): seq<LogEntry> {
    if steps == [] then []
    else PlanStepLogs(steps[..|steps| - 1], now) + [StepLine(steps[|steps| - 1], now)]
  }

  /** The position of the first item whose fields cannot be read, or the number of items. */
  function FirstUnreadable(items: seq<Item>): (k: nat)
    ensures k <= |items|
    ensures forall j :: 0 <= j < k ==> items[j].StepItem?
    ensures k < |items| ==> items[k].Unreadable?
  {
    if items == [] then 0
    else if items[0].Unreadable? then 0
    else 1 + FirstUnreadable(items[1..])
  }

  /** The steps of items that can all be read. */
  function StepsOf(items: seq<Item>): (steps: seq<Step>)
    requires forall k :: 0 <= k < |items| ==> items[k].StepItem?
    ensures |steps| == |items|
    ensures forall k :: 0 <= k < |items| ==> steps[k] == items[k].step
  {
    seq(|items|, k requires 0 <= k < |items| => items[k].step)
  }

  /**
   * The loop that lists the steps: it throws when `steps` cannot be iterated
   * or at the first item whose fields cannot be read, and otherwise yields
   * every step.
   */
  function Listing(steps: Steps): (r: Outcome<seq<Step>>)
    ensures r.Threw? <==>
      steps.NotIterable? || exists k :: 0 <= k < |steps.items| && steps.items[k].Unreadable?
    ensures r.Done? ==>
      |r.value| == |steps.items| && forall k :: 0 <= k < |steps.items| ==> steps.items[k] == StepItem(r.value[k])
  {
    match steps
    case NotIterable => Threw(NotIterableMessage)
    case Items(items) =>
      var k := FirstUnreadable(items);
      if k < |items| then Threw(ReadFailure(items[k].what)) else Done(StepsOf(items))
  }

  /** The entries the listing loop logs before it ends or throws: the readable steps before the first unreadable one. */
  function ListedLogs(steps: Steps, now: int): seq<LogEntry> {
    match steps
    case NotIterable => []
    case Items(items) => PlanStepLogs(StepsOf(items[..FirstUnreadable(items)]), now)
  }

  /**
   * What happens once a plan is in hand: it is announced and its steps listed;
   * when the listing went through, the steps are run.
   */
  function PlanRunLogs(plan: Plan, svc: Services, now: int): seq<LogEntry> {
    [LogEntry(now, Info, PlanGeneratedMessage)] + ListedLogs(plan.steps, now)
    + (match Listing(plan.steps)
       case Threw(_) => []
       case Done(steps) => RealActionLogs(steps, svc, now))
  }

  /** The step interpreter's results, then the planner's record of the whole plan; nothing when the listing threw. */
  function PlanRunResults(plan: Plan, svc: Services, now: int): seq<Result> {
    match Listing(plan.steps)
    case Threw(_) => []
    case Done(steps) => RealActionResults(steps, svc, now) + [PlannerResult(plan, now)]
  }

  /** How the part of `executeWithAI` after parsing ends: with the plan, or with the listing's error. */
  function Settled(plan: Plan): (r: Outcome<Plan>)
    ensures r.Threw? <==> Listing(plan.steps).Threw?
    ensures r.Done? ==> r.value == plan
  {
    match Listing(plan.steps)
    case Threw(t) => Threw(t)
    case Done(_) => Done(plan)
  }

  /** How `executeWithAI` ends after a planning call with outcome `o`. */
  function Settle(o: Outcome<Plan>): Outcome<Plan> {
    match o
    case Threw(_) => o
    case Done(plan) => Settled(plan)
  }

  /** The planning call: the AI's reply to the prompt, read as a plan, or the error it threw. */
  function Planned(description: string, svc: Services): (o: Outcome<Plan>)
    ensures Thrown(o) == Thrown(svc.ai(PlanPrompt(description)))
    ensures o.Done? ==> o.value == ParseAIJson(svc.ai(PlanPrompt(description)).value, svc.parse)
  {
    match svc.ai(PlanPrompt(description))
    case Threw(m) => Threw(m)
    case Done(reply) => Done(ParseAIJson(reply, svc.parse))
  }

  /**
   * How `executeWithAI` ends: it throws exactly when the AI call throws or,
   * after a reply, when the parsed steps cannot be listed; otherwise it
   * returns the parsed plan.
   */
  function WithAI(description: string, svc: Services): (o: Outcome<Plan>)
    ensures svc.ai(PlanPrompt(description)).Threw? ==> o == Threw(svc.ai(PlanPrompt(description)).message)
    ensures svc.ai(PlanPrompt(description)).Done? ==>
      var plan := ParseAIJson(svc.ai(PlanPrompt(description)).value, svc.parse);
      && (o.Threw? <==> Listing(plan.steps).Threw?)
      && (o.Threw? ==> o.message == Listing(plan.steps).message)
      && (o.Done? ==> o.value == plan)
  {
    Settle(Planned(description, svc))
  }

  /** The logs `executeWithAI` appends, for every way it ends. */
  function WithAILogs(description: string, svc: Services, now: int): seq<LogEntry> {
    PlanningLogs(Planned(description, svc), svc, now)
  }

  /** The results `executeWithAI` appends: none when it throws. */
  function WithAIResults(description: string, svc: Services, now: int): seq<Result> {
    PlanningResults(Planned(description, svc), svc, now)
  }

  /** The entry the `catch` of `executeWithAI` logs, when there is an error to catch. */
  function CaughtLogs(r: Outcome<Plan>, now: int): seq<LogEntry> {
    if r.Threw? then [LogEntry(now, Error, HybridFailedPrefix + r.message)] else []
  }

  /** The logs that follow a planning call with outcome `o`: the plan's run, if any, then the caught error, if any. */
  function PlanningLogs(o: Outcome<Plan>, svc: Services, now: int): seq<LogEntry> {
    [LogEntry(now, Info, DelegatingMessage)]
    + (match o
       case Threw(_) => []
       case Done(plan) => PlanRunLogs(plan, svc, now))
    + CaughtLogs(Settle(o), now)
  }

  function PlanningResults(o: Outcome<Plan>, svc: Services, now: int): seq<Result> {
    match o
    case Threw(_) => []
    case Done(plan) => PlanRunResults(plan, svc, now)
  }

  /**
   * The loop that logs each planned step before any of them runs; it stops
   * with a TypeError when `steps` cannot be iterated or an item cannot be read.
   */
  method LogPlanSteps(e: Execution, steps: Steps, now: int) returns (listed: Outcome<seq<Step>>)
    modifies e`logs
    ensures listed == Listing(steps)
    ensures e.logs == old(e.logs) + ListedLogs(steps, now)
  {
    match steps {
      case NotIterable =>
        listed := Threw(NotIterableMessage);
        assert e.logs == old(e.logs) + [];
      case Items(items) =>
        var i := 0;
        while i < |items| && items[i].StepItem?
          invariant 0 <= i <= |items|
          invariant forall j :: 0 <= j < i ==> items[j].StepItem?
          invariant e.logs == old(e.logs) + PlanStepLogs(StepsOf(items[..i]), now)
        {
          var step := items[i].step;
          LogExecution(e, Info, PlanStepPrefix + step.action + ": " + step.details, now);
          assert StepsOf(items[..i + 1])[..i] == StepsOf(items[..i]);
          i := i + 1;
        }
        assert i == FirstUnreadable(items);
        if i < |items| {
          listed := Threw(ReadFailure(items[i].what));
        } else {
          assert items[..i] == items;
          listed := Done(StepsOf(items));
        }
    }
  }

  /** The part of `executeWithAI` after a reply has been parsed into a plan, up to its `catch`. */
  method RunPlan(e: Execution, plan: Plan, svc: Services, now: int) returns (r: Outcome<Plan>)
    modifies e`logs, e`results
    ensures r == Settled(plan)
    ensures e.logs == old(e.logs) + PlanRunLogs(plan, svc, now)
    ensures e.results == old(e.results) + PlanRunResults(plan, svc, now)
  {
    LogExecution(e, Info, PlanGeneratedMessage, now);
    var listed := LogPlanSteps(e, plan.steps, now);
    AppendAssoc(old(e.logs), [LogEntry(now, Info, PlanGeneratedMessage)], ListedLogs(plan.steps, now));
    ghost var announced := [LogEntry(now, Info, PlanGeneratedMessage)] + ListedLogs(plan.steps, now);
    match listed {
      case Threw(t) =>
        r := Threw(t);
        assert announced + [] == announced;
        EmptyAppend(old(e.results));
      case Done(steps) =>
        ExecuteRealActions(e, steps, svc, now);
        AppendAssoc(old(e.logs), announced, RealActionLogs(steps, svc, now));
        e.results := e.results + [PlannerResult(plan, now)];
        AppendAssoc(old(e.results), RealActionResults(steps, svc, now), [PlannerResult(plan, now)]);
        r := Done(plan);
    }
  }

  /**
   * `executeWithAI`: asks the AI for a plan, logs its steps, runs them, and
   * records the plan; a failure of the AI call or of the step listing is
   * logged at error level and rethrown.
   */
  method ExecuteWithAI(e: Execution, description: string, svc: Services, now: int) returns (r: Outcome<Plan>)
    modifies e`logs, e`results
    ensures e.logs == old(e.logs) + WithAILogs(description, svc, now)
    ensures e.results == old(e.results) + WithAIResults(description, svc, now)
    ensures r == WithAI(description, svc)
  {
    r := RecordPlanning(e, Planned(description, svc), svc, now);
  }

  /** The `try`/`catch` of `executeWithAI`, once the planning call has returned or thrown. */
  method RecordPlanning(e: Execution, o: Outcome<Plan>, svc: Services, now: int) returns (r: Outcome<Plan>)
    modifies e`logs, e`results
    ensures r == Settle(o)
    ensures e.logs == old(e.logs) + PlanningLogs(o, svc, now)
    ensures e.results == old(e.results) + PlanningResults(o, svc, now)
  {
    LogExecution(e, Info, DelegatingMessage, now);
    ghost var tried: seq<LogEntry>;
    match o {
      case Threw(_) =>
        r := o;
        tried := [];
        assert e.logs == old(e.logs) + [LogEntry(now, Info, DelegatingMessage)] + tried;
        EmptyAppend(old(e.results));
      case Done(plan) =>
        r := RunPlan(e, plan, svc, now);
        tried := PlanRunLogs(plan, svc, now);
        AppendAssoc(old(e.logs), [LogEntry(now, Info, DelegatingMessage)], tried);
    }
    ghost var before := e.logs;
    if r.Threw? {
      LogExecution(e, Error, HybridFailedPrefix + r.message, now);
    }
    assert e.logs == before + CaughtLogs(r, now);
  }

  /** `error?.message || 'Unknown error'`. */
  function ErrorText(message: string): (t: string)
    ensures t != []
    ensures message != [] ==> t == message
  {
    if message == [] then "Unknown error" else message
  }

  /** The two entries every run of a known agent opens with. */
  function RunHead(description: string, now: int): seq<LogEntry> {
    [LogEntry(now, Info, StartingMessage), LogEntry(now, Info, TaskPrefix + description)]
  }

  /** The whole log of a run of a known agent. */
  function RunLogs(description: string, svc: Services, now: int): seq<LogEntry> {
    RunHead(description, now) + WithAILogs(description, svc, now)
  }

  /**
   * `executeSmartAgent`: an unknown agent id fails before any record exists;
   * otherwise the record is created running and finalised exactly once,
   * completed with its duration when `executeWithAI` returns, failed with
   * the error message (and no duration) when it throws, in which case the
   * error is rethrown.
   */
  method ExecuteSmartAgent(
    store: ExecutionStore, agents: seq<StoredAgent>, agentId: string, userId: string,
    svc: Services, startedAt: int, finishedAt: int, now: int)
    returns (r: RunOutcome)
    modifies store
    ensures FindAgentById(agents, agentId).None? ==> r == AgentNotFound && store.executions == old(store.executions)
    ensures FindAgentById(agents, agentId).Some? ==>
      && !r.AgentNotFound?
      && fresh(r.execution)
      && store.executions == old(store.executions) + [r.execution]
      && RunRecorded(r, agentId, userId, FindAgentById(agents, agentId).value.description, svc, startedAt, finishedAt, now)
  {
    var found := FindAgentById(agents, agentId);
    if found.None? {
      return AgentNotFound;
    }
    r := RunKnownAgent(store, agentId, userId, found.value.description, svc, startedAt, finishedAt, now);
  }

  /** The record holds the whole log and the results of a run of a known agent. */
  ghost predicate Logged(e: Execution, description: string, svc: Services, now: int)
    reads e`logs, e`results
  {
    e.logs == RunLogs(description, svc, now) && e.results == WithAIResults(description, svc, now)
  }

  /** The message of an outcome that threw, None for one that returned. */
  function Thrown<T>(o: Outcome<T>): (m: Option<string>)
    ensures m.Some? <==> o.Threw?
    ensures m.Some? ==> m.value == o.message
  {
    if o.Threw? then Some(o.message) else None
  }

  /**
   * How a run ended, as its record and its caller see it: the record has its
   * end time and keeps the lifecycle invariant; when nothing was thrown it is
   * completed with its duration and the record is returned; when `m` was
   * thrown it is failed with the error text (and no duration) and `m` is
   * rethrown.
   */
  ghost predicate Ended(r: RunOutcome, thrown: Option<string>, finishedAt: int)
    reads if r.AgentNotFound? then {} else {r.execution}
  {
    && !r.AgentNotFound?
    && r.execution.endTime == Some(finishedAt) && r.execution.Valid()
    && match thrown
       case None =>
         r.Returned? && r.execution.status == Completed && r.execution.duration == Some(finishedAt - r.execution.startTime)
       case Some(m) =>
         r.Rethrown? && r.message == m && r.execution.status == Failed
         && r.execution.error == Some(ErrorText(m)) && r.execution.duration.None?
  }

  /**
   * The record a run of a known agent leaves and what its caller sees: the
   * record belongs to the agent and the user and starts at the run's start,
   * it holds the run's whole log and results, and it ended as `executeWithAI`
   * did.
   */
  ghost predicate RunRecorded(
    r: RunOutcome, agentId: string, userId: string, description: string,
    svc: Services, startedAt: int, finishedAt: int, now: int)
    reads if r.AgentNotFound? then {} else {r.execution}
  {
    && !r.AgentNotFound?
    && r.execution.agentId == agentId && r.execution.userId == userId && r.execution.startTime == startedAt
    && Logged(r.execution, description, svc, now)
    && Ended(r, Thrown(WithAI(description, svc)), finishedAt)
  }

  /**
   * The run of an agent that was found: the record's whole life from its
   * creation to its final update, and what the caller sees.
   */
  method RunKnownAgent(
    store: ExecutionStore, agentId: string, userId: string, description: string,
    svc: Services, startedAt: int, finishedAt: int, now: int)
    returns (r: RunOutcome)
    modifies store
    ensures !r.AgentNotFound? && fresh(r.execution)
    ensures store.executions == old(store.executions) + [r.execution]
    ensures RunRecorded(r, agentId, userId, description, svc, startedAt, finishedAt, now)
  {
    var e, outcome := StartAndPlan(store, agentId, userId, description, svc, startedAt, now);
    r := Finish(e, outcome, finishedAt);
  }

  /** The record as it stands when `executeWithAI` has returned or thrown, before its final update. */
  method StartAndPlan(
    store: ExecutionStore, agentId: string, userId: string, description: string,
    svc: Services, startedAt: int, now: int)
    returns (e: Execution, outcome: Outcome<Plan>)
    modifies store
    ensures fresh(e) && store.executions == old(store.executions) + [e]
    ensures e.agentId == agentId && e.userId == userId && e.startTime == startedAt
    ensures e.status == Running && e.duration.None? && e.error.None?
    ensures Logged(e, description, svc, now)
    ensures outcome == WithAI(description, svc)
  {
    e := StartRun(store, agentId, userId, description, startedAt, now);
    outcome := ExecuteWithAI(e, description, svc, now);
    EmptyAppend(WithAIResults(description, svc, now));
  }

  /** A new record, created running and inserted, whose log opens with the description. */
  method StartRun(store: ExecutionStore, agentId: string, userId: string, description: string, startedAt: int, now: int)
    returns (e: Execution)
    modifies store
    ensures fresh(e)
    ensures store.executions == old(store.executions) + [e]
    ensures e.agentId == agentId && e.userId == userId && e.startTime == startedAt
    ensures e.status == Running && e.endTime.None? && e.duration.None? && e.error.None?
    ensures e.logs == RunHead(description, now) && e.results == []
  {
    e := new Execution(agentId, userId, startedAt);
    store.Insert(e);
    LogExecution(e, Info, StartingMessage, now);
    LogExecution(e, Info, TaskPrefix + description, now);
  }

  /**
   * The final update of a record whose `executeWithAI` returned or threw:
   * completed with its duration, or failed with the error message; the
   * record is returned, or the error rethrown.
   */
  method Finish(e: Execution, outcome: Outcome<Plan>, finishedAt: int) returns (r: RunOutcome)
    requires e.status == Running && e.duration.None? && e.error.None?
    modifies e`status, e`endTime, e`duration, e`error
    ensures !r.AgentNotFound? && r.execution == e
    ensures Ended(r, Thrown(outcome), finishedAt)
  {
    match outcome
    case Done(_) =>
      e.status := Completed;
      e.endTime := Some(finishedAt);
      e.duration := Some(finishedAt - e.startTime);
      r := Returned(e);
    case Threw(m) =>
      e.status := Failed;
      e.error := Some(ErrorText(m));
      e.endTime := Some(finishedAt);
      r := Rethrown(e, m);
  }

  /**
   * Once a plan is in hand, the run logs exactly one error entry per failing
   * step and a warning only when the plan has no steps; when the listing
   * throws, it logs neither before the `catch`.
   */
  lemma PlanRunLevels(plan: Plan, svc: Services, now: int)
    ensures Listing(plan.steps).Threw? ==>
      CountLevel(PlanRunLogs(plan, svc, now), Error) == 0 && CountLevel(PlanRunLogs(plan, svc, now), Warning) == 0
    ensures Listing(plan.steps).Done? ==>
      var steps := Listing(plan.steps).value;
      && CountLevel(PlanRunLogs(plan, svc, now), Error) == FailedSteps(steps, svc)
      && CountLevel(PlanRunLogs(plan, svc, now), Warning) == (if steps == [] then 1 else 0)
  {
    var announce := [LogEntry(now, Info, PlanGeneratedMessage)];
    var listed := ListedLogs(plan.steps, now);
    var acted := match Listing(plan.steps) case Threw(_) => [] case Done(steps) => RealActionLogs(steps, svc, now);
    assert PlanRunLogs(plan, svc, now) == announce + listed + acted;
    CountLevelOne(announce[0], Error);
    CountLevelOne(announce[0], Warning);
    ListedLogsInfo(plan.steps, now);
    match Listing(plan.steps) {
      case Threw(_) =>
      case Done(steps) =>
        ActionLogsCount(steps, svc, now);
        if steps == [] {
          CountLevelOne(acted[0], Error);
          CountLevelOne(acted[0], Warning);
        }
    }
    CountLevelAppend(announce, listed, Error);
    CountLevelAppend(announce, listed, Warning);
    CountLevelAppend(announce + listed, acted, Error);
    CountLevelAppend(announce + listed, acted, Warning);
  }

  /** Listing the steps logs neither errors nor warnings. */
  lemma ListedLogsInfo(steps: Steps, now: int)
    ensures CountLevel(ListedLogs(steps, now), Error) == 0
    ensures CountLevel(ListedLogs(steps, now), Warning) == 0
  {
    if steps.Items? {
      PlanStepLogsInfo(StepsOf(steps.items[..FirstUnreadable(steps.items)]), now);
    }
  }

  /**
   * A run logs exactly one error entry, and no warning, when `executeWithAI`
   * throws, whether the AI call or the step listing failed; otherwise it
   * logs exactly one error per failing step, and a warning only when the
   * plan is empty.
   */
  lemma RunErrorCount(description: string, svc: Services, now: int)
    ensures WithAI(description, svc).Threw? ==>
      CountLevel(RunLogs(description, svc, now), Error) == 1 && CountLevel(RunLogs(description, svc, now), Warning) == 0
    ensures WithAI(description, svc).Done? ==>
      var steps := Listing(WithAI(description, svc).value.steps).value;
      && CountLevel(RunLogs(description, svc, now), Error) == FailedSteps(steps, svc)
      && CountLevel(RunLogs(description, svc, now), Warning) == (if steps == [] then 1 else 0)
  {
    var head := RunHead(description, now);
    var o := Planned(description, svc);
    var rest := PlanningLogs(o, svc, now);
    assert RunLogs(description, svc, now) == head + rest;
    CountLevelAppend(head, rest, Error);
    CountLevelAppend(head, rest, Warning);
    RunHeadLevels(description, now);
    PlanningLevels(o, svc, now);
  }

  /** The two opening entries are informational. */
  lemma RunHeadLevels(description: string, now: int)
    ensures CountLevel(RunHead(description, now), Error) == 0
    ensures CountLevel(RunHead(description, now), Warning) == 0
  {
    var head := RunHead(description, now);
    assert head == [head[0]] + [head[1]];
    CountLevelAppend([head[0]], [head[1]], Error);
    CountLevelAppend([head[0]], [head[1]], Warning);
    CountLevelOne(head[0], Error);
    CountLevelOne(head[0], Warning);
    CountLevelOne(head[1], Error);
    CountLevelOne(head[1], Warning);
  }

  /** The error and warning entries logged after a planning call, for every way `executeWithAI` ends. */
  lemma PlanningLevels(o: Outcome<Plan>, svc: Services, now: int)
    ensures Settle(o).Threw? ==>
      CountLevel(PlanningLogs(o, svc, now), Error) == 1 && CountLevel(PlanningLogs(o, svc, now), Warning) == 0
    ensures Settle(o).Done? ==>
      var steps := Listing(o.value.steps).value;
      && CountLevel(PlanningLogs(o, svc, now), Error) == FailedSteps(steps, svc)
      && CountLevel(PlanningLogs(o, svc, now), Warning) == (if steps == [] then 1 else 0)
  {
    var delegating := [LogEntry(now, Info, DelegatingMessage)];
    var tried := match o case Threw(_) => [] case Done(plan) => PlanRunLogs(plan, svc, now);
    var caught := CaughtLogs(Settle(o), now);
    assert PlanningLogs(o, svc, now) == delegating + tried + caught;
    CountLevelOne(delegating[0], Error);
    CountLevelOne(delegating[0], Warning);
    if o.Done? {
      PlanRunLevels(o.value, svc, now);
    }
    if caught != [] {
      CountLevelOne(caught[0], Error);
      CountLevelOne(caught[0], Warning);
    }
    CountLevelAppend(delegating, tried, Error);
    CountLevelAppend(delegating, tried, Warning);
    CountLevelAppend(delegating + tried, caught, Error);
    CountLevelAppend(delegating + tried, caught, Warning);
  }

  lemma {:induction false} PlanStepLogsInfo(steps: seq<Step>, now: int)
    ensures CountLevel(PlanStepLogs(steps, now), Error) == 0
    ensures CountLevel(PlanStepLogs(steps, now), Warning) == 0
  {
    if steps != [] {
      PlanStepLogsInfo(steps[..|steps| - 1], now);
    }
  }

  /**
   * Once a plan is in hand, the results are the sheet reads followed by
   * exactly one planner record holding that plan, or nothing at all when
   * the listing throws.
   */
  lemma PlanRunResultsShape(plan: Plan, svc: Services, now: int)
    ensures Listing(plan.steps).Threw? ==> PlanRunResults(plan, svc, now) == []
    ensures Listing(plan.steps).Done? ==>
      var results := PlanRunResults(plan, svc, now);
      && results != []
      && results[|results| - 1] == PlannerResult(plan, now)
      && forall k :: 0 <= k < |results| - 1 ==> results[k].nodeId == "google-sheets"
  {
    match Listing(plan.steps) {
      case Threw(_) =>
      case Done(steps) =>
        ActionResultsShape(steps, svc, now);
        var acted := RealActionResults(steps, svc, now);
        forall k | 0 <= k < |acted|
          ensures acted[k].nodeId == "google-sheets"
        {
          assert acted[k] in ActionResults(steps, svc, now);
        }
    }
  }

  /**
   * A run leaves a result exactly when `executeWithAI` returns; the last
   * one is then the planner result holding the whole parsed plan, and every
   * other result is a sheet read.
   */
  lemma PlannerResultIsLast(description: string, svc: Services, now: int)
    ensures WithAIResults(description, svc, now) != [] <==> WithAI(description, svc).Done?
    ensures WithAI(description, svc).Done? ==>
      var results := WithAIResults(description, svc, now);
      && results[|results| - 1] == PlannerResult(WithAI(description, svc).value, now)
      && forall k :: 0 <= k < |results| - 1 ==> results[k].nodeId == "google-sheets"
  {
    var o := Planned(description, svc);
    if o.Done? {
      PlanRunResultsShape(o.value, svc, now);
    }
  }

  /**
   * After a plan whose steps cannot be listed, the `catch` logs the listing's
   * TypeError after the steps listed so far, and nothing is recorded.
   */
  lemma UnlistablePlanning(plan: Plan, svc: Services, now: int)
    requires Listing(plan.steps).Threw?
    ensures Settle(Done(plan)) == Threw(Listing(plan.steps).message)
    ensures PlanningResults(Done(plan), svc, now) == []
    ensures PlanningLogs(Done(plan), svc, now) ==
      [LogEntry(now, Info, DelegatingMessage), LogEntry(now, Info, PlanGeneratedMessage)]
      + ListedLogs(plan.steps, now)
      + [LogEntry(now, Error, HybridFailedPrefix + Listing(plan.steps).message)]
  {
    assert PlanRunLogs(plan, svc, now) == [LogEntry(now, Info, PlanGeneratedMessage)] + ListedLogs(plan.steps, now);
  }

  /**
   * A reply whose parsed steps start with null fails the run after the AI
   * answered: the listing throws at once, nothing is run or recorded, and the
   * `catch` logs the TypeError.
   */
  lemma NullStepFails(description: string, svc: Services, now: int)
    requires svc.ai(PlanPrompt(description)).Done?
    requires var plan := ParseAIJson(svc.ai(PlanPrompt(description)).value, svc.parse);
      plan.steps.Items? && plan.steps.items != [] && plan.steps.items[0] == Unreadable("null")
    ensures WithAI(description, svc) == Threw(ReadFailure("null"))
    ensures WithAIResults(description, svc, now) == []
    ensures WithAILogs(description, svc, now) ==
      [ LogEntry(now, Info, DelegatingMessage), LogEntry(now, Info, PlanGeneratedMessage),
        LogEntry(now, Error, HybridFailedPrefix + ReadFailure("null")) ]
  {
    var plan := Planned(description, svc).value;
    assert FirstUnreadable(plan.steps.items) == 0;
    assert plan.steps.items[..0] == [];
    UnlistablePlanning(plan, svc, now);
  }

  /** Parsed steps that cannot be iterated fail the run the same way, before any step is listed. */
  lemma NotIterableStepsFail(description: string, svc: Services, now: int)
    requires svc.ai(PlanPrompt(description)).Done?
    requires ParseAIJson(svc.ai(PlanPrompt(description)).value, svc.parse).steps == NotIterable
    ensures WithAI(description, svc) == Threw(NotIterableMessage)
    ensures WithAIResults(description, svc, now) == []
    ensures WithAILogs(description, svc, now) ==
      [ LogEntry(now, Info, DelegatingMessage), LogEntry(now, Info, PlanGeneratedMessage),
        LogEntry(now, Error, HybridFailedPrefix + NotIterableMessage) ]
  {
    UnlistablePlanning(Planned(description, svc).value, svc, now);
  }

  /** The fallback plan has no steps: its run only announces it and warns. */
  lemma FallbackRun(svc: Services, now: int)
    ensures PlanRunLogs(FallbackPlan, svc, now) ==
      [LogEntry(now, Info, PlanGeneratedMessage), LogEntry(now, Warning, NoStepsMessage)]
    ensures PlanRunResults(FallbackPlan, svc, now) == [PlannerResult(FallbackPlan, now)]
  {
    assert Listing(FallbackPlan.steps) == Done([]);
    assert ListedLogs(FallbackPlan.steps, now) == [];
  }

  /**
   * A reply that JSON.parse rejects still completes the run: the plan is the
   * fallback, the interpreter warns that there is nothing to do, and the only
   * result is the planner's.
   */
  lemma GarbageReplyCompletes(description: string, svc: Services, now: int)
    requires svc.ai(PlanPrompt(description)).Done?
    requires svc.parse(CleanAIText(svc.ai(PlanPrompt(description)).value)).None?
    ensures WithAI(description, svc) == Done(FallbackPlan)
    ensures WithAILogs(description, svc, now) ==
      [ LogEntry(now, Info, DelegatingMessage), LogEntry(now, Info, PlanGeneratedMessage),
        LogEntry(now, Warning, NoStepsMessage) ]
    ensures WithAIResults(description, svc, now) == [PlannerResult(FallbackPlan, now)]
  {
    assert Planned(description, svc) == Done(FallbackPlan);
    FallbackPlanning(svc, now);
  }

  lemma FallbackPlanning(svc: Services, now: int)
    ensures Settle(Done(FallbackPlan)) == Done(FallbackPlan)
    ensures PlanningLogs(Done(FallbackPlan), svc, now) ==
      [ LogEntry(now, Info, DelegatingMessage), LogEntry(now, Info, PlanGeneratedMessage),
        LogEntry(now, Warning, NoStepsMessage) ]
    ensures PlanningResults(Done(FallbackPlan), svc, now) == [PlannerResult(FallbackPlan, now)]
  {
    FallbackRun(svc, now);
  }
}
