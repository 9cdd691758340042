/**
 * The page that runs one template: the user's answers are kept as the
 * entries of an object in insertion order; a run first checks the required
 * fields, then builds a prompt from the template and every entry, sends it
 * to the ad-hoc endpoint and shows the reply, logging its progress.
 *
 * The page's state is a `TemplatePageState` object; the ad-hoc endpoint and
 * the pretty-printing `JSON.stringify(v, null, 2)` are parameters, and so is
 * the time of the run.
 */
module TemplatePage {
  import opened Text
  import opened Js
  import opened Terminal
  import opened Templates

  /** One property of the answers object, in the order it was first set. */
  datatype Entry = Entry(key: string, value: Value)

  /** The reply the page shows after a successful run. */
  datatype RunResult = RunResult(
    status: string,
    message: string,
    timestamp: string,
    output: Value,
    processedInputs: seq<Entry>)

  const MissingPrefix := "Please fill in required fields: "
  const LabelSeparator := ", "
  const DefaultError := "An error occurred while running the agent"
  const ErrorPrefix := "Error: "
  const SuccessStatus := "success"

  /** The position of the property `key`, or the number of properties when it is not set. */
  function KeyIndex(es: seq<Entry>, key: string): (k: nat)
    ensures k <= |es|
    ensures k < |es| ==> es[k].key == key
    ensures forall j :: 0 <= j < k ==> es[j].key != key
  {
    if es == [] then 0
    else if es[0].key == key then 0
    else 1 + KeyIndex(es[1..], key)
  }

  /** `inputs[key]`: the value set for `key`, or undefined. */
  function Lookup(es: seq<Entry>, key: string): (v: Value)
    ensures (forall k :: 0 <= k < |es| ==> es[k].key != key) ==> v == Undefined
    ensures forall k :: 0 <= k < |es| && es[k].key == key && (forall j :: 0 <= j < k ==> es[j].key != key) ==> v == es[k].value
  {
    var k := KeyIndex(es, key);
    if k < |es| then es[k].value else Undefined
  }

  /** `{ ...es, [key]: value }`: a set property keeps its place, a new one goes last. */
  function Assigned(es: seq<Entry>, key: string, value: Value): seq<Entry> {
    var k := KeyIndex(es, key);
    if k < |es| then es[k := Entry(key, value)] else es + [Entry(key, value)]
  }

  function Keys(es: seq<Entry>): (ks: seq<string>)
    ensures |ks| == |es| && forall k :: 0 <= k < |es| ==> ks[k] == es[k].key
  {
    seq(|es|, k requires 0 <= k < |es| => es[k].key)
  }

  /** Setting a field changes that field alone. */
  lemma AssignedLookup(es: seq<Entry>, key: string, value: Value, other: string)
    ensures Lookup(Assigned(es, key, value), key) == value
    ensures other != key ==> Lookup(Assigned(es, key, value), other) == Lookup(es, other)
  {
    var k := KeyIndex(es, key);
    var es' := Assigned(es, key, value);
    KeyIndexIs(es', key, k);
    if other != key {
      var j := KeyIndex(es, other);
      if j < |es| {
        KeyIndexIs(es', other, j);
      } else {
        KeyIndexIs(es', other, |es'|);
      }
    }
  }

  /** The first position holding `key` is determined by what lies before it. */
  lemma KeyIndexIs(es: seq<Entry>, key: string, k: nat)
    requires k <= |es| && (k < |es| ==> es[k].key == key)
    requires forall j :: 0 <= j < k ==> es[j].key != key
    ensures KeyIndex(es, key) == k
  {
  }

  /** Setting a field keeps the order of the others and appends a new one at the end. */
  lemma AssignedKeys(es: seq<Entry>, key: string, value: Value)
    ensures Keys(Assigned(es, key, value)) ==
      if key in Keys(es) then Keys(es) else Keys(es) + [key]
  {
    if KeyIndex(es, key) == |es| {
      assert key !in Keys(es);
    }
  }

  /** `template.inputs.filter(input => input.required && !inputs[input.id])`. */
  function MissingFields(fields: seq<TemplateInput>, es: seq<Entry>): (missing: seq<TemplateInput>)
    ensures |missing| <= |fields|
    ensures forall k :: 0 <= k < |missing| ==> missing[k].required && !Truthy(Lookup(es, missing[k].id))
  {
    if fields == [] then []
    else
      var last := fields[|fields| - 1];
      MissingFields(fields[..|fields| - 1], es)
      + (if last.required && !Truthy(Lookup(es, last.id)) then [last] else [])
  }

  /** A field is missing exactly when it is required and its answer is falsy. */
  lemma {:induction false} MissingMembers(fields: seq<TemplateInput>, es: seq<Entry>, f: TemplateInput)
    ensures f in MissingFields(fields, es) <==> f in fields && f.required && !Truthy(Lookup(es, f.id))
    decreases |fields|
  {
    if fields != [] {
      MissingMembers(fields[..|fields| - 1], es, f);
      assert fields == fields[..|fields| - 1] + [fields[|fields| - 1]];
    }
  }

  /** Nothing is missing exactly when every required field has a truthy answer. */
  lemma {:induction false} NothingMissing(fields: seq<TemplateInput>, es: seq<Entry>)
    ensures MissingFields(fields, es) == [] <==>
      forall k :: 0 <= k < |fields| && fields[k].required ==> Truthy(Lookup(es, fields[k].id))
    decreases |fields|
  {
    if fields != [] {
      var init := fields[..|fields| - 1];
      NothingMissing(init, es);
      assert forall k :: 0 <= k < |init| ==> init[k] == fields[k];
    }
  }

  /** On a fresh page every registry template has something missing, so a run is refused. */
  lemma FreshPageIsIncomplete(k: nat)
    requires k < |Table|
    ensures MissingFields(Table[k].inputs, []) != []
  {
    FirstInputsRequired();
    NothingMissing(Table[k].inputs, []);
  }

  function Labels(fields: seq<TemplateInput>): seq<string> {
    seq(|fields|, k requires 0 <= k < |fields| => fields[k].text)
  }

  /** The error a run with missing fields fails with: their labels, in template order. */
  function MissingMessage(missing: seq<TemplateInput>): (m: string)
    ensures StartsWith(m, MissingPrefix)
  {
    MissingPrefix + Join(Labels(missing), LabelSeparator)
  }

  /** The first lines of the prompt: the template's name and description. */
  function PromptHead(t: Template): string {
    "Execute the agent task: " + t.name + ".\nDescription: " + t.description + ".\n\nInputs:\n"
  }

  /** The prompt line of one answer. */
  function EntryLine(e: Entry): string {
    "- " + e.key + ": " + Display(e.value) + "\n"
  }

  /** One line per answer, in insertion order. */
  function EntryLines(es: seq<Entry>): string {
    if es == [] then []
    else EntryLines(es[..|es| - 1]) + EntryLine(es[|es| - 1])
  }

  function Prompt(t: Template, es: seq<Entry>): string {
    PromptHead(t) + EntryLines(es)
  }

  /** The prompt is built by appending one line per answer to the head. */
  method BuildPrompt(t: Template, es: seq<Entry>) returns (prompt: string)
    ensures prompt == Prompt(t, es)
  {
    prompt := PromptHead(t);
    var i := 0;
    while i < |es|
      invariant i <= |es|
      invariant prompt == PromptHead(t) + EntryLines(es[..i])
    {
      assert es[..i + 1][..i] == es[..i];
      AppendAssoc(PromptHead(t), EntryLines(es[..i]), EntryLine(es[i]));
      prompt := prompt + EntryLine(es[i]);
      i := i + 1;
    }
    assert es[..i] == es;
  }

  /** The lines of a concatenation are the lines of each part, in order. */
  lemma {:induction false} EntryLinesAppend(a: seq<Entry>, b: seq<Entry>)
    ensures EntryLines(a + b) == EntryLines(a) + EntryLines(b)
    decreases |b|
  {
    if b == [] {
      assert a + b == a;
    } else {
      var init := b[..|b| - 1];
      assert (a + b)[..|a + b| - 1] == a + init;
      EntryLinesAppend(a, init);
      AppendAssoc(EntryLines(a), EntryLines(init), EntryLine(b[|b| - 1]));
    }
  }

  /** Answering a new field adds its line at the end of the prompt. */
  lemma NewAnswerLastLine(es: seq<Entry>, key: string, value: Value)
    requires key !in Keys(es)
    ensures EntryLines(Assigned(es, key, value)) == EntryLines(es) + EntryLine(Entry(key, value))
  {
    assert KeyIndex(es, key) == |es|;
    assert (es + [Entry(key, value)])[..|es|] == es;
  }

  /** `typeof raw === 'string' ? raw : JSON.stringify(raw, null, 2)`; undefined when stringify gives nothing. */
  function FinalOutput(raw: Value, pretty: Value -> Option<string>): (out: Value)
    ensures raw.Str? ==> out == raw
    ensures !raw.Str? ==> (out == Undefined <==> pretty(raw).None?)
    ensures !raw.Str? && pretty(raw).Some? ==> out == Str(pretty(raw).value)
  {
    if raw.Str? then raw
    else match pretty(raw)
      case Some(text) => Str(text)
      case None => Undefined
  }

  /** `err.message || 'An error occurred while running the agent'`. */
  function ErrorText(message: string): string {
    if message == [] then DefaultError else message
  }

  function ErrorLine(message: string): LogStep {
    LogStep(ErrorPrefix + message, ErrorStep)
  }

  /** The lines logged between validation and the call to the endpoint. */
  function ProgressLines(t: Template): seq<LogStep> {
    [ LogStep("Initializing agent: " + t.name + "...", InfoStep),
      LogStep("Validating input parameters...", AnalysisStep),
      LogStep("Inputs verified successfully.", SuccessStep),
      LogStep("Connecting to AI Engine...", InfoStep),
      LogStep("Processing request...", AnalysisStep),
      LogStep("Sending task to AI Brain...", ToolStep) ]
  }

  function GeneratingLine(): LogStep {
    LogStep("Generating response...", ToolStep)
  }

  function CompletedLine(): LogStep {
    LogStep("Execution completed successfully.", SuccessStep)
  }

  function SuccessMessage(t: Template): string {
    "Agent " + t.name + " executed successfully!"
  }

  /** What the page shows: the log lines, the result panel and the error banner. */
  datatype Screen = Screen(logs: seq<LogStep>, result: Option<RunResult>, error: Option<string>)

  /** The lines logged once the endpoint has answered. */
  function ReplyLines(reply: Outcome<Value>): seq<LogStep> {
    match reply
    case Threw(m) => [ErrorLine(m)]
    case Done(_) => [GeneratingLine(), CompletedLine()]
  }

  /** The screen once the endpoint has answered a validated run. */
  function Answered(t: Template, es: seq<Entry>, reply: Outcome<Value>, pretty: Value -> Option<string>, now: string)
    : Screen
  {
    match reply
    case Threw(m) => Screen(ProgressLines(t) + ReplyLines(reply), None, Some(ErrorText(m)))
    case Done(raw) =>
      Screen(ProgressLines(t) + ReplyLines(reply),
             Some(RunResult(SuccessStatus, SuccessMessage(t), now, FinalOutput(raw, pretty), es)), None)
  }

  /**
   * The screen a run ends on. `reply` is the endpoint's answer to
   * `Prompt(t, es)`, which is only asked for when nothing is missing.
   */
  function Run(t: Template, es: seq<Entry>, reply: Outcome<Value>, pretty: Value -> Option<string>, now: string)
    : Screen
  {
    var missing := MissingFields(t.inputs, es);
    if missing != [] then Screen([ErrorLine(MissingMessage(missing))], None, Some(ErrorText(MissingMessage(missing))))
    else Answered(t, es, reply, pretty, now)
  }

  /**
   * A run ends on exactly one of a result and an error. It logs one error
   * line, as its last line and carrying the banner's message, when it fails,
   * and none when it succeeds; a refused run logs nothing else, and the
   * endpoint is only heard when nothing was missing.
   */
  lemma RunShape(t: Template, es: seq<Entry>, reply: Outcome<Value>, pretty: Value -> Option<string>, now: string)
    ensures var s := Run(t, es, reply, pretty, now);
      s.logs != [] &&
      (s.result.Some? <==> s.error.None?) &&
      (s.error.Some? ==> exists m :: s.logs[|s.logs| - 1] == ErrorLine(m) && s.error.value == ErrorText(m)) &&
      (s.result.Some? ==> s.logs[|s.logs| - 1].kind != ErrorStep) &&
      (forall k :: 0 <= k < |s.logs| - 1 ==> s.logs[k].kind != ErrorStep) &&
      (MissingFields(t.inputs, es) != [] ==> |s.logs| == 1 && s.error.Some?) &&
      (MissingFields(t.inputs, es) == [] ==> (s.result.Some? <==> reply.Done?))
  {
    ProgressLinesKinds(t);
    var s := Run(t, es, reply, pretty, now);
    var missing := MissingFields(t.inputs, es);
    if missing != [] {
      assert s.logs[0] == ErrorLine(MissingMessage(missing));
    } else if reply.Threw? {
      assert s.logs[|s.logs| - 1] == ErrorLine(reply.message);
    }
  }

  /** The progress lines are six, none of them an error. */
  lemma ProgressLinesKinds(t: Template)
    ensures |ProgressLines(t)| == 6
    ensures forall k :: 0 <= k < 6 ==> ProgressLines(t)[k].kind != ErrorStep
  {
  }

  class TemplatePageState {
    const template: Template
    var inputs: seq<Entry>
    var loading: bool
    var result: Option<RunResult>
    var error: Option<string>
    var logs: seq<LogStep>

    constructor (t: Template)
      ensures template == t && inputs == [] && !loading
      ensures result == None && error == None && logs == []
    {
      template := t;
      inputs := [];
      loading := false;
      result := None;
      error := None;
      logs := [];
    }

    /** `handleInputChange`: set one answer, leave the others as they are. */
    method HandleInputChange(id: string, value: Value)
      modifies this`inputs
      ensures inputs == Assigned(old(inputs), id, value)
    {
      inputs := Assigned(inputs, id, value);
    }

    /**
     * `handleRun`: validate, then build the prompt and call the endpoint;
     * `sent` is the prompt sent, none when validation refused the run.
     */
    method HandleRun(ai: string -> Outcome<Value>, pretty: Value -> Option<string>, now: string)
      returns (sent: Option<string>)
      modifies this`loading, this`result, this`error, this`logs
      ensures !loading
      ensures sent == if MissingFields(template.inputs, inputs) == [] then Some(Prompt(template, inputs)) else None
      ensures Screen(logs, result, error) == Run(template, inputs, ai(Prompt(template, inputs)), pretty, now)
    {
      loading := true;
      error := None;
      result := None;
      logs := [];
      var missing := MissingFields(template.inputs, inputs);
      if missing != [] {
        Fail(MissingMessage(missing));
        sent := None;
      } else {
        var prompt := BuildPrompt(template, inputs);
        logs := ProgressLines(template);
        Call(prompt, ai(prompt), pretty, now);
        sent := Some(prompt);
      }
      loading := false;
    }

    /** The endpoint's answer to `prompt`: show the result, or fail with the error. */
    method Call(prompt: string, reply: Outcome<Value>, pretty: Value -> Option<string>, now: string)
      requires result == None && error == None && logs == ProgressLines(template)
      modifies this`result, this`error, this`logs
      ensures Screen(logs, result, error) == Answered(template, inputs, reply, pretty, now)
    {
      match reply {
        case Threw(m) =>
          Fail(m);
        case Done(raw) =>
          logs := logs + [GeneratingLine()];
          result := Some(RunResult(SuccessStatus, SuccessMessage(template), now, FinalOutput(raw, pretty), inputs));
          logs := logs + [CompletedLine()];
          AppendAssoc(ProgressLines(template), [GeneratingLine()], [CompletedLine()]);
      }
    }

    /** The `catch` of a run: show the error's message and log it. */
    method Fail(message: string)
      modifies this`error, this`logs
      ensures error == Some(ErrorText(message))
      ensures logs == old(logs) + [ErrorLine(message)]
    {
      error := Some(ErrorText(message));
      logs := logs + [ErrorLine(message)];
    }
  }
}
