/**
 * The website builder page: it asks the AI engine for a single-file HTML
 * page and cleans the reply. The cleaning is a pure function of the reply
 * text: the body of the first "```html" block, else of the first bare "```"
 * block, else the text with every fence removed, trimmed in each case. The
 * regular expressions the page uses are modelled by what they match: the
 * leftmost opening fence that has a closing fence after it, and the nearest
 * such closing fence (the capture is lazy).
 *
 * The page's state is a `WebsiteBuilderPage` object; the AI engine and
 * `JSON.stringify` are parameters.
 */
module Website {
  import opened Text
  import opened Js
  import opened Terminal

  const HtmlFence := "```html"

  const DescriptionAlert := "Please enter a website description"
  const InitMessage := "Initializing Website Builder Agent..."
  const AnalysisMessage := "Analyzing requirements and style..."
  const DraftMessage := "Drafting layout structure..."
  const SynthesisMessage := "Generative AI synthesis complete."
  const ReadyMessage := "Website ready for preview!"
  const FailurePrefix := "Generation failed: "
  const DefaultStyle := "modern"

  /** The first index at or after `from` where `p` occurs in `s`. */
  function FindFrom(s: string, p: string, from: nat): (r: Option<nat>)
    ensures r.Some? ==> from <= r.value && OccursAt(s, p, r.value)
    ensures r.Some? ==> forall j :: from <= j < r.value ==> !OccursAt(s, p, j)
    ensures r.None? ==> forall j :: from <= j ==> !OccursAt(s, p, j)
    decreases |s| - from
  {
    if from + |p| > |s| then None
    else if s[from..from + |p|] == p then Some(from)
    else FindFrom(s, p, from + 1)
  }

  /** `open` at `i` and a bare fence at `c` after it: a match of `/open([\s\S]*?)```/`. */
  predicate Span(s: string, open: string, i: int, c: int) {
    OccursAt(s, open, i) && i + |open| <= c && OccursAt(s, Fence, c)
  }

  /** The match a regular expression reports: leftmost start, then (lazily) nearest end. */
  ghost predicate FirstSpan(s: string, open: string, i: int, c: int) {
    Span(s, open, i, c) &&
    forall i', c' :: Span(s, open, i', c') ==> i < i' || (i == i' && c <= c')
  }

  /** `s.match(/open([\s\S]*?)```/)`, reduced to its capture group. */
  function LazyMatch(s: string, open: string): (r: Option<string>) {
    match FindFrom(s, open, 0)
    case None => None
    case Some(i) =>
      match FindFrom(s, Fence, i + |open|)
      case None => None
      case Some(c) => Some(s[i + |open|..c])
  }

  /** The search by first occurrences is the regular expression's first match, and fails exactly when there is none. */
  lemma LazyMatchSpec(s: string, open: string)
    ensures LazyMatch(s, open).None? <==> forall i, c :: !Span(s, open, i, c)
    ensures LazyMatch(s, open).Some? ==>
      exists i, c :: FirstSpan(s, open, i, c) && LazyMatch(s, open).value == s[i + |open|..c]
  {
    match FindFrom(s, open, 0)
    case None =>
    case Some(i) =>
      match FindFrom(s, Fence, i + |open|)
      case None =>
      case Some(c) =>
        assert FirstSpan(s, open, i, c);
  }

  /**
   * The cleaned reply: the trimmed capture of the "```html" expression, or of
   * the bare one when the first does not match at all; when the capture taken
   * is missing or empty, the text without any fence, trimmed.
   */
  function Extract(s: string): (r: string)
    ensures Trimmed(r)
  {
    var m := if LazyMatch(s, HtmlFence).Some? then LazyMatch(s, HtmlFence) else LazyMatch(s, Fence);
    if m.Some? && m.value != [] then Trim(m.value)
    else Trim(RemoveAll(RemoveAll(s, HtmlFence, false), Fence, false))
  }

  /** The search finds the occurrence at `k` when no character before it from `from` on can start `p`. */
  lemma FindFromIs(s: string, p: string, from: nat, k: nat)
    requires p != [] && from <= k && OccursAt(s, p, k)
    requires p[0] !in s[from..k]
    ensures FindFrom(s, p, from) == Some(k)
  {
    var r := FindFrom(s, p, from);
    assert r.Some?;
    var j := r.value;
    assert s[j..j + |p|][0] == s[j];
    assert forall m :: from <= m < k ==> s[from..k][m - from] == s[m];
  }

  /** A pattern whose first character does not occur in `s` is never found. */
  lemma FindFromAbsent(s: string, p: string, from: nat)
    requires p != [] && p[0] !in s
    ensures FindFrom(s, p, from) == None
  {
  }

  /** A reply holding an "```html" block with a non-empty, backtick-free body yields that body, trimmed. */
  lemma HtmlBlockExtracted(pre: string, body: string, post: string)
    requires '`' !in pre && '`' !in body && body != []
    ensures Extract(pre + HtmlFence + body + Fence + post) == Trim(body)
  {
    HtmlBlockMatched(pre, body, post);
  }

  /** The html expression captures the body of the first "```html" block. */
  lemma HtmlBlockMatched(pre: string, body: string, post: string)
    requires '`' !in pre && '`' !in body
    ensures LazyMatch(pre + HtmlFence + body + Fence + post, HtmlFence) == Some(body)
  {
    var s := pre + HtmlFence + body + Fence + post;
    var c := |pre| + |HtmlFence| + |body|;
    assert s[|pre|..|pre| + |HtmlFence|] == HtmlFence;
    assert s[c..c + |Fence|] == Fence;
    assert s[0..|pre|] == pre;
    assert s[|pre| + |HtmlFence|..c] == body;
    FindFromIs(s, HtmlFence, 0, |pre|);
    FindFromIs(s, Fence, |pre| + |HtmlFence|, c);
    assert s[|pre| + |HtmlFence|..c] == body;
  }

  /** A reply without a backtick is only trimmed. */
  lemma UnfencedReplyTrimmed(s: string)
    requires '`' !in s
    ensures Extract(s) == Trim(s)
  {
    FindFromAbsent(s, HtmlFence, 0);
    FindFromAbsent(s, Fence, 0);
    RemoveAllAbsent(s, HtmlFence, false);
    RemoveAllAbsent(s, Fence, false);
  }

  /**
   * "```html```": the html expression matches with an empty capture, so the
   * bare expression (which would capture "html", see `BareFenceCapturesTag`)
   * is not consulted and the stripped text, here empty, is the result.
   */
  lemma EmptyHtmlCaptureFallsBack()
    ensures LazyMatch(HtmlFence + Fence, HtmlFence) == Some([])
    ensures Extract(HtmlFence + Fence) == []
  {
    var s := HtmlFence + Fence;
    assert s[0..|HtmlFence|] == HtmlFence;
    assert s[|HtmlFence|..|HtmlFence| + |Fence|] == Fence;
    FindFromIs(s, HtmlFence, 0, 0);
    FindFromIs(s, Fence, |HtmlFence|, |HtmlFence|);
    StripEmptyHtml();
  }

  /** The bare expression on "```html```" captures the language tag. */
  lemma BareFenceCapturesTag()
    ensures LazyMatch(HtmlFence + Fence, Fence) == Some("html")
  {
    var s := HtmlFence + Fence;
    assert s[0..|Fence|] == Fence;
    assert s[|HtmlFence|..|HtmlFence| + |Fence|] == Fence;
    FindFromIs(s, Fence, 0, 0);
    FindFromIs(s, Fence, |Fence|, |HtmlFence|);
    assert s[|Fence|..|HtmlFence|] == "html";
  }

  /** Stripping the fences from "```html```" leaves nothing. */
  lemma StripEmptyHtml()
    ensures RemoveAll(RemoveAll(HtmlFence + Fence, HtmlFence, false), Fence, false) == []
  {
    RemoveAllAtStart(HtmlFence, Fence, false);
    RemoveAllShort(Fence, HtmlFence, false);
    assert Fence + [] == Fence;
    RemoveAllAtStart(Fence, [], false);
  }

  /** The progress lines written before the AI engine is asked. */
  function Preamble(): seq<LogStep> {
    [LogStep(InitMessage, InfoStep), LogStep(AnalysisMessage, AnalysisStep), LogStep(DraftMessage, ToolStep)]
  }

  /** The reply's output as text: a string as it is, anything else through `JSON.stringify`. */
  function OutputText(v: Value, stringify: Value -> Outcome<string>): (r: Outcome<string>)
    ensures v.Str? ==> r == Done(v.s)
    ensures !v.Str? ==> r == stringify(v)
  {
    if v.Str? then Done(v.s) else stringify(v)
  }

  /** What a generation ends with: the cleaned page, or the message of the error that stopped it. */
  function Generated(reply: Outcome<Value>, stringify: Value -> Outcome<string>): (r: Outcome<string>)
    ensures reply.Threw? ==> r == Threw(reply.message)
    ensures r.Done? ==> Trimmed(r.value)
    ensures reply.Done? && OutputText(reply.value, stringify).Threw? ==> r == Threw(OutputText(reply.value, stringify).message)
    ensures reply.Done? && OutputText(reply.value, stringify).Done? ==> r == Done(Extract(OutputText(reply.value, stringify).value))
  {
    match reply
    case Threw(m) => Threw(m)
    case Done(v) =>
      match OutputText(v, stringify)
      case Threw(m) => Threw(m)
      case Done(t) => Done(Extract(t))
  }

  /** The line logged once the AI engine has answered. */
  function SynthesisLine(): LogStep {
    LogStep(SynthesisMessage, SuccessStep)
  }

  /** The line a generation ends with: ready, or the error's message. */
  function ClosingLine(outcome: Outcome<string>): (line: LogStep)
    ensures line.kind == ErrorStep <==> outcome.Threw?
  {
    match outcome
    case Done(_) => LogStep(ReadyMessage, SuccessStep)
    case Threw(m) => LogStep(FailurePrefix + m, ErrorStep)
  }

  /** The progress lines written once the AI engine has been asked. */
  function ReplyLogs(reply: Outcome<Value>, stringify: Value -> Outcome<string>): seq<LogStep> {
    (if reply.Done? then [SynthesisLine()] else []) + [ClosingLine(Generated(reply, stringify))]
  }

  /** The progress lines of a generation, from the preamble to success or failure. */
  function GenerationLogs(reply: Outcome<Value>, stringify: Value -> Outcome<string>): seq<LogStep> {
    Preamble() + ReplyLogs(reply, stringify)
  }

  /** The page a generation shows: the cleaned reply, or none after a failure. */
  function PageOf(outcome: Outcome<string>): Option<string> {
    match outcome
    case Done(code) => Some(code)
    case Threw(_) => None
  }

  /** Every generation writes exactly one closing line, an error exactly when no page came out. */
  lemma GenerationLogsShape(reply: Outcome<Value>, stringify: Value -> Outcome<string>)
    ensures var logs := GenerationLogs(reply, stringify);
      |logs| == (if reply.Done? then 5 else 4) &&
      logs[..3] == Preamble() &&
      (logs[|logs| - 1].kind == ErrorStep <==> Generated(reply, stringify).Threw?) &&
      forall k :: 0 <= k < |logs| - 1 ==> logs[k].kind != ErrorStep
  {
    var logs := GenerationLogs(reply, stringify);
    assert logs[..3] == Preamble();
  }

  class WebsiteBuilderPage {
    var description: string
    var style: string
    var loading: bool
    var logs: seq<LogStep>
    /** The page last generated, if any. */
    var generatedCode: Option<string>

    constructor ()
      ensures description == [] && style == DefaultStyle
      ensures !loading && logs == [] && generatedCode == None
    {
      description := [];
      style := DefaultStyle;
      loading := false;
      logs := [];
      generatedCode := None;
    }

    /**
     * `handleGenerate`: refuse an empty description without asking the AI
     * engine; otherwise clear the page, log the preamble, ask, clean the
     * reply and log the outcome, and end with loading off. `asked` says
     * whether the AI engine was called.
     */
    method HandleGenerate(ai: (string, string) -> Outcome<Value>, stringify: Value -> Outcome<string>)
      returns (alert: Option<string>, asked: bool)
      modifies this
      ensures old(description) == [] ==> alert == Some(DescriptionAlert) && !asked && unchanged(this)
      ensures old(description) != [] ==>
        var reply := ai(old(description), old(style));
        alert == None && asked && !loading &&
        description == old(description) && style == old(style) &&
        logs == GenerationLogs(reply, stringify) &&
        generatedCode == PageOf(Generated(reply, stringify))
    {
      if description == [] {
        alert := Some(DescriptionAlert);
        asked := false;
        return;
      }
      alert := None;
      loading := true;
      generatedCode := None;
      logs := Preamble();
      asked := true;
      var reply := ai(description, style);
      RecordReply(reply, stringify);
      loading := false;
    }

    /** The part of `handleGenerate` after the AI engine has answered: log the answer and show the cleaned page. */
    method RecordReply(reply: Outcome<Value>, stringify: Value -> Outcome<string>)
      requires generatedCode == None
      modifies this`logs, this`generatedCode
      ensures logs == old(logs) + ReplyLogs(reply, stringify)
      ensures generatedCode == PageOf(Generated(reply, stringify))
    {
      var outcome: Outcome<string>;
      match reply {
        case Threw(m) =>
          outcome := Threw(m);
        case Done(v) =>
          logs := logs + [SynthesisLine()];
          var output := OutputText(v, stringify);
          match output {
            case Threw(m) =>
              outcome := Threw(m);
            case Done(t) =>
              outcome := Done(Extract(t));
              generatedCode := Some(outcome.value);
          }
      }
      assert outcome == Generated(reply, stringify);
      logs := logs + [ClosingLine(outcome)];
    }
  }
}
