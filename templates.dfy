/**
 * The template registry and the gallery that lists it: a constant table of
 * ready-made agents, lookup by id, the category tabs (all templates first,
 * then each category once, in order of first appearance), the filter a tab
 * applies, and the node count a card shows.
 *
 * Icons and colour classes are presentation and are not part of the table.
 */
module Templates {
  import opened Js

  datatype InputKind = TextInput | TextArea | NumberInput | SelectInput | BooleanInput

  /** One entry of a select input's drop-down: the text shown (its `label`) and the value chosen. */
  datatype Choice = Choice(text: string, value: string)

  /**
   * A field a template asks its user to fill in; `text` is its `label`, and
   * an absent `required` reads as false.
   */
  datatype TemplateInput = TemplateInput(
    id: string,
    text: string,
    kind: InputKind,
    placeholder: Option<string>,
    defaultValue: Option<Value>,
    options: Option<seq<Choice>>,
    required: bool)

  datatype Template = Template(
    id: string,
    name: string,
    description: string,
    category: string,
    nodes: Option<nat>,
    apiEndpoint: string,
    inputs: seq<TemplateInput>)

  /** A required free-text field. */
  function Field(id: string, text: string, kind: InputKind, placeholder: Option<string>): TemplateInput {
    TemplateInput(id, text, kind, placeholder, None, None, true)
  }

  const EmailAssistant := Template(
    "email-assistant", "Email Assistant",
    "Auto-categorize and respond to emails with AI-powered replies",
    "Communication", Some(5), "/api/agents/email-assistant/run",
    [ TemplateInput("email_provider", "Email Provider", SelectInput, None, None,
        Some([Choice("Gmail", "gmail"), Choice("Outlook", "outlook")]), true),
      TemplateInput("response_style", "Response Style", SelectInput, None, Some(Str("professional")),
        Some([Choice("Professional", "professional"), Choice("Friendly", "friendly"), Choice("Concise", "concise")]), false) ])

  const MeetingScheduler := Template(
    "meeting-scheduler", "Meeting Scheduler",
    "Automatically schedule meetings based on calendar availability",
    "Productivity", Some(6), "/api/agents/scheduler/run",
    [ Field("calendar_url", "Calendar Link", TextInput, Some("https://cal.com/username")) ])

  const WebScraper := Template(
    "web-scraper", "Web Data Scraper",
    "Extract data from websites and save to spreadsheet",
    "Data Collection", Some(4), "/api/agents/scraper/run",
    [ Field("target_url", "Target URL", TextInput, Some("https://example.com/products")),
      Field("data_points", "Data to Extract", TextArea, Some("Product Name, Price, Rating")) ])

  const NewsSummarizer := Template(
    "news-summarizer", "News Summarizer",
    "Daily news digest with AI-powered summaries",
    "Content", Some(5), "/api/agents/news/run",
    [ Field("topics", "Topics", TextInput, Some("AI, Tech, Finance")) ])

  const YoutubeAnalyzer := Template(
    "youtube-analyzer", "YouTube Analyzer",
    "Summarize videos and extract key insights",
    "Content", Some(4), "/api/agents/youtube/run",
    [ Field("video_url", "YouTube Video URL", TextInput, Some("https://youtube.com/watch?v=...")) ])

  const DataSync := Template(
    "data-sync", "Data Synchronizer",
    "Sync data between databases and spreadsheets",
    "Data Management", Some(7), "/api/agents/sync/run",
    [ Field("source_db", "Source Database", TextInput, None),
      Field("dest_sheet", "Destination Sheet ID", TextInput, None) ])

  const SocialMonitor := Template(
    "social-monitor", "Social Media Monitor",
    "Track mentions and sentiment across platforms",
    "Marketing", Some(6), "/api/agents/social/run",
    [ Field("keywords", "Keywords to Track", TextInput, Some("#AI, @AgentForge")) ])

  const AlertSystem := Template(
    "alert-system", "Alert System",
    "Monitor conditions and send instant notifications",
    "Monitoring", Some(5), "/api/agents/alert/run",
    [ Field("condition", "Alert Condition", TextArea, Some("If stock price > 150")) ])

  /** The registry, in the order the gallery shows it. */
  const Table: seq<Template> :=
    [EmailAssistant, MeetingScheduler, WebScraper, NewsSummarizer, YoutubeAnalyzer, DataSync, SocialMonitor, AlertSystem]

  /** `templates.find(t => t.id === id)`. */
  function FindById(ts: seq<Template>, id: string): (r: Option<Template>)
    ensures r.Some? ==> r.value in ts && r.value.id == id
    ensures r.None? <==> forall k :: 0 <= k < |ts| ==> ts[k].id != id
  {
    if ts == [] then None
    else if ts[0].id == id then Some(ts[0])
    else FindById(ts[1..], id)
  }

  /** `getTemplateById`. */
  function GetTemplateById(id: string): (r: Option<Template>)
    ensures r.Some? ==> r.value in Table && r.value.id == id
    ensures r.None? <==> forall k :: 0 <= k < |Table| ==> Table[k].id != id
  {
    FindById(Table, id)
  }

  predicate DistinctIds(ts: seq<Template>) {
    forall i, j :: 0 <= i < j < |ts| ==> ts[i].id != ts[j].id
  }

  /** The registry's ids are pairwise distinct, so a lookup by id is unambiguous. */
  lemma TableIdsDistinct()
    ensures DistinctIds(Table)
  {
    TableInitials();
    InitialsDistinct();
  }

  lemma InitialsDistinct()
    ensures forall i, j :: 0 <= i < j < |Initials| ==> Initials[i] != Initials[j]
  {
  }

  /** Each table entry is told apart from the others by the first letter of its id. */
  lemma TableInitials()
    ensures |Table| == |Initials|
    ensures forall k :: 0 <= k < |Table| ==> Table[k].id != [] && Table[k].id[0] == Initials[k]
  {
  }

  const Initials := "emwnydsa"

  /** With distinct ids, looking up an entry's id finds that entry. */
  lemma {:induction false} FindByOwnId(ts: seq<Template>, k: nat)
    requires DistinctIds(ts) && k < |ts|
    ensures FindById(ts, ts[k].id) == Some(ts[k])
  {
    if k > 0 {
      assert ts[1..][k - 1] == ts[k];
      FindByOwnId(ts[1..], k - 1);
    }
  }

  /** Every template in the registry is found under its own id, and only it. */
  lemma LookupUnambiguous(k: nat)
    requires k < |Table|
    ensures GetTemplateById(Table[k].id) == Some(Table[k])
  {
    TableIdsDistinct();
    FindByOwnId(Table, k);
  }

  /** A template asks for at least one field, and every drop-down has something to choose. */
  predicate WellFormed(t: Template) {
    (exists k :: 0 <= k < |t.inputs| && t.inputs[k].required) &&
    forall k :: 0 <= k < |t.inputs| && t.inputs[k].kind == SelectInput ==>
      t.inputs[k].options.Some? && t.inputs[k].options.value != []
  }

  lemma TableWellFormed()
    ensures forall k :: 0 <= k < |Table| ==> WellFormed(Table[k])
  {
    FirstInputsRequired();
    SelectsHaveOptions();
  }

  /** Every template's first field is required. */
  lemma FirstInputsRequired()
    ensures forall k :: 0 <= k < |Table| ==> Table[k].inputs != [] && Table[k].inputs[0].required
  {
  }

  /** Only the e-mail assistant has drop-downs, and both offer choices. */
  lemma SelectsHaveOptions()
    ensures forall k, j :: 0 <= k < |Table| && 0 <= j < |Table[k].inputs| && Table[k].inputs[j].kind == SelectInput ==>
      Table[k].inputs[j].options.Some? && Table[k].inputs[j].options.value != []
  {
  }

  /** The tab that shows every template. */
  const AllTab := "All"

  /** The node count a card shows when a template gives none (or zero). */
  const NodesFallback := 5

  /** `Array.from(new Set(xs))`: each element once, in order of first appearance. */
  function Unique(xs: seq<string>): (u: seq<string>)
    ensures |u| <= |xs|
  {
    if xs == [] then []
    else
      var init := xs[..|xs| - 1];
      var last := xs[|xs| - 1];
      if last in Unique(init) then Unique(init) else Unique(init) + [last]
  }

  /** The position of the first occurrence of `x`. */
  function FirstIndex(xs: seq<string>, x: string): (k: nat)
    requires x in xs
    ensures k < |xs| && xs[k] == x
    ensures forall j :: 0 <= j < k ==> xs[j] != x
  {
    if xs[0] == x then 0 else 1 + FirstIndex(xs[1..], x)
  }

  /** Appending leaves the first occurrences of earlier elements where they were. */
  lemma FirstIndexAppend(xs: seq<string>, last: string, x: string)
    requires x in xs
    ensures FirstIndex(xs + [last], x) == FirstIndex(xs, x)
  {
    var k := FirstIndex(xs, x);
    var k' := FirstIndex(xs + [last], x);
    assert (xs + [last])[k] == x;
    assert k' <= k;
    assert xs[k'] == (xs + [last])[k'];
  }

  predicate NoDuplicates(u: seq<string>) {
    forall i, j :: 0 <= i < j < |u| ==> u[i] != u[j]
  }

  /** `Unique` keeps every element of its input, and each only once. */
  lemma {:induction false} UniqueMembers(xs: seq<string>)
    ensures NoDuplicates(Unique(xs))
    ensures forall x :: x in Unique(xs) <==> x in xs
    decreases |xs|
  {
    if xs != [] {
      var init := xs[..|xs| - 1];
      UniqueMembers(init);
      assert xs == init + [xs[|xs| - 1]];
    }
  }

  /** `Unique` lists its elements in the order they first appear. */
  lemma {:induction false} UniqueOrder(xs: seq<string>)
    ensures forall x :: x in Unique(xs) ==> x in xs
    ensures forall i, j :: 0 <= i < j < |Unique(xs)| ==>
      FirstIndex(xs, Unique(xs)[i]) < FirstIndex(xs, Unique(xs)[j])
    decreases |xs|
  {
    if xs != [] {
      var init := xs[..|xs| - 1];
      var last := xs[|xs| - 1];
      UniqueOrder(init);
      UniqueMembers(init);
      assert xs == init + [last];
      var u := Unique(init);
      forall x | x in u
        ensures FirstIndex(xs, x) == FirstIndex(init, x)
      {
        FirstIndexAppend(init, last, x);
      }
      if last !in u {
        assert FirstIndex(xs, last) == |init|;
      }
    }
  }

  /** The category of each template, in table order. */
  function CategoryColumn(ts: seq<Template>): (cs: seq<string>)
    ensures |cs| == |ts| && forall k :: 0 <= k < |ts| ==> cs[k] == ts[k].category
  {
    seq(|ts|, k requires 0 <= k < |ts| => ts[k].category)
  }

  /** `categories`: the all-templates tab, then each category once. */
  function Categories(ts: seq<Template>): (tabs: seq<string>)
    ensures tabs != [] && tabs[0] == AllTab
  {
    [AllTab] + Unique(CategoryColumn(ts))
  }

  /** The templates of one category, in table order. */
  function OfCategory(ts: seq<Template>, c: string): (r: seq<Template>)
    ensures |r| <= |ts|
    ensures forall k :: 0 <= k < |r| ==> r[k].category == c
  {
    if ts == [] then []
    else
      var last := ts[|ts| - 1];
      OfCategory(ts[..|ts| - 1], c) + (if last.category == c then [last] else [])
  }

  /** `filteredTemplates`. */
  function Filtered(ts: seq<Template>, filter: string): (r: seq<Template>)
    ensures filter == AllTab ==> r == ts
    ensures forall t :: t in r <==> t in ts && (filter == AllTab || t.category == filter)
  {
    if filter == AllTab then ts else OfCategoryAll(ts, filter); OfCategory(ts, filter)
  }

  lemma OfCategoryAll(ts: seq<Template>, c: string)
    ensures forall t :: t in OfCategory(ts, c) <==> t in ts && t.category == c
  {
    forall t {
      OfCategoryMembers(ts, c, t);
    }
  }

  /** A category's templates are exactly those of the table in that category. */
  lemma {:induction false} OfCategoryMembers(ts: seq<Template>, c: string, t: Template)
    ensures t in OfCategory(ts, c) <==> t in ts && t.category == c
    decreases |ts|
  {
    if ts != [] {
      OfCategoryMembers(ts[..|ts| - 1], c, t);
      assert ts == ts[..|ts| - 1] + [ts[|ts| - 1]];
    }
  }

  /** Filtering a concatenation filters each part, keeping table order. */
  lemma {:induction false} OfCategoryAppend(a: seq<Template>, b: seq<Template>, c: string)
    ensures OfCategory(a + b, c) == OfCategory(a, c) + OfCategory(b, c)
    decreases |b|
  {
    if b == [] {
      assert a + b == a;
    } else {
      var init := b[..|b| - 1];
      var last := b[|b| - 1];
      assert (a + b)[..|a + b| - 1] == a + init;
      OfCategoryAppend(a, init, c);
      assert OfCategory(a, c) + OfCategory(init, c) + (if last.category == c then [last] else [])
        == OfCategory(a, c) + (OfCategory(init, c) + (if last.category == c then [last] else []));
    }
  }

  /**
   * With at least one template, the "No templates found" state shows exactly
   * for a filter that is not one of the tabs: every tab shows something.
   */
  lemma EmptyStateIff(ts: seq<Template>, filter: string)
    requires ts != []
    ensures Filtered(ts, filter) == [] <==> filter !in Categories(ts)
  {
    UniqueMembers(CategoryColumn(ts));
    if filter != AllTab {
      if filter in CategoryColumn(ts) {
        var k :| 0 <= k < |ts| && CategoryColumn(ts)[k] == filter;
        OfCategoryMembers(ts, filter, ts[k]);
      } else if OfCategory(ts, filter) != [] {
        OfCategoryMembers(ts, filter, OfCategory(ts, filter)[0]);
        assert false;
      }
    }
  }

  /** `template.nodes || 5`. */
  function DisplayedNodes(t: Template): (n: nat)
    ensures n != 0
    ensures t.nodes.Some? && t.nodes.value != 0 ==> n == t.nodes.value
    ensures t.nodes.None? || t.nodes.value == 0 ==> n == NodesFallback
  {
    match t.nodes
    case Some(n) => if n != 0 then n else NodesFallback
    case None => NodesFallback
  }
}
