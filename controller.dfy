/**
 * The decisions the agent HTTP handlers make: which stored agents a request
 * may see (always those of the fixed test user), the 404 guards, the choice
 * between the smart (AI-planned) executor and the workflow executor together
 * with the `mode` the reply reports, the prompt guard of the ad-hoc
 * endpoint, and the `limit` of the executions query.
 *
 * The store is the list of stored agents; a handler's effect on it is the new
 * list it returns. The AI engine is a parameter.
 */
module Controller {
  import opened Text
  import opened Js
  import opened AgentTypes
  import Executor

  /** The owner every query filters by, until authentication exists. */
  const TestUserId := "test-user-123"

  const AgentNotFoundError := "Agent not found"
  const PromptRequiredError := "Prompt is required"
  const AdHocFailedError := "Failed to execute ad-hoc agent"
  const StartedMessage := "Agent execution started"
  const SmartMode := "smart-ai"
  const WorkflowMode := "workflow"
  const RunningStatus := "running"

  /** The limit of the executions query when the request gives none usable. */
  const DefaultLimit := 10

  /** The JSON bodies the handlers reply with. */
  datatype Reply =
    | Failure(code: nat, error: string)
    | Created(document: map<string, Value>)
    | AgentFound(agent: StoredAgent)
    | AgentList(agents: seq<StoredAgent>)
    | AgentDeleted
    | ExecutionStarted(message: string, agentId: string, agentName: string, mode: string, status: string)
    | AdHocSucceeded(output: Value, timestamp: int)

  /** The executor a request to run an agent sets off. */
  datatype Path = SmartPath | WorkflowPath

  /** What `executeAgent` does: its reply, and which executor (if any) it starts. */
  datatype Dispatch = Dispatch(reply: Reply, started: Option<Path>)

  predicate Owns(a: StoredAgent, id: string, userId: string) {
    a.id == id && a.userId == userId
  }

  /**
   * The position of the first agent with that id and owner, or the length
   * of the list when there is none.
   */
  function OwnedIndex(agents: seq<StoredAgent>, id: string, userId: string): (k: nat)
    ensures k <= |agents|
    ensures k < |agents| ==> Owns(agents[k], id, userId)
    ensures forall j :: 0 <= j < k ==> !Owns(agents[j], id, userId)
  {
    if agents == [] then 0
    else if Owns(agents[0], id, userId) then 0
    else 1 + OwnedIndex(agents[1..], id, userId)
  }

  /** `Agent.findOne({ _id: id, userId })`. */
  function FindOwned(agents: seq<StoredAgent>, id: string, userId: string): (r: Option<StoredAgent>)
    ensures r.Some? ==> r.value in agents && Owns(r.value, id, userId)
    ensures r.None? <==> forall k :: 0 <= k < |agents| ==> !Owns(agents[k], id, userId)
  {
    var k := OwnedIndex(agents, id, userId);
    if k < |agents| then Some(agents[k]) else None
  }

  /**
   * `createAgent`: the new document is the request body laid over an owner
   * field, so a `userId` in the body wins over the test user.
   */
  function NewAgentDocument(body: map<string, Value>): (doc: map<string, Value>)
    ensures doc.Keys == body.Keys + {"userId"}
    ensures doc["userId"] == if "userId" in body then body["userId"] else Str(TestUserId)
    ensures forall key :: key in body ==> doc[key] == body[key]
  {
    map["userId" := Str(TestUserId)] + body
  }

  /** `getAgents`: the agents of the test user, in stored order. */
  function GetAgents(agents: seq<StoredAgent>): (r: seq<StoredAgent>)
    ensures forall a :: a in r <==> a in agents && a.userId == TestUserId
    ensures |r| <= |agents|
  {
    if agents == [] then []
    else (if agents[0].userId == TestUserId then [agents[0]] else []) + GetAgents(agents[1..])
  }

  /** `getAgent`: the agent if the test user owns one with that id, else 404. */
  function GetAgent(agents: seq<StoredAgent>, id: string): (r: Reply)
    ensures r.Failure? <==> FindOwned(agents, id, TestUserId).None?
    ensures r.Failure? ==> r == Failure(404, AgentNotFoundError)
    ensures r.AgentFound? ==> r.agent in agents && Owns(r.agent, id, TestUserId)
  {
    match FindOwned(agents, id, TestUserId)
    case None => Failure(404, AgentNotFoundError)
    case Some(a) => AgentFound(a)
  }

  /**
   * `updateAgent`: the first agent of the test user with that id is replaced
   * by `apply` of it (the request body laid over it) and returned; with no
   * such agent the reply is 404 and the store is left as it was.
   */
  function UpdateAgent(agents: seq<StoredAgent>, id: string, apply: StoredAgent -> StoredAgent): (r: (seq<StoredAgent>, Reply))
    ensures FindOwned(agents, id, TestUserId).None? ==> r == (agents, Failure(404, AgentNotFoundError))
    ensures FindOwned(agents, id, TestUserId).Some? ==>
      var k := OwnedIndex(agents, id, TestUserId);
      && |r.0| == |agents|
      && r.0[k] == apply(agents[k])
      && (forall j :: 0 <= j < |agents| && j != k ==> r.0[j] == agents[j])
      && r.1 == AgentFound(apply(agents[k]))
  {
    var k := OwnedIndex(agents, id, TestUserId);
    if k == |agents| then (agents, Failure(404, AgentNotFoundError))
    else (agents[k := apply(agents[k])], AgentFound(apply(agents[k])))
  }

  /**
   * `deleteAgent`: the first agent of the test user with that id is removed,
   * the others keep their order; with no such agent the reply is 404 and the
   * store is left as it was.
   */
  function DeleteAgent(agents: seq<StoredAgent>, id: string): (r: (seq<StoredAgent>, Reply))
    ensures FindOwned(agents, id, TestUserId).None? ==> r == (agents, Failure(404, AgentNotFoundError))
    ensures FindOwned(agents, id, TestUserId).Some? ==>
      var k := OwnedIndex(agents, id, TestUserId);
      && r.0 == agents[..k] + agents[k + 1..]
      && r.1 == AgentDeleted
  {
    var k := OwnedIndex(agents, id, TestUserId);
    if k == |agents| then (agents, Failure(404, AgentNotFoundError))
    else (agents[..k] + agents[k + 1..], AgentDeleted)
  }

  /** The dispatch rule: a description is a task for the AI when it is non-empty and longer than 20 UTF-16 units. */
  predicate TakesSmartPath(description: string): (b: bool)
    ensures |description| > 20 ==> b
    ensures b ==> |description| > 10
  {
    description != [] && Utf16Length(description) > 20
  }

  /**
   * `executeAgent`: 404 before anything starts when the test user owns no
   * such agent; otherwise one of the two executors is set off (without
   * waiting for it) and the reply reports which one, always as running.
   */
  function ExecuteAgent(agents: seq<StoredAgent>, agentId: string): (d: Dispatch)
    ensures d.started.None? <==> FindOwned(agents, agentId, TestUserId).None?
    ensures d.started.None? ==> d.reply == Failure(404, AgentNotFoundError)
    ensures d.started.Some? ==>
      var agent := FindOwned(agents, agentId, TestUserId).value;
      && (d.started.value == SmartPath <==> TakesSmartPath(agent.description))
      && d.reply.ExecutionStarted?
      && d.reply.agentId == agentId && d.reply.agentName == agent.name
      && (d.reply.mode == SmartMode <==> d.started.value == SmartPath)
      && d.reply.status == RunningStatus
      && d.reply.message == StartedMessage
      && (d.started.value == WorkflowPath ==> d.reply.mode == WorkflowMode)
  {
    match FindOwned(agents, agentId, TestUserId)
    case None => Dispatch(Failure(404, AgentNotFoundError), None)
    case Some(agent) =>
      var path := if TakesSmartPath(agent.description) then SmartPath else WorkflowPath;
      var mode := if TakesSmartPath(agent.description) then SmartMode else WorkflowMode;
      Dispatch(ExecutionStarted(StartedMessage, agentId, agent.name, mode, RunningStatus), Some(path))
  }

  /**
   * Where the threshold lies: more than 20 characters always take the smart
   * path, at most 10 never do, and exactly 20 UTF-16 units (or none) take
   * the workflow path.
   */
  lemma SmartThreshold(description: string)
    ensures |description| > 20 ==> TakesSmartPath(description)
    ensures |description| <= 10 ==> !TakesSmartPath(description)
    ensures Utf16Length(description) == 20 ==> !TakesSmartPath(description)
    ensures description == [] ==> !TakesSmartPath(description)
  {
  }

  /** Eleven characters outside the basic plane are 22 UTF-16 units: such a description is already a task for the AI. */
  lemma {:induction false} AstralCharsCountTwice(description: string)
    requires forall k :: 0 <= k < |description| ==> description[k] as int >= 0x1_0000
    ensures Utf16Length(description) == 2 * |description|
    decreases |description|
  {
    if description != [] {
      AstralCharsCountTwice(description[..|description| - 1]);
    }
  }

  /**
   * The smart executor looks the agent up again by id alone; whenever the
   * handler starts it, that lookup succeeds on the same store, so the
   * executor's own "Agent not found" cannot follow a started reply.
   */
  lemma SmartRunFindsAgent(agents: seq<StoredAgent>, agentId: string)
    requires ExecuteAgent(agents, agentId).started == Some(SmartPath)
    ensures Executor.FindAgentById(agents, agentId).Some?
  {
    var k := OwnedIndex(agents, agentId, TestUserId);
    assert agents[k].id == agentId;
  }

  /** Agents of other users are invisible: every handler answers 404 and leaves the store alone. */
  lemma ForeignAgentIsNotFound(agents: seq<StoredAgent>, id: string, apply: StoredAgent -> StoredAgent)
    requires forall k :: 0 <= k < |agents| && agents[k].id == id ==> agents[k].userId != TestUserId
    ensures GetAgent(agents, id) == Failure(404, AgentNotFoundError)
    ensures UpdateAgent(agents, id, apply) == (agents, Failure(404, AgentNotFoundError))
    ensures DeleteAgent(agents, id) == (agents, Failure(404, AgentNotFoundError))
    ensures ExecuteAgent(agents, id) == Dispatch(Failure(404, AgentNotFoundError), None)
  {
    assert FindOwned(agents, id, TestUserId).None?;
  }

  /**
   * `executeAdHocAgent`: a falsy prompt is refused with 400; otherwise the
   * AI engine's answer is returned, and its failure becomes a 500 carrying
   * the error's message (or a generic one).
   */
  function ExecuteAdHoc(prompt: Value, ai: Value -> Outcome<Value>, now: int): (r: Reply)
    ensures r == Failure(400, PromptRequiredError) <==> !Truthy(prompt)
    ensures r.Failure? ==> r.error != []
    ensures r.AdHocSucceeded? <==> Truthy(prompt) && ai(prompt).Done?
    ensures r.AdHocSucceeded? ==> r.output == ai(prompt).value && r.timestamp == now
    ensures Truthy(prompt) && ai(prompt).Threw? ==>
      r == Failure(500, if ai(prompt).message != [] then ai(prompt).message else AdHocFailedError)
  {
    if !Truthy(prompt) then Failure(400, PromptRequiredError)
    else
      match ai(prompt)
      case Done(output) => AdHocSucceeded(output, now)
      case Threw(m) => Failure(500, if m != [] then m else AdHocFailedError)
  }

  /** A refused prompt never reaches the AI engine: the reply is the same whatever the engine would do. */
  lemma RefusedPromptMakesNoCall(prompt: Value, ai1: Value -> Outcome<Value>, ai2: Value -> Outcome<Value>, now: int)
    requires !Truthy(prompt)
    ensures ExecuteAdHoc(prompt, ai1, now) == ExecuteAdHoc(prompt, ai2, now)
  {
  }

  /**
   * `parseInt(req.query.limit) || 10`: a missing parameter reads as the text
   * "undefined"; NaN and 0 are falsy, so both fall back to 10.
   */
  function ExecutionsLimit(query: Option<string>): (limit: int)
    ensures limit != 0
    ensures limit != DefaultLimit ==> ParseInt(query.GetOr("undefined")) == Some(limit)
    ensures ParseInt(query.GetOr("undefined")) in {None, Some(0)} ==> limit == DefaultLimit
    ensures ParseInt(query.GetOr("undefined")).Some? && ParseInt(query.GetOr("undefined")).value != 0 ==>
      limit == ParseInt(query.GetOr("undefined")).value
  {
    match ParseInt(query.GetOr("undefined"))
    case None => DefaultLimit
    case Some(n) => if n == 0 then DefaultLimit else n
  }

  /** Leading white space before the number is skipped. */
  lemma LimitAfterSpace()
    ensures ExecutionsLimit(Some(" 7")) == 7
  {
    var s := " 7";
    assert LeadingSpaces(s) == 1 by {
      assert IsSpace(s[0]);
      assert s[1..] == "7";
      assert !IsSpace(s[1]);
    }
    assert TrimStart(s) == "7";
    SevenReads();
  }

  /** A leading plus sign is read and dropped. */
  lemma LimitAfterPlus()
    ensures ExecutionsLimit(Some("+7")) == 7
  {
    TrimStartNonSpace("+7");
    assert "+7"[1..] == "7";
    SevenReads();
  }

  /** A leading minus sign gives a negative limit, which is truthy and so used. */
  lemma LimitNegative()
    ensures ExecutionsLimit(Some("-5")) == -5
  {
    TrimStartNonSpace("-5");
    assert "-5"[1..] == "5";
    assert ParseMagnitude("5") == Some(5) by {
      assert DigitPrefix("5", 10) == "5" by {
        assert "5"[1..] == [];
      }
      assert "5"[..0] == [];
    }
  }

  /** A "0x" prefix selects base 16. */
  lemma LimitOfHex()
    ensures ExecutionsLimit(Some("0x1f")) == 31
  {
    TrimStartNonSpace("0x1f");
    assert HexPrefixed("0x1f");
    assert "0x1f"[2..] == "1f";
    assert DigitPrefix("1f", 16) == "1f" by {
      assert "1f"[1..] == "f";
      assert "f"[1..] == [];
    }
    assert DigitsValue("1f", 16) == 31 by {
      assert "1f"[..1] == "1";
      assert "1"[..0] == [];
    }
  }

  /** Digits are read up to the first character that is not one. */
  lemma LimitIgnoresTrailingText()
    ensures ExecutionsLimit(Some("7abc")) == 7
  {
    TrimStartNonSpace("7abc");
    assert !HexPrefixed("7abc");
    assert DigitPrefix("7abc", 10) == "7" by {
      assert "7abc"[1..] == "abc";
      assert DigitValue('a', 10).None?;
    }
    assert "7"[..0] == [];
  }

  lemma SevenReads()
    ensures ParseMagnitude("7") == Some(7)
  {
    assert DigitPrefix("7", 10) == "7" by {
      assert "7"[1..] == [];
    }
    assert "7"[..0] == [];
  }

  /** The limit given as a decimal number is used as it is, except 0, which means the default. */
  lemma LimitOfDecimal(n: nat)
    ensures ExecutionsLimit(Some(NatToDecimal(n))) == if n == 0 then DefaultLimit else n
  {
    ParseIntDecimal(n);
  }

  /** No parameter, an empty one, or one that is not a number: the default. */
  lemma LimitDefaults()
    ensures ExecutionsLimit(None) == DefaultLimit
    ensures ExecutionsLimit(Some("")) == DefaultLimit
    ensures ExecutionsLimit(Some("all")) == DefaultLimit
  {
    ParseIntOfWord("undefined");
    ParseIntOfWord("all");
  }

  /** Text that starts with a lower-case letter is not a number. */
  lemma ParseIntOfWord(s: string)
    requires s != [] && 'a' <= s[0] <= 'z'
    ensures ParseInt(s) == None
  {
    TrimStartNonSpace(s);
    assert !HexPrefixed(s);
    assert DigitValue(s[0], 10).None?;
  }
}
