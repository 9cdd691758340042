/**
 * The record shapes shared by the front end and the back end: workflow graph
 * nodes and edges, execution log and result entries, the run status, and the
 * stored agent document.
 */
module AgentTypes {
  import opened Js

  /** The coarse kind of a graph node. */
  datatype NodeKind = Trigger | Action | Condition | Data

  datatype Position = Position(x: int, y: int)

  /** `data` of a node: its label (`text`), kind and any further settings (schedule, recipient, prompt, ...). */
  datatype NodeData = NodeData(text: string, kind: NodeKind, config: map<string, Value>)

  /** A node of a workflow graph; `nodeType` is the refined subtype (scheduleTrigger, sendEmail, ...). */
  datatype AgentNode = AgentNode(id: string, nodeType: string, position: Position, data: NodeData)

  /** A directed edge between two node ids. */
  datatype AgentEdge = AgentEdge(id: string, source: string, target: string)

  datatype LogLevel = Info | Warning | Error | Success

  /** One entry of an execution's log. */
  datatype LogEntry = LogEntry(timestamp: int, level: LogLevel, message: string)

  /** One durable artifact of a run, attributed to a (possibly synthetic) node. */
  datatype ResultEntry<P> = ResultEntry(nodeId: string, nodeType: string, nodeLabel: string, result: P, timestamp: int)

  /** The run status: created running, then completed or failed. */
  datatype Status = Running | Completed | Failed

  /**
   * An agent as the back end stores it. A missing description is held as the
   * empty string. The dispatch rule cannot tell them apart, since both are
   * falsy. The smart executor would render a missing one as "undefined",
   * but the run handler calls it only for a description of more than 20
   * units.
   */
  datatype StoredAgent = StoredAgent(
    id: string,
    userId: string,
    name: string,
    description: string,
    nodes: seq<AgentNode>,
    edges: seq<AgentEdge>)

  /** The number of entries of `logs` at `level`. */
  function CountLevel(logs: seq<LogEntry>, level: LogLevel): nat {
    if logs == [] then 0
    else CountLevel(logs[..|logs| - 1], level) + (if logs[|logs| - 1].level == level then 1 else 0)
  }

  lemma CountLevelOne(entry: LogEntry, level: LogLevel)
    ensures CountLevel([entry], level) == if entry.level == level then 1 else 0
  {
    assert [entry][..0] == [];
  }

  lemma {:induction false} CountLevelAppend(a: seq<LogEntry>, b: seq<LogEntry>, level: LogLevel)
    ensures CountLevel(a + b, level) == CountLevel(a, level) + CountLevel(b, level)
    decreases |b|
  {
    if b == [] {
      assert a + b == a;
    } else {
      assert (a + b)[..|a + b| - 1] == a + b[..|b| - 1];
      CountLevelAppend(a, b[..|b| - 1], level);
    }
  }
}
