/**
 * The in-browser mock of the agent service: a list of agent documents kept
 * under one storage key, which `create` appends to, `getById` searches,
 * `update` rewrites at the first match and `delete` filters.
 *
 * An agent document is a JSON object, a map from field names to values. The
 * list is the field `agents` of a `MockAgentStore` object; loading it from
 * and saving it back to local storage is the reading and the reassigning of
 * that field. Timestamps are parameters.
 */
module AgentStore {
  import opened Text
  import opened Js

  type Document = map<string, Value>

  const AgentNotFoundError := "Agent not found"
  const IdPrefix := "agent_"

  /** `a._id === id || a.id === id`: a missing field is `undefined`, which equals no string. */
  predicate Matches(a: Document, id: string) {
    ("_id" in a && a["_id"] == Str(id)) || ("id" in a && a["id"] == Str(id))
  }

  /** The position of the first document matching `id`, or the length of the list when none does. */
  function IndexOf(agents: seq<Document>, id: string): (k: nat)
    ensures k <= |agents|
    ensures k < |agents| ==> Matches(agents[k], id)
    ensures forall j :: 0 <= j < k ==> !Matches(agents[j], id)
  {
    if agents == [] then 0
    else if Matches(agents[0], id) then 0
    else 1 + IndexOf(agents[1..], id)
  }

  /** The document `create` stores: the given fields, then a fresh `_id` and `createdAt`. */
  function Stamped(data: Document, now: nat, createdAt: string): (a: Document)
    ensures a.Keys == data.Keys + {"_id", "createdAt"}
    ensures a["_id"] == Str(IdPrefix + NatToDecimal(now))
    ensures a["createdAt"] == Str(createdAt)
    ensures forall f :: f in data && f != "_id" && f != "createdAt" ==> a[f] == data[f]
  {
    data + map["_id" := Str(IdPrefix + NatToDecimal(now)), "createdAt" := Str(createdAt)]
  }

  /** The document `update` stores: the old fields, overridden by the new ones, then `updatedAt`. */
  function Merged(old_: Document, data: Document, updatedAt: string): (a: Document)
    ensures a.Keys == old_.Keys + data.Keys + {"updatedAt"}
    ensures a["updatedAt"] == Str(updatedAt)
    ensures forall f :: f in data && f != "updatedAt" ==> a[f] == data[f]
    ensures forall f :: f in old_ && f !in data && f != "updatedAt" ==> a[f] == old_[f]
  {
    old_ + data + map["updatedAt" := Str(updatedAt)]
  }

  /** `agents.filter(a => a._id !== id && a.id !== id)`. */
  function Kept(agents: seq<Document>, id: string): (r: seq<Document>)
    ensures |r| <= |agents|
    ensures forall k :: 0 <= k < |r| ==> !Matches(r[k], id)
  {
    if agents == [] then []
    else
      var last := agents[|agents| - 1];
      Kept(agents[..|agents| - 1], id) + (if Matches(last, id) then [] else [last])
  }

  class MockAgentStore {
    /** The stored list, in insertion order. */
    var agents: seq<Document>

    /** Nothing stored yet: the list reads as empty. */
    constructor ()
      ensures agents == []
    {
      agents := [];
    }

    /** `create`: append one stamped document at the end and return it. */
    method Create(data: Document, now: nat, createdAt: string) returns (agent: Document)
      modifies this
      ensures agent == Stamped(data, now, createdAt)
      ensures agents == old(agents) + [agent]
    {
      agent := Stamped(data, now, createdAt);
      agents := agents + [agent];
    }

    /** `getAll`: the stored list as it is. */
    method GetAll() returns (list: seq<Document>)
      ensures list == agents
    {
      list := agents;
    }

    /** `findIndex`: walk the list from the front until a document matches. */
    method FindIndex(id: string) returns (k: nat)
      ensures k == IndexOf(agents, id)
    {
      k := 0;
      while k < |agents| && !Matches(agents[k], id)
        invariant k <= |agents|
        invariant forall j :: 0 <= j < k ==> !Matches(agents[j], id)
      {
        k := k + 1;
      }
    }

    /** `getById`: the first matching document, or the not-found error. */
    method GetById(id: string) returns (r: Outcome<Document>)
      ensures r.Threw? <==> forall j :: 0 <= j < |agents| ==> !Matches(agents[j], id)
      ensures r.Threw? ==> r.message == AgentNotFoundError
      ensures r.Done? ==> r.value == agents[IndexOf(agents, id)] && Matches(r.value, id)
    {
      var k := FindIndex(id);
      if k == |agents| {
        r := Threw(AgentNotFoundError);
      } else {
        r := Done(agents[k]);
      }
    }

    /**
     * `update`: with no match, throw and leave the list alone; otherwise
     * replace the first match by its merge with the new fields, and return it.
     */
    method Update(id: string, data: Document, updatedAt: string) returns (r: Outcome<Document>)
      modifies this
      ensures r.Threw? <==> forall j :: 0 <= j < |old(agents)| ==> !Matches(old(agents)[j], id)
      ensures r.Threw? ==> r.message == AgentNotFoundError && agents == old(agents)
      ensures r.Done? ==>
        var k := IndexOf(old(agents), id);
        k < |old(agents)| &&
        r.value == Merged(old(agents)[k], data, updatedAt) &&
        agents == old(agents)[k := r.value]
    {
      var k := FindIndex(id);
      if k == |agents| {
        r := Threw(AgentNotFoundError);
      } else {
        var updated := Merged(agents[k], data, updatedAt);
        agents := agents[k := updated];
        r := Done(updated);
      }
    }

    /** `delete`: keep, in order, the documents that do not match; succeed whether or not any did. */
    method Delete(id: string) returns (reply: Value)
      modifies this
      ensures agents == Kept(old(agents), id)
      ensures reply == Object(map["success" := Bool(true)])
    {
      var kept: seq<Document> := [];
      var i := 0;
      while i < |agents|
        invariant i <= |agents|
        invariant kept == Kept(agents[..i], id)
      {
        assert agents[..i + 1][..i] == agents[..i];
        if !Matches(agents[i], id) {
          kept := kept + [agents[i]];
        }
        i := i + 1;
      }
      assert agents[..i] == agents;
      agents := kept;
      reply := Object(map["success" := Bool(true)]);
    }
  }

  /** The kept documents are exactly the non-matching ones. */
  lemma {:induction false} KeptMembers(agents: seq<Document>, id: string, a: Document)
    ensures a in Kept(agents, id) <==> a in agents && !Matches(a, id)
    decreases |agents|
  {
    if agents != [] {
      var init := agents[..|agents| - 1];
      KeptMembers(init, id, a);
      assert agents == init + [agents[|agents| - 1]];
    }
  }

  /** Filtering a concatenation filters each part and keeps them in order. */
  lemma {:induction false} KeptAppend(a: seq<Document>, b: seq<Document>, id: string)
    ensures Kept(a + b, id) == Kept(a, id) + Kept(b, id)
    decreases |b|
  {
    if b == [] {
      assert a + b == a;
    } else {
      var init := b[..|b| - 1];
      var last := b[|b| - 1];
      assert (a + b)[..|a + b| - 1] == a + init;
      KeptAppend(a, init, id);
      AppendAssoc(Kept(a, id), Kept(init, id), if Matches(last, id) then [] else [last]);
    }
  }

  /** Deleting an id nobody carries leaves the list as it was, and only then. */
  lemma {:induction false} KeptAll(agents: seq<Document>, id: string)
    ensures Kept(agents, id) == agents <==> forall j :: 0 <= j < |agents| ==> !Matches(agents[j], id)
    decreases |agents|
  {
    if agents != [] {
      var init := agents[..|agents| - 1];
      var last := agents[|agents| - 1];
      KeptAll(init, id);
      assert agents == init + [last];
      if Matches(last, id) {
        assert |Kept(agents, id)| < |agents|;
      } else if Kept(agents, id) == agents {
        assert Kept(init, id) == init by {
          assert Kept(agents, id)[..|init|] == Kept(init, id);
        }
      }
    }
  }

  /** After a delete, looking the id up fails. */
  lemma DeletedIsGone(agents: seq<Document>, id: string)
    ensures IndexOf(Kept(agents, id), id) == |Kept(agents, id)|
  {
  }

  /** A created agent is found under its own `_id` unless an earlier document already answers to it. */
  lemma CreatedIsFound(agents: seq<Document>, data: Document, now: nat, createdAt: string)
    requires IndexOf(agents, IdPrefix + NatToDecimal(now)) == |agents|
    ensures IndexOf(agents + [Stamped(data, now, createdAt)], IdPrefix + NatToDecimal(now)) == |agents|
  {
    var agent := Stamped(data, now, createdAt);
    var id := IdPrefix + NatToDecimal(now);
    IndexOfAppend(agents, [agent], id);
    assert Matches(agent, id);
  }

  /** A lookup in a concatenation searches the second part only when the first has no match. */
  lemma {:induction false} IndexOfAppend(a: seq<Document>, b: seq<Document>, id: string)
    ensures IndexOf(a + b, id) == if IndexOf(a, id) < |a| then IndexOf(a, id) else |a| + IndexOf(b, id)
    decreases |a|
  {
    if a != [] {
      assert (a + b)[0] == a[0];
      assert (a + b)[1..] == a[1..] + b;
      IndexOfAppend(a[1..], b, id);
    } else {
      assert a + b == b;
    }
  }
}
