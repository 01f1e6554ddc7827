/** The short-term memory helpers of the financial agent (`MemoryInstance` in
    agent_deployment/agent.py): locating the memory resource by name prefix,
    creating it, appending one event per run and reading recent turns back.
    Every memory-client call is an input outcome; what the call was asked is
    recorded as an `Effect`. */
module Memory {
  import opened Wrappers
  import opened Values
  import opened Text
  import opened AgentTypes

  /** The name the memory resource is created with and looked up by. */
  const MemoryName: string := "FinanceAgentMemory"
  /** The fixed session every event is stored under. */
  const SessionId: string := "financial_agent_analysis_session"
  /** Retention of stored events, in days. */
  const EventExpiryDays: nat := 30
  /** How many turns are asked for (both `k` and `max_results`). */
  const RecentTurns: nat := 5
  /** The role the per-run event is stored with. */
  const EventRole: string := "assistant"

  /** `memory.get('id').startswith(MemoryName)` for a record whose id is present. */
  predicate NameMatches(m: MemoryRecord) {
    m.id.Some? && StartsWith(m.id.value, MemoryName)
  }

  /** Index `i` holds the first record of `recs` whose id carries the prefix. */
  predicate IsFirstMatch(recs: seq<MemoryRecord>, i: int) {
    0 <= i < |recs| && NameMatches(recs[i]) && forall j :: 0 <= j < i ==> !NameMatches(recs[j])
  }

  /** Some record lacks an id, so calling `.startswith` on it raises. */
  predicate SomeIdMissing(recs: seq<MemoryRecord>) {
    exists i :: 0 <= i < |recs| && recs[i].id.None?
  }

  /** The list comprehension of `list_memory_instances`: keeps the records whose
      id starts with the memory name, in order; it visits every record, so one
      record without an id makes the whole comprehension raise. */
  function FilterByName(recs: seq<MemoryRecord>): (r: Outcome<seq<MemoryRecord>>)
    ensures r.Raised? <==> SomeIdMissing(recs)
    ensures r.Returned? ==> forall k :: 0 <= k < |r.value| ==> NameMatches(r.value[k]) && r.value[k] in recs
    ensures r.Returned? ==> (|r.value| == 0 <==> forall j :: 0 <= j < |recs| ==> !NameMatches(recs[j]))
    ensures r.Returned? && |r.value| > 0 ==> exists i :: IsFirstMatch(recs, i) && r.value[0] == recs[i]
  {
    if recs == [] then Returned([])
    else if recs[0].id.None? then Raised
    else
      match FilterByName(recs[1..])
      case Raised =>
        assert recs[1..][0] in recs[1..];
        Raised
      case Returned(rest) =>
        assert forall j :: 1 <= j < |recs| ==> recs[j] == recs[1..][j - 1];
        if NameMatches(recs[0]) then
          assert IsFirstMatch(recs, 0);
          Returned([recs[0]] + rest)
        else
          assert !SomeIdMissing(recs);
          assert forall i :: IsFirstMatch(recs[1..], i) ==> IsFirstMatch(recs, i + 1);
          Returned(rest)
  }

  /** `MemoryInstance.list_memory_instances`: the `memoryId` of the first listed
      memory whose id starts with "FinanceAgentMemory", or `None`. */
  function ListMemoryInstances(listed: Outcome<seq<MemoryRecord>>): (r: Outcome<Option<string>>)
    ensures r.Raised? <==> listed.Raised? || SomeIdMissing(listed.value)
    ensures r.Returned? ==>
              (r.value.Some? ==> exists i :: IsFirstMatch(listed.value, i) && listed.value[i].memoryId == r.value)
    ensures r.Returned? && (exists i :: IsFirstMatch(listed.value, i)) ==>
              exists i :: IsFirstMatch(listed.value, i) && listed.value[i].memoryId == r.value
    ensures (listed.Returned? && !SomeIdMissing(listed.value)
             && forall j :: 0 <= j < |listed.value| ==> !NameMatches(listed.value[j])) ==> r == Returned(None)
  {
    match listed
    case Raised => Raised
    case Returned(recs) =>
      match FilterByName(recs)
      case Raised => Raised
      case Returned(matching) =>
        if |matching| > 0 then
          ghost var i :| IsFirstMatch(recs, i) && matching[0] == recs[i];
          FirstMatchUnique(recs, i);
          Returned(matching[0].memoryId)
        else Returned(None)
  }

  /** At most one index is the first match. */
  lemma FirstMatchUnique(recs: seq<MemoryRecord>, i: int)
    requires IsFirstMatch(recs, i)
    ensures forall j :: IsFirstMatch(recs, j) ==> j == i
  {
  }

  /** The outcome of the lookup-or-create step at the top of `MasterAgent.run`. */
  datatype Resolution = Resolution(memoryId: Option<string>, effects: seq<Effect>)

  /** The `CreateMemory` call `create_memory_instance` makes: no strategies and
      a 30-day event expiry. */
  const CreateCall: Effect := CreateMemory(MemoryName, [], EventExpiryDays)

  /** Lookup-or-create: the listing (outside the run's `try`) may raise; a falsy
      lookup result (`None` or "") triggers `create_memory_instance`, whose
      failures all come back as `None`. */
  function ResolveMemory(listed: Outcome<seq<MemoryRecord>>, created: Option<string>): (r: Outcome<Resolution>)
    ensures r.Raised? <==> ListMemoryInstances(listed).Raised?
    ensures r.Returned? ==> |r.value.effects| >= 1 && r.value.effects[0] == ListMemories
    ensures r.Returned? ==>
              (CreateCall in r.value.effects <==> !PyTruthyText(ListMemoryInstances(listed).value))
    ensures r.Returned? && PyTruthyText(ListMemoryInstances(listed).value) ==>
              r.value.memoryId == ListMemoryInstances(listed).value
    ensures r.Returned? && !PyTruthyText(ListMemoryInstances(listed).value) ==> r.value.memoryId == created
  {
    match ListMemoryInstances(listed)
    case Raised => Raised
    case Returned(found) =>
      if PyTruthyText(found) then Returned(Resolution(found, [ListMemories]))
      else Returned(Resolution(created, [ListMemories, CreateCall]))
  }

  /** Once a matching memory with a non-empty id is listed, resolution never
      creates another one and returns that id whatever a creation would give. */
  lemma ResolveIdempotentWhenPresent(listed: Outcome<seq<MemoryRecord>>, c1: Option<string>, c2: Option<string>)
    requires ListMemoryInstances(listed).Returned?
    requires PyTruthyText(ListMemoryInstances(listed).value)
    ensures ResolveMemory(listed, c1) == ResolveMemory(listed, c2)
    ensures ResolveMemory(listed, c1).value.effects == [ListMemories]
  {
  }

  /** The text of the single message `save_data_memory` appends. */
  function EventText(timestamp: string, shareName: Option<string>): string {
    "Interaction At: " + timestamp + " (UTC) \n\n Stock Name: " + PyStr(shareName)
  }

  /** `save_data_memory`: exactly one call appending one "assistant" message
      under the fixed session. Whatever the call does, nothing is returned and
      nothing is raised, so only the call itself is observable. */
  function SaveDataMemory(memoryId: Option<string>, shareName: Option<string>, actor: Option<string>, timestamp: string): (e: Effect)
    ensures e.CreateEvent? && e.memoryId == memoryId && e.actor == actor
    ensures e.session == SessionId && e.role == EventRole
    ensures e.text == EventText(timestamp, shareName)
  {
    CreateEvent(memoryId, actor, SessionId, EventText(timestamp, shareName), EventRole)
  }

  /** The event text is the interaction time followed by the share name,
      printed as Python prints it (`None` for a missing name). */
  lemma EventTextLayout(timestamp: string, shareName: Option<string>)
    ensures StartsWith(EventText(timestamp, shareName), "Interaction At: " + timestamp + " (UTC) \n\n Stock Name: ")
    ensures EndsWith(EventText(timestamp, shareName), PyStr(shareName))
    ensures |EventText(timestamp, shareName)| == |"Interaction At: " + timestamp + " (UTC) \n\n Stock Name: "| + |PyStr(shareName)|
  {
    var head := "Interaction At: " + timestamp + " (UTC) \n\n Stock Name: ";
    assert EventText(timestamp, shareName) == head + PyStr(shareName);
  }

  /** The event names the share: two saves at the same timestamp write the
      same text exactly when the share names print alike. */
  lemma EventNamesShare(memoryId: Option<string>, actor: Option<string>, timestamp: string,
                        a: Option<string>, b: Option<string>)
    ensures SaveDataMemory(memoryId, a, actor, timestamp).text == SaveDataMemory(memoryId, b, actor, timestamp).text
            <==> PyStr(a) == PyStr(b)
  {
    var t1 := SaveDataMemory(memoryId, a, actor, timestamp).text;
    var t2 := SaveDataMemory(memoryId, b, actor, timestamp).text;
    EventTextLayout(timestamp, a);
    EventTextLayout(timestamp, b);
    if t1 == t2 {
      assert PyStr(a) == t1[|t1| - |PyStr(a)|..] == t2[|t2| - |PyStr(b)|..] == PyStr(b);
    }
  }

  /** The label `retrieve_memory` gives the message at 0-based `index` of a turn. */
  function Label(index: nat, content: string): string {
    Decimal(index + 1) + ") " + content
  }

  /** Every message of every turn carries its text. */
  predicate AllContentPresent(turns: seq<seq<Message>>) {
    forall t, j :: 0 <= t < |turns| && 0 <= j < |turns[t]| ==> turns[t][j].content.Some?
  }

  /** Number of messages in a list of turns. */
  function MessageCount(turns: seq<seq<Message>>): nat {
    if turns == [] then 0 else |turns[0]| + MessageCount(turns[1..])
  }

  /** Where message `j` of turn `t` lands once the turns are flattened. */
  function Position(turns: seq<seq<Message>>, t: nat, j: nat): nat
    requires t <= |turns|
  {
    MessageCount(turns[..t]) + j
  }

  /** The labelled messages of one turn, numbered from 1. */
  function LabelTurn(turn: seq<Message>, from: nat): (r: seq<string>)
    requires from <= |turn|
    requires forall j :: 0 <= j < |turn| ==> turn[j].content.Some?
    ensures |r| == |turn| - from
    ensures forall j :: from <= j < |turn| ==> r[j - from] == Label(j, turn[j].content.value)
    decreases |turn| - from
  {
    if from == |turn| then [] else [Label(from, turn[from].content.value)] + LabelTurn(turn, from + 1)
  }

  /** The `context_messages` list: each turn's messages labelled in order. */
  function LabelTurns(turns: seq<seq<Message>>): (r: seq<string>)
    requires AllContentPresent(turns)
    ensures |r| == MessageCount(turns)
  {
    if turns == [] then []
    else
      assert AllContentPresent(turns[1..]) by {
        forall t, j | 0 <= t < |turns[1..]| && 0 <= j < |turns[1..][t]|
          ensures turns[1..][t][j].content.Some?
        {
          assert turns[1..][t] == turns[t + 1];
        }
      }
      LabelTurn(turns[0], 0) + LabelTurns(turns[1..])
  }

  /** Message `j` of turn `t` is the (offset + j)-th label and reads "j+1) text":
      numbering restarts at 1 in every turn. */
  lemma {:induction false} LabelTurnsAt(turns: seq<seq<Message>>, t: nat, j: nat)
    requires AllContentPresent(turns)
    requires t < |turns| && j < |turns[t]|
    ensures Position(turns, t, j) < |LabelTurns(turns)|
    ensures LabelTurns(turns)[Position(turns, t, j)] == Label(j, turns[t][j].content.value)
    decreases t
  {
    var rest := turns[1..];
    assert AllContentPresent(rest) by {
      forall t', j' | 0 <= t' < |rest| && 0 <= j' < |rest[t']|
        ensures rest[t'][j'].content.Some?
      {
        assert rest[t'] == turns[t' + 1];
      }
    }
    if t == 0 {
      assert turns[..0] == [];
    } else {
      LabelTurnsAt(rest, t - 1, j);
      assert rest[t - 1] == turns[t];
      assert turns[..t][1..] == rest[..t - 1];
      assert turns[..t][0] == turns[0];
    }
  }

  /** `LabelTurnsAt` for every message at once. */
  lemma LabelTurnsEverywhere(turns: seq<seq<Message>>)
    requires AllContentPresent(turns)
    ensures forall t, j :: 0 <= t < |turns| && 0 <= j < |turns[t]| ==>
              Position(turns, t, j) < |LabelTurns(turns)|
              && LabelTurns(turns)[Position(turns, t, j)] == Label(j, turns[t][j].content.value)
  {
    forall t, j | 0 <= t < |turns| && 0 <= j < |turns[t]|
      ensures Position(turns, t, j) < |LabelTurns(turns)|
              && LabelTurns(turns)[Position(turns, t, j)] == Label(j, turns[t][j].content.value)
    {
      LabelTurnsAt(turns, t, j);
    }
  }

  /** What `retrieve_memory` returns, with the call it makes (if any). */
  datatype Retrieval = Retrieval(past: Option<seq<string>>, effects: seq<Effect>)

  /** `retrieve_memory(actor, session, memory_id)`: nothing and no call when
      either identifier is falsy; otherwise one call for the last 5 turns, and
      the labelled messages when that call returns a non-empty list. A raising
      call or a message without text yields nothing. The returned Python text is
      "\n\nRecent conversation:\n" followed by `str()` of the labelled list;
      this model returns the list itself. */
  function RetrieveMemory(actor: Option<string>, session: string, memoryId: Option<string>,
                          response: Outcome<seq<seq<Message>>>): (r: Retrieval)
    ensures !PyTruthyText(actor) || session == "" ==> r == Retrieval(None, [])
    ensures PyTruthyText(actor) && session != "" ==>
              r.effects == [GetLastKTurns(memoryId, actor.value, session, RecentTurns, RecentTurns)]
    ensures r.past.Some? ==>
              response.Returned? && |response.value| > 0 && AllContentPresent(response.value)
              && |r.past.value| == MessageCount(response.value)
    ensures r.past.Some? ==>
              forall t, j :: 0 <= t < |response.value| && 0 <= j < |response.value[t]| ==>
                Position(response.value, t, j) < |r.past.value|
                && r.past.value[Position(response.value, t, j)] == Label(j, response.value[t][j].content.value)
    ensures (PyTruthyText(actor) && session != "" && response.Returned? && |response.value| > 0
             && AllContentPresent(response.value)) ==> r.past.Some?
  {
    if !PyTruthyText(actor) || session == "" then Retrieval(None, [])
    else
      var call := [GetLastKTurns(memoryId, actor.value, session, RecentTurns, RecentTurns)];
      match response
      case Raised => Retrieval(None, call)
      case Returned(turns) =>
        if |turns| == 0 || !AllContentPresent(turns) then Retrieval(None, call)
        else
          var labels := LabelTurns(turns);
          LabelTurnsEverywhere(turns);
          Retrieval(Some(labels), call)
  }
}
