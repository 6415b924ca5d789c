/** The agent panel: lifecycle events folded into agents, and model statistics in which every call is counted once. */
module AgentAccounting {

  import opened Text

  /** A stored agent run, with the tokens summed over its usage record. */
  datatype Run = Run(id: string, provider: string, model: string, attempt: int, status: string, tokens: int)

  /** An event with its payload: empty text, zero and None stand for a missing or empty field. */
  datatype Event = Event(
    kind: string, entityType: string, id: string, name: string, role: string, provider: string, model: string,
    phase: string, attempt: int, usage: Option<int>, status: string)

  datatype Item = Item(
    id: string, name: string, role: string, status: string, provider: string, model: string, phase: string,
    attempt: int, usage: Option<int>)

  datatype Waiting = Waiting(id: string, name: string, phase: string)

  datatype Stats = Stats(calls: nat, completed: nat, failed: nat, attempts: int, tokens: int)

  /** One counted call. */
  datatype Call = Call(key: string, status: string, attempts: int, tokens: int)

  // ---------------------------------------------------------------- model statistics

  const NONE := Stats(0, 0, 0, 0, 0)

  predicate Fails(status: string) { status in ["failed", "uncertain", "cancelled"] }

  predicate Completes(status: string) { status == "completed" }

  function Add(s: Stats, c: Call): Stats {
    Stats(s.calls + 1, s.completed + (if Completes(c.status) then 1 else 0), s.failed + (if Fails(c.status) then 1 else 0),
          s.attempts + c.attempts, s.tokens + c.tokens)
  }

  /** What the statistics of one model should be: its calls, one by one. */
  function Tally(calls: seq<Call>, key: string): Stats {
    if calls == [] then NONE
    else
      var front, last := Tally(calls[..|calls| - 1], key), calls[|calls| - 1];
      if last.key == key then Add(front, last) else front
  }

  /** The statistics table: exactly the models that were called, each with its tally. */
  ghost predicate Tabulates(stats: map<string, Stats>, calls: seq<Call>) {
    && stats.Keys == (set c | c in calls :: c.key)
    && forall key :: key in stats ==> stats[key] == Tally(calls, key)
  }

  lemma TallyOfMore(calls: seq<Call>, c: Call, key: string)
    ensures Tally(calls + [c], key) == if c.key == key then Add(Tally(calls, key), c) else Tally(calls, key)
  {
    hide Add;
    assert (calls + [c])[..|calls|] == calls;
  }

  lemma {:induction false} NoCallsNoTally(calls: seq<Call>, key: string)
    requires forall c :: c in calls ==> c.key != key
    ensures Tally(calls, key) == NONE
  {
    hide Add;
    if calls != [] {
      NoCallsNoTally(calls[..|calls| - 1], key);
    }
  }

  /** Recording a call in the table of the calls so far gives the table of one call more. */
  lemma RecordedCall(stats: map<string, Stats>, calls: seq<Call>, c: Call)
    requires Tabulates(stats, calls)
    ensures Tabulates(stats[c.key := Add(if c.key in stats then stats[c.key] else NONE, c)], calls + [c])
  {
    hide Add, Tally;
    if c.key !in stats {
      forall d | d in calls
        ensures d.key != c.key
      {
        assert d.key in stats;
      }
      NoCallsNoTally(calls, c.key);
    }
    var more := stats[c.key := Add(if c.key in stats then stats[c.key] else NONE, c)];
    forall key | key in more
      ensures more[key] == Tally(calls + [c], key)
    {
      TallyOfMore(calls, c, key);
    }
    assert (calls + [c])[|calls|] == c;
    assert more.Keys == (set d | d in calls + [c] :: d.key);
  }

  function SumCalls(keys: seq<string>, stats: map<string, Stats>): nat {
    if keys == [] then 0
    else
      var last := keys[|keys| - 1];
      SumCalls(keys[..|keys| - 1], stats) + if last in stats then stats[last].calls else 0
  }

  function SumTallies(keys: seq<string>, calls: seq<Call>): nat {
    if keys == [] then 0 else SumTallies(keys[..|keys| - 1], calls) + Tally(calls, keys[|keys| - 1]).calls
  }

  lemma {:induction false} OneMoreCall(keys: seq<string>, calls: seq<Call>, c: Call)
    requires Distinct(keys)
    ensures SumTallies(keys, calls + [c]) == SumTallies(keys, calls) + if c.key in keys then 1 else 0
  {
    hide Tally;
    if keys != [] {
      var front, last := keys[..|keys| - 1], keys[|keys| - 1];
      OneMoreCall(front, calls, c);
      TallyOfMore(calls, c, last);
      assert keys == front + [last] && last !in front;
    }
  }

  lemma {:induction false} NothingCalled(keys: seq<string>)
    ensures SumTallies(keys, []) == 0
  {
    if keys != [] {
      NothingCalled(keys[..|keys| - 1]);
    }
  }

  lemma {:induction false} TalliesCountEveryCall(keys: seq<string>, calls: seq<Call>)
    requires Distinct(keys) && forall c :: c in calls ==> c.key in keys
    ensures SumTallies(keys, calls) == |calls|
    decreases |calls|
  {
    hide SumTallies;
    if calls == [] {
      NothingCalled(keys);
    } else {
      var front, last := calls[..|calls| - 1], calls[|calls| - 1];
      assert calls == front + [last];
      TalliesCountEveryCall(keys, front);
      OneMoreCall(keys, front, last);
    }
  }

  lemma {:induction false} SumsAgree(keys: seq<string>, stats: map<string, Stats>, calls: seq<Call>)
    requires Tabulates(stats, calls) && forall k :: k in keys ==> k in stats
    ensures SumCalls(keys, stats) == SumTallies(keys, calls)
  {
    hide Tally;
    if keys != [] {
      SumsAgree(keys[..|keys| - 1], stats, calls);
    }
  }

  /** Conservation: over any listing of the models, the call counts add up to the number of calls. */
  lemma CallsAreConserved(keys: seq<string>, stats: map<string, Stats>, calls: seq<Call>)
    requires Tabulates(stats, calls)
    requires Distinct(keys) && forall k :: k in keys <==> k in stats
    ensures SumCalls(keys, stats) == |calls|
  {
    SumsAgree(keys, stats, calls);
    TalliesCountEveryCall(keys, calls);
  }

  /** No call is both completed and failed, so the two never exceed the calls. */
  lemma {:induction false} OutcomesFitCalls(calls: seq<Call>, key: string)
    ensures Tally(calls, key).completed + Tally(calls, key).failed <= Tally(calls, key).calls
  {
    hide Completes, Fails;
    if calls != [] {
      OutcomesFitCalls(calls[..|calls| - 1], key);
      OneOutcome(calls[|calls| - 1].status);
    }
  }

  lemma OneOutcome(status: string)
    ensures !(Completes(status) && Fails(status))
  {
    assert |"completed"| == 9 && |"cancelled"| == 9;
    assert "completed"[1] == 'o' && "cancelled"[1] == 'a';
    assert |"failed"| == 6 && "uncertain"[0] == 'u' && "completed"[0] == 'c';
  }

  ghost predicate CallOf(c: Call, key: string) { c.key == key }

  ghost predicate CompletedOf(c: Call, key: string) { c.key == key && c.status == "completed" }

  ghost predicate FailedOf(c: Call, key: string) {
    c.key == key && c.status in {"failed", "uncertain", "cancelled"}
  }

  /** Calls, completions and failures are counted under their own model, by the words of the status. */
  lemma {:induction false} TallyCounts(calls: seq<Call>, key: string)
    ensures Tally(calls, key).calls == |set i | 0 <= i < |calls| && CallOf(calls[i], key)|
    ensures Tally(calls, key).completed == |set i | 0 <= i < |calls| && CompletedOf(calls[i], key)|
    ensures Tally(calls, key).failed == |set i | 0 <= i < |calls| && FailedOf(calls[i], key)|
  {
    if calls != [] {
      var front, last := calls[..|calls| - 1], calls[|calls| - 1];
      TallyCounts(front, key);
      OneMoreCounted(set i | 0 <= i < |front| && CallOf(front[i], key),
                     set i | 0 <= i < |calls| && CallOf(calls[i], key), |front|, CallOf(last, key));
      OneMoreCounted(set i | 0 <= i < |front| && CompletedOf(front[i], key),
                     set i | 0 <= i < |calls| && CompletedOf(calls[i], key), |front|, CompletedOf(last, key));
      OneMoreCounted(set i | 0 <= i < |front| && FailedOf(front[i], key),
                     set i | 0 <= i < |calls| && FailedOf(calls[i], key), |front|, FailedOf(last, key));
    }
  }

  lemma OneMoreCounted(before: set<int>, after: set<int>, n: int, more: bool)
    requires forall i: int :: i in after <==> i in before || (i == n && more)
    requires n !in before
    ensures |after| == |before| + (if more then 1 else 0)
  {
    if more {
      assert forall i: int :: i in after <==> i in before + {n};
      assert after == before + {n};
    } else {
      assert forall i: int :: i in after <==> i in before;
      assert after == before;
    }
  }

  /** Attempts and tokens of a call are added to those of its own model and of no other. */
  lemma TallyAdds(calls: seq<Call>, c: Call, key: string)
    ensures Tally([], key).attempts == 0 && Tally([], key).tokens == 0
    ensures Tally(calls + [c], key).attempts == Tally(calls, key).attempts + if c.key == key then c.attempts else 0
    ensures Tally(calls + [c], key).tokens == Tally(calls, key).tokens + if c.key == key then c.tokens else 0
  {
    TallyOfMore(calls, c, key);
  }

  // ---------------------------------------------------------------- folding lifecycle events

  predicate ConcernsAgent(e: Event) { "agent." <= e.kind || Lower(e.entityType) == "agent" }

  function StatusOf(kind: string, current: string): string {
    if kind == "agent.scheduled" || kind == "agent.waiting" then "waiting"
    else if kind == "agent.started" || kind == "agent.running" then "running"
    else if kind == "agent.completed" then "completed"
    else if kind == "agent.failed" then "failed"
    else if kind == "agent.cancelled" then "cancelled"
    else if current == "" then "waiting" else current
  }

  function Or(a: string, b: string): string { if a != "" then a else b }

  /** The entry an agent's first event creates. */
  function FirstItem(e: Event): Item {
    Item(e.id, Or(e.name, Or(e.role, e.id)), Or(e.role, Or(e.name, "specialist")), "waiting", e.provider, e.model,
         e.phase, e.attempt, e.usage)
  }

  /** What every event of the agent does to its entry: given fields replace, missing ones stay. */
  function Updated(i: Item, e: Event): Item {
    Item(i.id, Or(e.name, i.name), Or(e.role, i.role), Or(e.status, StatusOf(e.kind, i.status)), Or(e.provider, i.provider),
         Or(e.model, i.model), Or(e.phase, i.phase), if e.attempt != 0 then e.attempt else i.attempt,
         if e.usage.Some? then e.usage else i.usage)
  }

  /** An agent's entry after its own events, whatever the other agents did. */
  function History(events: seq<Event>, id: string): Option<Item> {
    if events == [] then None
    else
      var before, e := History(events[..|events| - 1], id), events[|events| - 1];
      if !ConcernsAgent(e) || e.id != id then before
      else Some(Updated(if before.Some? then before.value else FirstItem(e), e))
  }

  ghost predicate Folds(order: seq<string>, items: map<string, Item>, events: seq<Event>) {
    && Distinct(order)
    && (forall id :: id in order <==> id in items)
    && (forall id :: id in items <==> History(events, id).Some?)
    && (forall id :: id in items ==> items[id] == History(events, id).value)
  }

  predicate Schedules(e: Event) { e.kind in ["agent.scheduled", "agent.waiting"] }

  /** The stored schedule followed by every agent waiting in the events alone, each once, at its first such event. */
  function WaitingIds(events: seq<Event>, stored: set<string>): seq<string> {
    if events == [] then []
    else
      var before, e := WaitingIds(events[..|events| - 1], stored), events[|events| - 1];
      if ConcernsAgent(e) && Schedules(e) && e.id !in stored && e.id !in before then before + [e.id] else before
  }

  lemma HistoryStep(events: seq<Event>, e: Event, id: string)
    ensures History(events + [e], id)
            == if !ConcernsAgent(e) || e.id != id then History(events, id)
               else Some(Updated(if History(events, id).Some? then History(events, id).value else FirstItem(e), e))
  {
    hide Updated, FirstItem, ConcernsAgent;
    assert (events + [e])[..|events|] == events;
  }

  lemma UnrelatedEvent(order: seq<string>, items: map<string, Item>, events: seq<Event>, e: Event)
    requires Folds(order, items, events) && !ConcernsAgent(e)
    ensures Folds(order, items, events + [e])
  {
    hide History, ConcernsAgent, Distinct;
    forall id
      ensures History(events + [e], id) == History(events, id)
    {
      HistoryStep(events, e, id);
    }
  }

  /** Folding one agent event: a new agent joins at the end, a known one is updated in place. */
  lemma FoldedEvent(order: seq<string>, items: map<string, Item>, events: seq<Event>, e: Event)
    requires Folds(order, items, events) && ConcernsAgent(e)
    ensures var next := Updated(if e.id in items then items[e.id] else FirstItem(e), e);
            Folds(if e.id in items then order else order + [e.id], items[e.id := next], events + [e])
  {
    hide History, ConcernsAgent, Updated, FirstItem;
    forall id
      ensures History(events + [e], id)
              == if e.id != id then History(events, id)
                 else Some(Updated(if id in items then items[id] else FirstItem(e), e))
    {
      HistoryStep(events, e, id);
    }
  }

  // ---------------------------------------------------------------- the panel

  function CallOfRun(r: Run): Call { Call(r.provider + "/" + r.model, r.status, r.attempt, r.tokens) }

  function CallOfItem(i: Item): Call {
    Call(i.provider + "/" + i.model, i.status, if i.attempt > 1 then i.attempt else 1,
         if i.usage.Some? then i.usage.value else 0)
  }

  function RunCalls(runs: seq<Run>): seq<Call> {
    if runs == [] then [] else RunCalls(runs[..|runs| - 1]) + [CallOfRun(runs[|runs| - 1])]
  }

  function StoredIds(runs: seq<Run>): set<string> { set r | r in runs :: r.id }

  /** The agents known only from events, in the order of their first event. */
  function EventOnly(order: seq<string>, items: map<string, Item>, stored: set<string>): seq<Item>
    requires forall id :: id in order ==> id in items
  {
    if order == [] then []
    else
      var last := order[|order| - 1];
      EventOnly(order[..|order| - 1], items, stored) + if last in stored then [] else [items[last]]
  }

  function ItemCalls(items: seq<Item>): seq<Call> {
    if items == [] then []
    else
      var last := items[|items| - 1];
      ItemCalls(items[..|items| - 1]) + if last.model == "" then [] else [CallOfItem(last)]
  }

  predicate HasModel(i: Item) { i.model != "" }

  function CountModels(items: seq<Item>): nat {
    if items == [] then 0 else CountModels(items[..|items| - 1]) + if HasModel(items[|items| - 1]) then 1 else 0
  }

  method FoldEvents(events: seq<Event>, scheduledIds: set<string>)
    returns (order: seq<string>, items: map<string, Item>, waiting: seq<Waiting>)
    ensures Folds(order, items, events)
    ensures |waiting| == |WaitingIds(events, scheduledIds)|
    ensures forall k :: 0 <= k < |waiting| ==> waiting[k].id == WaitingIds(events, scheduledIds)[k]
  {
    hide History, ConcernsAgent, Updated, FirstItem, Folds, Schedules;
    order, items, waiting := [], map[], [];
    var known := scheduledIds;
    NothingFolded();
    for i := 0 to |events|
      invariant Folds(order, items, events[..i])
      invariant |waiting| == |WaitingIds(events[..i], scheduledIds)|
      invariant forall k :: 0 <= k < |waiting| ==> waiting[k].id == WaitingIds(events[..i], scheduledIds)[k]
      invariant known == scheduledIds + set id | id in WaitingIds(events[..i], scheduledIds)
    {
      var event := events[i];
      assert events[..i + 1] == events[..i] + [event];
      assert (events[..i] + [event])[..i] == events[..i];
      if !ConcernsAgent(event) {
        UnrelatedEvent(order, items, events[..i], event);
        continue;
      }
      FoldedEvent(order, items, events[..i], event);
      var current := if event.id in items then items[event.id] else FirstItem(event);
      if event.id !in items {
        order := order + [event.id];
      }
      current := Updated(current, event);
      items := items[event.id := current];
      if Schedules(event) && event.id !in known {
        waiting := waiting + [Waiting(event.id, current.name, current.phase)];
        known := known + {event.id};
      }
    }
    assert events[..|events|] == events;
  }

  lemma NothingFolded()
    ensures Folds([], map[], [])
  {
  }

  method CountRuns(runs: seq<Run>) returns (stats: map<string, Stats>)
    ensures Tabulates(stats, RunCalls(runs))
  {
    hide Add, Tally, CallOfRun, Tabulates;
    stats := map[];
    NothingTabulated();
    for i := 0 to |runs|
      invariant Tabulates(stats, RunCalls(runs[..i]))
    {
      assert runs[..i + 1][..i] == runs[..i];
      var call := CallOfRun(runs[i]);
      RecordedCall(stats, RunCalls(runs[..i]), call);
      stats := stats[call.key := Add(if call.key in stats then stats[call.key] else NONE, call)];
    }
    assert runs[..|runs|] == runs;
  }

  lemma NothingTabulated()
    ensures Tabulates(map[], [])
  {
  }

  method CountEventAgents(agents: seq<Item>, before: map<string, Stats>, ghost calls: seq<Call>)
    returns (stats: map<string, Stats>)
    requires Tabulates(before, calls)
    ensures Tabulates(stats, calls + ItemCalls(agents))
  {
    hide Add, Tally, CallOfItem, Tabulates, ItemCalls;
    stats := before;
    assert calls + ItemCalls(agents[..0]) == calls by { NoItemCalls(); }
    for i := 0 to |agents|
      invariant Tabulates(stats, calls + ItemCalls(agents[..i]))
    {
      ItemCallsStep(agents, i);
      var item := agents[i];
      if item.model != "" {
        var call := CallOfItem(item);
        RecordedCall(stats, calls + ItemCalls(agents[..i]), call);
        assert (calls + ItemCalls(agents[..i])) + [call] == calls + (ItemCalls(agents[..i]) + [call]);
        stats := stats[call.key := Add(if call.key in stats then stats[call.key] else NONE, call)];
      }
    }
    assert agents[..|agents|] == agents;
  }

  lemma NoItemCalls()
    ensures ItemCalls([]) == []
  {
  }

  lemma ItemCallsStep(agents: seq<Item>, i: nat)
    requires i < |agents|
    ensures ItemCalls(agents[..i + 1])
            == if agents[i].model == "" then ItemCalls(agents[..i]) else ItemCalls(agents[..i]) + [CallOfItem(agents[i])]
  {
    hide CallOfItem;
    assert agents[..i + 1][..i] == agents[..i];
  }

  lemma {:induction false} EventOnlyFacts(order: seq<string>, items: map<string, Item>, stored: set<string>)
    requires Distinct(order) && (forall id :: id in order ==> id in items && items[id].id == id)
    ensures var listed := EventOnly(order, items, stored);
            && (forall i :: 0 <= i < |listed| ==> listed[i].id in order && listed[i].id !in stored
                                                  && listed[i] == items[listed[i].id])
            && (forall i, j :: 0 <= i < j < |listed| ==> listed[i].id != listed[j].id)
            && (forall id :: id in order && id !in stored ==> items[id] in listed)
  {
    if order != [] {
      var front, last := order[..|order| - 1], order[|order| - 1];
      EventOnlyFacts(front, items, stored);
      assert order == front + [last] && last !in front;
      var before, listed := EventOnly(front, items, stored), EventOnly(order, items, stored);
      forall id | id in order && id !in stored
        ensures items[id] in listed
      {
        if id == last {
          assert listed[|before|] == items[last];
        } else {
          assert id in front;
        }
      }
    }
  }

  lemma {:induction false} HistoriesKeepTheirId(events: seq<Event>, id: string)
    ensures History(events, id).Some? ==> History(events, id).value.id == id
    ensures History(events, id).Some? <==> exists e :: e in events && ConcernsAgent(e) && e.id == id
  {
    hide ConcernsAgent;
    if events != [] {
      var front, last := events[..|events| - 1], events[|events| - 1];
      assert events == front + [last];
      HistoriesKeepTheirId(front, id);
      if ConcernsAgent(last) && last.id == id {
        assert last in events;
      }
    }
  }

  lemma NoneListed(items: map<string, Item>, stored: set<string>)
    ensures EventOnly([], items, stored) == []
  {
  }

  lemma EventOnlyStep(order: seq<string>, i: nat, items: map<string, Item>, stored: set<string>)
    requires i < |order| && forall id :: id in order ==> id in items
    ensures EventOnly(order[..i + 1], items, stored)
            == EventOnly(order[..i], items, stored) + if order[i] in stored then [] else [items[order[i]]]
  {
    assert order[..i + 1][..i] == order[..i];
  }

  /** Each agent that only events know, once, as its own events left it. */
  ghost predicate ListsEventAgents(listed: seq<Item>, events: seq<Event>, stored: set<string>) {
    && (forall i :: 0 <= i < |listed| ==> listed[i].id !in stored && History(events, listed[i].id) == Some(listed[i]))
    && (forall i, j :: 0 <= i < j < |listed| ==> listed[i].id != listed[j].id)
    && (forall e :: e in events && ConcernsAgent(e) && e.id !in stored ==>
          exists i :: 0 <= i < |listed| && listed[i].id == e.id)
  }

  lemma EventOnlyLists(order: seq<string>, items: map<string, Item>, events: seq<Event>, stored: set<string>)
    requires Folds(order, items, events)
    ensures ListsEventAgents(EventOnly(order, items, stored), events, stored)
  {
    hide History, ConcernsAgent, EventOnly, Distinct;
    forall id
      ensures id in items ==> items[id].id == id
      ensures id in items <==> exists e :: e in events && ConcernsAgent(e) && e.id == id
    {
      HistoriesKeepTheirId(events, id);
    }
    EventOnlyFacts(order, items, stored);
    var listed := EventOnly(order, items, stored);
    forall e | e in events && ConcernsAgent(e) && e.id !in stored
      ensures exists i :: 0 <= i < |listed| && listed[i].id == e.id
    {
      var i :| 0 <= i < |listed| && listed[i] == items[e.id];
      assert listed[i].id == e.id;
    }
  }

  /**
   * The panel lists, once each, exactly the agents that only events know, and its statistics count every stored run
   * and every such agent with a model once, however many events it has.
   */
  method Agents(runs: seq<Run>, scheduledIds: set<string>, events: seq<Event>)
    returns (listed: seq<Item>, waiting: seq<Waiting>, stats: map<string, Stats>)
    ensures ListsEventAgents(listed, events, StoredIds(runs))
    ensures |waiting| == |WaitingIds(events, scheduledIds)|
    ensures forall k :: 0 <= k < |waiting| ==> waiting[k].id == WaitingIds(events, scheduledIds)[k]
    ensures Tabulates(stats, RunCalls(runs) + ItemCalls(listed))
  {
    hide History, ConcernsAgent, Tabulates, ItemCalls, RunCalls, WaitingIds, EventOnly, ListsEventAgents, Distinct;
    var counted := CountRuns(runs);
    var order, items;
    order, items, waiting := FoldEvents(events, scheduledIds);
    var stored := StoredIds(runs);
    listed := [];
    assert EventOnly(order[..0], items, stored) == [] by { NoneListed(items, stored); }
    for i := 0 to |order|
      invariant listed == EventOnly(order[..i], items, stored)
    {
      EventOnlyStep(order, i, items, stored);
      if order[i] !in stored {
        listed := listed + [items[order[i]]];
      }
    }
    assert order[..|order|] == order;
    EventOnlyLists(order, items, events, stored);
    stats := CountEventAgents(listed, counted, RunCalls(runs));
  }

  lemma {:induction false} CallCounts(runs: seq<Run>, items: seq<Item>)
    ensures |RunCalls(runs)| == |runs|
    ensures |ItemCalls(items)| == CountModels(items)
  {
    hide CallOfRun, CallOfItem;
    if runs != [] {
      CallCounts(runs[..|runs| - 1], items);
    } else if items != [] {
      CallCounts(runs, items[..|items| - 1]);
    }
  }

  /** Agent accounting is conserved: the calls of all models are the stored runs plus the event-only agents with a model. */
  lemma AccountingIsConserved(runs: seq<Run>, listed: seq<Item>, stats: map<string, Stats>, models: seq<string>)
    requires Tabulates(stats, RunCalls(runs) + ItemCalls(listed))
    requires Distinct(models) && forall k :: k in models <==> k in stats
    ensures SumCalls(models, stats) == |runs| + CountModels(listed)
    ensures forall k :: k in stats ==> stats[k].completed + stats[k].failed <= stats[k].calls
  {
    hide Tally, ItemCalls, RunCalls, SumCalls, CountModels, Distinct;
    var calls := RunCalls(runs) + ItemCalls(listed);
    CallsAreConserved(models, stats, calls);
    CallCounts(runs, listed);
    forall k | k in stats
      ensures stats[k].completed + stats[k].failed <= stats[k].calls
    {
      OutcomesFitCalls(calls, k);
    }
  }

  // ---------------------------------------------------------------- what an agent's own events say

  /** The event concerns this agent. */
  ghost predicate Mine(e: Event, id: string) { ("agent." <= e.kind || Lower(e.entityType) == "agent") && e.id == id }

  ghost predicate Lifecycle(kind: string) {
    kind in {"agent.scheduled", "agent.waiting", "agent.started", "agent.running", "agent.completed", "agent.failed",
             "agent.cancelled"}
  }

  /** No later event of the agent has the property. */
  ghost predicate LastWith(events: seq<Event>, k: nat, id: string, has: Event -> bool)
    requires k < |events|
  {
    has(events[k]) && forall j :: k < j < |events| && Mine(events[j], id) ==> !has(events[j])
  }

  lemma LastWithFront(events: seq<Event>, k: nat, id: string, has: Event -> bool)
    requires k < |events| - 1 && LastWith(events, k, id, has)
    ensures LastWith(events[..|events| - 1], k, id, has)
    ensures Mine(events[|events| - 1], id) ==> !has(events[|events| - 1])
  {
    hide Mine;
  }

  /** The last event that gives a field decides it. */
  lemma {:induction false} LastGivenStands(events: seq<Event>, k: nat, id: string)
    requires k < |events| && Mine(events[k], id)
    ensures var i, e := History(events, id), events[k];
            && i.Some?
            && (LastWith(events, k, id, (x: Event) => x.name != "") ==> i.value.name == e.name)
            && (LastWith(events, k, id, (x: Event) => x.role != "") ==> i.value.role == e.role)
            && (LastWith(events, k, id, (x: Event) => x.provider != "") ==> i.value.provider == e.provider)
            && (LastWith(events, k, id, (x: Event) => x.model != "") ==> i.value.model == e.model)
            && (LastWith(events, k, id, (x: Event) => x.phase != "") ==> i.value.phase == e.phase)
            && (LastWith(events, k, id, (x: Event) => x.attempt != 0) ==> i.value.attempt == e.attempt)
            && (LastWith(events, k, id, (x: Event) => x.usage.Some?) ==> i.value.usage == e.usage)
  {
    hide StatusOf, FirstItem;
    var front, last := events[..|events| - 1], events[|events| - 1];
    assert events == front + [last];
    if k < |front| {
      assert front[k] == events[k];
      LastGivenStands(front, k, id);
      LastFields(events, k, id);
    }
  }

  lemma LastFields(events: seq<Event>, k: nat, id: string)
    requires k < |events| - 1
    ensures var front, last := events[..|events| - 1], events[|events| - 1];
            && (LastWith(events, k, id, (x: Event) => x.name != "") ==>
                  LastWith(front, k, id, (x: Event) => x.name != "") && (Mine(last, id) ==> last.name == ""))
            && (LastWith(events, k, id, (x: Event) => x.role != "") ==>
                  LastWith(front, k, id, (x: Event) => x.role != "") && (Mine(last, id) ==> last.role == ""))
            && (LastWith(events, k, id, (x: Event) => x.provider != "") ==>
                  LastWith(front, k, id, (x: Event) => x.provider != "") && (Mine(last, id) ==> last.provider == ""))
            && (LastWith(events, k, id, (x: Event) => x.model != "") ==>
                  LastWith(front, k, id, (x: Event) => x.model != "") && (Mine(last, id) ==> last.model == ""))
            && (LastWith(events, k, id, (x: Event) => x.phase != "") ==>
                  LastWith(front, k, id, (x: Event) => x.phase != "") && (Mine(last, id) ==> last.phase == ""))
            && (LastWith(events, k, id, (x: Event) => x.attempt != 0) ==>
                  LastWith(front, k, id, (x: Event) => x.attempt != 0) && (Mine(last, id) ==> last.attempt == 0))
            && (LastWith(events, k, id, (x: Event) => x.usage.Some?) ==>
                  LastWith(front, k, id, (x: Event) => x.usage.Some?) && (Mine(last, id) ==> last.usage.None?))
  {
    hide Mine;
  }

  /** The last event of an agent with a status of its own, or of a lifecycle kind, fixes the agent's status. */
  lemma {:induction false} LastStatusStands(events: seq<Event>, k: nat, id: string)
    requires k < |events| && Mine(events[k], id)
    requires LastWith(events, k, id, (x: Event) => x.status != "" || Lifecycle(x.kind))
    ensures var i, e := History(events, id), events[k];
            && i.Some?
            && (e.status != "" ==> i.value.status == e.status)
            && (e.status == "" && e.kind in {"agent.scheduled", "agent.waiting"} ==> i.value.status == "waiting")
            && (e.status == "" && e.kind in {"agent.started", "agent.running"} ==> i.value.status == "running")
            && forall word :: word in {"completed", "failed", "cancelled"} && e.status == "" && e.kind == "agent." + word ==>
                                i.value.status == word
  {
    hide FirstItem;
    var front, last := events[..|events| - 1], events[|events| - 1];
    assert events == front + [last];
    if k < |front| {
      assert front[k] == events[k];
      LastWithFront(events, k, id, (x: Event) => x.status != "" || Lifecycle(x.kind));
      LastStatusStands(front, k, id);
      if Mine(last, id) {
        QuietKeepsStatus(last, History(front, id).value.status);
      }
    } else {
      KindsName(last.kind, if History(front, id).Some? then History(front, id).value.status else "");
    }
  }

  lemma QuietKeepsStatus(e: Event, status: string)
    requires e.status == "" && !Lifecycle(e.kind)
    ensures StatusOf(e.kind, status) == if status == "" then "waiting" else status
  {
  }

  lemma KindsName(kind: string, status: string)
    ensures kind in {"agent.scheduled", "agent.waiting"} ==> StatusOf(kind, status) == "waiting"
    ensures kind in {"agent.started", "agent.running"} ==> StatusOf(kind, status) == "running"
    ensures forall word :: word in {"completed", "failed", "cancelled"} && kind == "agent." + word ==>
                             StatusOf(kind, status) == word
  {
    assert "agent." + "completed" == "agent.completed" && "agent." + "failed" == "agent.failed"
           && "agent." + "cancelled" == "agent.cancelled";
    assert |"agent.completed"| == 15 && |"agent.failed"| == 12 && |"agent.cancelled"| == 15 && |"agent.running"| == 13
           && |"agent.started"| == 13 && |"agent.waiting"| == 13 && |"agent.scheduled"| == 15;
    assert "agent.scheduled"[6] == 's' && "agent.completed"[6] == 'c' && "agent.cancelled"[7] == 'a'
           && "agent.completed"[7] == 'o';
  }

  /** The calls of a panel: one per stored run, and one per listed agent with a model, each under provider and model. */
  lemma {:induction false} PanelCalls(runs: seq<Run>, items: seq<Item>)
    ensures |RunCalls(runs)| == |runs|
    ensures forall i :: 0 <= i < |runs| ==>
              RunCalls(runs)[i]
              == Call(runs[i].provider + "/" + runs[i].model, runs[i].status, runs[i].attempt, runs[i].tokens)
    ensures forall c :: c in ItemCalls(items) <==>
              exists i :: i in items && i.model != "" && c.key == i.provider + "/" + i.model && c.status == i.status
                          && (i.attempt >= 1 ==> c.attempts == i.attempt) && (i.attempt < 1 ==> c.attempts == 1)
                          && (i.usage.Some? ==> c.tokens == i.usage.value) && (i.usage.None? ==> c.tokens == 0)
  {
    if runs != [] {
      PanelCalls(runs[..|runs| - 1], items);
    } else if items != [] {
      var front, last := items[..|items| - 1], items[|items| - 1];
      PanelCalls(runs, front);
      assert items == front + [last];
    }
  }

  lemma {:induction false} NumbersNeverGiven(events: seq<Event>, id: string)
    requires History(events, id).Some?
    ensures var i := History(events, id).value;
            && ((forall e :: e in events && Mine(e, id) ==> e.attempt == 0) ==> i.attempt == 0)
            && ((forall e :: e in events && Mine(e, id) ==> e.usage.None?) ==> i.usage.None?)
  {
    hide StatusOf;
    var front, last := events[..|events| - 1], events[|events| - 1];
    assert events == front + [last];
    if History(front, id).Some? {
      NumbersNeverGiven(front, id);
    }
  }

  lemma {:induction false} StatusNeverGiven(events: seq<Event>, id: string)
    requires History(events, id).Some?
    ensures (forall e :: e in events && Mine(e, id) ==> e.status == "" && !Lifecycle(e.kind)) ==>
              History(events, id).value.status == "waiting"
  {
    var front, last := events[..|events| - 1], events[|events| - 1];
    assert events == front + [last];
    if History(front, id).Some? {
      StatusNeverGiven(front, id);
    }
  }

  lemma {:induction false} TextsNeverGiven(events: seq<Event>, id: string)
    requires History(events, id).Some?
    ensures var i := History(events, id).value;
            && ((forall e :: e in events && Mine(e, id) ==> e.provider == "") ==> i.provider == "")
            && ((forall e :: e in events && Mine(e, id) ==> e.model == "") ==> i.model == "")
            && ((forall e :: e in events && Mine(e, id) ==> e.phase == "") ==> i.phase == "")
            && ((forall e :: e in events && Mine(e, id) ==> e.name == "" && e.role == "") ==>
                  i.name == id && i.role == "specialist")
  {
    hide StatusOf;
    var front, last := events[..|events| - 1], events[|events| - 1];
    assert events == front + [last];
    if History(front, id).Some? {
      TextsNeverGiven(front, id);
    }
  }

  /** What no event of an agent gives stays at its default. */
  lemma NeverGivenStaysDefault(events: seq<Event>, id: string)
    requires History(events, id).Some?
    ensures var i := History(events, id).value;
            && ((forall e :: e in events && Mine(e, id) ==> e.provider == "") ==> i.provider == "")
            && ((forall e :: e in events && Mine(e, id) ==> e.model == "") ==> i.model == "")
            && ((forall e :: e in events && Mine(e, id) ==> e.phase == "") ==> i.phase == "")
            && ((forall e :: e in events && Mine(e, id) ==> e.attempt == 0) ==> i.attempt == 0)
            && ((forall e :: e in events && Mine(e, id) ==> e.usage.None?) ==> i.usage.None?)
            && ((forall e :: e in events && Mine(e, id) ==> e.name == "" && e.role == "") ==>
                  i.name == id && i.role == "specialist")
            && ((forall e :: e in events && Mine(e, id) ==> e.status == "" && !Lifecycle(e.kind)) ==>
                  i.status == "waiting")
  {
    TextsNeverGiven(events, id);
    NumbersNeverGiven(events, id);
    StatusNeverGiven(events, id);
    hide History, Mine, Lifecycle;
  }

  /** In the waiting list every agent appears once, and exactly those with a scheduling event that no stored action has. */
  lemma {:induction false} WaitingOnce(events: seq<Event>, stored: set<string>)
    ensures Distinct(WaitingIds(events, stored))
    ensures forall id :: id in WaitingIds(events, stored)
                         <==> id !in stored && exists e :: e in events && ConcernsAgent(e) && Schedules(e) && e.id == id
  {
    hide ConcernsAgent, Schedules;
    if events != [] {
      var front, last := events[..|events| - 1], events[|events| - 1];
      assert events == front + [last];
      WaitingOnce(front, stored);
      forall id | id !in stored && exists e :: e in events && ConcernsAgent(e) && Schedules(e) && e.id == id
        ensures id in WaitingIds(events, stored)
      {
        var e :| e in events && ConcernsAgent(e) && Schedules(e) && e.id == id;
        if e in front {
          assert id in WaitingIds(front, stored);
        }
      }
      forall id | id in WaitingIds(events, stored)
        ensures id !in stored && exists e :: e in events && ConcernsAgent(e) && Schedules(e) && e.id == id
      {
        if id in WaitingIds(front, stored) {
          var e :| e in front && ConcernsAgent(e) && Schedules(e) && e.id == id;
          assert e in events;
        } else {
          assert last in events;
        }
      }
    }
  }

  /** The event announces that this agent waits. */
  ghost predicate Announces(e: Event, id: string) { Mine(e, id) && e.kind in {"agent.scheduled", "agent.waiting"} }

  /** Agents wait in the order in which they were first announced. */
  lemma {:induction false} WaitingInOrder(events: seq<Event>, stored: set<string>, i: nat, j: nat)
    requires i < j < |WaitingIds(events, stored)|
    ensures exists k :: 0 <= k < |events| && Announces(events[k], WaitingIds(events, stored)[i])
                        && forall m :: 0 <= m <= k ==> !Announces(events[m], WaitingIds(events, stored)[j])
  {
    hide Announces;
    var front, last := events[..|events| - 1], events[|events| - 1];
    var before, ids := WaitingIds(front, stored), WaitingIds(events, stored);
    assert events == front + [last];
    if j < |before| {
      WaitingInOrder(front, stored, i, j);
      var k :| 0 <= k < |front| && Announces(front[k], before[i])
               && forall m :: 0 <= m <= k ==> !Announces(front[m], before[j]);
      assert Announces(events[k], ids[i]);
      assert forall m :: 0 <= m <= k ==> events[m] == front[m];
    } else {
      FirstAnnounced(front, stored, ids[i]);
      var k :| 0 <= k < |front| && Announces(front[k], ids[i]);
      assert Announces(events[k], ids[i]);
      forall m | 0 <= m <= k
        ensures !Announces(events[m], ids[j])
      {
        assert events[m] == front[m];
        if Announces(front[m], ids[j]) {
          AnnouncedWait(front, stored, m, ids[j]);
        }
      }
    }
  }

  lemma FirstAnnounced(events: seq<Event>, stored: set<string>, id: string)
    requires id in WaitingIds(events, stored)
    ensures exists k :: 0 <= k < |events| && Announces(events[k], id)
  {
    WaitingOnce(events, stored);
    var e :| e in events && ConcernsAgent(e) && Schedules(e) && e.id == id;
    var k :| 0 <= k < |events| && events[k] == e;
    assert Announces(events[k], id);
  }

  lemma AnnouncedWait(events: seq<Event>, stored: set<string>, m: nat, id: string)
    requires m < |events| && Announces(events[m], id) && id !in stored
    ensures id in WaitingIds(events, stored)
  {
    WaitingOnce(events, stored);
    assert events[m] in events && ConcernsAgent(events[m]) && Schedules(events[m]);
  }
}
