/** core/orchestrator.py: the agents run at once on copies of the state, and their results are merged
    into it one after the other. */
module FanOut {
  import opened RedisStore

  type Outputs = map<string, string>

  /** What an agent does with its copy: store entries and note errors, raise, or return something that
      is not a state. */
  datatype Behaviour =
    | Writes(own: Outputs, errors: seq<string>)
    | Raises(text: string)
    | Strays

  datatype Agent = Agent(name: string, behaviour: Behaviour)

  /** What gather collects: a whole state copy, or an exception */
  datatype Reply = Copy(outputs: Outputs, errors: seq<string>) | Exception(text: string) | NotAState

  function ReplyOf(a: Agent, outputs: Outputs, errors: seq<string>): Reply {
    match a.behaviour
    case Writes(own, noted) => Copy(outputs + own, errors + noted)
    case Raises(text) => Exception(text)
    case Strays => NotAState
  }

  function Lookup(m: Outputs, k: string): Option<string> {
    if k in m then Some(m[k]) else None
  }

  /** The value of one key after the merge: the last agent that returned a copy decides, with what it
      wrote or else with what the copy started from. */
  function FinalValue(start: Outputs, agents: seq<Agent>, k: string): Option<string> {
    if agents == [] then Lookup(start, k)
    else
      var last := agents[|agents| - 1].behaviour;
      if last.Writes? && k in last.own then Some(last.own[k])
      else if last.Writes? && k in start then Some(start[k])
      else FinalValue(start, agents[..|agents| - 1], k)
  }

  function ErrorsOf(a: Agent, start: seq<string>): seq<string> {
    match a.behaviour
    case Writes(_, noted) => start + noted
    case Raises(text) => [a.name + " failed: " + text]
    case Strays => []
  }

  function AllErrors(start: seq<string>, agents: seq<Agent>): seq<string> {
    if agents == [] then [] else AllErrors(start, agents[..|agents| - 1]) + ErrorsOf(agents[|agents| - 1], start)
  }

  function Overlaid(outputs: Outputs, r: Reply): Outputs {
    if r.Copy? then outputs + r.outputs else outputs
  }

  function Noted(name: string, r: Reply): seq<string> {
    match r
    case Copy(_, noted) => noted
    case Exception(text) => [name + " failed: " + text]
    case NotAState => []
  }

  ghost predicate Merges(merged: Outputs, start: Outputs, agents: seq<Agent>) {
    forall k :: Lookup(merged, k) == FinalValue(start, agents, k)
  }

  /** The merge so far, after the first `i` replies */
  ghost predicate Progress(outputs: Outputs, errors: seq<string>, outputs0: Outputs, errors0: seq<string>,
      agents: seq<Agent>, i: nat)
    requires i <= |agents|
  {
    Merges(outputs, outputs0, agents[..i]) && errors == errors0 + AllErrors(errors0, agents[..i])
  }

  lemma {:induction false} MergeStep(start: Outputs, errors: seq<string>, before: seq<Agent>, last: Agent,
      merged: Outputs)
    requires Merges(merged, start, before)
    ensures Merges(Overlaid(merged, ReplyOf(last, start, errors)), start, before + [last])
  {
    assert (before + [last])[..|before|] == before;
  }

  lemma {:induction false} ErrorsStep(start: seq<string>, before: seq<Agent>, last: Agent)
    ensures AllErrors(start, before + [last]) == AllErrors(start, before) + ErrorsOf(last, start)
  {
    assert (before + [last])[..|before|] == before;
  }

  lemma {:induction false} ReplyStep(outputs: Outputs, errors: seq<string>, outputs0: Outputs, errors0: seq<string>,
      agents: seq<Agent>, i: nat, r: Reply)
    requires i < |agents| && r == ReplyOf(agents[i], outputs0, errors0)
    requires Progress(outputs, errors, outputs0, errors0, agents, i)
    ensures Progress(Overlaid(outputs, r), errors + Noted(agents[i].name, r), outputs0, errors0, agents, i + 1)
  {
    var before, last := agents[..i], agents[i];
    MergeStep(outputs0, errors0, before, last, outputs);
    ErrorsStep(errors0, before, last);
    assert agents[..i + 1] == before + [last];
    assert Noted(last.name, r) == ErrorsOf(last, errors0);
    Regroup(errors0, AllErrors(errors0, before), ErrorsOf(last, errors0));
  }

  lemma Regroup(a: seq<string>, b: seq<string>, c: seq<string>)
    ensures a + b + c == a + (b + c)
  {
  }

  class UniversalState {
    var agentOutputs: Outputs
    var errors: seq<string>

    constructor ()
      ensures agentOutputs == map[] && errors == []
    {
      agentOutputs, errors := map[], [];
    }

    method RunParallel(agents: seq<Agent>)
      modifies this
      ensures Merges(agentOutputs, old(agentOutputs), agents)
      ensures errors == old(errors) + AllErrors(old(errors), agents)
    {
      var outputs0, errors0 := agentOutputs, errors;
      var results := seq(|agents|, i requires 0 <= i < |agents| => ReplyOf(agents[i], outputs0, errors0));
      var i := 0;
      while i < |agents|
        invariant 0 <= i <= |agents|
        invariant Progress(agentOutputs, errors, outputs0, errors0, agents, i)
      {
        var r := results[i];
        ReplyStep(agentOutputs, errors, outputs0, errors0, agents, i, r);
        if r.Exception? {
          errors := errors + [agents[i].name + " failed: " + r.text];
        } else if r.Copy? {
          agentOutputs := agentOutputs + r.outputs;
          errors := errors + r.errors;
        } else {
          assert errors + [] == errors;
        }
        i := i + 1;
      }
      assert agents[..|agents|] == agents;
    }
  }

  // ---- What is noted ----

  /** The errors come in the order of the agents, and each agent gives its own: those of the state and the
      ones it noted, one line when it raised, and none when it returned no state. */
  lemma {:induction false} ErrorsInOrder(start: seq<string>, a: seq<Agent>, b: seq<Agent>)
    ensures AllErrors(start, a + b) == AllErrors(start, a) + AllErrors(start, b)
    decreases |b|
  {
    if b == [] {
      NothingMore(start, a);
    } else {
      var before, last := b[..|b| - 1], b[|b| - 1];
      assert b == before + [last];
      ErrorsInOrder(start, a, before);
      OneMoreInOrder(start, a, before, last);
    }
  }

  lemma NothingMore(start: seq<string>, a: seq<Agent>)
    ensures AllErrors(start, a + []) == AllErrors(start, a) + AllErrors(start, [])
  {
    assert a + [] == a && AllErrors(start, a) + [] == AllErrors(start, a);
  }

  lemma {:induction false} OneMoreInOrder(start: seq<string>, a: seq<Agent>, before: seq<Agent>, last: Agent)
    requires AllErrors(start, a + before) == AllErrors(start, a) + AllErrors(start, before)
    ensures AllErrors(start, a + (before + [last])) == AllErrors(start, a) + AllErrors(start, before + [last])
  {
    assert a + (before + [last]) == a + before + [last];
    ErrorsStep(start, a + before, last);
    ErrorsStep(start, before, last);
    Regroup(AllErrors(start, a), AllErrors(start, before), ErrorsOf(last, start));
  }

  lemma ErrorsOfOne(start: seq<string>, name: string, own: Outputs, noted: seq<string>, text: string)
    ensures AllErrors(start, [Agent(name, Writes(own, noted))]) == start + noted
    ensures AllErrors(start, [Agent(name, Raises(text))]) == [name + " failed: " + text]
    ensures AllErrors(start, [Agent(name, Strays)]) == []
  {
    ErrorsStep(start, [], Agent(name, Writes(own, noted)));
    ErrorsStep(start, [], Agent(name, Raises(text)));
    ErrorsStep(start, [], Agent(name, Strays));
    assert [] + (start + noted) == start + noted;
  }

  // ---- From a fresh state ----

  /** Different agents write different keys. */
  ghost predicate Disjoint(agents: seq<Agent>) {
    forall a, b | a in agents && b in agents && a != b && a.behaviour.Writes? && b.behaviour.Writes? ::
      a.behaviour.own.Keys !! b.behaviour.own.Keys
  }

  ghost predicate Wrote(a: Agent, k: string, v: string) {
    a.behaviour.Writes? && k in a.behaviour.own && a.behaviour.own[k] == v
  }

  /** From a state without outputs, agents that write different keys lose nothing to each other: the
      merge holds exactly what some agent that did not raise has written. */
  lemma {:induction false} MergeIsUnion(agents: seq<Agent>, k: string, v: string)
    requires Disjoint(agents)
    ensures FinalValue(map[], agents, k) == Some(v) <==> exists a :: a in agents && Wrote(a, k, v)
  {
    if agents == [] {
    } else {
      var before, last := agents[..|agents| - 1], agents[|agents| - 1];
      MergeIsUnion(before, k, v);
      assert forall a :: a in agents <==> a in before || a == last;
      if a :| a in before && Wrote(a, k, v) {
        assert a in agents && last in agents;
        assert a != last && last.behaviour.Writes? ==> k !in last.behaviour.own;
      } else if FinalValue(map[], agents, k) == Some(v) {
        assert Wrote(last, k, v);
      }
    }
  }

  function Without(agents: seq<Agent>, i: nat): seq<Agent>
    requires i < |agents|
  {
    agents[..i] + agents[i + 1..]
  }

  /** How often one agent's reply notes it */
  function Share(a: Agent, start: seq<string>, e: string): nat {
    match a.behaviour
    case Writes(_, noted) => multiset(start)[e] + multiset(noted)[e]
    case Raises(text) => if e == a.name + " failed: " + text then 1 else 0
    case Strays => 0
  }

  lemma ShareCounts(a: Agent, start: seq<string>, e: string)
    ensures multiset(ErrorsOf(a, start))[e] == Share(a, start, e)
  {
    if a.behaviour.Writes? {
      assert multiset(start + a.behaviour.errors) == multiset(start) + multiset(a.behaviour.errors);
    }
  }

  ghost function BagOf(start: seq<string>, agents: seq<Agent>): multiset<string> {
    multiset(AllErrors(start, agents))
  }

  /** How often an error is noted */
  function Times(start: seq<string>, agents: seq<Agent>, e: string): nat {
    if agents == [] then 0
    else Times(start, agents[..|agents| - 1], e) + Share(agents[|agents| - 1], start, e)
  }

  lemma {:induction false} TimesCounts(start: seq<string>, agents: seq<Agent>, e: string)
    ensures multiset(AllErrors(start, agents))[e] == Times(start, agents, e)
  {
    if agents == [] {
    } else {
      var before, last := AllErrors(start, agents[..|agents| - 1]), ErrorsOf(agents[|agents| - 1], start);
      TimesCounts(start, agents[..|agents| - 1], e);
      ShareCounts(agents[|agents| - 1], start, e);
      assert multiset(before + last) == multiset(before) + multiset(last);
    }
  }

  lemma {:induction false} TimesLast(start: seq<string>, before: seq<Agent>, last: Agent, e: string)
    ensures Times(start, before + [last], e) == Times(start, before, e) + Share(last, start, e)
  {
    assert (before + [last])[..|before|] == before;
  }

  lemma WithoutEnd(before: seq<Agent>, last: Agent)
    ensures Without(before + [last], |before|) == before
  {
  }

  lemma WithoutLast(before: seq<Agent>, last: Agent, i: nat)
    requires i < |before|
    ensures Without(before + [last], i) == Without(before, i) + [last]
  {
  }

  /** Leaving out one agent removes its errors and no others. */
  lemma {:induction false} TimesWithout(start: seq<string>, agents: seq<Agent>, i: nat, e: string)
    requires i < |agents|
    ensures Times(start, agents, e) == Times(start, Without(agents, i), e) + Share(agents[i], start, e)
    decreases |agents|
  {
    var before, last := agents[..|agents| - 1], agents[|agents| - 1];
    assert agents == before + [last];
    TimesLast(start, before, last, e);
    if i == |before| {
      WithoutEnd(before, last);
    } else {
      TimesWithout(start, before, i, e);
      WithoutLast(before, last, i);
      TimesLast(start, Without(before, i), last, e);
    }
  }

  /** An agent that raises adds one error, and disturbs no output and no other error. */
  lemma {:induction false} RaisingAgentIsIsolated(outputs: Outputs, errors: seq<string>, agents: seq<Agent>, i: nat,
      k: string)
    requires i < |agents| && agents[i].behaviour.Raises?
    ensures FinalValue(outputs, agents, k) == FinalValue(outputs, Without(agents, i), k)
    ensures BagOf(errors, agents) ==
        BagOf(errors, Without(agents, i)) + multiset([agents[i].name + " failed: " + agents[i].behaviour.text])
  {
    forall e: string
      ensures multiset(AllErrors(errors, agents))[e]
              == multiset(AllErrors(errors, Without(agents, i)))[e] + multiset(ErrorsOf(agents[i], errors))[e]
    {
      TimesCounts(errors, agents, e);
      TimesCounts(errors, Without(agents, i), e);
      TimesWithout(errors, agents, i, e);
    }
    ValueWithout(outputs, agents, i, k);
  }

  lemma {:induction false} ValueLast(outputs: Outputs, before: seq<Agent>, last: Agent, k: string)
    ensures FinalValue(outputs, before + [last], k)
            == if last.behaviour.Writes? && k in last.behaviour.own then Some(last.behaviour.own[k])
               else if last.behaviour.Writes? && k in outputs then Some(outputs[k])
               else FinalValue(outputs, before, k)
  {
    assert (before + [last])[..|before|] == before;
  }

  lemma {:induction false} ValueWithout(outputs: Outputs, agents: seq<Agent>, i: nat, k: string)
    requires i < |agents| && !agents[i].behaviour.Writes?
    ensures FinalValue(outputs, agents, k) == FinalValue(outputs, Without(agents, i), k)
    decreases |agents|
  {
    var before, last := agents[..|agents| - 1], agents[|agents| - 1];
    assert agents == before + [last];
    ValueLast(outputs, before, last, k);
    if i == |before| {
      WithoutEnd(before, last);
    } else {
      ValueWithout(outputs, before, i, k);
      WithoutLast(before, last, i);
      ValueLast(outputs, Without(before, i), last, k);
    }
  }

  /** The order of the agents changes neither the outputs nor which errors are noted. */
  lemma {:induction false} OrderDoesNotMatter(a: seq<Agent>, b: seq<Agent>, k: string)
    requires multiset(a) == multiset(b) && Disjoint(a)
    ensures FinalValue(map[], a, k) == FinalValue(map[], b, k)
    ensures BagOf([], a) == BagOf([], b)
  {
    assert forall x :: x in a <==> x in multiset(a);
    assert forall x :: x in b <==> x in multiset(b);
    forall v: string ensures FinalValue(map[], a, k) == Some(v) <==> FinalValue(map[], b, k) == Some(v) {
      MergeIsUnion(a, k, v);
      MergeIsUnion(b, k, v);
    }
    assert FinalValue(map[], a, k).None? <==> FinalValue(map[], b, k).None?;
    forall e: string ensures multiset(AllErrors([], a))[e] == multiset(AllErrors([], b))[e] {
      TimesCounts([], a, e);
      TimesCounts([], b, e);
      TimesPermute([], a, b, e);
    }
  }

  lemma {:induction false} TimesPermute(start: seq<string>, a: seq<Agent>, b: seq<Agent>, e: string)
    requires multiset(a) == multiset(b)
    ensures Times(start, a, e) == Times(start, b, e)
    decreases |b|
  {
    if b == [] {
      assert |multiset(a)| == |a|;
    } else {
      var last, before := b[|b| - 1], b[..|b| - 1];
      assert b == before + [last];
      assert last in multiset(a);
      var i :| 0 <= i < |a| && a[i] == last;
      WithoutBag(a, i);
      TimesPermute(start, Without(a, i), before, e);
      TimesWithout(start, a, i, e);
    }
  }

  lemma WithoutBag(a: seq<Agent>, i: nat)
    requires i < |a|
    ensures multiset(Without(a, i)) == multiset(a) - multiset{a[i]}
  {
    assert a == a[..i] + [a[i]] + a[i + 1..];
  }

  // ---- From a state that is not fresh ----

  /** A key that was already set and that one agent changes keeps the change exactly when no later agent
      returns its copy: a copy carries the old value of every key its agent leaves alone. */
  lemma {:induction false} UpdateSurvivesIff(start: Outputs, agents: seq<Agent>, i: nat, k: string, v: string)
    requires k in start && start[k] != v && i < |agents| && Wrote(agents[i], k, v)
    requires forall j | 0 <= j < |agents| && j != i && agents[j].behaviour.Writes? :: k !in agents[j].behaviour.own
    ensures FinalValue(start, agents, k) == Some(v) <==> forall j | i < j < |agents| :: !agents[j].behaviour.Writes?
    decreases |agents|
  {
    var n := |agents| - 1;
    if i < n && !agents[n].behaviour.Writes? {
      UpdateSurvivesIff(start, agents[..n], i, k, v);
    }
  }

  function Copies(agents: seq<Agent>): nat {
    if agents == [] then 0
    else Copies(agents[..|agents| - 1]) + (if agents[|agents| - 1].behaviour.Writes? then 1 else 0)
  }

  /** An error present at the start is noted again by every agent that returns its copy. */
  lemma {:induction false} StartErrorsRepeat(start: seq<string>, agents: seq<Agent>, e: string)
    ensures BagOf(start, agents)[e] == BagOf([], agents)[e] + Copies(agents) * multiset(start)[e]
  {
    TimesCounts(start, agents, e);
    TimesCounts([], agents, e);
    TimesRepeat(start, agents, e);
  }

  lemma {:induction false} CopiesLast(before: seq<Agent>, last: Agent)
    ensures Copies(before + [last]) == Copies(before) + (if last.behaviour.Writes? then 1 else 0)
  {
    assert (before + [last])[..|before|] == before;
  }

  lemma {:induction false} TimesRepeat(start: seq<string>, agents: seq<Agent>, e: string)
    ensures Times(start, agents, e) == Times([], agents, e) + Copies(agents) * multiset(start)[e]
  {
    if agents == [] {
    } else {
      var before, last := agents[..|agents| - 1], agents[|agents| - 1];
      TimesRepeat(start, before, e);
      TimesLast(start, before, last, e);
      TimesLast([], before, last, e);
      CopiesLast(before, last);
      OneMoreShare(Times(start, before, e), Times([], before, e), Copies(before), multiset(start)[e],
                   Share(last, start, e), Share(last, [], e), last.behaviour.Writes?);
      assert agents == before + [last];
    }
  }

  lemma OneMoreShare(t: int, t0: int, n: int, m: int, share: int, share0: int, writes: bool)
    requires t == t0 + n * m && share == share0 + (if writes then m else 0)
    ensures t + share == t0 + share0 + (n + (if writes then 1 else 0)) * m
  {
    if writes { assert (n + 1) * m == n * m + m; }
  }
}
