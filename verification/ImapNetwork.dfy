/**
 The IMAP components under the scheduler: the channel on which the worker returns its results is an
 inbox of the component's node, written and then signalled by the worker thread.
 */
module ImapNetwork {
  import opened Prelude
  import opened ComponentApi
  import opened SchedulerModel
  import opened Machine
  import opened Network
  import ImapAppend
  import ImapFetch
  import Ring

  // ----- Append -----

  function AppendEvent(p: ImapAppend.Protocol, s: ImapAppend.Step): seq<Ring.RingEvent<ImapAppend.Answer>>
    requires ImapAppend.Enabled(p, s)
  {
    if s.Receive? then [Ring.TookOne]
    else if s.WorkerAnswer? then [Ring.Arrived(ImapAppend.Step1(p, s).answers[|p.answers|])]
    else []
  }

  /** What a run of the protocol does to the result channel. */
  function AppendEvents(p: ImapAppend.Protocol, ss: seq<ImapAppend.Step>): seq<Ring.RingEvent<ImapAppend.Answer>>
    requires ImapAppend.Steps(p, ss)
    decreases |ss|
  {
    if ss == [] then [] else AppendEvent(p, ss[0]) + AppendEvents(ImapAppend.Step1(p, ss[0]), ss[1..])
  }

  lemma AppendEventLeads(p: ImapAppend.Protocol, s: ImapAppend.Step, capacity: nat)
    requires ImapAppend.Enabled(p, s) && |p.answers| < capacity
    ensures Ring.Leads(p.answers, AppendEvent(p, s), ImapAppend.Step1(p, s).answers, capacity)
    ensures |ImapAppend.Step1(p, s).answers| <= |p.answers| + 1
  {
    if s.Receive? || s.WorkerAnswer? {
      var q := ImapAppend.Step1(p, s);
      assert s.WorkerAnswer? ==> q.answers == p.answers + [q.answers[|p.answers|]];
      Ring.LeadsSnoc(p.answers, [], p.answers, capacity, AppendEvent(p, s)[0]);
      assert [] + [AppendEvent(p, s)[0]] == AppendEvent(p, s);
    }
  }

  lemma {:induction false} AppendEventsLead(p: ImapAppend.Protocol, ss: seq<ImapAppend.Step>, capacity: nat)
    requires ImapAppend.Steps(p, ss) && |p.answers| + |ss| <= capacity
    ensures Ring.Leads(p.answers, AppendEvents(p, ss), ImapAppend.AfterSteps(p, ss).answers, capacity)
    ensures |ImapAppend.AfterSteps(p, ss).answers| <= |p.answers| + |ss|
    decreases |ss|
  {
    if ss != [] {
      var q, rest := ImapAppend.Step1(p, ss[0]), ss[1..];
      AppendEventLeads(p, ss[0], capacity);
      AppendEventsLead(q, rest, capacity);
      Ring.LeadsConcat(p.answers, AppendEvent(p, ss[0]), q.answers, AppendEvents(q, rest),
                       ImapAppend.AfterSteps(p, ss).answers, capacity);
    }
  }

  lemma {:induction false} AppendSplit(p: ImapAppend.Protocol, ss: seq<ImapAppend.Step>, k: nat)
    requires ImapAppend.Steps(p, ss) && k <= |ss|
    ensures ImapAppend.Steps(p, ss[..k]) && ImapAppend.Steps(ImapAppend.AfterSteps(p, ss[..k]), ss[k..])
    ensures ImapAppend.AfterSteps(p, ss) == ImapAppend.AfterSteps(ImapAppend.AfterSteps(p, ss[..k]), ss[k..])
    decreases k
  {
    if k == 0 {
      assert ss[..0] == [] && ss[0..] == ss;
    } else {
      assert ss[..k][0] == ss[0] && ss[..k][1..] == ss[1..][..k - 1] && ss[k..] == ss[1..][k - 1..];
      AppendSplit(ImapAppend.Step1(p, ss[0]), ss[1..], k - 1);
    }
  }

  /**
   A call of Append keeps the contract for its result channel: as the run of the protocol that `Process`
   says it is, it is a legal stretch of the network's run, and what the worker sends meanwhile are
   writes to that channel. NoWork comes only from calls that found the channel empty. The worker signals
   the node after each result.
   */
  lemma AppendKeepsContract<C>(top: Topology, net: Net<C, ImapAppend.Answer>, ch: Channel,
      p: ImapAppend.Protocol, ss: seq<ImapAppend.Step>, drained: nat, reply: Reply<C>)
    returns (es: seq<Ring.RingEvent<ImapAppend.Answer>>)
    requires ch in top.reader && ch in net.inbox && InCall(net, top.reader[ch]) && net.inbox[ch] == p.answers
    requires forall c :: c in top.drained && c in top.reader && top.reader[c] == top.reader[ch] ==> c == ch
    requires ImapAppend.Steps(p, ss) && |p.answers| + |ss| <= top.capacity
    requires reply.result.NoWork? ==>
      drained <= |ss| && ImapAppend.Steps(p, ss[..drained]) && ImapAppend.AfterSteps(p, ss[..drained]).answers == []
    ensures var ls := RingLabels<C, ImapAppend.Answer>(ch, es) + [Sched(Call(reply))];
      && NetRun(top, net, ls)
      && NetAfter(top, net, ls).machine == Next(net.machine, Call(reply))
      && NetAfter(top, net, ls).inbox == net.inbox[ch := ImapAppend.AfterSteps(p, ss).answers]
  {
    if reply.result.NoWork? {
      var mid := ImapAppend.AfterSteps(p, ss[..drained]);
      AppendSplit(p, ss, drained);
      AppendEventsLead(p, ss[..drained], top.capacity);
      AppendEventsLead(mid, ss[drained..], top.capacity);
      var a, b := AppendEvents(p, ss[..drained]), AppendEvents(mid, ss[drained..]);
      Ring.LeadsSnoc(p.answers, a, [], top.capacity, Ring.SawEmpty);
      Ring.LeadsConcat(p.answers, a + [Ring.SawEmpty], [], b, ImapAppend.AfterSteps(p, ss).answers, top.capacity);
      es := a + [Ring.SawEmpty] + b;
    } else {
      AppendEventsLead(p, ss, top.capacity);
      es := AppendEvents(p, ss);
    }
    CallKeepsContract(top, net, ch, es, reply);
  }

  // ----- Fetch -----

  /** Between the first batch after a connect and the `Connected` that follows it, the worker has not signalled yet. */
  predicate Announcing(p: ImapFetch.Protocol) {
    p.job == Some(ImapFetch.Announcing)
  }

  /**
   What a step does to the result channel. The worker signals once for each request it has completed: a
   first batch is written with that signal still owed, and the `Connected` after it adds none.
   */
  function FetchLabel<C>(ch: Channel, p: ImapFetch.Protocol, s: ImapFetch.Step): seq<NetLabel<C, ImapFetch.Answer>>
    requires ImapFetch.Enabled(p, s)
  {
    if s.Receive? then [NetLabel.Take(ch)]
    else if s.WorkerAct? then
      var answer := ImapFetch.Step1(p, s).answers[|p.answers|];
      if Announcing(p) then [WriteOwed(ch, answer)] else [Write(ch, answer)]
    else []
  }

  function FetchLabels<C>(ch: Channel, p: ImapFetch.Protocol, ss: seq<ImapFetch.Step>)
    : seq<NetLabel<C, ImapFetch.Answer>>
    requires ImapFetch.Steps(p, ss)
    decreases |ss|
  {
    if ss == [] then [] else FetchLabel(ch, p, ss[0]) + FetchLabels(ch, ImapFetch.Step1(p, ss[0]), ss[1..])
  }

  function SignalsOf(s: ImapFetch.Step, q: ImapFetch.Protocol): nat {
    if s.WorkerAct? && q.job.None? then 1 else 0
  }

  /** The signals the worker sends in a run: one after each request that leaves it without a job. */
  function FetchSignals(p: ImapFetch.Protocol, ss: seq<ImapFetch.Step>): nat
    requires ImapFetch.Steps(p, ss)
    decreases |ss|
  {
    if ss == [] then 0
    else
      var q := ImapFetch.Step1(p, ss[0]);
      FetchSignals(q, ss[1..]) + SignalsOf(ss[0], q)
  }

  function Owing(p: ImapFetch.Protocol): nat {
    if Announcing(p) then 1 else 0
  }

  /** The signals still to come for node n grew by those the worker sends, and by the one it owes at the end. */
  ghost predicate SignalsAdded(n: NodeId, before: multiset<NodeId>, after: multiset<NodeId>, p: ImapFetch.Protocol,
      q: ImapFetch.Protocol, signals: nat) {
    && after[n] + Owing(p) == before[n] + signals + Owing(q)
    && forall m :: m != n ==> after[m] == before[m]
  }

  /** A stretch of the network's run in which the protocol went from `p` to `q`, and the worker sent these signals. */
  ghost predicate FetchRan<C>(n: NodeId, ch: Channel, net: Net<C, ImapFetch.Answer>, u: Net<C, ImapFetch.Answer>,
      p: ImapFetch.Protocol, q: ImapFetch.Protocol, signals: nat) {
    && u.machine == net.machine && u.foundEmpty == net.foundEmpty && u.inbox == net.inbox[ch := q.answers]
    && SignalsAdded(n, net.unsignalled, u.unsignalled, p, q, signals)
  }

  lemma FetchRanOn<C>(n: NodeId, ch: Channel, net: Net<C, ImapFetch.Answer>, t: Net<C, ImapFetch.Answer>,
      u: Net<C, ImapFetch.Answer>, p: ImapFetch.Protocol, q: ImapFetch.Protocol, r: ImapFetch.Protocol,
      signals: nat, more: nat)
    requires FetchRan(n, ch, net, t, p, q, signals) && FetchRan(n, ch, t, u, q, r, more)
    ensures FetchRan(n, ch, net, u, p, r, signals + more)
  {
  }

  /** A step adds an answer, takes one, or neither; only the worker's acts begin or end an announcement. */
  lemma FetchActs(p: ImapFetch.Protocol, s: ImapFetch.Step)
    requires ImapFetch.Enabled(p, s)
    ensures var q := ImapFetch.Step1(p, s);
      && (s.WorkerAct? ==> |q.answers| == |p.answers| + 1 && q.answers == p.answers + [q.answers[|p.answers|]])
      && (s.WorkerAct? ==> (q.job.None? <==> !Announcing(q)) && (Announcing(p) ==> q.job.None?))
      && (s.Receive? ==> p.answers != [] && q.answers == p.answers[1..])
      && (!s.WorkerAct? ==> Announcing(q) == Announcing(p))
      && (!s.WorkerAct? && !s.Receive? ==> q.answers == p.answers)
  {
  }

  lemma FetchStepRun<C>(top: Topology, net: Net<C, ImapFetch.Answer>, ch: Channel, p: ImapFetch.Protocol,
      s: ImapFetch.Step)
    requires ch in top.reader && ch in net.inbox && net.inbox[ch] == p.answers && |p.answers| < top.capacity
    requires ImapFetch.Enabled(p, s) && (s.Receive? ==> InCall(net, top.reader[ch]))
    requires Announcing(p) ==> top.reader[ch] in net.unsignalled
    ensures var ls, q := FetchLabel<C>(ch, p, s), ImapFetch.Step1(p, s);
      && NetRun(top, net, ls)
      && FetchRan(top.reader[ch], ch, net, NetAfter(top, net, ls), p, q, SignalsOf(s, q))
      && |q.answers| <= |p.answers| + 1
  {
    var ls := FetchLabel<C>(ch, p, s);
    FetchActs(p, s);
    if ls != [] {
      NetRunOne(top, net, ls[0]);
    }
  }

  /** A run of the protocol is a run of the network, in a call or, if it receives nothing, at any time. */
  lemma {:induction false} FetchRun<C>(top: Topology, net: Net<C, ImapFetch.Answer>, ch: Channel,
      p: ImapFetch.Protocol, ss: seq<ImapFetch.Step>)
    requires ch in top.reader && ch in net.inbox && net.inbox[ch] == p.answers
    requires ImapFetch.Steps(p, ss) && |p.answers| + |ss| <= top.capacity
    requires InCall(net, top.reader[ch]) || forall s :: s in ss ==> !s.Receive?
    requires Announcing(p) ==> top.reader[ch] in net.unsignalled
    ensures var ls, q := FetchLabels<C>(ch, p, ss), ImapFetch.AfterSteps(p, ss);
      && NetRun(top, net, ls)
      && FetchRan(top.reader[ch], ch, net, NetAfter(top, net, ls), p, q, FetchSignals(p, ss))
      && |q.answers| <= |p.answers| + |ss|
    decreases |ss|
  {
    if ss == [] {
      assert net.inbox == net.inbox[ch := p.answers];
    } else {
      var q, ls, rest := ImapFetch.Step1(p, ss[0]), FetchLabel<C>(ch, p, ss[0]), ss[1..];
      FetchStepRun(top, net, ch, p, ss[0]);
      var t := NetAfter(top, net, ls);
      FetchRun(top, t, ch, q, rest);
      var more := FetchLabels<C>(ch, q, rest);
      NetRunConcat(top, net, ls, more);
      FetchRanOn(top.reader[ch], ch, net, t, NetAfter(top, t, more), p, q, ImapFetch.AfterSteps(q, rest),
                 SignalsOf(ss[0], q), FetchSignals(q, rest));
    }
  }

  lemma {:induction false} FetchSplit(p: ImapFetch.Protocol, ss: seq<ImapFetch.Step>, k: nat)
    requires ImapFetch.Steps(p, ss) && k <= |ss|
    ensures ImapFetch.Steps(p, ss[..k]) && ImapFetch.Steps(ImapFetch.AfterSteps(p, ss[..k]), ss[k..])
    ensures ImapFetch.AfterSteps(p, ss) == ImapFetch.AfterSteps(ImapFetch.AfterSteps(p, ss[..k]), ss[k..])
    ensures FetchSignals(p, ss) == FetchSignals(p, ss[..k]) + FetchSignals(ImapFetch.AfterSteps(p, ss[..k]), ss[k..])
    decreases k
  {
    if k == 0 {
      assert ss[..0] == [] && ss[0..] == ss;
    } else {
      assert ss[..k][0] == ss[0] && ss[..k][1..] == ss[1..][..k - 1] && ss[k..] == ss[1..][k - 1..];
      FetchSplit(ImapFetch.Step1(p, ss[0]), ss[1..], k - 1);
    }
  }

  /** A call up to the moment it found the channel empty. */
  lemma FetchRunToSight<C>(top: Topology, net: Net<C, ImapFetch.Answer>, ch: Channel, p: ImapFetch.Protocol,
      ss: seq<ImapFetch.Step>)
    returns (ls: seq<NetLabel<C, ImapFetch.Answer>>)
    requires ch in top.reader && ch in net.inbox && InCall(net, top.reader[ch]) && net.inbox[ch] == p.answers
    requires ImapFetch.Steps(p, ss) && |p.answers| + |ss| <= top.capacity
    requires Announcing(p) ==> top.reader[ch] in net.unsignalled
    requires ImapFetch.AfterSteps(p, ss).answers == []
    ensures NetRun(top, net, ls)
    ensures var u, q := NetAfter(top, net, ls), ImapFetch.AfterSteps(p, ss);
      && u.machine == net.machine && ch in u.foundEmpty && u.inbox == net.inbox[ch := q.answers]
      && SignalsAdded(top.reader[ch], net.unsignalled, u.unsignalled, p, q, FetchSignals(p, ss))
  {
    FetchRun(top, net, ch, p, ss);
    var a := FetchLabels<C>(ch, p, ss);
    NetRunOne(top, NetAfter(top, net, a), FindEmpty(ch));
    NetRunConcat(top, net, a, [FindEmpty(ch)]);
    ls := a + [FindEmpty(ch)];
  }

  /** A whole call that found the channel empty after its first `drained` steps. */
  lemma FetchRunSeen<C>(top: Topology, net: Net<C, ImapFetch.Answer>, ch: Channel, p: ImapFetch.Protocol,
      ss: seq<ImapFetch.Step>, drained: nat)
    returns (ls: seq<NetLabel<C, ImapFetch.Answer>>)
    requires ch in top.reader && ch in net.inbox && InCall(net, top.reader[ch]) && net.inbox[ch] == p.answers
    requires ImapFetch.Steps(p, ss) && |p.answers| + |ss| <= top.capacity && drained <= |ss|
    requires Announcing(p) ==> top.reader[ch] in net.unsignalled
    requires ImapFetch.Steps(p, ss[..drained]) && ImapFetch.AfterSteps(p, ss[..drained]).answers == []
    ensures NetRun(top, net, ls)
    ensures var u, q := NetAfter(top, net, ls), ImapFetch.AfterSteps(p, ss);
      && u.machine == net.machine && ch in u.foundEmpty && u.inbox == net.inbox[ch := q.answers]
      && SignalsAdded(top.reader[ch], net.unsignalled, u.unsignalled, p, q, FetchSignals(p, ss))
  {
    FetchSplit(p, ss, drained);
    var mid := ImapFetch.AfterSteps(p, ss[..drained]);
    var a := FetchRunToSight(top, net, ch, p, ss[..drained]);
    FetchRun(top, NetAfter(top, net, a), ch, mid, ss[drained..]);
    var b := FetchLabels<C>(ch, mid, ss[drained..]);
    NetRunConcat(top, net, a, b);
    ls := a + b;
  }

  /**
   A call of Fetch keeps the contract for its result channel: as the run of the protocol that `Process`
   says it is, it is a legal stretch of the network's run, and what the worker sends meanwhile are
   writes to that channel. NoWork comes only from calls that found the channel empty. The signals owed
   to the node grow by just those that the worker sends, one for each completed request.
   */
  lemma FetchKeepsContract<C>(top: Topology, net: Net<C, ImapFetch.Answer>, ch: Channel,
      p: ImapFetch.Protocol, ss: seq<ImapFetch.Step>, drained: nat, reply: Reply<C>)
    returns (ls: seq<NetLabel<C, ImapFetch.Answer>>)
    requires ch in top.reader && ch in net.inbox && InCall(net, top.reader[ch]) && net.inbox[ch] == p.answers
    requires forall c :: c in top.drained && c in top.reader && top.reader[c] == top.reader[ch] ==> c == ch
    requires ImapFetch.Steps(p, ss) && |p.answers| + |ss| <= top.capacity
    requires Announcing(p) ==> top.reader[ch] in net.unsignalled
    requires reply.result.NoWork? ==>
      drained <= |ss| && ImapFetch.Steps(p, ss[..drained]) && ImapFetch.AfterSteps(p, ss[..drained]).answers == []
    ensures NetRun(top, net, ls + [Sched(Call(reply))])
    ensures var u, q := NetAfter(top, net, ls + [Sched(Call(reply))]), ImapFetch.AfterSteps(p, ss);
      && u.machine == Next(net.machine, Call(reply)) && u.inbox == net.inbox[ch := q.answers]
      && SignalsAdded(top.reader[ch], net.unsignalled, u.unsignalled, p, q, FetchSignals(p, ss))
      && (Announcing(q) ==> top.reader[ch] in u.unsignalled)
  {
    if reply.result.NoWork? {
      ls := FetchRunSeen(top, net, ch, p, ss, drained);
    } else {
      ls := FetchLabels(ch, p, ss);
      FetchRun(top, net, ch, p, ss);
    }
    var t := NetAfter(top, net, ls);
    NetRunOne(top, t, Sched(Call(reply)));
    NetRunConcat(top, net, ls, [Sched(Call(reply))]);
  }

  /** Between calls the worker goes on: its steps are writes, and what it owes is the same. */
  lemma FetchWorkerWrites<C>(top: Topology, net: Net<C, ImapFetch.Answer>, ch: Channel, p: ImapFetch.Protocol,
      ss: seq<ImapFetch.Step>)
    requires ch in top.reader && ch in net.inbox && net.inbox[ch] == p.answers
    requires ImapFetch.Steps(p, ss) && |p.answers| + |ss| <= top.capacity
    requires forall s :: s in ss ==> s.WorkerTake? || s.WorkerAct?
    requires Announcing(p) ==> top.reader[ch] in net.unsignalled
    ensures NetRun(top, net, FetchLabels<C>(ch, p, ss))
    ensures var u, q := NetAfter(top, net, FetchLabels<C>(ch, p, ss)), ImapFetch.AfterSteps(p, ss);
      && u.machine == net.machine && u.inbox == net.inbox[ch := q.answers]
      && SignalsAdded(top.reader[ch], net.unsignalled, u.unsignalled, p, q, FetchSignals(p, ss))
      && (Announcing(q) ==> top.reader[ch] in u.unsignalled)
  {
    FetchRun(top, net, ch, p, ss);
  }

  /** The worker's two acts on a connect that finds mail. */
  lemma TwoActs(p: ImapFetch.Protocol, first: ImapFetch.Reaction, second: ImapFetch.Reaction)
    requires p.alive && p.job.Some? && p.job.value.Doing? && p.job.value.command.Connect?
    requires first.Opened? && first.unseen != []
    ensures var ss := [ImapFetch.WorkerAct(first), ImapFetch.WorkerAct(second)];
      && ImapFetch.Steps(p, ss) && FetchSignals(p, ss) == 1
      && !Announcing(p) && !Announcing(ImapFetch.AfterSteps(p, ss))
      && ImapFetch.AfterSteps(p, ss).answers == p.answers + [ImapFetch.Messages(first.unseen), ImapFetch.Connected]
  {
    var ss := [ImapFetch.WorkerAct(first), ImapFetch.WorkerAct(second)];
    var q := ImapFetch.Step1(p, ss[0]);
    var r := ImapFetch.Step1(q, ss[1]);
    assert ss[1..] == [ss[1]] && ss[1..][1..] == [];
    assert ImapFetch.Steps(r, []) && ImapFetch.AfterSteps(r, []) == r && FetchSignals(r, []) == 0;
    assert ImapFetch.Steps(q, ss[1..]) && ImapFetch.AfterSteps(q, ss[1..]) == r && FetchSignals(q, ss[1..]) == 1;
  }

  /** A connect that finds mail: two results, one signal, and nothing is owed once it is delivered. */
  lemma FirstBatchSettles<C>(top: Topology, net: Net<C, ImapFetch.Answer>, ch: Channel, p: ImapFetch.Protocol,
      first: ImapFetch.Reaction, second: ImapFetch.Reaction)
    requires ch in top.reader && ch in net.inbox && net.inbox[ch] == p.answers && |p.answers| + 2 <= top.capacity
    requires p.alive && p.job.Some? && p.job.value.Doing? && p.job.value.command.Connect?
    requires first.Opened? && first.unseen != [] && Legal(net.machine, Signal(top.reader[ch]))
    ensures var ss := [ImapFetch.WorkerAct(first), ImapFetch.WorkerAct(second)];
      && ImapFetch.Steps(p, ss)
      && var ls := FetchLabels<C>(ch, p, ss) + [Notify(top.reader[ch])];
      && NetRun(top, net, ls)
      && NetAfter(top, net, ls).unsignalled == net.unsignalled
      && NetAfter(top, net, ls).inbox ==
         net.inbox[ch := p.answers + [ImapFetch.Messages(first.unseen), ImapFetch.Connected]]
  {
    var ss := [ImapFetch.WorkerAct(first), ImapFetch.WorkerAct(second)];
    var n := top.reader[ch];
    TwoActs(p, first, second);
    FetchRun(top, net, ch, p, ss);
    var ls := FetchLabels<C>(ch, p, ss);
    var t := NetAfter(top, net, ls);
    NetRunOne(top, t, Notify(n));
    NetRunConcat(top, net, ls, [Notify(n)]);
  }
}
