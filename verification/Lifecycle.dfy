/**
 Theorems over whole runs of the scheduler machine, read off the log: no signal is lost, every timer
 arming has one fate, retirement and stopping are final.
 */
module Lifecycle {
  import opened Prelude
  import opened ComponentApi
  import opened SchedulerModel
  import opened Machine

  /** After registration, before anything ran. */
  ghost predicate Initial<C>(m: Machine<C>) {
    Structure(m.state, {}) && m.pc.Polling? && m.running && m.log == [] && m.state.timerLatest == map[]
  }

  // ----- signals -----

  /** The events that may take n out of the ready queue. */
  predicate Closes(e: Event, n: NodeId) {
    e == Dispatched(n) || e == Retired(n)
  }

  /** Every accepted signal is still visible in the queue, unless its node was dispatched or retired since. */
  ghost predicate SignalsKept<C>(m: Machine<C>) {
    forall i :: 0 <= i < |m.log| && m.log[i].Signalled? ==>
      m.log[i].node in m.state.readyQueue || exists j :: i < j < |m.log| && Closes(m.log[j], m.log[i].node)
  }

  lemma QueuedStays<C>(m: Machine<C>, l: Label<C>, n: NodeId)
    requires Sound(m) && Legal(m, l) && n in m.state.readyQueue
    ensures var t := Next(m, l);
      n in t.state.readyQueue || (|t.log| == |m.log| + 1 && Closes(t.log[|m.log|], n))
  {
    match l
    case Pop =>
      PopKeepsStructure(m.state);
      if n != m.state.readyQueue[0] {
        var i :| 0 <= i < |m.state.readyQueue| && m.state.readyQueue[i] == n;
        assert m.state.readyQueue[1..][i - 1] == n;
      }
    case Settle =>
      WithoutNoDup(m.state.readyQueue, m.pc.job.node);
    case _ =>
  }

  lemma LogGrows<C>(m: Machine<C>, l: Label<C>)
    requires Legal(m, l)
    ensures m.log <= Next(m, l).log
  {
  }

  lemma StepKeepsSignals<C>(m: Machine<C>, l: Label<C>)
    requires Sound(m) && Legal(m, l) && SignalsKept(m)
    ensures SignalsKept(Next(m, l))
  {
    var t := Next(m, l);
    LogGrows(m, l);
    forall i | 0 <= i < |t.log| && t.log[i].Signalled?
      ensures t.log[i].node in t.state.readyQueue || exists j :: i < j < |t.log| && Closes(t.log[j], t.log[i].node)
    {
      if i < |m.log| {
        assert t.log[i] == m.log[i];
        var n := m.log[i].node;
        if n in m.state.readyQueue {
          QueuedStays(m, l, n);
        } else {
          var j :| i < j < |m.log| && Closes(m.log[j], n);
          assert t.log[j] == m.log[j];
        }
      }
    }
  }

  // ----- timers -----

  predicate TimerEvent(e: Event, n: NodeId) {
    (e.Armed? || e.Fired? || e.Retired?) && e.node == n
  }

  /** The deadline of n that is live after these events: its last arming, if nothing ended it since. */
  function Pending(log: seq<Event>, n: NodeId): Option<Instant> {
    if log == [] then None
    else
      var e := log[|log| - 1];
      if TimerEvent(e, n) then (if e.Armed? then Some(e.when) else None) else Pending(log[..|log| - 1], n)
  }

  function Lookup(latest: map<NodeId, Instant>, n: NodeId): Option<Instant> {
    if n in latest then Some(latest[n]) else None
  }

  /** The map holds exactly the live deadlines, and each firing ends the arming that was live, not early. */
  ghost predicate TimersKept<C>(m: Machine<C>) {
    && (forall n :: Pending(m.log, n) == Lookup(m.state.timerLatest, n))
    && FiringsJustified(m.log)
  }

  ghost predicate FiringsJustified(log: seq<Event>) {
    forall k :: 0 <= k < |log| && log[k].Fired? ==>
      log[k].when <= log[k].at && Pending(log[..k], log[k].node) == Some(log[k].when)
  }

  lemma PendingSnoc(log: seq<Event>, e: Event, n: NodeId)
    ensures Pending(log + [e], n) ==
      if TimerEvent(e, n) then (if e.Armed? then Some(e.when) else None) else Pending(log, n)
  {
    assert (log + [e])[..|log|] == log;
  }

  lemma {:induction false} PendingAfterFirings(log: seq<Event>, es: seq<TimerWake>, now: Instant, n: NodeId)
    ensures Pending(log + FiredEvents(es, now), n) ==
      if exists e :: e in es && e.node == n then None else Pending(log, n)
    decreases |es|
  {
    if es == [] {
      assert log + FiredEvents(es, now) == log;
    } else {
      var k := |es| - 1;
      PendingAfterFirings(log, es[..k], now, n);
      assert log + FiredEvents(es, now) == log + FiredEvents(es[..k], now) + [Fired(es[k].node, es[k].when, now)];
      PendingSnoc(log + FiredEvents(es[..k], now), Fired(es[k].node, es[k].when, now), n);
      assert es == es[..k] + [es[k]];
    }
  }

  lemma FiringsSnoc(log: seq<Event>, e: Event)
    requires FiringsJustified(log)
    requires e.Fired? ==> e.when <= e.at && Pending(log, e.node) == Some(e.when)
    ensures FiringsJustified(log + [e])
  {
    var t := log + [e];
    forall k | 0 <= k < |t| && t[k].Fired?
      ensures t[k].when <= t[k].at && Pending(t[..k], t[k].node) == Some(t[k].when) {
      if k < |log| { assert t[..k] == log[..k]; } else { assert t[..k] == log; }
    }
  }

  lemma {:induction false} FiringsAppended(log: seq<Event>, es: seq<TimerWake>, now: Instant)
    requires FiringsJustified(log)
    requires forall e :: e in es ==> e.when <= now && Pending(log, e.node) == Some(e.when)
    requires forall i, j :: 0 <= i < j < |es| ==> es[i].node != es[j].node
    ensures FiringsJustified(log + FiredEvents(es, now))
    decreases |es|
  {
    if es == [] {
      assert log + FiredEvents(es, now) == log;
    } else {
      var k := |es| - 1;
      assert es == es[..k] + [es[k]];
      FiringsAppended(log, es[..k], now);
      assert log + FiredEvents(es, now) == log + FiredEvents(es[..k], now) + [Fired(es[k].node, es[k].when, now)];
      PendingAfterFirings(log, es[..k], now, es[k].node);
      assert es[k] in es;
      FiringsSnoc(log + FiredEvents(es[..k], now), Fired(es[k].node, es[k].when, now));
    }
  }

  lemma DrainKeepsTimers<C>(m: Machine<C>, now: Instant)
    requires Sound(m) && m.pc.Polling? && TimersKept(m)
    ensures TimersKept(Next(m, Drain(now)))
  {
    var latest := m.state.timerLatest;
    var es := DueInOrder(latest, now);
    DueOrder(latest, now);
    DueDistinct(latest, now);
    forall e | e in es ensures e.when <= now && Pending(m.log, e.node) == Some(e.when) {
      assert Pending(m.log, e.node) == Lookup(latest, e.node);
    }
    FiringsAppended(m.log, es, now);
    var t := Next(m, Drain(now));
    forall n ensures Pending(t.log, n) == Lookup(t.state.timerLatest, n) {
      PendingAfterFirings(m.log, es, now, n);
      if n in Due(latest, now) { assert TimerWake(latest[n], n) in es; }
    }
  }

  /** A step that logs nothing leaves the deadlines alone; any other step but a drain logs one event. */
  lemma StepLogs<C>(m: Machine<C>, l: Label<C>)
    requires Legal(m, l) && !l.Drain?
    ensures var t := Next(m, l);
      if t.log == m.log then t.state.timerLatest == m.state.timerLatest
      else |t.log| == |m.log| + 1 && t.log[..|m.log|] == m.log && !t.log[|m.log|].Fired?
  {
  }

  lemma StepPending<C>(m: Machine<C>, l: Label<C>, n: NodeId)
    requires Sound(m) && Legal(m, l) && !l.Drain? && Next(m, l).log != m.log
    requires |Next(m, l).log| == |m.log| + 1
    ensures Lookup(Next(m, l).state.timerLatest, n) ==
      var e := Next(m, l).log[|m.log|];
      if TimerEvent(e, n) then (if e.Armed? then Some(e.when) else None) else Lookup(m.state.timerLatest, n)
  {
    if l.Pop? { PopKeepsStructure(m.state); }
  }

  lemma StepKeepsTimers<C>(m: Machine<C>, l: Label<C>)
    requires Sound(m) && Legal(m, l) && TimersKept(m)
    ensures TimersKept(Next(m, l))
  {
    if l.Drain? {
      DrainKeepsTimers(m, l.now);
    } else {
      StepLogs(m, l);
      if Next(m, l).log != m.log {
        var t := Next(m, l);
        var e := t.log[|m.log|];
        assert t.log == m.log + [e];
        FiringsSnoc(m.log, e);
        forall n ensures Pending(t.log, n) == Lookup(t.state.timerLatest, n) {
          PendingSnoc(m.log, e, n);
          StepPending(m, l, n);
        }
      }
    }
  }

  /** How an arming at position i of the log ended, if it has. */
  datatype Fate = StillLive | FiredOnce(k: nat) | Superseded(k: nat) | Cancelled(k: nat)

  ghost predicate Quiet(log: seq<Event>, n: NodeId, lo: int, hi: int) {
    forall j :: 0 <= lo < j < hi <= |log| ==> !TimerEvent(log[j], n)
  }

  ghost function FateFrom(log: seq<Event>, i: nat, n: NodeId, k: nat): Fate
    requires i < k <= |log|
    decreases |log| - k
  {
    if k == |log| then StillLive
    else if !TimerEvent(log[k], n) then FateFrom(log, i, n, k + 1)
    else if log[k].Fired? then FiredOnce(k)
    else if log[k].Armed? then Superseded(k)
    else Cancelled(k)
  }

  /** What each fate says about the arming at position i; no timer event of the node lies in between. */
  ghost predicate Explains(log: seq<Event>, i: nat, fate: Fate)
    requires i < |log| && log[i].Armed?
  {
    var n, w := log[i].node, log[i].when;
    match fate
    case StillLive => Quiet(log, n, i, |log|) && Pending(log, n) == Some(w)
    case FiredOnce(j) => i < j < |log| && Quiet(log, n, i, j) && log[j].Fired? && log[j].node == n
      && log[j].when == w <= log[j].at
    case Superseded(j) => i < j < |log| && Quiet(log, n, i, j) && log[j].Armed? && log[j].node == n
    case Cancelled(j) => i < j < |log| && Quiet(log, n, i, j) && log[j] == Retired(n)
  }

  lemma {:induction false} FateSound(log: seq<Event>, i: nat, n: NodeId, k: nat)
    requires i < k <= |log| && FiringsJustified(log)
    requires log[i].Armed? && log[i].node == n && Quiet(log, n, i, k)
    ensures Explains(log, i, FateFrom(log, i, n, k))
    decreases |log| - k
  {
    PendingThrough(log, i, n, k);
    if k == |log| {
      assert log[..k] == log;
    } else if !TimerEvent(log[k], n) {
      FateSound(log, i, n, k + 1);
    }
  }

  lemma {:induction false} PendingThrough(log: seq<Event>, i: nat, n: NodeId, k: nat)
    requires i < k <= |log| && log[i].Armed? && log[i].node == n && Quiet(log, n, i, k)
    ensures Pending(log[..k], n) == Some(log[i].when)
    decreases k
  {
    assert log[..k][..k - 1] == log[..k - 1];
    if k > i + 1 {
      assert !TimerEvent(log[k - 1], n);
      PendingThrough(log, i, n, k - 1);
    }
  }

  /** The arming that a live deadline, or a firing, goes back to. */
  lemma {:induction false} LiveArming(log: seq<Event>, n: NodeId) returns (i: nat)
    requires Pending(log, n).Some?
    ensures i < |log| && log[i] == Armed(n, Pending(log, n).value) && Quiet(log, n, i, |log|)
    decreases |log|
  {
    var k := |log| - 1;
    if TimerEvent(log[k], n) {
      i := k;
    } else {
      i := LiveArming(log[..k], n);
      forall j | i < j < |log| ensures !TimerEvent(log[j], n) {
        if j < k { assert log[..k][j] == log[j]; }
      }
    }
  }

  // ----- retirement, stopping, exit -----

  predicate Mentions(e: Event, n: NodeId) {
    !e.StopRequested? && e.node == n
  }

  /** Nothing happens to a node after its retirement. */
  ghost predicate RetiredForGood<C>(m: Machine<C>) {
    forall i, j {:trigger m.log[i], m.log[j]} :: 0 <= i < |m.log| && m.log[i].Retired? ==>
      m.log[i].node !in m.state.readyFlags && (i < j < |m.log| ==> !Mentions(m.log[j], m.log[i].node))
  }

  /** Only nodes that still have a ready flag make it into the log. */
  lemma NewEventsLive<C>(m: Machine<C>, l: Label<C>)
    requires Sound(m) && Legal(m, l)
    ensures forall j :: |m.log| <= j < |Next(m, l).log| && !Next(m, l).log[j].StopRequested? ==>
      Next(m, l).log[j].node in m.state.readyFlags
    ensures forall j :: |m.log| <= j < |Next(m, l).log| && Next(m, l).log[j].Retired? ==>
      Next(m, l).log[j].node !in Next(m, l).state.readyFlags && j == |Next(m, l).log| - 1
    ensures Next(m, l).state.readyFlags.Keys <= m.state.readyFlags.Keys
  {
    if l.Drain? {
      var es := DueInOrder(m.state.timerLatest, l.now);
      DueOrder(m.state.timerLatest, l.now);
      forall i | 0 <= i < |es| ensures es[i].node in m.state.readyFlags { assert es[i] in es; }
    } else if l.Pop? {
      PopKeepsStructure(m.state);
    }
  }

  lemma StepKeepsRetired<C>(m: Machine<C>, l: Label<C>)
    requires Sound(m) && Legal(m, l) && RetiredForGood(m)
    ensures RetiredForGood(Next(m, l))
  {
    var t := Next(m, l);
    LogGrows(m, l);
    NewEventsLive(m, l);
    forall i, j | 0 <= i < |t.log| && t.log[i].Retired?
      ensures t.log[i].node !in t.state.readyFlags && (i < j < |t.log| ==> !Mentions(t.log[j], t.log[i].node))
    {
      if i < |m.log| {
        assert t.log[i] == m.log[i];
        var x := if 0 <= j < |m.log| then j else i;
        assert t.log[x] == m.log[x];
      }
    }
  }

  function DispatchesAfterStop(log: seq<Event>): nat {
    if log == [] then 0
    else
      var rest := log[..|log| - 1];
      DispatchesAfterStop(rest) + (if log[|log| - 1].Dispatched? && StopRequested in rest then 1 else 0)
  }

  ghost predicate StopHonoured<C>(m: Machine<C>) {
    && (StopRequested in m.log ==> !m.running)
    && DispatchesAfterStop(m.log) <= 1
    && (m.pc.Committed? || StopRequested !in m.log ==> DispatchesAfterStop(m.log) == 0)
    && (!m.running ==> StopRequested in m.log || m.state.readyFlags.Keys == {})
    && (m.pc.Exited? ==> !m.running)
  }

  lemma StopSnoc(log: seq<Event>, e: Event)
    ensures DispatchesAfterStop(log + [e]) == DispatchesAfterStop(log)
      + if e.Dispatched? && StopRequested in log then 1 else 0
    ensures StopRequested in log + [e] <==> StopRequested in log || e.StopRequested?
  {
    assert (log + [e])[..|log|] == log;
  }

  lemma StopFirings(log: seq<Event>, es: seq<TimerWake>, now: Instant)
    ensures DispatchesAfterStop(log + FiredEvents(es, now)) == DispatchesAfterStop(log)
    ensures StopRequested in log + FiredEvents(es, now) <==> StopRequested in log
    decreases |es|
  {
    if es == [] {
      assert log + FiredEvents(es, now) == log;
    } else {
      var k := |es| - 1;
      StopFirings(log, es[..k], now);
      assert log + FiredEvents(es, now) == log + FiredEvents(es[..k], now) + [Fired(es[k].node, es[k].when, now)];
      StopSnoc(log + FiredEvents(es[..k], now), Fired(es[k].node, es[k].when, now));
    }
  }

  lemma SettleKeepsStop<C>(m: Machine<C>)
    requires Sound(m) && Legal(m, Settle) && StopHonoured(m)
    ensures StopHonoured(Next(m, Settle))
  {
    var t := Next(m, Settle);
    StepLogs(m, Settle);
    if t.log != m.log { LogSnoc(m.log, t.log); }
    if LastOneOut(m.state, m.pc.job.outcome) {
      assert t.state.readyFlags.Keys == {};
    }
  }

  /** A log that grew by one event, seen through the counts. */
  lemma LogSnoc(log: seq<Event>, more: seq<Event>)
    requires |more| == |log| + 1 && more[..|log|] == log
    ensures var e := more[|log|];
      && DispatchesAfterStop(more) == DispatchesAfterStop(log)
         + (if e.Dispatched? && StopRequested in log then 1 else 0)
      && (StopRequested in more <==> StopRequested in log || e.StopRequested?)
  {
    assert more == log + [more[|log|]];
    StopSnoc(log, more[|log|]);
  }

  lemma StepKeepsStop<C>(m: Machine<C>, l: Label<C>)
    requires Sound(m) && Legal(m, l) && StopHonoured(m)
    ensures StopHonoured(Next(m, l))
  {
    if l.Drain? {
      StopFirings(m.log, DueInOrder(m.state.timerLatest, l.now), l.now);
    } else if l.Settle? {
      SettleKeepsStop(m);
    } else {
      StepLogs(m, l);
      if Next(m, l).log != m.log { LogSnoc(m.log, Next(m, l).log); }
    }
  }

  // ----- all of it, over runs -----

  ghost predicate Kept<C>(m: Machine<C>) {
    Sound(m) && SignalsKept(m) && TimersKept(m) && RetiredForGood(m) && StopHonoured(m)
  }

  lemma StepKeeps<C>(m: Machine<C>, l: Label<C>)
    requires Kept(m) && Legal(m, l)
    ensures Kept(Next(m, l))
  {
    StepKeepsSound(m, l);
    StepKeepsSignals(m, l);
    StepKeepsTimers(m, l);
    StepKeepsRetired(m, l);
    StepKeepsStop(m, l);
  }

  lemma {:induction false} RunKeeps<C>(m: Machine<C>, ls: seq<Label<C>>)
    requires Kept(m) && IsRun(m, ls)
    ensures Kept(After(m, ls))
    decreases |ls|
  {
    if ls != [] {
      StepKeeps(m, ls[0]);
      RunKeeps(Next(m, ls[0]), ls[1..]);
    }
  }

  lemma InitialKept<C>(m: Machine<C>)
    requires Initial(m)
    ensures Kept(m)
  {
  }

  // ----- raised flags -----

  /** A raised flag belongs to a queued node or to the one that is running. */
  ghost predicate FlagsServed<C>(m: Machine<C>) {
    forall n :: n in m.state.readyFlags && m.state.readyFlags[n] ==> n in m.state.readyQueue || n in CheckedOut(m.pc)
  }

  lemma SettleKeepsFlags<C>(m: Machine<C>)
    requires Sound(m) && Legal(m, Settle) && FlagsServed(m)
    ensures FlagsServed(Next(m, Settle))
  {
    if m.pc.job.outcome.finished {
      WithoutNoDup(m.state.readyQueue, m.pc.job.node);
    }
  }

  lemma StepKeepsFlags<C>(m: Machine<C>, l: Label<C>)
    requires Sound(m) && Legal(m, l) && FlagsServed(m)
    ensures FlagsServed(Next(m, l))
  {
    match l
    case Drain(now) => NewNodesOfDue(m.state.timerLatest, now, m.state.readySet);
    case Pop =>
      PopKeepsStructure(m.state);
      forall n | n in m.state.readyQueue && n != m.state.readyQueue[0] ensures n in Next(m, Pop).state.readyQueue {
        var i :| 0 <= i < |m.state.readyQueue| && m.state.readyQueue[i] == n;
        assert Next(m, Pop).state.readyQueue[i - 1] == n;
      }
    case Settle => SettleKeepsFlags(m);
    case _ =>
  }

  // ----- the theorems -----

  /**
   Readiness is level-triggered and never ignored: in every reachable state a raised flag, whether a
   signal, a timer or the component itself raised it, belongs to a node that is queued or running; and
   a node whose flag is up when its dispatch is settled, and that has not finished, is queued again.
   */
  lemma {:induction false} RaisedFlagIsServed<C>(m: Machine<C>, ls: seq<Label<C>>)
    requires Sound(m) && FlagsServed(m) && IsRun(m, ls)
    ensures FlagsServed(After(m, ls))
    ensures var t := After(m, ls);
      Legal(t, Settle) && !t.pc.job.outcome.finished && FlagOf(t.state, t.pc.job.node) ==>
        t.pc.job.node in Next(t, Settle).state.readyQueue
    decreases |ls|
  {
    if ls == [] {
      if Legal(m, Settle) { StepKeepsFlags(m, Settle); }
    } else {
      StepKeepsSound(m, ls[0]);
      StepKeepsFlags(m, ls[0]);
      RaisedFlagIsServed(Next(m, ls[0]), ls[1..]);
    }
  }

  /**
   No lost wake-up: in every reachable state, and under every interleaving, a node whose signal was
   accepted is queued, unless a dispatch or the retirement of the node came after the signal.
   */
  lemma NoLostWakeUp<C>(m: Machine<C>, ls: seq<Label<C>>, i: nat)
    requires Initial(m) && IsRun(m, ls)
    requires i < |After(m, ls).log| && After(m, ls).log[i].Signalled?
    ensures var t := After(m, ls); var n := t.log[i].node;
      n in t.state.readyQueue || exists j :: i < j < |t.log| && Closes(t.log[j], n)
  {
    InitialKept(m);
    RunKeeps(m, ls);
  }

  /** A signal is accepted exactly for nodes that have not retired, and puts the node in the queue at once. */
  lemma SignalAccepted<C>(m: Machine<C>, ls: seq<Label<C>>, n: NodeId)
    requires Initial(m) && IsRun(m, ls) && Legal(After(m, ls), Signal(n))
    ensures var s := After(m, ls); var t := Next(s, Signal(n));
      if n in s.state.readyFlags
      then t.log == s.log + [Signalled(n)] && n in t.state.readyQueue && t.state.readyFlags[n]
        && (n in s.state.readyQueue ==> t.state.readyQueue == s.state.readyQueue)
        && (n !in s.state.readyQueue ==> t.state.readyQueue == s.state.readyQueue + [n])
      else t == s
  {
    InitialKept(m);
    RunKeeps(m, ls);
  }

  /**
   The life cycle of a timer: every arming is fired once at its own deadline and not before it,
   replaced by a later arming, cancelled by retirement, or is the live deadline in the map.
   */
  lemma ArmingFate<C>(m: Machine<C>, ls: seq<Label<C>>, i: nat)
    requires Initial(m) && IsRun(m, ls)
    requires i < |After(m, ls).log| && After(m, ls).log[i].Armed?
    ensures var t := After(m, ls); var n := t.log[i].node;
      && Explains(t.log, i, FateFrom(t.log, i, n, i + 1))
      && Pending(t.log, n) == Lookup(t.state.timerLatest, n)
  {
    InitialKept(m);
    RunKeeps(m, ls);
    FateSound(After(m, ls).log, i, After(m, ls).log[i].node, i + 1);
  }

  /** Conversely every firing is the fate of one arming, and of that one only: nothing fires twice. */
  lemma FiringHasOneArming<C>(m: Machine<C>, ls: seq<Label<C>>, k: nat) returns (i: nat)
    requires Initial(m) && IsRun(m, ls)
    requires k < |After(m, ls).log| && After(m, ls).log[k].Fired?
    ensures var t := After(m, ls);
      i < k && t.log[i] == Armed(t.log[k].node, t.log[k].when)
        && FateFrom(t.log, i, t.log[i].node, i + 1) == FiredOnce(k)
    ensures var t := After(m, ls);
      forall j :: 0 <= j < |t.log| && t.log[j].Armed? && FateFrom(t.log, j, t.log[j].node, j + 1) == FiredOnce(k) ==>
        j == i
  {
    InitialKept(m);
    RunKeeps(m, ls);
    i := OneArming(After(m, ls).log, k);
  }

  lemma OneArming(log: seq<Event>, k: nat) returns (i: nat)
    requires FiringsJustified(log) && k < |log| && log[k].Fired?
    ensures i < k && log[i] == Armed(log[k].node, log[k].when) && FateFrom(log, i, log[i].node, i + 1) == FiredOnce(k)
    ensures forall j :: 0 <= j < |log| && log[j].Armed? && FateFrom(log, j, log[j].node, j + 1) == FiredOnce(k) ==>
      j == i
  {
    var n := log[k].node;
    i := LiveArming(log[..k], n);
    assert Quiet(log, n, i, k) by { assert forall j :: i < j < k ==> log[..k][j] == log[j]; }
    FateReaches(log, i, n, i + 1, k);
    forall j | 0 <= j < |log| && log[j].Armed? && FateFrom(log, j, log[j].node, j + 1) == FiredOnce(k) ensures j == i {
      SameArming(log, i, j, k);
    }
  }

  lemma SameArming(log: seq<Event>, i: nat, j: nat, k: nat)
    requires FiringsJustified(log) && i < k < |log| && j < |log| && log[i].Armed? && log[j].Armed?
    requires log[k].Fired? && log[i].node == log[k].node && Quiet(log, log[i].node, i, k)
    requires FateFrom(log, j, log[j].node, j + 1) == FiredOnce(k)
    ensures i == j
  {
    FateSound(log, j, log[j].node, j + 1);
    assert TimerEvent(log[i], log[i].node) && TimerEvent(log[j], log[i].node);
  }

  lemma FateReaches(log: seq<Event>, i: nat, n: NodeId, k: nat, f: nat)
    requires i < k <= f < |log| && Quiet(log, n, i, f) && log[f].Fired? && log[f].node == n
    ensures FateFrom(log, i, n, k) == FiredOnce(f)
    decreases f - k
  {
    if k < f {
      assert !TimerEvent(log[k], n);
      FateReaches(log, i, n, k + 1, f);
    }
  }

  /** A retired node is never queued, armed, fired or dispatched again, whatever arrives for it later. */
  lemma RetirementIsFinal<C>(m: Machine<C>, ls: seq<Label<C>>, i: nat)
    requires Initial(m) && IsRun(m, ls)
    requires i < |After(m, ls).log| && After(m, ls).log[i].Retired?
    ensures var t := After(m, ls); var n := t.log[i].node;
      && n !in t.state.readyQueue && n !in t.state.timerLatest && n !in t.state.nodes && n !in t.state.components
      && n !in t.state.readyFlags && n !in CheckedOut(t.pc)
      && forall j :: i < j < |t.log| ==> !Mentions(t.log[j], n)
  {
    InitialKept(m);
    RunKeeps(m, ls);
    var t := After(m, ls);
    forall j | i < j < |t.log| ensures !Mentions(t.log[j], t.log[i].node) {
      assert t.log[j] == t.log[j];
    }
    assert t.log[i].node !in t.state.readyFlags;
  }

  ghost predicate AccountedFor<C>(m: Machine<C>, registered: set<NodeId>) {
    && m.state.readyFlags.Keys <= registered
    && (forall n :: n in registered ==> n in m.state.readyFlags || Retired(n) in m.log)
    && (forall j :: 0 <= j < |m.log| && !m.log[j].StopRequested? ==> m.log[j].node in registered)
  }

  lemma StepAccounts<C>(m: Machine<C>, l: Label<C>, registered: set<NodeId>)
    requires Sound(m) && Legal(m, l) && AccountedFor(m, registered)
    ensures AccountedFor(Next(m, l), registered)
  {
    var t := Next(m, l);
    LogGrows(m, l);
    NewEventsLive(m, l);
    forall n | n in registered ensures n in t.state.readyFlags || Retired(n) in t.log {
      if Retired(n) in m.log {
        var i :| 0 <= i < |m.log| && m.log[i] == Retired(n);
        assert t.log[i] == Retired(n);
      } else if n !in t.state.readyFlags {
        assert t.log[|m.log|] == Retired(n);
      }
    }
  }

  lemma {:induction false} RunAccounts<C>(m: Machine<C>, ls: seq<Label<C>>, registered: set<NodeId>)
    requires Sound(m) && IsRun(m, ls) && AccountedFor(m, registered)
    ensures AccountedFor(After(m, ls), registered)
    decreases |ls|
  {
    if ls != [] {
      StepKeepsSound(m, ls[0]);
      StepAccounts(m, ls[0], registered);
      RunAccounts(Next(m, ls[0]), ls[1..], registered);
    }
  }

  /**
   `run` returns only after `stop` or once every registered node has retired; at most one dispatch
   starts after `stop`; and once the last node has retired, nothing is dispatched any more.
   */
  lemma ExitAndStop<C>(m: Machine<C>, ls: seq<Label<C>>)
    requires Initial(m) && IsRun(m, ls)
    ensures var t := After(m, ls);
      t.pc.Exited? ==> StopRequested in t.log || forall n :: n in m.state.nodes ==> Retired(n) in t.log
    ensures DispatchesAfterStop(After(m, ls).log) <= 1
    ensures var t := After(m, ls);
      forall i, j :: 0 <= i < j < |t.log| && (forall n :: n in m.state.nodes ==> Retired(n) in t.log[..i]) ==>
        !t.log[j].Dispatched?
  {
    InitialKept(m);
    RunKeeps(m, ls);
    RunAccounts(m, ls, m.state.nodes.Keys);
    var t := After(m, ls);
    forall i, j | 0 <= i < j < |t.log| && (forall n :: n in m.state.nodes ==> Retired(n) in t.log[..i])
      ensures !t.log[j].Dispatched?
    {
      NoEventWhenAllRetired(t, m.state.nodes.Keys, i, j);
    }
  }

  lemma NoEventWhenAllRetired<C>(t: Machine<C>, registered: set<NodeId>, i: nat, j: nat)
    requires RetiredForGood(t) && AccountedFor(t, registered) && i < j < |t.log|
    requires forall n :: n in registered ==> Retired(n) in t.log[..i]
    ensures t.log[j].StopRequested?
  {
    forall n | n in registered ensures !Mentions(t.log[j], n) {
      var k :| 0 <= k < i && t.log[..i][k] == Retired(n);
      assert t.log[k] == Retired(n);
    }
  }

  // ----- when the scheduler stops -----

  /** The scheduler runs until it is stopped or no node is left. */
  ghost predicate RunsWhileNeeded<C>(m: Machine<C>) {
    m.running <==> StopRequested !in m.log && m.state.readyFlags.Keys != {}
  }

  lemma StepKeepsRunning<C>(m: Machine<C>, l: Label<C>)
    requires Sound(m) && Legal(m, l) && RunsWhileNeeded(m)
    ensures RunsWhileNeeded(Next(m, l))
  {
    if l.Drain? {
      StopFirings(m.log, DueInOrder(m.state.timerLatest, l.now), l.now);
    } else {
      StepLogs(m, l);
      if Next(m, l).log != m.log { LogSnoc(m.log, Next(m, l).log); }
      if l.Settle? && m.pc.job.outcome.finished {
        assert Next(m, l).state.readyFlags.Keys == m.state.nodes.Keys;
      }
    }
  }

  lemma {:induction false} RunKeepsRunning<C>(m: Machine<C>, ls: seq<Label<C>>)
    requires Sound(m) && IsRun(m, ls) && RunsWhileNeeded(m)
    ensures RunsWhileNeeded(After(m, ls))
    decreases |ls|
  {
    if ls != [] {
      StepKeepsSound(m, ls[0]);
      StepKeepsRunning(m, ls[0]);
      RunKeepsRunning(Next(m, ls[0]), ls[1..]);
    }
  }

  /**
   In every reachable state of a scheduler with nodes, `running` tells exactly whether there is a reason to
   go on: nobody has called `stop`, and some registered node has not retired.
   */
  lemma RunningTells<C>(m: Machine<C>, ls: seq<Label<C>>)
    requires Initial(m) && m.state.nodes.Keys != {} && IsRun(m, ls)
    ensures var t := After(m, ls);
      t.running <==> StopRequested !in t.log && exists n :: n in m.state.nodes && Retired(n) !in t.log
  {
    InitialKept(m);
    RunKeeps(m, ls);
    RunAccounts(m, ls, m.state.nodes.Keys);
    RunKeepsRunning(m, ls);
    var t := After(m, ls);
    if n :| n in t.state.readyFlags {
      assert forall i :: 0 <= i < |t.log| && t.log[i] == Retired(n) ==> t.log[i].node !in t.state.readyFlags;
      assert n in m.state.nodes && Retired(n) !in t.log;
    }
  }

  // ----- why a node is in the queue -----

  /**
   A node enters the queue for a reason: an accepted signal, a timer that fires, or a dispatch of its own
   that worked or left its flag up. Nothing else puts it there.
   */
  lemma EnqueuedForAReason<C>(m: Machine<C>, l: Label<C>, n: NodeId)
    requires Sound(m) && Legal(m, l) && n !in m.state.readyQueue && n in Next(m, l).state.readyQueue
    ensures match l
      case Signal(k) => k == n && n in m.state.readyFlags
      case Drain(now) => n in m.state.timerLatest && m.state.timerLatest[n] <= now
      case Settle =>
        && m.pc.job.node == n && !m.pc.job.outcome.finished
        && (m.pc.job.outcome.didWork || (n in m.state.readyFlags && m.state.readyFlags[n]))
      case _ => false
  {
    match l
    case Drain(now) => DrainFires(m.state, now);
    case Pop => PopKeepsStructure(m.state);
    case Settle => WithoutNoDup(m.state.readyQueue, m.pc.job.node);
    case _ =>
  }

  /** Settling an unfinished dispatch queues the node if it worked or its flag is up, and not otherwise. */
  lemma SettleRequeues<C>(m: Machine<C>)
    requires Sound(m) && Legal(m, Settle) && !m.pc.job.outcome.finished
    ensures m.pc.job.node in Next(m, Settle).state.readyQueue <==>
      m.pc.job.node in m.state.readyQueue || m.pc.job.outcome.didWork || FlagOf(m.state, m.pc.job.node)
  {
  }

  /** An idle dispatch uses up the signals before it: with nothing new, the node is not queued again. */
  lemma IdleDispatchRests<C>(m: Machine<C>, r: Reply<C>)
    requires Sound(m) && m.pc.Running? && m.pc.job.phase.Fetched?
    requires !m.pc.job.outcome.didWork && !m.pc.job.outcome.finished
    requires m.pc.job.node !in m.state.readyQueue && r.result.NoWork? && !r.raised
    ensures var t := Next(Next(m, Begin), Call(r));
      Legal(t, Settle) && m.pc.job.node !in Next(t, Settle).state.readyQueue
  {
    var a := Next(m, Begin);
    StepKeepsSound(m, Begin);
    StepKeepsSound(a, Call(r));
    SettleRequeues(Next(a, Call(r)));
  }

  predicate Outside<C>(l: Label<C>) {
    l.Signal? || l.Wake? || l.Stop?
  }

  /** Whatever others do, the flag of the node that is out stays up. */
  lemma {:induction false} FlagStaysUp<C>(m: Machine<C>, ls: seq<Label<C>>)
    requires IsRun(m, ls) && m.pc.Running? && FlagOf(m.state, m.pc.job.node)
    requires forall i :: 0 <= i < |ls| ==> Outside(ls[i])
    ensures After(m, ls).pc == m.pc && FlagOf(After(m, ls).state, m.pc.job.node)
    decreases |ls|
  {
    if ls != [] {
      assert Outside(ls[0]);
      FlagStaysUp(Next(m, ls[0]), ls[1..]);
    }
  }

  /** A component that raises its own flag and stops working comes back: its node is queued when it is settled. */
  lemma OwnFlagIsServed<C>(m: Machine<C>, r: Reply<C>, ls: seq<Label<C>>)
    requires Sound(m) && Legal(m, Call(r)) && m.pc.job.node in m.state.readyFlags && !m.pc.job.outcome.finished
    requires r.result.NoWork? && r.raised && IsRun(Next(m, Call(r)), ls)
    requires forall i :: 0 <= i < |ls| ==> Outside(ls[i])
    ensures var t := After(Next(m, Call(r)), ls);
      Legal(t, Settle) && m.pc.job.node in Next(t, Settle).state.readyQueue
  {
    StepKeepsSound(m, Call(r));
    var u := Next(m, Call(r));
    FlagStaysUp(u, ls);
    RunKeepsSound(u, ls);
    SettleRequeues(After(u, ls));
  }
}
