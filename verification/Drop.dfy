/**
 The `Drop` component: a concrete reader that keeps the contract of the quiescence theorem. While a
 call runs, the producer may write to IN and close it, and signals may arrive.
 */
module Drop {
  import opened Prelude
  import opened ComponentApi
  import opened SchedulerModel
  import opened Machine
  import opened Network
  import Ring

  const SIGNAL_BUFSIZE: nat := 2

  /** What the surroundings do at one moment; a packet that finds the ring full is not written. */
  datatype Gust<P> = Gust(packets: seq<P>, closes: bool, signals: seq<string>)

  /** The moments of a call: before each look at IN, between that look and the read, and before the end. */
  datatype Moment = BeforeLook(round: nat) | BeforeRead(round: nat) | BeforeEnd

  /** The reply channel after these signals have been read: a full channel drops the pong. */
  function Replies(replies: seq<string>, heard: seq<string>): seq<string> {
    if heard == [] then replies
    else
      var before, last := Replies(replies, heard[..|heard| - 1]), heard[|heard| - 1];
      if last == "ping" && |before| < SIGNAL_BUFSIZE then before + ["pong"] else before
  }

  /** A call ends by stop exactly when the last signal it read says so; it reads none after that. */
  ghost predicate Heeded(heard: seq<string>, stopped: bool) {
    && (stopped <==> heard != [] && heard[|heard| - 1] == "stop")
    && forall i :: 0 <= i < |heard| - 1 ==> heard[i] != "stop"
  }

  /**
   What a call that finds `ring` and leaves `now` reports, given what happened to the ring in between:
   it reads until its budget is used up or the ring is empty, and looks whether IN is abandoned last.
   */
  ghost predicate Performed<P>(ring: seq<P>, events: seq<Ring.RingEvent<P>>, now: seq<P>, capacity: nat,
      context: Context, after: Context, result: CallResult, stopped: bool, abandoned: bool) {
    var taken := Ring.TakenIn(events);
    && Ring.Leads(ring, events, now, capacity)
    && taken <= context.remainingBudget && after == context.(remainingBudget := context.remainingBudget - taken)
    && (!stopped && after.remainingBudget > 0 ==> Ring.SawEmpty in events)
    && result == (if stopped then Finished else if taken > 0 then DidWork(taken)
                  else if abandoned then Finished else NoWork)
  }

  class DropComponent<P> {
    const capacity: nat

    /** The ring behind IN, and whether its producer is gone. */
    var inn: seq<P>
    var abandoned: bool
    var signalsIn: seq<string>
    var signalsOut: seq<string>

    /** The ring, the signals waiting and the replies as the call began, and what it met and read since. */
    ghost var ring: seq<P>
    ghost var events: seq<Ring.RingEvent<P>>
    ghost var waiting: seq<string>
    ghost var replied: seq<string>
    ghost var heard: seq<string>

    ghost predicate Valid()
      reads this
    {
      Ring.Leads(ring, events, inn, capacity)
    }

    /** The signals read were answered in turn, and none before the last was a stop. */
    ghost predicate Attending(stopped: bool)
      reads this
    {
      Heeded(heard, stopped) && signalsOut == Replies(replied, heard) && waiting <= heard + signalsIn
    }

    /**
     So many of the signals that were waiting have been read, as far as there were so many; and a packet is only
     taken once the first two of them, if they were there, turned out to be no stop.
     */
    ghost predicate Alert(signals: nat)
      reads this
    {
      && Min(signals, |waiting|) <= |heard|
      && (Ring.TakenIn(events) > 0 ==>
            Min(2, |waiting|) <= |heard| && forall i :: 0 <= i < Min(2, |waiting|) ==> waiting[i] != "stop")
    }

    constructor (capacity: nat, inn: seq<P>, abandoned: bool, signalsIn: seq<string>)
      ensures this.capacity == capacity && this.inn == inn && this.abandoned == abandoned
      ensures this.signalsIn == signalsIn && signalsOut == [] && Valid()
    {
      this.capacity, this.inn, this.abandoned, this.signalsIn, signalsOut := capacity, inn, abandoned, signalsIn, [];
      ring, events, waiting, replied, heard := inn, [], signalsIn, [], [];
    }

    method Meanwhile(g: Gust<P>)
      requires Valid() && Attending(false)
      modifies this`inn, this`abandoned, this`signalsIn, this`events
      ensures Valid() && Attending(false) && abandoned == (old(abandoned) || g.closes)
        && signalsIn == old(signalsIn) + g.signals
      ensures inn == old(inn) + (if old(abandoned) then [] else Ring.Fitting(old(inn), g.packets, capacity))
      ensures Ring.TakenIn(events) == Ring.TakenIn(old(events)) && old(events) <= events
    {
      if !abandoned {
        var written := Ring.Fitting(inn, g.packets, capacity);
        Ring.LeadsArrivals(ring, events, inn, capacity, written);
        Ring.TakenConcat(events, Ring.Arrivals(written));
        Ring.TakenArrivals(written);
        inn, events := inn + written, events + Ring.Arrivals(written);
        abandoned := g.closes;
      }
      signalsIn := signalsIn + g.signals;
    }

    /** `try_recv` on the signal channel, answering a ping: a full reply channel drops the pong. */
    method HandleSignal() returns (stop: bool)
      requires Attending(false)
      modifies this`signalsIn, this`signalsOut, this`heard
      ensures Attending(stop) && stop == StopNext(old(signalsIn))
      ensures heard == old(heard) + (if old(signalsIn) == [] then [] else [old(signalsIn)[0]])
      ensures signalsIn == (if old(signalsIn) == [] then [] else old(signalsIn)[1..])
      ensures signalsOut == old(signalsOut) +
        if old(signalsIn) != [] && old(signalsIn)[0] == "ping" && |old(signalsOut)| < 2 then ["pong"] else []
    {
      stop := false;
      if signalsIn != [] {
        var text := signalsIn[0];
        assert (heard + [text])[..|heard|] == heard && heard + signalsIn == heard + [text] + signalsIn[1..];
        signalsIn := signalsIn[1..];
        heard := heard + [text];
        if text == "stop" {
          stop := true;
        } else if text == "ping" && |signalsOut| < SIGNAL_BUFSIZE {
          signalsOut := signalsOut + ["pong"];
        }
      }
    }

    /** Reads as much as there is, within the budget. */
    method ReadChunk(budget: nat) returns (num: nat)
      requires Valid() && budget > 0 && inn != []
      modifies this`inn, this`events
      ensures Valid() && 0 < num == Min(|old(inn)|, budget) && inn == old(inn)[num..]
      ensures Ring.TakenIn(events) == Ring.TakenIn(old(events)) + num && old(events) <= events
    {
      num := if |inn| < budget then |inn| else budget;
      Ring.LeadsReads(ring, events, inn, capacity, num);
      Ring.TakenConcat(events, Ring.Reads(num));
      Ring.TakenReads<P>(num);
      inn, events := inn[num..], events + Ring.Reads(num);
    }

    /**
     The states from which a packet can be lost: IN is still open and empty, and no stop is waiting. A
     producer that writes and closes after the last look leaves its packet behind.
     */
    predicate Exposed()
      reads this
    {
      !abandoned && inn == [] && !StopNext(signalsIn) && capacity > 0
    }

    /** The state while a call reads on: so far it took `workUnits` packets and paid for each. */
    ghost predicate Reading(context: Context, after: Context, workUnits: nat, closed: bool)
      reads this
    {
      && Valid() && Attending(false) && Alert(1) && (closed ==> abandoned)
      && workUnits == Ring.TakenIn(events) <= context.remainingBudget
      && after == context.(remainingBudget := context.remainingBudget - workUnits)
    }

    /** The state at a look at IN. `quiet` says that nothing has come to an exposed state so far. */
    ghost predicate AtLook(context: Context, after: Context, workUnits: nat, closed: bool, quiet: bool)
      reads this
    {
      && Reading(context, after, workUnits, closed)
      && (workUnits == 0 ==> ring <= inn && (closed ==> inn == ring))
      && (quiet ==> inn == [] && !abandoned && workUnits == 0)
    }

    /** The read of a round, and what happens until the next look. */
    method ReadOn(before: Context, units: nat, g: Gust<P>, ghost context: Context, ghost closed: bool)
      returns (after: Context, workUnits: nat)
      requires Reading(context, before, units, closed) && Alert(2) && before.remainingBudget > 0 && inn != []
      modifies this`inn, this`abandoned, this`signalsIn, this`events
      ensures AtLook(context, after, workUnits, closed, false) && after.remainingBudget < before.remainingBudget
      ensures workUnits > 0
    {
      var num := ReadChunk(before.remainingBudget);
      workUnits := units + num;
      after := before.(remainingBudget := before.remainingBudget - num);
      Meanwhile(g);
    }

    /** One round: the signals, the read, and what happens until the next look. */
    method Round(before: Context, units: nat, round: nat, world: Moment -> Gust<P>, ghost context: Context,
      ghost closed: bool)
      returns (after: Context, workUnits: nat, stop: bool)
      requires AtLook(context, before, units, closed, false) && before.remainingBudget > 0 && inn != []
      modifies this`inn, this`abandoned, this`signalsIn, this`signalsOut, this`events, this`heard
      ensures stop ==>
        Valid() && Attending(true) && Alert(1) && (closed ==> abandoned)
        && Ring.TakenIn(events) == units == workUnits && after == before
      ensures !stop ==>
        AtLook(context, after, workUnits, closed, false) && after.remainingBudget < before.remainingBudget
      ensures !stop ==> workUnits > 0
    {
      after, workUnits := before, units;
      Meanwhile(world(BeforeRead(round)));
      stop := HandleSignal();
      if !stop {
        after, workUnits := ReadOn(before, units, world(BeforeLook(round + 1)), context, closed);
      }
    }

    /**
     Every call performs as said, whatever the surroundings do; it answers the signals it read in turn. It reads
     one first, and takes no packet before a second; a stop among these two is heeded with nothing taken.
     If it finishes without a stop and IN is not empty then, the state it began in was exposed: in
     particular IN is empty if it was abandoned before. If the surroundings keep quiet until the end,
     an exposed state shows at the end just what they do there.
     */
    method Process(context: Context, world: Moment -> Gust<P>)
      returns (after: Context, result: CallResult, ghost stopped: bool)
      modifies this
      ensures Valid() && ring == old(inn) && (old(abandoned) ==> abandoned)
      ensures Performed(old(inn), events, inn, capacity, context, after, result, stopped, abandoned)
      ensures Attending(stopped) && waiting == old(signalsIn) && replied == old(signalsOut)
      ensures result.Finished? && !stopped && context.remainingBudget > 0 && inn != [] ==> old(Exposed())
      ensures result.Finished? && !stopped && context.remainingBudget > 0 && old(abandoned) ==> inn == []
      ensures Alert(1) && (StopNext(old(signalsIn)) ==> stopped && events == [])
      ensures QuietUntilEnd(world) && old(Exposed()) && context.remainingBudget > 0 ==>
        && !stopped && inn == Ring.Fitting([], world(BeforeEnd).packets, capacity)
        && result == if world(BeforeEnd).closes then Finished else NoWork
    {
      var workUnits: nat := 0;
      after := context;
      Begin();
      var stop := HandleSignal();
      assert Alert(1);
      if stop {
        return after, Finished, true;
      }
      after, workUnits, stop := ReadAll(context, world);
      if stop {
        return after, Finished, true;
      }
      Meanwhile(world(BeforeEnd));
      stopped := false;
      if workUnits > 0 {
        result := DidWork(workUnits);
      } else if abandoned {
        result := Finished;
      } else {
        result := NoWork;
      }
    }

    /** A call begins: nothing has been read yet. */
    ghost method Begin()
      modifies this`ring, this`events, this`waiting, this`replied, this`heard
      ensures ring == inn && events == [] && waiting == signalsIn && replied == signalsOut && heard == []
      ensures Valid() && Attending(false)
    {
      ring, events, waiting, replied, heard := inn, [], signalsIn, signalsOut, [];
    }

    /** The reading loop. */
    method ReadAll(context: Context, world: Moment -> Gust<P>) returns (after: Context, workUnits: nat, stop: bool)
      requires Valid() && Attending(false) && Alert(1) && events == [] && ring == inn
      modifies this`inn, this`abandoned, this`signalsIn, this`signalsOut, this`events, this`heard
      ensures Valid() && Attending(stop) && Alert(1) && (old(abandoned) ==> abandoned)
      ensures workUnits == Ring.TakenIn(events) <= context.remainingBudget
      ensures after == context.(remainingBudget := context.remainingBudget - workUnits)
      ensures !stop && after.remainingBudget > 0 ==> Ring.SawEmpty in events
      ensures !stop && workUnits == 0 && context.remainingBudget > 0 ==> inn == [] && ring == []
      ensures QuietUntilEnd(world) && old(inn == [] && !abandoned) ==>
        !stop && inn == [] && !abandoned && workUnits == 0
    {
      ghost var closed, quiet := abandoned, QuietUntilEnd(world) && inn == [] && !abandoned;
      after, workUnits, stop := context, 0, false;
      var round := 0;
      Meanwhile(world(BeforeLook(round)));
      while after.remainingBudget > 0 && inn != []
        invariant AtLook(context, after, workUnits, closed, quiet)
        decreases after.remainingBudget
      {
        after, workUnits, stop := Round(after, workUnits, round, world, context, closed);
        if stop {
          return;
        }
        round := round + 1;
      }
      if after.remainingBudget > 0 {
        SeeEmpty();
      }
    }

    /** IN has just been found empty. */
    ghost method SeeEmpty()
      requires Valid() && inn == []
      modifies this`events
      ensures Valid() && events == old(events) + [Ring.SawEmpty] && Ring.TakenIn(events) == Ring.TakenIn(old(events))
    {
      Ring.LeadsSnoc(ring, events, inn, capacity, Ring.SawEmpty);
      Ring.TakenConcat(events, [Ring.SawEmpty]);
      events := events + [Ring.SawEmpty];
    }

    /** From every exposed state some surroundings do make a call lose a packet. */
    method LosingCall(context: Context, p: P) returns (after: Context, result: CallResult)
      requires Exposed() && context.remainingBudget > 0
      modifies this
      ensures result.Finished? && inn == [p]
    {
      var world := (m: Moment) => if m.BeforeEnd? then Gust([p], true, []) else Gust([], false, []);
      ghost var stopped;
      after, result, stopped := Process(context, world);
    }
  }

  ghost predicate QuietUntilEnd<P>(world: Moment -> Gust<P>) {
    forall m: Moment :: !m.BeforeEnd? ==> world(m) == Gust([], false, [])
  }

  /**
   What a report means: NoWork and a finish that no stop caused come from calls that began with an empty
   ring and found it empty, so all that is in it now arrived later; work is reported exactly, and the
   packets reported are the front of what was there and what arrived.
   */
  lemma DropReports<P>(ring: seq<P>, events: seq<Ring.RingEvent<P>>, now: seq<P>, capacity: nat,
      context: Context, after: Context, result: CallResult, stopped: bool, abandoned: bool)
    requires Performed(ring, events, now, capacity, context, after, result, stopped, abandoned)
      && context.remainingBudget > 0
    ensures result.NoWork? || (result.Finished? && !stopped) ==> ring == [] && now == Ring.ArrivedIn(events)
    ensures result.DidWork? ==>
      0 < result.units <= context.remainingBudget && result.units <= |ring + Ring.ArrivedIn(events)|
    ensures result.DidWork? ==> now == (ring + Ring.ArrivedIn(events))[result.units..]
    ensures result.NoWork? ==> !abandoned
    ensures result.Finished? ==> stopped || abandoned
    ensures !result.Panicked?
  {
    Ring.Contents(ring, events, now, capacity);
    if Ring.TakenIn(events) == 0 && !stopped {
      Ring.EmptyFromTheStart(ring, events, now, capacity);
      assert ring + Ring.ArrivedIn(events) == Ring.ArrivedIn(events);
    }
  }

  /**
   Drop keeps the contract: any call that `Process` can make, arrivals in mid-call included, is a legal
   stretch of the network's run, and returns NoWork only after the ring was found empty.
   */
  lemma DropKeepsContract<C, P>(top: Topology, net: Net<C, P>, ch: Channel, component: C,
      events: seq<Ring.RingEvent<P>>, now: seq<P>, after: Context, result: CallResult, stopped: bool, abandoned: bool)
    requires Sound(net.machine) && ch in top.reader && ch in net.inbox && InCall(net, top.reader[ch])
    requires forall c :: c in top.drained && c in top.reader && top.reader[c] == top.reader[ch] ==> c == ch
    requires Performed(net.inbox[ch], events, now, top.capacity, net.machine.pc.job.context, after, result, stopped,
      abandoned)
    ensures var reply := Reply(component, after, result, false);
      var ls := RingLabels<C, P>(ch, events) + [Sched(Call(reply))];
      && NetRun(top, net, ls)
      && NetAfter(top, net, ls).machine == Next(net.machine, Call(reply))
      && NetAfter(top, net, ls).inbox == net.inbox[ch := now]
  {
    CallKeepsContract(top, net, ch, events, Reply(component, after, result, false));
  }
}
