/**
 The `Delay` component: packets wait in a queue until the scheduler's timer for the front packet has
 fired. Time is in microseconds. While a call runs, the producer may write to IN and close it, the
 consumer may make room on OUT, signals may arrive and the clock moves on: what happens at each moment
 of a call is a parameter of the call.
 */
module Delay {
  import opened Prelude
  import opened ComponentApi
  import Ring

  const DEFAULT_DELAY: nat := 50
  const DEFAULT_IO_POLL_INTERVAL: nat := 25_000

  /** A configuration packet: a parsed duration, an unreadable one, or not text at all. */
  datatype Conf = Duration(us: nat) | Unreadable | NotText

  datatype Delayed<P> = Delayed(data: P, readyTime: Instant)

  /** A packet taken from IN or pushed to OUT, with the clock at that moment. */
  datatype Passage<P> = Passage(data: P, at: Instant)

  datatype DelayState<P> = DelayState(delay: Option<nat>, pending: seq<Delayed<P>>)

  datatype Ending = Paused | EndOfInput | StopSignal

  /** What one call did: packets released, whether OUT was found full, packets accepted, and how it ended. */
  datatype Effect<P> = Effect(delay: nat, released: nat, outFull: bool, accepted: seq<Passage<P>>, ending: Ending)

  function Stamps<P>(xs: seq<Passage<P>>, delay: nat): seq<Delayed<P>> {
    seq(|xs|, i requires 0 <= i < |xs| => Delayed(xs[i].data, xs[i].at + delay))
  }

  function DataOf<P>(xs: seq<Passage<P>>): seq<P> {
    seq(|xs|, i requires 0 <= i < |xs| => xs[i].data)
  }

  function PendingData<P>(xs: seq<Delayed<P>>): seq<P> {
    seq(|xs|, i requires 0 <= i < |xs| => xs[i].data)
  }

  /** How many packets at the front of the queue a timer fired for `stamp` covers. */
  function DueCount<P>(pending: seq<Delayed<P>>, stamp: Option<Instant>): (k: nat)
    ensures k <= |pending|
    ensures forall i :: 0 <= i < k ==> stamp.Some? && pending[i].readyTime <= stamp.value
    ensures k < |pending| && stamp.Some? ==> pending[k].readyTime > stamp.value
    ensures stamp.None? ==> k == 0
  {
    if stamp.None? || pending == [] || pending[0].readyTime > stamp.value then 0
    else 1 + DueCount(pending[1..], stamp)
  }

  function AfterEffect<P>(s: DelayState<P>, f: Effect<P>): DelayState<P>
    requires f.released <= |s.pending|
  {
    DelayState(Some(f.delay), s.pending[f.released..] + Stamps(f.accepted, f.delay))
  }

  /** The context after a call that was not stopped: wrapped budget, stamp consumed, request for the front packet. */
  function ContextAfter<P>(s: DelayState<P>, ctx: Context, f: Effect<P>): Context
    requires f.released <= |s.pending|
  {
    var pending := AfterEffect(s, f).pending;
    ctx.(remainingBudget := (ctx.remainingBudget - f.released - |f.accepted|) % U32,
         timerFiredAt := None,
         wakeAt := if pending == [] then ctx.wakeAt else Some(pending[0].readyTime))
  }

  function ResultOf<P>(f: Effect<P>): CallResult {
    if !f.ending.Paused? then Finished
    else if f.released + |f.accepted| > 0 then DidWork(f.released + |f.accepted|)
    else NoWork
  }

  ghost predicate Between<P>(xs: seq<Passage<P>>, lo: Instant, hi: Instant) {
    && (forall i :: 0 <= i < |xs| ==> lo <= xs[i].at <= hi)
    && (forall i, j :: 0 <= i < j < |xs| ==> xs[i].at <= xs[j].at)
  }

  /** What a call that starts at clock `lo` and ends at clock `hi` can do. */
  ghost predicate Possible<P>(s: DelayState<P>, ctx: Context, f: Effect<P>, lo: Instant, hi: Instant) {
    var due := DueCount(s.pending, ctx.timerFiredAt);
    && lo <= hi
    && (s.delay.Some? ==> f.delay == s.delay.value)
    && (if f.outFull then f.released < due else f.released <= due)
    && (!f.ending.StopSignal? ==> f.released == due || f.outFull)
    && (f.released < ctx.remainingBudget ==> f.released + |f.accepted| <= ctx.remainingBudget)
    && Between(f.accepted, lo, hi)
    && (f.ending.EndOfInput? ==> AfterEffect(s, f).pending == [])
  }

  /**
   How the delay is set: by the first packet on CONF if that is a duration, to 50 microseconds if that is
   unreadable or not there; and once it is set it stays.
   */
  ghost predicate DelayRead(before: Option<nat>, conf: seq<Conf>, after: Option<nat>) {
    && (before.Some? ==> after == before)
    && (before.None? && conf != [] && conf[0].Duration? ==> after == Some(conf[0].us))
    && (before.None? && conf != [] && conf[0].Unreadable? ==> after == Some(50))
    && (before.None? && conf == [] ==> after == Some(50))
  }

  /** The signals read grew from `before` to `after`, with a stop at the end or none at all. */
  ghost predicate Heard(before: seq<string>, after: seq<string>, stop: bool) {
    && before <= after
    && (stop ==> |before| < |after| && after[|after| - 1] == "stop")
    && forall i :: |before| <= i < |after| - (if stop then 1 else 0) ==> after[i] != "stop"
  }

  // ----- the surroundings of a call -----

  /** What the surroundings do at one moment; a packet that finds the ring of IN full is not written. */
  datatype Gust<P> = Gust(packets: seq<P>, closes: bool, room: nat, signals: seq<string>, ticks: nat)

  /** The moments of a call, by turn of its loop: each comes before the named action. */
  datatype Moment = BeforeSignal(turn: nat) | BeforeRelease(turn: nat, k: nat) | BeforeAccept(turn: nat) | BeforeEnd

  /** What a call sees of its surroundings: IN, its size, whether it is abandoned, the room on OUT, signals waiting. */
  datatype Around<P> = Around(inn: seq<P>, capacity: nat, closed: bool, room: nat, signals: seq<string>)

  function Written<P>(e: Around<P>, g: Gust<P>): seq<P> {
    if e.closed then [] else Ring.Fitting(e.inn, g.packets, e.capacity)
  }

  function Blown<P>(e: Around<P>, g: Gust<P>): Around<P> {
    Around(e.inn + Written(e, g), e.capacity, e.closed || g.closes, e.room + g.room, e.signals + g.signals)
  }

  /** Neither of the two signals that a call reads first is a stop. */
  predicate NoStopWaits(signals: seq<string>) {
    !StopNext(signals) && (signals != [] ==> !StopNext(signals[1..]))
  }

  /** IN is empty and stays so. */
  predicate Dry<P>(e: Around<P>) {
    e.inn == [] && (e.closed || e.capacity == 0)
  }

  /** No room on OUT vanishes, and a call finds OUT full only once it has used up the room there was. */
  predicate RoomSpent<P>(room: nat, left: nat, f: Effect<P>) {
    room <= left + f.released && (f.outFull ==> room <= f.released)
  }

  /** The gust makes room at most. */
  predicate Still<P>(g: Gust<P>) {
    g.packets == [] && !g.closes && g.signals == []
  }

  ghost predicate StillUntilEnd<P>(world: Moment -> Gust<P>) {
    forall m: Moment :: !m.BeforeEnd? ==> Still(world(m))
  }

  // ----- what the component and its surroundings are at one moment -----

  /** All packets ever written to IN, those taken from it, those pushed to OUT. */
  datatype History<P> = History(arrived: seq<P>, taken: seq<Passage<P>>, sent: seq<Passage<P>>)

  datatype Stand<P> = Stand(state: DelayState<P>, clock: Instant, history: History<P>, heard: seq<string>,
    env: Around<P>)

  /** The histories fit together: what arrived was taken or is in IN; what was taken was sent or is pending. */
  ghost predicate Balanced<P>(z: Stand<P>) {
    && z.history.arrived == DataOf(z.history.taken) + z.env.inn
    && DataOf(z.history.taken) == DataOf(z.history.sent) + PendingData(z.state.pending)
  }

  /** After a gust. */
  function Swept<P>(z: Stand<P>, g: Gust<P>): Stand<P> {
    z.(env := Blown(z.env, g),
       clock := z.clock + g.ticks,
       history := z.history.(arrived := z.history.arrived + Written(z.env, g)))
  }

  /** After one look at the signals. */
  function Listened<P>(z: Stand<P>): Stand<P> {
    if z.env.signals == [] then z
    else z.(env := z.env.(signals := z.env.signals[1..]), heard := z.heard + [z.env.signals[0]])
  }

  /** After the front packet went out. */
  function FrontSent<P>(z: Stand<P>): Stand<P>
    requires z.state.pending != [] && z.env.room > 0
  {
    z.(state := z.state.(pending := z.state.pending[1..]),
       env := z.env.(room := z.env.room - 1),
       history := z.history.(sent := z.history.sent + [Passage(z.state.pending[0].data, z.clock)]))
  }

  function NextTaken<P>(z: Stand<P>): seq<Passage<P>> {
    if z.env.inn == [] then [] else [Passage(z.env.inn[0], z.clock)]
  }

  /** After one look at IN: a packet that is there is queued for `d` microseconds from now. */
  function Accepted<P>(z: Stand<P>, d: nat): Stand<P> {
    z.(state := z.state.(pending := z.state.pending + Stamps(NextTaken(z), d)),
       env := z.env.(inn := if z.env.inn == [] then [] else z.env.inn[1..]),
       history := z.history.(taken := z.history.taken + NextTaken(z)))
  }

  lemma SentBalanced<P>(z: Stand<P>)
    requires Balanced(z) && z.state.pending != [] && z.env.room > 0
    ensures Balanced(FrontSent(z))
  {
    assert z.state.pending == [z.state.pending[0]] + z.state.pending[1..];
  }

  lemma AcceptedBalanced<P>(z: Stand<P>, d: nat)
    requires Balanced(z)
    ensures Balanced(Accepted(z, d))
  {
    var y := Accepted(z, d);
    assert DataOf(y.history.taken) == DataOf(z.history.taken) + DataOf(NextTaken(z));
    assert PendingData(y.state.pending) == PendingData(z.state.pending) + DataOf(NextTaken(z));
    assert z.env.inn == DataOf(NextTaken(z)) + y.env.inn;
  }

  // ----- legs: stretches of a call -----

  /** A stretch of a call: from one state and context to another, between two readings of the clock. */
  datatype Leg<P> = Leg(start: DelayState<P>, context: Context, state: DelayState<P>, after: Context,
                        effect: Effect<P>, lo: Instant, hi: Instant)

  /** A whole call: what it did is possible, and state, context and report are what that effect makes of them. */
  ghost predicate Performed<P>(s: DelayState<P>, c: Context, t: DelayState<P>, a: Context, result: CallResult,
                               f: Effect<P>, lo: Instant, hi: Instant) {
    && Possible(s, c, f, lo, hi) && t == AfterEffect(s, f) && result == ResultOf(f)
    && (!f.ending.StopSignal? ==> a == ContextAfter(s, c, f))
  }

  /** Reading the configuration first does not change what the call does. */
  lemma OnceConfigured<P>(s: DelayState<P>, mid: DelayState<P>, c: Context, t: DelayState<P>, a: Context,
                          result: CallResult, f: Effect<P>, lo: Instant, hi: Instant)
    requires Performed(mid, c, t, a, result, f, lo, hi) && mid.pending == s.pending && mid.delay == Some(f.delay)
    requires s.delay.Some? ==> s.delay == mid.delay
    ensures Performed(s, c, t, a, result, f, lo, hi)
  {
  }

  /** The end of a call: the request for the front packet, whatever a full OUT had asked for. */
  lemma CallEnds<P>(leg: Leg<P>, ended: bool, hi: Instant)
    requires Worked(leg) && leg.hi <= hi && (ended ==> leg.state.pending == [])
    ensures var g := leg.effect.(ending := if ended then EndOfInput else Paused);
      var pending := leg.state.pending;
      && Possible(leg.start, leg.context, g, leg.lo, hi) && leg.state == AfterEffect(leg.start, g)
      && (if pending != [] then leg.after.(wakeAt := Some(pending[0].readyTime)) else leg.after)
         == ContextAfter(leg.start, leg.context, g)
  {
    WorkedLater(leg, hi);
    if leg.effect.outFull {
      FullLeavesFront(leg.start, leg.context, leg.effect, leg.lo, hi);
    }
  }

  lemma WorkedLater<P>(leg: Leg<P>, hi: Instant)
    requires Worked(leg) && leg.hi <= hi
    ensures Worked(leg.(hi := hi))
  {
  }

  lemma FullLeavesFront<P>(s: DelayState<P>, c: Context, f: Effect<P>, lo: Instant, hi: Instant)
    requires Possible(s, c, f, lo, hi) && f.outFull
    ensures f.released < |s.pending| && AfterEffect(s, f).pending != []
    ensures AfterEffect(s, f).pending[0] == s.pending[f.released]
  {
  }

  /** The budget after `used` decrements of a 32-bit counter. */
  function Wrapped(budget: nat, used: nat): (r: nat)
    ensures used <= budget < U32 ==> r == budget - used
    ensures (r - 1) % U32 == (budget - (used + 1)) % U32
  {
    (budget - used) % U32
  }

  /** The packets that went out: the first k of the queue, in order, within the given span of time. */
  ghost predicate Released<P>(times: seq<Passage<P>>, pending: seq<Delayed<P>>, k: nat, lo: Instant, hi: Instant) {
    k <= |pending| && DataOf(times) == PendingData(pending[..k]) && Between(times, lo, hi)
  }

  lemma ReleasedLater<P>(times: seq<Passage<P>>, pending: seq<Delayed<P>>, k: nat, lo: Instant, mid: Instant,
    hi: Instant)
    requires Released(times, pending, k, lo, mid) && mid <= hi
    ensures Released(times, pending, k, lo, hi)
  {
  }

  lemma ReleasedEarlier<P>(times: seq<Passage<P>>, pending: seq<Delayed<P>>, k: nat, lo: Instant, mid: Instant,
    hi: Instant)
    requires Released(times, pending, k, mid, hi) && lo <= mid
    ensures Released(times, pending, k, lo, hi)
  {
  }

  lemma ReleasedMore<P>(times: seq<Passage<P>>, pending: seq<Delayed<P>>, k: nat, lo: Instant, p: Passage<P>)
    requires k < |pending| && lo <= p.at && p.data == pending[k].data && Released(times, pending, k, lo, p.at)
    ensures Released(times + [p], pending, k + 1, lo, p.at)
  {
    assert pending[..k + 1] == pending[..k] + [pending[k]];
    assert DataOf(times + [p]) == DataOf(times) + [p.data];
  }

  lemma DueCountAt<P>(pending: seq<Delayed<P>>, stamp: Option<Instant>, k: nat)
    requires stamp.Some? && k <= DueCount(pending, stamp) && k < |pending|
    ensures pending[k].readyTime <= stamp.value <==> k < DueCount(pending, stamp)
  {
  }

  /** The histories grew by what the effect accepted and by the passages of what it released. */
  ghost predicate Recorded<P>(h0: History<P>, h: History<P>, s: DelayState<P>, f: Effect<P>, times: seq<Passage<P>>,
                              lo: Instant, hi: Instant) {
    h.taken == h0.taken + f.accepted && h.sent == h0.sent + times && Released(times, s.pending, f.released, lo, hi)
  }

  /** The context inside the loop: budget used up, stamp consumed; a timer request is only there if OUT was full. */
  function ContextUsed<P>(context: Context, after: Context, f: Effect<P>): Context {
    context.(remainingBudget := Wrapped(context.remainingBudget, f.released + |f.accepted|),
             timerFiredAt := None,
             wakeAt := if f.outFull then after.wakeAt else context.wakeAt)
  }

  ghost predicate Worked<P>(leg: Leg<P>) {
    && leg.effect.ending.Paused? && Possible(leg.start, leg.context, leg.effect, leg.lo, leg.hi)
    && leg.state == AfterEffect(leg.start, leg.effect) && leg.after == ContextUsed(leg.context, leg.after, leg.effect)
  }

  /** A release and nothing else is an effect of its own. */
  lemma ReleasedIsWorked<P>(leg: Leg<P>)
    requires leg.lo <= leg.hi && leg.start.delay == Some(leg.effect.delay) == leg.state.delay
    requires leg.effect.accepted == [] && leg.effect.ending.Paused?
    requires var due := DueCount(leg.start.pending, leg.context.timerFiredAt);
      if leg.effect.outFull then leg.effect.released < due else leg.effect.released == due
    requires leg.after == ContextUsed(leg.context, leg.after, leg.effect)
    requires leg.state.pending == leg.start.pending[leg.effect.released..]
    ensures Worked(leg)
  {
    assert leg.state.pending + Stamps([], leg.effect.delay) == leg.state.pending;
  }

  lemma WorkedAccept<P>(leg: Leg<P>, ps: seq<Passage<P>>, hi: Instant)
    requires 0 < leg.context.remainingBudget < U32 && Worked(leg) && leg.effect.accepted == []
    requires |ps| <= 1 && (ps != [] ==> ps[0].at == hi) && leg.hi <= hi
    ensures Worked(leg.(
      state := DelayState(leg.state.delay, leg.state.pending + Stamps(ps, leg.effect.delay)),
      after := if ps == [] then leg.after else leg.after.(remainingBudget := (leg.after.remainingBudget - 1) % U32),
      effect := leg.effect.(accepted := ps),
      hi := hi))
  {
    assert leg.start.pending[leg.effect.released..] + Stamps([], leg.effect.delay)
      == leg.start.pending[leg.effect.released..];
  }

  // ----- a loop of legs -----

  ghost predicate Follows<P>(first: Leg<P>, next: Leg<P>) {
    && next.start == first.state && next.context == first.after && next.lo == first.hi
    && next.effect.delay == first.effect.delay
  }

  function Combined<P>(f: Effect<P>, g: Effect<P>): Effect<P> {
    if f.accepted == [] then g else f.(accepted := f.accepted + g.accepted)
  }

  function Joined<P>(first: Leg<P>, next: Leg<P>): Leg<P> {
    Leg(first.start, first.context, next.state, next.after, Combined(first.effect, next.effect), first.lo, next.hi)
  }

  /** At the head of the loop: nothing done yet, or something accepted. */
  ghost predicate Underway<P>(leg: Leg<P>) {
    && leg.context.remainingBudget < U32 && leg.after.remainingBudget < U32
    && leg.effect.ending.Paused? && leg.lo <= leg.hi && leg.start.delay == Some(leg.effect.delay)
    && if leg.effect.accepted == [] then
         leg.effect.released == 0 && !leg.effect.outFull && leg.after == leg.context && leg.state == leg.start
       else Worked(leg)
  }

  /** What a loop did that has accepted something: a further turn releases nothing. */
  ghost predicate Grown<P>(first: Leg<P>, leg: Leg<P>) {
    && leg.start == first.start && leg.context == first.context && leg.effect.released == first.effect.released
    && leg.effect.outFull == first.effect.outFull && |first.effect.accepted| <= |leg.effect.accepted|
  }

  /** A first stretch that accepted something, hence left no stamp, then a further turn: together one effect. */
  lemma WorkedTwice<P>(first: Leg<P>, next: Leg<P>)
    requires first.context.remainingBudget < U32 && 0 < first.after.remainingBudget
    requires Worked(first) && first.effect.accepted != [] && Worked(next) && Follows(first, next)
    requires |next.effect.accepted| <= 1
    ensures next.effect.released == 0 && Worked(Joined(first, next))
  {
    var f, g := first.effect, next.effect;
    assert DueCount(next.start.pending, next.context.timerFiredAt) == 0;
    StampsConcat(f.accepted, g.accepted, f.delay);
    BetweenConcat(f.accepted, g.accepted, first.lo, first.hi, next.hi);
    assert next.start.pending[0..] == next.start.pending;
    WrappedTwice(first.context.remainingBudget, f.released + |f.accepted|, |g.accepted|);
  }

  lemma WorkedEarlier<P>(leg: Leg<P>, lo: Instant)
    requires lo <= leg.lo && Worked(leg)
    ensures Worked(leg.(lo := lo))
  {
  }

  lemma UnderwayTurn<P>(first: Leg<P>, next: Leg<P>)
    requires Underway(first) && 0 < first.after.remainingBudget
    requires Worked(next) && Follows(first, next) && |next.effect.accepted| <= 1
    ensures Worked(Joined(first, next)) && next.after.remainingBudget < U32
    ensures first.effect.accepted != [] ==>
      next.effect.released == 0 && next.after.remainingBudget == first.after.remainingBudget - |next.effect.accepted|
  {
    if first.effect.accepted == [] {
      WorkedEarlier(next, first.lo);
    } else {
      WorkedTwice(first, next);
    }
  }

  lemma ReleasedTurn<P>(first: Leg<P>, next: Leg<P>, times: seq<Passage<P>>, more: seq<Passage<P>>)
    requires Underway(first) && Follows(first, next) && next.lo <= next.hi
    requires first.effect.accepted != [] ==> next.effect.released == 0
    requires Released(times, first.start.pending, first.effect.released, first.lo, first.hi)
    requires Released(more, next.start.pending, next.effect.released, next.lo, next.hi)
    ensures Released(times + more, first.start.pending, Joined(first, next).effect.released, first.lo, next.hi)
  {
    if first.effect.accepted == [] {
      assert |DataOf(times)| == 0;
      assert times + more == more;
    } else {
      assert |DataOf(more)| == 0;
      assert times + more == times;
    }
  }

  lemma RecordedTurn<P>(h0: History<P>, h1: History<P>, h2: History<P>, first: Leg<P>, next: Leg<P>,
                        times: seq<Passage<P>>, more: seq<Passage<P>>)
    requires Underway(first) && Follows(first, next) && next.lo <= next.hi
    requires first.effect.accepted != [] ==> next.effect.released == 0
    requires Recorded(h0, h1, first.start, first.effect, times, first.lo, first.hi)
    requires Recorded(h1, h2, next.start, next.effect, more, next.lo, next.hi)
    ensures Recorded(h0, h2, first.start, Joined(first, next).effect, times + more, first.lo, next.hi)
  {
    ReleasedTurn(first, next, times, more);
    AppendTwice(h0.taken, first.effect.accepted, next.effect.accepted);
    AppendTwice(h0.sent, times, more);
  }

  /** What a loop has done can be the whole of a stopped call. */
  ghost predicate Stoppable<P>(leg: Leg<P>) {
    && Possible(leg.start, leg.context, leg.effect.(ending := StopSignal), leg.lo, leg.hi)
    && leg.state == AfterEffect(leg.start, leg.effect)
  }

  lemma UnderwayStops<P>(leg: Leg<P>, hi: Instant)
    requires Underway(leg) && leg.hi <= hi
    ensures Stoppable(leg.(hi := hi))
  {
    if leg.effect.accepted == [] {
      assert leg.start.pending[0..] + Stamps(leg.effect.accepted, leg.effect.delay) == leg.start.pending;
    }
  }

  /** A turn added to what the loop has done. */
  lemma TurnJoins<P>(h0: History<P>, h1: History<P>, h2: History<P>, first: Leg<P>, next: Leg<P>,
                     times: seq<Passage<P>>, more: seq<Passage<P>>)
    requires Underway(first) && 0 < first.after.remainingBudget
    requires Worked(next) && Follows(first, next) && |next.effect.accepted| <= 1
    requires Recorded(h0, h1, first.start, first.effect, times, first.lo, first.hi)
    requires Recorded(h1, h2, next.start, next.effect, more, next.lo, next.hi)
    ensures var leg := Joined(first, next);
      && Worked(leg) && leg.after.remainingBudget < U32
      && Recorded(h0, h2, leg.start, leg.effect, times + more, leg.lo, leg.hi)
      && |leg.effect.accepted| == |first.effect.accepted| + |next.effect.accepted|
      && leg.effect.released + |leg.effect.accepted|
         == first.effect.released + |first.effect.accepted| + (next.effect.released + |next.effect.accepted|)
      && (if first.effect.accepted == [] then leg.effect == next.effect else Grown(first, leg))
      && (first.effect.accepted != [] ==>
            next.after.remainingBudget == first.after.remainingBudget - |next.effect.accepted|)
  {
    UnderwayTurn(first, next);
    RecordedTurn(h0, h1, h2, first, next, times, more);
  }

  lemma AppendTwice<T>(a: seq<T>, b: seq<T>, c: seq<T>)
    ensures a + b + c == a + (b + c)
    ensures b == [] ==> b + c == c
  {
  }

  lemma StampsConcat<P>(a: seq<Passage<P>>, b: seq<Passage<P>>, d: nat)
    ensures Stamps(a + b, d) == Stamps(a, d) + Stamps(b, d)
  {
  }

  lemma BetweenConcat<P>(a: seq<Passage<P>>, b: seq<Passage<P>>, lo: Instant, mid: Instant, hi: Instant)
    requires lo <= mid <= hi && Between(a, lo, mid) && Between(b, mid, hi)
    ensures Between(a + b, lo, hi)
  {
  }

  lemma WrappedTwice(budget: nat, x: nat, y: nat)
    requires budget < U32 && y <= 1
    ensures Wrapped(Wrapped(budget, x), y) == Wrapped(budget, x + y)
  {
  }

  // ----- what a call meets -----

  /** While a call only releases, IN can only fill and be closed; once closed it stays as it is. */
  ghost predicate Later<P>(e: Around<P>, e1: Around<P>, still: bool) {
    && e.inn <= e1.inn && (e.closed ==> e1.closed && e1.inn == e.inn) && (Dry(e) ==> Dry(e1))
    && e1.capacity == e.capacity && (still ==> e1.inn == e.inn && e1.closed == e.closed)
  }

  /** What a turn meets, whose signals are read after the gust `g`: a packet that is there is accepted. */
  ghost predicate Met<P>(e: Around<P>, e1: Around<P>, g: Gust<P>, still: bool, stop: bool, accepted: bool) {
    && e1.capacity == e.capacity && (e.closed ==> e1.closed) && (Dry(e) ==> !accepted)
    && stop == StopNext(e.signals + g.signals)
    && (!stop && e.inn + Written(e, g) != [] ==> accepted)
    && (still && !stop ==> (e.inn == [] ==> !accepted) && e1.closed == e.closed)
  }

  /**
   What the loop meets, whose first gust is `g`. If no stop is there then, the first turn releases all
   the stamp covers, or as much as OUT has room for, and accepts a packet if there is one.
   */
  ghost predicate LoopMet<P>(e: Around<P>, e1: Around<P>, g: Gust<P>, still: bool, stop: bool, leg: Leg<P>) {
    var f, stopped := leg.effect, StopNext(e.signals + g.signals);
    && e1.capacity == e.capacity && (e.closed ==> e1.closed)
    && (Dry(e) ==> f.accepted == []) && RoomSpent(e.room + g.room, e1.room, f)
    && (stopped ==> stop && f.released == 0 && f.accepted == [])
    && (!stopped ==> f.outFull || f.released == DueCount(leg.start.pending, leg.context.timerFiredAt))
    && (!stopped && (stop || e.inn + Written(e, g) != []) ==> f.accepted != [])
    && (still && !stopped && e.inn == [] ==> !stop && f.accepted == [] && e1.closed == e.closed)
  }

  lemma LoopMetFirst<P>(e: Around<P>, e1: Around<P>, g: Gust<P>, still: bool, stop: bool, accepted: bool, leg: Leg<P>)
    requires Met(e, e1, g, still, stop, accepted) && RoomSpent(e.room + g.room, e1.room, leg.effect)
    requires if stop then leg.effect.released == 0 && leg.effect.accepted == []
             else Worked(leg) && |leg.effect.accepted| == if accepted then 1 else 0
    ensures LoopMet(e, e1, g, still, stop, leg)
  {
  }

  lemma LoopMetMore<P>(e: Around<P>, e1: Around<P>, e2: Around<P>, g: Gust<P>, h: Gust<P>, still: bool, stop: bool,
                       accepted: bool, first: Leg<P>, leg: Leg<P>)
    requires LoopMet(e, e1, g, still, false, first) && first.effect.accepted != []
      && Met(e1, e2, h, still, stop, accepted)
    requires Grown(first, leg) && e1.room <= e2.room
    ensures LoopMet(e, e2, g, still, stop, leg)
  {
  }

  // ----- the release loop -----

  /** The first k packets of the queue are out since the stand `a`. */
  ghost predicate Releasing<P>(a: Stand<P>, context: Context, still: bool, k: nat, after: Context, z: Stand<P>,
                               times: seq<Passage<P>>) {
    && a.clock <= z.clock && z.heard == a.heard && z.state.delay == a.state.delay
    && k <= DueCount(a.state.pending, context.timerFiredAt) && z.state.pending == a.state.pending[k..]
    && z.history.sent == a.history.sent + times && z.history.taken == a.history.taken
    && a.history.arrived <= z.history.arrived && Released(times, a.state.pending, k, a.clock, z.clock)
    && after == context.(remainingBudget := Wrapped(context.remainingBudget, k), timerFiredAt := None)
    && Later(a.env, z.env, still) && a.env.room <= z.env.room + k
  }

  lemma ReleasingSwept<P>(a: Stand<P>, context: Context, still: bool, k: nat, after: Context, z: Stand<P>,
                          times: seq<Passage<P>>, g: Gust<P>)
    requires Releasing(a, context, still, k, after, z, times) && (still ==> Still(g))
    ensures Releasing(a, context, still, k, after, Swept(z, g), times)
  {
    ReleasedLater(times, a.state.pending, k, a.clock, z.clock, Swept(z, g).clock);
  }

  lemma ReleasingSent<P>(a: Stand<P>, context: Context, still: bool, k: nat, after: Context, z: Stand<P>,
                         times: seq<Passage<P>>)
    requires Releasing(a, context, still, k, after, z, times) && z.state.pending != [] && z.env.room > 0
    requires k < DueCount(a.state.pending, context.timerFiredAt)
    ensures Releasing(a, context, still, k + 1, after.(remainingBudget := (after.remainingBudget - 1) % U32),
                      FrontSent(z), times + [Passage(z.state.pending[0].data, z.clock)])
  {
    ReleasedMore(times, a.state.pending, k, a.clock, Passage(z.state.pending[0].data, z.clock));
    AppendTwice(a.history.sent, times, [Passage(z.state.pending[0].data, z.clock)]);
  }

  /** The release step of a turn: nothing without a stamp, else all the stamp covers or as much as OUT has room for. */
  ghost predicate ReleasedTo<P>(a: Stand<P>, context: Context, still: bool, z: Stand<P>, after: Context, k: nat,
                                full: bool, times: seq<Passage<P>>) {
    var due := DueCount(a.state.pending, context.timerFiredAt);
    && Releasing(a, context, still, k, after.(wakeAt := context.wakeAt), z, times)
    && (if full then k < due && a.env.room <= k else k == due && after.wakeAt == context.wakeAt)
  }

  // ----- turns, and a loop of them -----

  function NoEffect<P>(d: nat): Effect<P> {
    Effect(d, 0, false, [], Paused)
  }

  /** A turn, or the loop so far: the context it left, how it ended, the units it counted, and what it did. */
  datatype Pass<P> = Pass(after: Context, stop: bool, accepted: bool, units: nat, leg: Leg<P>, times: seq<Passage<P>>,
                          saw: bool)

  /** One turn from `a` to `z`: its effect has at most one accepted packet. */
  ghost predicate TurnDone<P>(a: Stand<P>, context: Context, g: Gust<P>, still: bool, z: Stand<P>, x: Pass<P>) {
    && a.history.arrived <= z.history.arrived && a.clock <= z.clock
    && Heard(a.heard, z.heard, x.stop) && Met(a.env, z.env, g, still, x.stop, x.accepted)
    && if x.stop then TurnStopped(a, context, g, z, x) else TurnWorked(a, context, g, z, x)
  }

  ghost predicate TurnStopped<P>(a: Stand<P>, context: Context, g: Gust<P>, z: Stand<P>, x: Pass<P>) {
    && x.after == context && z.state == a.state && z.history.sent == a.history.sent
    && z.history.taken == a.history.taken && a.env.room + g.room <= z.env.room
  }

  ghost predicate TurnWorked<P>(a: Stand<P>, context: Context, g: Gust<P>, z: Stand<P>, x: Pass<P>) {
    && x.leg == Leg(a.state, context, z.state, x.after, x.leg.effect, a.clock, z.clock) && Worked(x.leg)
    && x.units == x.leg.effect.released + |x.leg.effect.accepted|
    && |x.leg.effect.accepted| == (if x.accepted then 1 else 0)
    && Recorded(a.history, z.history, a.state, x.leg.effect, x.times, a.clock, z.clock)
    && RoomSpent(a.env.room + g.room, z.env.room, x.leg.effect)
    && (!x.accepted ==> z.env.inn == [] && x.saw)
  }

  lemma TurnStops<P>(a: Stand<P>, context: Context, g: Gust<P>, still: bool, saw: bool) returns (x: Pass<P>)
    requires StopNext(a.env.signals + g.signals)
    ensures TurnDone(a, context, g, still, Listened(Swept(a, g)), x)
    ensures x == Pass(context, true, false, 0, x.leg, [], saw)
  {
    x := Pass(context, true, false, 0, Leg(a.state, context, a.state, context, NoEffect(0), a.clock, a.clock), [], saw);
  }

  /** The release step as a leg. */
  lemma ReleaseLeg<P>(a: Stand<P>, b: Stand<P>, context: Context, still: bool, c: Stand<P>, after: Context, k: nat,
                      full: bool, times: seq<Passage<P>>) returns (leg: Leg<P>)
    requires ReleasedTo(b, context, still, c, after, k, full, times) && a.state == b.state && a.clock <= b.clock
    requires a.state.delay.Some?
    ensures leg == Leg(a.state, context, c.state, after, Effect(a.state.delay.value, k, full, [], Paused), a.clock,
      c.clock)
    ensures Worked(leg) && Released(times, a.state.pending, k, a.clock, c.clock)
  {
    leg := Leg(a.state, context, c.state, after, Effect(a.state.delay.value, k, full, [], Paused), a.clock, c.clock);
    ReleasedIsWorked(leg);
    ReleasedEarlier(times, a.state.pending, k, a.clock, b.clock, c.clock);
  }

  /** What the parts of a turn meet. */
  lemma TurnMeets<P>(a: Stand<P>, g: Gust<P>, still: bool, b: Stand<P>, c: Stand<P>, h: Gust<P>, d: nat)
    requires b == Listened(Swept(a, g)) && Later(b.env, c.env, still) && !StopNext(a.env.signals + g.signals)
    requires still ==> Still(g) && Still(h)
    ensures var z := Accepted(Swept(c, h), d);
      Met(a.env, z.env, g, still, false, Swept(c, h).env.inn != [])
  {
  }

  /** The budget after a look at IN: an accepted packet takes one of it, unchecked. */
  function Spent(used: Context, accepted: bool): Context {
    if accepted then used.(remainingBudget := (used.remainingBudget - 1) % U32) else used
  }

  /** The release (from `b` to `c`) and the look at IN, as the work of one turn. */
  lemma TurnWorks<P>(a: Stand<P>, context: Context, g: Gust<P>, still: bool, b: Stand<P>, used: Context, k: nat,
                     full: bool, times: seq<Passage<P>>, c: Stand<P>, y: Stand<P>, saw: bool)
    returns (x: Pass<P>)
    requires a.state.delay.Some? && 0 < context.remainingBudget < U32
    requires b.state == a.state && a.clock <= b.clock && b.env.room == a.env.room + g.room
    requires b.history.sent == a.history.sent && b.history.taken == a.history.taken
    requires ReleasedTo(b, context, still, c, used, k, full, times)
    requires y.state == c.state && c.clock <= y.clock && c.env.room <= y.env.room && (y.env.inn == [] ==> saw)
    requires y.history.sent == c.history.sent && y.history.taken == c.history.taken
    ensures TurnWorked(a, context, g, Accepted(y, a.state.delay.value), x)
    ensures var accepted := y.env.inn != [];
      x == Pass(Spent(used, accepted), false, accepted, k + (if accepted then 1 else 0), x.leg, times, saw)
  {
    var leg := ReleaseLeg(a, b, context, still, c, used, k, full, times);
    WorkedAccept(leg, NextTaken(y), y.clock);
    ReleasedLater(times, a.state.pending, k, a.clock, c.clock, y.clock);
    var accepted, z := y.env.inn != [], Accepted(y, a.state.delay.value);
    var f := leg.effect.(accepted := NextTaken(y));
    x := Pass(Spent(used, accepted), false, accepted, k + (if accepted then 1 else 0),
              Leg(a.state, context, z.state, Spent(used, accepted), f, a.clock, y.clock), times, saw);
  }

  /** The rest of what a turn says: time passes, packets arrive, and the signal read was no stop. */
  lemma TurnPasses<P>(a: Stand<P>, context: Context, g: Gust<P>, still: bool, b: Stand<P>, used: Context, k: nat,
                      full: bool, times: seq<Passage<P>>, c: Stand<P>, h: Gust<P>)
    requires b == Listened(Swept(a, g)) && !StopNext(a.env.signals + g.signals)
    requires ReleasedTo(b, context, still, c, used, k, full, times)
    ensures Heard(a.heard, c.heard, false) && a.history.arrived <= Swept(c, h).history.arrived
    ensures a.clock <= b.clock <= c.clock && Later(b.env, c.env, still)
    ensures b.state == a.state && b.env.room == a.env.room + g.room
    ensures b.history.sent == a.history.sent && b.history.taken == a.history.taken
  {
  }

  /** A turn from its parts: the signals (to `b`), the release (to `c`), a gust and the look at IN (to `z`). */
  lemma TurnAssembled<P>(a: Stand<P>, context: Context, g: Gust<P>, still: bool, b: Stand<P>, used: Context, k: nat,
                         full: bool, times: seq<Passage<P>>, c: Stand<P>, h: Gust<P>, z: Stand<P>, saw: bool)
    returns (x: Pass<P>)
    requires a.state.delay.Some? && 0 < context.remainingBudget < U32 && (still ==> Still(g) && Still(h))
    requires b == Listened(Swept(a, g)) && !StopNext(a.env.signals + g.signals)
    requires ReleasedTo(b, context, still, c, used, k, full, times)
    requires z == Accepted(Swept(c, h), a.state.delay.value) && (Swept(c, h).env.inn == [] ==> saw)
    ensures TurnDone(a, context, g, still, z, x)
    ensures var accepted := Swept(c, h).env.inn != [];
      x == Pass(Spent(used, accepted), false, accepted, k + (if accepted then 1 else 0), x.leg, times, saw)
  {
    TurnPasses(a, context, g, still, b, used, k, full, times, c, h);
    x := TurnWorks(a, context, g, still, b, used, k, full, times, c, Swept(c, h), saw);
    TurnMeets(a, g, still, b, c, h, a.state.delay.value);
  }

  /** The loop as it begins. */
  datatype Outset<P> = Outset(from: Stand<P>, context: Context, still: bool, gust: Gust<P>)

  /** What the loop has done so far, as one leg; its histories; and the units it counted. */
  ghost predicate DoneSoFar<P>(o: Outset<P>, z: Stand<P>, x: Pass<P>) {
    && x.leg.start == o.from.state && x.leg.context == o.context && x.leg.lo == o.from.clock
    && o.from.state.delay == Some(x.leg.effect.delay) && x.leg.effect.ending.Paused?
    && o.from.history.arrived <= z.history.arrived
    && x.leg.state == z.state && x.leg.hi == z.clock && o.from.clock <= z.clock
    && Recorded(o.from.history, z.history, o.from.state, x.leg.effect, x.times, o.from.clock, z.clock)
    && x.units == x.leg.effect.released + |x.leg.effect.accepted|
  }

  /** The loop after some turns: what it did, what it met, and that a turn without input ends it. */
  ghost predicate InLoop<P>(o: Outset<P>, turn: nat, z: Stand<P>, x: Pass<P>) {
    && !x.stop && x.leg.after == x.after && Heard(o.from.heard, z.heard, false) && DoneSoFar(o, z, x)
    && (if x.accepted then Underway(x.leg) else Worked(x.leg) && z.env.inn == [] && x.saw)
    && (turn == 0 ==> x.accepted && z.env == o.from.env && x.leg.effect.accepted == [])
    && (turn > 0 ==> LoopMet(o.from.env, z.env, o.gust, o.still, false, x.leg))
    && (turn > 0 && x.accepted ==> x.leg.effect.accepted != [])
  }

  /** The loop as it is left: by a stop, or with the budget used up, or after a look at an empty IN. */
  ghost predicate LoopLeft<P>(o: Outset<P>, z: Stand<P>, x: Pass<P>) {
    && Heard(o.from.heard, z.heard, x.stop) && DoneSoFar(o, z, x)
    && LoopMet(o.from.env, z.env, o.gust, o.still, x.stop, x.leg)
    && if x.stop then Stoppable(x.leg)
       else
         && Worked(x.leg) && x.leg.after == x.after
         && (x.leg.effect.accepted == [] || x.after.remainingBudget > 0 ==> z.env.inn == [] && x.saw)
  }

  lemma LoopBegins<P>(o: Outset<P>, d: nat, saw: bool) returns (x: Pass<P>)
    requires o.from.state.delay == Some(d) && o.context.remainingBudget < U32
    ensures x.after == o.context && !x.stop && x.accepted && x.units == 0 && x.saw == saw && x.leg.effect.accepted == []
    ensures InLoop(o, 0, o.from, x)
  {
    var z := o.from;
    x := Pass(o.context, false, true, 0, Leg(z.state, o.context, z.state, o.context, NoEffect(d), z.clock, z.clock), [],
              saw);
  }

  /** The loop so far and one more turn. */
  function Onward<P>(x: Pass<P>, y: Pass<P>, hi: Instant): Pass<P> {
    if y.stop then x.(stop := true, accepted := y.accepted, leg := x.leg.(hi := hi), saw := y.saw)
    else Pass(y.after, false, y.accepted, x.units + y.units, Joined(x.leg, y.leg), x.times + y.times, y.saw)
  }

  lemma RoundStops<P>(o: Outset<P>, turn: nat, z: Stand<P>, x: Pass<P>, g: Gust<P>, z1: Stand<P>, y: Pass<P>)
    requires InLoop(o, turn, z, x) && x.accepted && (turn == 0 ==> g == o.gust)
    requires TurnDone(z, x.after, g, o.still, z1, y) && y.stop
    ensures LoopLeft(o, z1, Onward(x, y, z1.clock))
  {
    var n := Onward(x, y, z1.clock);
    UnderwayStops(x.leg, z1.clock);
    ReleasedLater(x.times, o.from.state.pending, x.leg.effect.released, o.from.clock, z.clock, z1.clock);
    if turn == 0 {
      LoopMetFirst(o.from.env, z1.env, g, o.still, true, y.accepted, n.leg);
    } else {
      LoopMetMore(o.from.env, z.env, z1.env, o.gust, g, o.still, true, y.accepted, x.leg, n.leg);
    }
  }

  lemma RoundGoesOn<P>(o: Outset<P>, turn: nat, z: Stand<P>, x: Pass<P>, g: Gust<P>, z1: Stand<P>, y: Pass<P>)
    requires InLoop(o, turn, z, x) && x.accepted && x.after.remainingBudget > 0 && (turn == 0 ==> g == o.gust)
    requires TurnDone(z, x.after, g, o.still, z1, y) && !y.stop
    ensures InLoop(o, turn + 1, z1, Onward(x, y, z1.clock))
    ensures y.accepted && x.leg.effect.accepted != [] ==> y.after.remainingBudget < x.after.remainingBudget
  {
    var n := Onward(x, y, z1.clock);
    TurnJoins(o.from.history, z.history, z1.history, x.leg, y.leg, x.times, y.times);
    if turn == 0 {
      LoopMetFirst(o.from.env, z1.env, g, o.still, false, y.accepted, n.leg);
    } else {
      LoopMetMore(o.from.env, z.env, z1.env, o.gust, g, o.still, false, y.accepted, x.leg, n.leg);
    }
  }

  lemma NextRound<P>(o: Outset<P>, turn: nat, z: Stand<P>, x: Pass<P>, g: Gust<P>, z1: Stand<P>, y: Pass<P>)
    returns (n: Pass<P>)
    requires InLoop(o, turn, z, x) && x.accepted && x.after.remainingBudget > 0 && (turn == 0 ==> g == o.gust)
    requires TurnDone(z, x.after, g, o.still, z1, y)
    ensures n == Onward(x, y, z1.clock)
    ensures if y.stop then LoopLeft(o, z1, n) else InLoop(o, turn + 1, z1, n)
    ensures !y.stop && y.accepted && x.leg.effect.accepted != [] ==> y.after.remainingBudget < x.after.remainingBudget
    ensures !y.stop && y.accepted ==> n.leg.effect.accepted != []
  {
    n := Onward(x, y, z1.clock);
    if y.stop {
      RoundStops(o, turn, z, x, g, z1, y);
    } else {
      RoundGoesOn(o, turn, z, x, g, z1, y);
    }
  }

  // ----- a whole call -----

  /** What a call did and reported, and whether it saw IN empty. */
  datatype Deed<P> = Deed(after: Context, result: CallResult, effect: Effect<P>, times: seq<Passage<P>>, saw: bool)

  /** IN is open and empty, and the fired timer covers the whole queue. */
  ghost predicate Open<P>(a: Stand<P>, context: Context) {
    && !a.env.closed && a.env.inn == [] && a.env.capacity > 0
    && DueCount(a.state.pending, context.timerFiredAt) == |a.state.pending|
  }

  /** Surroundings that make room, keep still until the end, and close IN then. */
  ghost predicate Baited<P>(a: Stand<P>, world: Moment -> Gust<P>) {
    StillUntilEnd(world) && |a.state.pending| <= world(BeforeSignal(0)).room && world(BeforeEnd).closes
  }

  /** Surroundings that make room and write to IN before the first turn, and send no signal then. */
  predicate Fed<P>(a: Stand<P>, g: Gust<P>) {
    |a.state.pending| <= g.room && g.packets != [] && g.signals == []
  }

  /** The surroundings allow the effect: OUT by its room, IN by what is or may come in. */
  predicate Affords<P>(e: Around<P>, left: nat, f: Effect<P>) {
    RoomSpent(e.room, left, f) && (Dry(e) ==> f.accepted == [])
  }

  /** The fired timer covers more than the budget, or just as much and IN has a packet or may get one. */
  predicate Tight<P>(pending: seq<Delayed<P>>, context: Context, e: Around<P>) {
    var due := DueCount(pending, context.timerFiredAt);
    due > context.remainingBudget || (due == context.remainingBudget && !Dry(e))
  }

  /**
   What a call did, measured by the surroundings it began in: OUT and IN allow it; a call that released
   something and accepted nothing was not stopped; and a call that was not stopped and has budget left,
   or accepted nothing, took at least all that was in IN, and saw IN empty.
   */
  ghost predicate Answers<P>(e: Around<P>, left: nat, x: Deed<P>) {
    var f := x.effect;
    && Affords(e, left, f)
    && (f.ending.StopSignal? && f.accepted == [] ==> f.released == 0)
    && (!f.ending.StopSignal? && (x.after.remainingBudget > 0 || f.accepted == []) ==> x.saw && |e.inn| <= |f.accepted|)
  }

  /**
   The end of input leaves IN empty if it was closed before, or if the call did not begin in an exposed
   state; and surroundings that bait an exposed state leave what they write last.
   */
  ghost predicate EndsSoundly<P>(a: Stand<P>, exposed: bool, world: Moment -> Gust<P>, left: seq<P>, f: Effect<P>) {
    && (f.ending.EndOfInput? && a.env.closed ==> left == [])
    && (f.ending.EndOfInput? && left != [] ==> exposed)
    && (exposed && Baited(a, world) ==>
          f.ending.EndOfInput? && left == Ring.Fitting([], world(BeforeEnd).packets, a.env.capacity))
  }

  /** More decrements than budget happen only in a tight state, and there whenever the surroundings feed the call. */
  predicate BudgetSound<P>(f: Effect<P>, budget: nat, tight: bool, fed: bool) {
    && (f.released + |f.accepted| > budget ==> tight)
    && (tight && fed ==> f.released + |f.accepted| > budget)
  }

  /**
   A call from `a` to `z`. It performed a possible effect, and the histories grew by it; it ends by stop
   exactly when a stop was read, and at once when one was there; it did what IN and OUT allow; it ends for
   the end of input exactly when IN is abandoned and nothing is pending, and soundly; and the budget is
   overrun only, and with the right surroundings always, from a tight state. `clear` says that the signals
   there at the beginning do not stop it.
   */
  ghost predicate Done<P>(a: Stand<P>, context: Context, world: Moment -> Gust<P>, clear: bool, z: Stand<P>,
    x: Deed<P>) {
    && Performed(a.state, context, z.state, x.after, x.result, x.effect, a.clock, z.clock)
    && Recorded(a.history, z.history, a.state, x.effect, x.times, a.clock, z.clock)
    && a.history.arrived <= z.history.arrived && Heard(a.heard, z.heard, x.effect.ending.StopSignal?)
    && (StopNext(a.env.signals) ==> x.effect.ending.StopSignal? && z.state.pending == a.state.pending)
    && Answers(a.env, z.env.room, x)
    && (x.effect.ending.EndOfInput? <==> !x.effect.ending.StopSignal? && z.env.closed && z.state.pending == [])
    && EndsSoundly(a, Open(a, context) && clear, world, z.env.inn, x.effect)
    && BudgetSound(x.effect, context.remainingBudget, Tight(a.state.pending, context, a.env) && clear,
                   Fed(a, world(BeforeSignal(0))))
  }

  /** What the loop met decides whether it overran its budget. */
  lemma BudgetDecided<P>(a: Stand<P>, e1: Around<P>, g: Gust<P>, still: bool, stop: bool, leg: Leg<P>)
    requires LoopMet(a.env, e1, g, still, stop, leg) && leg.start == a.state && leg.context.remainingBudget > 0
    requires if stop then Stoppable(leg) else Worked(leg)
    ensures BudgetSound(leg.effect, leg.context.remainingBudget,
      Tight(a.state.pending, leg.context, a.env) && !StopNext(a.env.signals), Fed(a, g))
  {
  }

  lemma LoopStops<P>(a: Stand<P>, context: Context, world: Moment -> Gust<P>, z: Stand<P>, x: Pass<P>, saw: bool)
    requires LoopLeft(Outset(a, context, StillUntilEnd(world), world(BeforeSignal(0))), z, x) && x.stop
    requires 0 < context.remainingBudget < U32
    ensures Done(a, context, world, !StopNext(a.env.signals), z,
                 Deed(x.after, Finished, x.leg.effect.(ending := StopSignal), x.times, saw))
  {
    BudgetDecided(a, z.env, world(BeforeSignal(0)), StillUntilEnd(world), true, x.leg);
    if StopNext(a.env.signals) {
      assert a.state.pending[0..] + Stamps(x.leg.effect.accepted, x.leg.effect.delay) == a.state.pending;
    }
  }

  /** Once IN is empty, all that was in it has been taken. */
  lemma InputTaken<P>(a: Stand<P>, z: Stand<P>, accepted: seq<Passage<P>>)
    requires Balanced(a) && Balanced(z) && z.env.inn == [] && a.history.arrived <= z.history.arrived
    requires z.history.taken == a.history.taken + accepted
    ensures |a.env.inn| <= |accepted|
  {
    assert |z.history.arrived| == |z.history.taken| && |a.history.arrived| == |a.history.taken| + |a.env.inn|;
  }

  /** The end of input comes soundly out of the loop. */
  lemma LoopEndsSoundly<P>(a: Stand<P>, context: Context, world: Moment -> Gust<P>, z: Stand<P>, x: Pass<P>)
    requires LoopLeft(Outset(a, context, StillUntilEnd(world), world(BeforeSignal(0))), z, x) && !x.stop
    requires Balanced(a) && Balanced(z)
    ensures var y := Swept(z, world(BeforeEnd));
      EndsSoundly(a, Open(a, context) && !StopNext(a.env.signals), world, y.env.inn,
        x.leg.effect.(ending := if y.env.closed && y.state.pending == [] then EndOfInput else Paused))
  {
    var f := x.leg.effect;
    if z.env.inn == [] {
      InputTaken(a, z, f.accepted);
    }
    assert z.state.pending == [] ==> f.accepted == [] && f.released == |a.state.pending|;
  }

  lemma LoopConcludes<P>(a: Stand<P>, context: Context, world: Moment -> Gust<P>, z: Stand<P>, x: Pass<P>, saw: bool)
    requires LoopLeft(Outset(a, context, StillUntilEnd(world), world(BeforeSignal(0))), z, x) && !x.stop
    requires Balanced(a) && Balanced(z) && 0 < context.remainingBudget < U32 && (x.saw ==> saw)
    ensures var y := Swept(z, world(BeforeEnd)); var pending := y.state.pending;
      var ended := y.env.closed && pending == [];
      var result := if ended then Finished else if x.units > 0 then DidWork(x.units) else NoWork;
      var after := if pending == [] then x.after else x.after.(wakeAt := Some(pending[0].readyTime));
      Done(a, context, world, !StopNext(a.env.signals), y,
           Deed(after, result, x.leg.effect.(ending := if ended then EndOfInput else Paused), x.times, saw))
  {
    var y := Swept(z, world(BeforeEnd));
    CallEnds(x.leg, y.env.closed && y.state.pending == [], y.clock);
    ReleasedLater(x.times, a.state.pending, x.leg.effect.released, a.clock, z.clock, y.clock);
    BudgetDecided(a, z.env, world(BeforeSignal(0)), StillUntilEnd(world), false, x.leg);
    LoopEndsSoundly(a, context, world, z, x);
    if z.env.inn == [] {
      InputTaken(a, z, x.leg.effect.accepted);
    }
  }

  lemma StoppedAtOnce<P>(a: Stand<P>, context: Context, world: Moment -> Gust<P>, d: nat, saw: bool)
    requires StopNext(a.env.signals) && a.state.delay == Some(d)
    ensures Done(a, context, world, NoStopWaits(a.env.signals), Listened(a),
                 Deed(context, Finished, Effect(d, 0, false, [], StopSignal), [], saw))
  {
    assert a.state.pending[0..] + Stamps([], d) == a.state.pending;
  }

  lemma SoundOnceHeard<P>(a: Stand<P>, context: Context, world: Moment -> Gust<P>, z: Stand<P>, x: Deed<P>)
    requires !StopNext(a.env.signals)
    requires Done(Listened(a), context, world, !StopNext(Listened(a).env.signals), z, x)
    ensures EndsSoundly(a, Open(a, context) && NoStopWaits(a.env.signals), world, z.env.inn, x.effect)
    ensures BudgetSound(x.effect, context.remainingBudget,
      Tight(a.state.pending, context, a.env) && NoStopWaits(a.env.signals), Fed(a, world(BeforeSignal(0))))
  {
    var b := Listened(a);
    assert NoStopWaits(a.env.signals) == !StopNext(b.env.signals) && (Baited(a, world) <==> Baited(b, world));
    assert Open(a, context) == Open(b, context) && Dry(a.env) == Dry(b.env);
  }

  /** A signal that is no stop, read first, changes nothing. */
  lemma DoneOnceHeard<P>(a: Stand<P>, b: Stand<P>, context: Context, world: Moment -> Gust<P>, z: Stand<P>, x: Deed<P>)
    requires !StopNext(a.env.signals) && b == Listened(a)
    requires Done(b, context, world, !StopNext(b.env.signals), z, x)
    ensures Done(a, context, world, NoStopWaits(a.env.signals), z, x)
  {
    SoundOnceHeard(a, context, world, z, x);
    if a.env.signals != [] {
      HeardMore(a.heard, a.env.signals[0], z.heard, x.effect.ending.StopSignal?);
    }
  }

  lemma HeardMore(before: seq<string>, signal: string, after: seq<string>, stop: bool)
    requires Heard(before + [signal], after, stop) && signal != "stop"
    ensures Heard(before, after, stop)
  {
    assert after[|before|] == (before + [signal])[|before|];
  }

  /** Neither does the configuration. */
  lemma DoneOnceConfigured<P>(a: Stand<P>, b: Stand<P>, context: Context, world: Moment -> Gust<P>, clear: bool,
                              z: Stand<P>, x: Deed<P>)
    requires b == a.(state := DelayState(Some(x.effect.delay), a.state.pending))
    requires a.state.delay.Some? ==> a.state.delay == b.state.delay
    requires Done(b, context, world, clear, z, x)
    ensures Done(a, context, world, clear, z, x)
  {
    OnceConfigured(a.state, b.state, context, z.state, x.after, x.result, x.effect, a.clock, z.clock);
  }

  // ----- the component -----

  class DelayComponent<P> {
    const capacity: nat
    var conf: seq<Conf>
    var inn: seq<P>
    var innClosed: bool
    var outRoom: nat
    var signalsIn: seq<string>
    var delay: Option<nat>
    var pending: seq<Delayed<P>>
    var now: Instant

    ghost var history: History<P>

    /** What happened to IN since the call began, when it stood at `ring`; and the signals read so far. */
    ghost var ring: seq<P>
    ghost var events: seq<Ring.RingEvent<P>>
    ghost var heard: seq<string>

    ghost predicate Valid()
      reads this
    {
      Balanced(Here()) && Ring.Leads(ring, events, inn, capacity)
    }

    ghost function Env(): Around<P>
      reads this
    {
      Around(inn, capacity, innClosed, outRoom, signalsIn)
    }

    ghost function Here(): Stand<P>
      reads this
    {
      Stand(DelayState(delay, pending), now, history, heard, Env())
    }

    /** IN was found empty at some moment of the call. */
    ghost predicate Saw()
      reads this
    {
      Ring.SawEmpty in events
    }

    constructor (capacity: nat, conf: seq<Conf>, inn: seq<P>, outRoom: nat, now: Instant)
      ensures Valid() && this.conf == conf
      ensures Here() ==
        Stand(DelayState(None, []), now, History(inn, [], []), [], Around(inn, capacity, false, outRoom, []))
    {
      this.capacity, this.conf, this.inn, this.outRoom, this.now := capacity, conf, inn, outRoom, now;
      innClosed, signalsIn, delay, pending := false, [], None, [];
      history, ring, events, heard := History(inn, [], []), inn, [], [];
    }

    /** The rest of the world at one moment of a call. */
    method Meanwhile(g: Gust<P>)
      requires Valid()
      modifies this`inn, this`innClosed, this`outRoom, this`signalsIn, this`now, this`history, this`events
      ensures Valid() && Here() == Swept(old(Here()), g) && (old(Saw()) ==> Saw())
    {
      if !innClosed {
        var written := Ring.Fitting(inn, g.packets, capacity);
        Ring.LeadsArrivals(ring, events, inn, capacity, written);
        inn, events := inn + written, events + Ring.Arrivals(written);
        history := history.(arrived := history.arrived + written);
        innClosed := g.closes;
      }
      outRoom := outRoom + g.room;
      signalsIn := signalsIn + g.signals;
      now := now + g.ticks;
    }

    method HandleSignal() returns (stop: bool)
      requires Valid()
      modifies this`signalsIn, this`heard
      ensures Valid() && Here() == Listened(old(Here())) && stop == StopNext(old(signalsIn))
      ensures old(signalsIn) == [] ==> signalsIn == [] && heard == old(heard)
      ensures old(signalsIn) != [] ==>
        signalsIn == old(signalsIn)[1..] && heard == old(heard) + [old(signalsIn)[0]]
    {
      stop := false;
      if signalsIn != [] {
        stop := signalsIn[0] == "stop";
        heard := heard + [signalsIn[0]];
        signalsIn := signalsIn[1..];
      }
    }

    /** The CONF packet that comes next makes the call panic. */
    predicate Panics()
      reads this
    {
      delay.None? && conf != [] && conf[0].NotText?
    }

    method ReadConf() returns (panicked: bool)
      requires Valid()
      modifies this`conf, this`delay
      ensures Valid() && (panicked <==> old(Panics())) && (panicked ==> delay == old(delay))
      ensures !panicked ==> DelayRead(old(delay), old(conf), delay)
      ensures conf == if old(delay).None? && old(conf) != [] then old(conf)[1..] else old(conf)
    {
      panicked := false;
      if delay.None? {
        if conf != [] {
          var packet := conf[0];
          conf := conf[1..];
          match packet {
            case NotText => panicked := true;
            case Duration(us) => delay := Some(us);
            case Unreadable => delay := Some(DEFAULT_DELAY);
          }
        } else {
          delay := Some(DEFAULT_DELAY);
        }
      }
    }

    /** Pops the front packet and pushes it to OUT; if the ring is full, it goes back to the front. */
    method ReleaseFront() returns (ok: bool)
      requires Valid() && pending != []
      modifies this`pending, this`outRoom, this`history
      ensures Valid() && ok == (old(outRoom) > 0) && Here() == if ok then FrontSent(old(Here())) else old(Here())
    {
      var packet := pending[0];
      pending := pending[1..];
      ok := outRoom > 0;
      if ok {
        SentBalanced(old(Here()));
        outRoom := outRoom - 1;
        history := history.(sent := history.sent + [Passage(packet.data, now)]);
      } else {
        pending := [packet] + pending;
        assert pending == old(pending);
      }
    }

    /** Pops a packet off IN and queues it for `d` microseconds from now. */
    method AcceptOne(d: nat) returns (ok: bool)
      requires Valid()
      modifies this`pending, this`inn, this`history, this`events
      ensures Valid() && ok == (old(inn) != []) && Here() == Accepted(old(Here()), d)
      ensures (old(Saw()) || !ok ==> Saw())
    {
      ok := inn != [];
      AcceptedBalanced(Here(), d);
      if ok {
        var packet := inn[0];
        Ring.LeadsSnoc(ring, events, inn, capacity, Ring.TookOne);
        inn := inn[1..];
        pending := pending + [Delayed(packet, now + d)];
        history, events := history.(taken := history.taken + [Passage(packet, now)]), events + [Ring.TookOne];
        assert pending == old(pending) + Stamps(NextTaken(old(Here())), d);
      } else {
        Ring.LeadsSnoc(ring, events, inn, capacity, Ring.SawEmpty);
        events := events + [Ring.SawEmpty];
        assert events[|events| - 1] == Ring.SawEmpty;
        assert history.taken + [] == history.taken && pending + Stamps([], d) == pending;
      }
    }

    /** Releases what the fired timer covers, as far as OUT has room. */
    method ReleaseDue(context: Context, turn: nat, world: Moment -> Gust<P>)
      returns (after: Context, k: nat, full: bool, ghost times: seq<Passage<P>>)
      requires Valid() && context.timerFiredAt.Some? && context.remainingBudget < U32
      modifies this`pending, this`inn, this`innClosed, this`outRoom, this`signalsIn, this`now, this`history, this`events
      ensures Valid() && ReleasedTo(old(Here()), context, StillUntilEnd(world), Here(), after, k, full, times)
    {
      var firedAt := context.timerFiredAt.value;
      ghost var a, still := Here(), StillUntilEnd(world);
      k, full, after, times := 0, false, context.(timerFiredAt := None), [];
      while pending != []
        invariant Valid() && Releasing(a, context, still, k, after, Here(), times)
        decreases |a.state.pending| - k
      {
        ReleasingSwept(a, context, still, k, after, Here(), times, world(BeforeRelease(turn, k)));
        Meanwhile(world(BeforeRelease(turn, k)));
        DueCountAt(a.state.pending, context.timerFiredAt, k);
        if pending[0].readyTime > firedAt {
          break;
        }
        ghost var p := Passage(pending[0].data, now);
        if outRoom > 0 {
          ReleasingSent(a, context, still, k, after, Here(), times);
        }
        var ok := ReleaseFront();
        if !ok {
          after := after.(wakeAt := Some(now + DEFAULT_IO_POLL_INTERVAL));
          full := true;
          return;
        }
        after := after.(remainingBudget := (after.remainingBudget - 1) % U32);
        k, times := k + 1, times + [p];
      }
    }

    /** The release step of a turn: it takes the fired stamp, if there is one. */
    method ReleaseFired(context: Context, turn: nat, world: Moment -> Gust<P>)
      returns (after: Context, units: nat, ghost full: bool, ghost times: seq<Passage<P>>)
      requires Valid() && context.remainingBudget < U32
      modifies this`pending, this`inn, this`innClosed, this`outRoom, this`signalsIn, this`now, this`history, this`events
      ensures Valid() && ReleasedTo(old(Here()), context, StillUntilEnd(world), Here(), after, units, full, times)
    {
      after, units, full, times := context, 0, false, [];
      if context.timerFiredAt.Some? {
        after, units, full, times := ReleaseDue(context, turn, world);
      }
    }

    /** The signals, after what happened before the turn. */
    method Listen(g: Gust<P>) returns (stop: bool)
      requires Valid()
      modifies this`inn, this`innClosed, this`outRoom, this`signalsIn, this`now, this`history, this`events, this`heard
      ensures Valid() && Here() == Listened(Swept(old(Here()), g)) && stop == StopNext(old(signalsIn) + g.signals)
    {
      Meanwhile(g);
      stop := HandleSignal();
    }

    /** Accepts a packet, if one is there after what happened before. */
    method AcceptNext(before: Context, d: nat, g: Gust<P>) returns (after: Context, accepted: bool)
      requires Valid()
      modifies this`pending, this`inn, this`innClosed, this`outRoom, this`signalsIn, this`now, this`history, this`events
      ensures Valid() && Here() == Accepted(Swept(old(Here()), g), d) && after == Spent(before, accepted)
      ensures accepted == (Swept(old(Here()), g).env.inn != []) && (!accepted ==> Saw())
    {
      after := before;
      Meanwhile(g);
      accepted := AcceptOne(d);
      if accepted {
        after := after.(remainingBudget := (after.remainingBudget - 1) % U32);
      }
    }

    /** The rest of a turn: what the stamp covers, then one packet from IN. */
    method Work(context: Context, d: nat, turn: nat, world: Moment -> Gust<P>, ghost a: Stand<P>)
      returns (after: Context, units: nat, accepted: bool, ghost x: Pass<P>)
      requires Valid() && a.state.delay == Some(d) && 0 < context.remainingBudget < U32
      requires var g := world(BeforeSignal(turn));
        Here() == Listened(Swept(a, g)) && !StopNext(a.env.signals + g.signals)
      modifies this`pending, this`inn, this`innClosed, this`outRoom, this`signalsIn, this`now, this`history, this`events
      ensures Valid() && x == Pass(after, false, accepted, units, x.leg, x.times, Saw())
      ensures TurnDone(a, context, world(BeforeSignal(turn)), StillUntilEnd(world), Here(), x)
    {
      ghost var b, still := Here(), StillUntilEnd(world);
      ghost var full, times;
      after, units, full, times := ReleaseFired(context, turn, world);
      ghost var c, used, k := Here(), after, units;
      after, accepted := AcceptNext(after, d, world(BeforeAccept(turn)));
      if accepted {
        units := units + 1;
      }
      x := TurnAssembled(a, context, world(BeforeSignal(turn)), still, b, used, k, full, times, c,
                         world(BeforeAccept(turn)), Here(), Saw());
    }

    /** One turn of the main loop: the signals, what the stamp covers, one packet from IN. */
    method Turn(context: Context, d: nat, turn: nat, world: Moment -> Gust<P>)
      returns (after: Context, stop: bool, units: nat, accepted: bool, ghost x: Pass<P>)
      requires Valid() && delay == Some(d) && 0 < context.remainingBudget < U32
      modifies this`pending, this`inn, this`innClosed, this`outRoom, this`signalsIn, this`now, this`history, this`events
      modifies this`heard
      ensures Valid() && x == Pass(after, stop, accepted, units, x.leg, x.times, Saw())
      ensures TurnDone(old(Here()), context, world(BeforeSignal(turn)), StillUntilEnd(world), Here(), x)
    {
      ghost var a := Here();
      stop := Listen(world(BeforeSignal(turn)));
      if stop {
        after, units, accepted := context, 0, false;
        x := TurnStops(a, context, world(BeforeSignal(turn)), StillUntilEnd(world), Saw());
      } else {
        after, units, accepted, x := Work(context, d, turn, world, a);
      }
    }

    /** One more turn of the loop. */
    method Round(before: Context, unitsBefore: nat, turn: nat, world: Moment -> Gust<P>, ghost o: Outset<P>,
        ghost x0: Pass<P>)
      returns (after: Context, stop: bool, accepted: bool, workUnits: nat, ghost x: Pass<P>)
      requires Valid() && x0.after == before && x0.units == unitsBefore && 0 < before.remainingBudget
      requires InLoop(o, turn, Here(), x0) && x0.accepted && (turn == 0 ==> o.gust == world(BeforeSignal(0)))
      requires o.still == StillUntilEnd(world)
      modifies this`pending, this`inn, this`innClosed, this`outRoom, this`signalsIn, this`now, this`history, this`events
      modifies this`heard
      ensures Valid() && x == Pass(after, stop, accepted, workUnits, x.leg, x.times, Saw())
      ensures if stop then LoopLeft(o, Here(), x) else InLoop(o, turn + 1, Here(), x)
      ensures !stop && accepted ==>
        x.leg.effect.accepted != [] && (x0.leg.effect.accepted != [] ==> after.remainingBudget < before.remainingBudget)
    {
      ghost var z := Here();
      var units;
      after, stop, units, accepted, x := Turn(before, delay.value, turn, world);
      x := NextRound(o, turn, z, x0, world(BeforeSignal(turn)), Here(), x);
      workUnits := if stop then unitsBefore else unitsBefore + units;
    }

    /** The main loop. */
    method RunLoop(context: Context, d: nat, world: Moment -> Gust<P>)
      returns (after: Context, stop: bool, workUnits: nat, ghost x: Pass<P>)
      requires Valid() && delay == Some(d) && 0 < context.remainingBudget < U32
      modifies this`pending, this`inn, this`innClosed, this`outRoom, this`signalsIn, this`now, this`history, this`events
      modifies this`heard
      ensures Valid() && x == Pass(after, stop, x.accepted, workUnits, x.leg, x.times, x.saw) && x.saw == Saw()
      ensures LoopLeft(Outset(old(Here()), context, StillUntilEnd(world), world(BeforeSignal(0))), Here(), x)
    {
      ghost var o := Outset(Here(), context, StillUntilEnd(world), world(BeforeSignal(0)));
      after, stop, workUnits := context, false, 0;
      x := LoopBegins(o, d, Saw());
      var accepted, turn := true, 0;
      while after.remainingBudget > 0 && accepted
        invariant Valid() && x == Pass(after, stop, accepted, workUnits, x.leg, x.times, Saw())
        invariant InLoop(o, turn, Here(), x)
        decreases accepted, x.leg.effect.accepted == [], after.remainingBudget
      {
        after, stop, accepted, workUnits, x := Round(after, workUnits, turn, world, o, x);
        if stop {
          return;
        }
        turn := turn + 1;
      }
    }

    /** What comes after the loop: the end of input, or the timer request for the front packet. */
    method Conclude(used: Context, workUnits: nat, g: Gust<P>)
      returns (after: Context, result: CallResult)
      requires Valid()
      modifies this`inn, this`innClosed, this`outRoom, this`signalsIn, this`now, this`history, this`events
      ensures Valid() && Here() == Swept(old(Here()), g) && (old(Saw()) ==> Saw())
      ensures result ==
        if innClosed && pending == [] then Finished else if workUnits > 0 then DidWork(workUnits) else NoWork
      ensures after == if pending == [] then used else used.(wakeAt := Some(pending[0].readyTime))
    {
      Meanwhile(g);
      after := used;
      if innClosed && pending == [] {
        result := Finished;
      } else {
        if pending != [] {
          after := after.(wakeAt := Some(pending[0].readyTime));
        }
        result := if workUnits > 0 then DidWork(workUnits) else NoWork;
      }
    }

    /** The call once the delay is known and no stop came first. */
    method Body(context: Context, d: nat, world: Moment -> Gust<P>)
      returns (after: Context, result: CallResult, ghost f: Effect<P>, ghost times: seq<Passage<P>>)
      requires Valid() && 0 < context.remainingBudget < U32 && delay == Some(d)
      modifies this`pending, this`inn, this`innClosed, this`outRoom, this`signalsIn, this`now, this`history, this`events
      modifies this`heard
      ensures Valid() && f.delay == d
      ensures Done(old(Here()), context, world, !StopNext(old(signalsIn)), Here(), Deed(after, result, f, times, Saw()))
    {
      ghost var a := Here();
      var stop, workUnits;
      ghost var x;
      after, stop, workUnits, x := RunLoop(context, d, world);
      times := x.times;
      if stop {
        f, result := x.leg.effect.(ending := StopSignal), Finished;
        LoopStops(a, context, world, Here(), x, Saw());
        return;
      }
      ghost var z := Here();
      after, result := Conclude(after, workUnits, world(BeforeEnd));
      f := x.leg.effect.(ending := if innClosed && pending == [] then EndOfInput else Paused);
      LoopConcludes(a, context, world, z, x, Saw());
    }

    /** The call once the delay is known: a stop may already be there. */
    method Attend(context: Context, d: nat, world: Moment -> Gust<P>)
      returns (after: Context, result: CallResult, ghost f: Effect<P>, ghost times: seq<Passage<P>>)
      requires Valid() && 0 < context.remainingBudget < U32 && delay == Some(d)
      modifies this`pending, this`inn, this`innClosed, this`outRoom, this`signalsIn, this`now, this`history, this`events
      modifies this`heard
      ensures Valid() && f.delay == d
      ensures Done(old(Here()), context, world, NoStopWaits(old(signalsIn)), Here(),
                   Deed(after, result, f, times, Saw()))
    {
      ghost var a := Here();
      var stop := HandleSignal();
      if stop {
        after, result, f, times := context, Finished, Effect(d, 0, false, [], StopSignal), [];
        StoppedAtOnce(a, context, world, d, Saw());
        return;
      }
      ghost var b := Here();
      after, result, f, times := Body(context, d, world);
      DoneOnceHeard(a, b, context, world, Here(), Deed(after, result, f, times, Saw()));
    }

    /** The configuration, which does not change what else the call meets. */
    method Configure() returns (panicked: bool)
      requires Valid()
      modifies this`conf, this`delay, this`ring, this`events
      ensures Valid() && ring == inn && (panicked <==> old(Panics()))
      ensures Here() == old(Here()).(state := DelayState(delay, pending)) && (panicked ==> delay == old(delay))
      ensures !panicked ==> delay.Some? && DelayRead(old(delay), old(conf), delay)
      ensures conf == if old(delay).None? && old(conf) != [] then old(conf)[1..] else old(conf)
    {
      ring, events := inn, [];
      panicked := ReadConf();
    }

    /**
     Every call that does not panic on its CONF packet ends as said, whatever the surroundings do. In
     particular, if it ends at the end of input, IN is empty unless the state it began in was exposed; and
     if it moves more packets than its budget, that state was one that overruns.
     */
    method Process(context: Context, world: Moment -> Gust<P>)
      returns (after: Context, result: CallResult, ghost f: Effect<P>, ghost times: seq<Passage<P>>)
      requires Valid() && 0 < context.remainingBudget < U32
      modifies this
      ensures Valid() && ring == old(inn) && (result.Panicked? <==> old(Panics()))
      ensures result.Panicked? ==> Here() == old(Here()) && after == context
      ensures !result.Panicked? ==> DelayRead(old(delay), old(conf), delay) && delay == Some(f.delay)
      ensures conf == if old(delay).None? && old(conf) != [] then old(conf)[1..] else old(conf)
      ensures !result.Panicked? ==> Done(old(Here()), context, world, NoStopWaits(old(signalsIn)), Here(),
                                         Deed(after, result, f, times, Saw()))
    {
      ghost var a := Here();
      var panicked := Configure();
      if panicked {
        after, result, f, times := context, Panicked, Effect(0, 0, false, [], StopSignal), [];
        return;
      }
      ghost var b := Here();
      after, result, f, times := Attend(context, delay.value, world);
      DoneOnceConfigured(a, b, context, world, NoStopWaits(a.env.signals), Here(),
        Deed(after, result, f, times, Saw()));
    }

    /**
     The states from which a packet can be lost: IN is still open and empty, the fired timer covers the
     whole queue, neither of the two signals read first is a stop, and CONF is no reason to panic. A
     producer that writes and closes after the last look leaves its packet behind.
     */
    ghost predicate Exposed(context: Context)
      reads this
    {
      Open(Here(), context) && NoStopWaits(signalsIn) && !Panics()
    }

    /**
     The states from which a call can count its budget down below zero: the fired timer covers more packets
     than the budget, or just as many and IN has a packet or may get one; and nothing ends the call first.
     */
    ghost predicate Overruns(context: Context)
      reads this
    {
      Tight(pending, context, Env()) && NoStopWaits(signalsIn) && !Panics()
    }

    /** From every exposed state some surroundings do make a call lose a packet. */
    method LosingCall(context: Context, p: P) returns (after: Context, result: CallResult)
      requires Valid() && Exposed(context) && 0 < context.remainingBudget < U32
      modifies this
      ensures result.Finished? && inn == [p]
    {
      var room := |pending|;
      var world := (m: Moment) =>
        if m.BeforeEnd? then Gust([p], true, 0, [], 0) else Gust([], false, room, [], 0);
      ghost var f, times;
      after, result, f, times := Process(context, world);
    }

    /** From every state that overruns, some surroundings do make a call move more packets than its budget. */
    method OverrunningCall(context: Context, p: P) returns (after: Context, result: CallResult)
      requires Valid() && Overruns(context) && 0 < context.remainingBudget < U32
      modifies this
      ensures |history.sent| + |history.taken| > |old(history).sent| + |old(history).taken| + context.remainingBudget
    {
      var room := |pending|;
      var world := (m: Moment) =>
        if m == BeforeSignal(0) then Gust([p], false, room, [], 0) else Gust([], false, 0, [], 0);
      ghost var f, times;
      after, result, f, times := Process(context, world);
      assert |DataOf(times)| == f.released;
    }
  }

  // ----- what a call means for its budget and its timer -----

  /**
   What a call leaves and reports, in plain terms: the queue without the packets released and with those
   accepted, each ready one delay after it was taken; units for every packet moved; the budget counted down
   by as many, on 32 bits; the stamp used up; and a request for the front packet's ready time.
   */
  lemma CallMeans<P>(a: Stand<P>, context: Context, world: Moment -> Gust<P>, clear: bool, z: Stand<P>, x: Deed<P>)
    requires Done(a, context, world, clear, z, x)
    ensures var f, q, r := x.effect, a.state.pending, z.state.pending;
      && f.released <= |q| && |r| == |q| - f.released + |f.accepted|
      && (forall i :: 0 <= i < |q| - f.released ==> r[i] == q[f.released + i])
      && (forall i :: 0 <= i < |f.accepted| ==>
            r[|q| - f.released + i] == Delayed(f.accepted[i].data, f.accepted[i].at + f.delay))
      && z.history.taken == a.history.taken + f.accepted && |z.history.sent| == |a.history.sent| + f.released
    ensures var f := x.effect; var moved := f.released + |f.accepted|;
      && (x.result.Finished? <==> f.ending.StopSignal? || (z.env.closed && z.state.pending == []))
      && (f.ending == Paused ==> x.result == if moved == 0 then NoWork else DidWork(moved))
      && (f.ending != StopSignal ==>
            x.after == context.(
              remainingBudget := (context.remainingBudget - moved) % 0x1_0000_0000,
              timerFiredAt := None,
              wakeAt := if z.state.pending == [] then context.wakeAt else Some(z.state.pending[0].readyTime)))
  {
    assert |DataOf(x.times)| == x.effect.released;
  }

  /**
   The 32-bit budget: among the effects that the state and the surroundings at the beginning of a call
   allow, none takes more decrements than the budget exactly when the state is not tight. The release
   loop counts down without looking, and so does the acceptance after it.
   */
  lemma BudgetUnderflow<P(00)>(s: DelayState<P>, c: Context, e: Around<P>, lo: Instant)
    requires 0 < c.remainingBudget < U32
    ensures (forall f, hi, left :: Possible(s, c, f, lo, hi) && Affords(e, left, f) ==>
              f.released + |f.accepted| <= c.remainingBudget)
       <==> !Tight(s.pending, c, e)
  {
    var due := DueCount(s.pending, c.timerFiredAt);
    if Tight(s.pending, c, e) {
      var p: P :| true;
      var d := if s.delay.Some? then s.delay.value else DEFAULT_DELAY;
      var f := Effect(d, due, false, if Dry(e) then [] else [Passage(p, lo)], Paused);
      assert Possible(s, c, f, lo, lo) && Affords(e, e.room, f);
      assert f.released + |f.accepted| > c.remainingBudget;
    }
  }

  /** Nine packets that share a ready time overrun a budget of eight, and the counter ends near 2^32. */
  method UnderflowExample(d: DelayComponent<int>) returns (after: Context, result: CallResult)
    requires d.Valid() && d.delay == Some(50) && d.innClosed && d.inn == [] && d.signalsIn == []
    requires var p := Delayed(0, 50); d.pending == [p, p, p, p, p, p, p, p, p, Delayed(1, 90)]
    modifies d
    ensures result == DidWork(9) && d.pending == [Delayed(1, 90)] && after.remainingBudget == 0xFFFF_FFFF
  {
    var context := NewContext(Heavy).(remainingBudget := 8, timerFiredAt := Some(50));
    var world := (m: Moment) =>
      if m == BeforeSignal(0) then Gust([2], false, 10, [], 0) else Gust([], false, 0, [], 0);
    DueFront(d.pending, 9, 50);
    ghost var f, times;
    after, result, f, times := d.Process(context, world);
  }

  lemma DueFront<P>(pending: seq<Delayed<P>>, k: nat, stamp: Instant)
    requires k < |pending| && pending[k].readyTime > stamp
    requires forall i :: 0 <= i < k ==> pending[i].readyTime <= stamp
    ensures DueCount(pending, Some(stamp)) == k
  {
  }

  /**
   A call that finds OUT full does not come back after the polling interval: it asks for the front
   packet's own ready time, which the fired stamp has already passed.
   */
  lemma FullMeansAtOnce<P>(s: DelayState<P>, c: Context, f: Effect<P>, lo: Instant, hi: Instant)
    requires Possible(s, c, f, lo, hi) && f.ending.Paused? && f.outFull
    ensures c.timerFiredAt.Some? && AfterEffect(s, f).pending[0] == s.pending[f.released]
    ensures ContextAfter(s, c, f).wakeAt == Some(s.pending[f.released].readyTime)
    ensures s.pending[f.released].readyTime <= c.timerFiredAt.value
  {
  }
}
