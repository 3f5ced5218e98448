/**
 `IMAPAppend` and its worker thread: a component and a worker joined by two FIFO channels, with a count
 of the appends on their way. The protocol is a machine whose steps are the single sends and receives
 of the two threads, in any order; `AppendNode.Process` is proved to be a run of it, with the worker
 free to act between any two of its steps.
 */
module ImapAppend {
  import opened Prelude
  import opened ComponentApi

  type Byte = x: nat | x < 256

  datatype Message = Bytes(data: seq<Byte>) | Text(text: string)

  /** `packet.as_bytes().unwrap_or(&[])`: what the worker hands to the server. */
  function Payload(m: Message): seq<Byte> {
    if m.Bytes? then m.data else []
  }

  datatype AppendState = WaitingForConfig | Connecting | Active | Ended

  datatype Command = Connect(url: string) | Append(packet: Message) | Shutdown

  datatype Answer = Connected | Appended | Failed | Stopped

  /** An append the worker is through with. */
  datatype Handled = Handled(packet: Message, ok: bool)

  /**
   Both sides of the protocol: the component's fields, the two channels, the worker's position and
   session, and the histories of what was consumed from IN, handled by the worker and stored by the
   server.
   */
  datatype Protocol = Protocol(
    state: AppendState,
    pendingInput: seq<Message>,
    inflight: nat,
    commands: seq<Command>,
    answers: seq<Answer>,
    handling: Option<Command>,
    session: bool,
    alive: bool,
    consumed: seq<Message>,
    handled: seq<Handled>,
    server: seq<seq<Byte>>)

  const START := Protocol(WaitingForConfig, [], 0, [], [], None, false, true, [], [], [])

  datatype Step =
    | Receive
    | Configure(url: string)
    | Absorb(chunk: seq<Message>)
    | SendAppend
    | FinishAtEof
    | FinishOnStop
    | SendRefused
    | WorkerTake
    | WorkerAnswer(ok: bool)

  predicate Enabled(p: Protocol, s: Step) {
    match s
    case Receive => !p.state.Ended? && p.answers != []
    case Configure(_) => p.state.WaitingForConfig? && p.alive
    case Absorb(_) => p.state.Active?
    case SendAppend => p.state.Active? && p.pendingInput != [] && p.alive
    case FinishAtEof => p.state.Active? && p.pendingInput == [] && p.inflight == 0
    case FinishOnStop => !p.state.Ended?
    case SendRefused => (p.state.WaitingForConfig? || p.state.Active?) && !p.alive
    case WorkerTake => p.alive && p.handling.None? && p.commands != []
    case WorkerAnswer(_) => p.alive && p.handling.Some?
  }

  function SatMinusOne(n: nat): nat {
    if n == 0 then 0 else n - 1
  }

  /** A send is lost once the worker has gone. */
  function Sent(p: Protocol, c: Command): seq<Command> {
    if p.alive then p.commands + [c] else p.commands
  }

  function Step1(p: Protocol, s: Step): Protocol
    requires Enabled(p, s)
  {
    match s
    case Receive =>
      var q := p.(answers := p.answers[1..]);
      (match p.answers[0]
       case Connected => q.(state := Active)
       case Appended => q.(inflight := SatMinusOne(p.inflight))
       case Failed => q.(state := Ended)
       case Stopped => q.(state := Ended))
    case Configure(url) => p.(commands := p.commands + [Connect(url)], state := Connecting)
    case Absorb(chunk) => p.(pendingInput := p.pendingInput + chunk, consumed := p.consumed + chunk)
    case SendAppend =>
      p.(commands := p.commands + [Append(p.pendingInput[0])], pendingInput := p.pendingInput[1..],
        inflight := p.inflight + 1)
    case FinishAtEof => p.(commands := Sent(p, Shutdown), state := Ended)
    case FinishOnStop => p.(commands := Sent(p, Shutdown), state := Ended)
    case SendRefused => p.(state := Ended)
    case WorkerTake => p.(handling := Some(p.commands[0]), commands := p.commands[1..])
    case WorkerAnswer(ok) =>
      var q := p.(handling := None);
      (match p.handling.value
       case Connect(_) => q.(session := p.session || ok, answers := p.answers + [if ok then Connected else Failed])
       case Append(m) =>
         var done := p.session && ok;
         q.(answers := p.answers + [if done then Appended else Failed],
            handled := p.handled + [Handled(m, done)],
            server := if done then p.server + [Payload(m)] else p.server)
       case Shutdown => q.(session := false, alive := false, answers := p.answers + [Stopped]))
  }

  predicate Steps(p: Protocol, ss: seq<Step>)
    decreases |ss|
  {
    ss == [] || (Enabled(p, ss[0]) && Steps(Step1(p, ss[0]), ss[1..]))
  }

  function AfterSteps(p: Protocol, ss: seq<Step>): Protocol
    requires Steps(p, ss)
    decreases |ss|
  {
    if ss == [] then p else AfterSteps(Step1(p, ss[0]), ss[1..])
  }

  lemma StepsSnoc(p: Protocol, ss: seq<Step>, s: Step)
    requires Steps(p, ss) && Enabled(AfterSteps(p, ss), s)
    ensures Steps(p, ss + [s]) && AfterSteps(p, ss + [s]) == Step1(AfterSteps(p, ss), s)
    decreases |ss|
  {
    if ss == [] {
      assert ([] + [s])[1..] == [];
    } else {
      assert (ss + [s])[1..] == ss[1..] + [s];
      StepsSnoc(Step1(p, ss[0]), ss[1..], s);
    }
  }

  // ----- the invariant -----

  function AppendsIn(cs: seq<Command>): seq<Message> {
    if cs == [] then [] else (if cs[0].Append? then [cs[0].packet] else []) + AppendsIn(cs[1..])
  }

  function Underway(p: Protocol): seq<Message> {
    (if p.handling.Some? && p.handling.value.Append? then [p.handling.value.packet] else []) + AppendsIn(p.commands)
  }

  function Acks(rs: seq<Answer>): nat {
    if rs == [] then 0 else (if rs[0].Appended? then 1 else 0) + Acks(rs[1..])
  }

  function Errors(rs: seq<Answer>): nat {
    if rs == [] then 0 else (if rs[0].Failed? then 1 else 0) + Errors(rs[1..])
  }

  function Failures(hs: seq<Handled>): nat {
    if hs == [] then 0 else (if hs[0].ok then 0 else 1) + Failures(hs[1..])
  }

  function Packets(hs: seq<Handled>): seq<Message> {
    if hs == [] then [] else [hs[0].packet] + Packets(hs[1..])
  }

  function Stored(hs: seq<Handled>): seq<seq<Byte>> {
    if hs == [] then [] else (if hs[0].ok then [Payload(hs[0].packet)] else []) + Stored(hs[1..])
  }

  function Payloads(ms: seq<Message>): seq<seq<Byte>> {
    if ms == [] then [] else [Payload(ms[0])] + Payloads(ms[1..])
  }

  lemma AppendsSnoc(cs: seq<Command>, c: Command)
    ensures AppendsIn(cs + [c]) == AppendsIn(cs) + if c.Append? then [c.packet] else []
  {
    if cs != [] {
      assert (cs + [c])[1..] == cs[1..] + [c];
      AppendsSnoc(cs[1..], c);
    }
  }

  lemma AcksSnoc(rs: seq<Answer>, r: Answer)
    ensures Acks(rs + [r]) == Acks(rs) + if r.Appended? then 1 else 0
    ensures Errors(rs + [r]) == Errors(rs) + if r.Failed? then 1 else 0
  {
    if rs != [] {
      assert (rs + [r])[1..] == rs[1..] + [r];
      AcksSnoc(rs[1..], r);
    }
  }

  lemma PacketsSnoc(hs: seq<Handled>, h: Handled)
    ensures Packets(hs + [h]) == Packets(hs) + [h.packet]
  {
    if hs != [] {
      assert (hs + [h])[1..] == hs[1..] + [h];
      PacketsSnoc(hs[1..], h);
    }
  }

  lemma StoredSnoc(hs: seq<Handled>, h: Handled)
    ensures Failures(hs + [h]) == Failures(hs) + if h.ok then 0 else 1
    ensures Stored(hs + [h]) == Stored(hs) + if h.ok then [Payload(h.packet)] else []
  {
    if hs != [] {
      assert (hs + [h])[1..] == hs[1..] + [h];
      StoredSnoc(hs[1..], h);
    }
  }

  /** What is consumed is handled, on its way, or pending, in order;
      the count is exact on every run, failures included. */
  ghost predicate Ledger(p: Protocol) {
    && p.consumed == Packets(p.handled) + Underway(p) + p.pendingInput
    && p.inflight == |Underway(p)| + Acks(p.answers) + Failures(p.handled)
    && p.server == Stored(p.handled)
  }

  /** Where the handshake is, and that appends only travel while there is a session. */
  ghost predicate Handshake(p: Protocol) {
    && (p.state.WaitingForConfig? ==> Idle(p))
    && (p.state.Connecting? ==> Dialling(p))
    && (p.state.Active? ==> Streaming(p))
    && (p.state.Ended? ==> forall i :: 0 <= i < |p.commands| - 1 ==> !p.commands[i].Shutdown?)
    && (p.handling.Some? && p.handling.value.Shutdown? ==> p.commands == [])
    && (Underway(p) != [] ==> p.session && p.alive)
  }

  ghost predicate Idle(p: Protocol) {
    p.commands == [] && p.handling.None? && p.answers == [] && p.alive && p.handled == []
  }

  ghost predicate Dialling(p: Protocol) {
    && p.alive && p.handled == [] && |p.commands| + |p.answers| + (if p.handling.Some? then 1 else 0) == 1
    && (p.commands != [] ==> p.commands[0].Connect?) && (p.handling.Some? ==> p.handling.value.Connect?)
    && (p.answers != [] ==> p.answers[0].Failed? || (p.answers[0].Connected? && p.session))
  }

  ghost predicate Streaming(p: Protocol) {
    && p.alive && p.session && (forall c :: c in p.commands ==> c.Append?)
    && (p.handling.Some? ==> p.handling.value.Append?)
    && (forall r :: r in p.answers ==> r.Appended? || r.Failed?) && Errors(p.answers) == Failures(p.handled)
  }

  ghost predicate Sane(p: Protocol) {
    Ledger(p) && Handshake(p)
  }

  lemma ComponentKeepsLedger(p: Protocol, s: Step)
    requires Sane(p) && Enabled(p, s) && !s.WorkerTake? && !s.WorkerAnswer?
    ensures Ledger(Step1(p, s))
  {
    match s
    case Receive =>
      assert Underway(Step1(p, s)) == Underway(p);
    case Configure(url) => CommandKeepsLedger(p, Connect(url), Connecting);
    case Absorb(chunk) => AbsorbKeepsLedger(p, chunk);
    case SendAppend => SendKeepsLedger(p);
    case FinishAtEof => CommandKeepsLedger(p, Shutdown, Ended);
    case FinishOnStop => CommandKeepsLedger(p, Shutdown, Ended);
    case SendRefused =>
  }

  lemma CommandKeepsLedger(p: Protocol, c: Command, st: AppendState)
    requires Ledger(p) && !c.Append?
    ensures Ledger(p.(commands := p.commands + [c], state := st))
  {
    AppendsSnoc(p.commands, c);
    assert AppendsIn(p.commands) + [] == AppendsIn(p.commands);
    assert Underway(p.(commands := p.commands + [c], state := st)) == Underway(p);
  }

  lemma AbsorbKeepsLedger(p: Protocol, chunk: seq<Message>)
    requires Ledger(p)
    ensures Ledger(p.(pendingInput := p.pendingInput + chunk, consumed := p.consumed + chunk))
  {
    assert Underway(p.(pendingInput := p.pendingInput + chunk, consumed := p.consumed + chunk)) == Underway(p);
    assert Packets(p.handled) + Underway(p) + p.pendingInput + chunk ==
      Packets(p.handled) + Underway(p) + (p.pendingInput + chunk);
  }

  lemma SendKeepsLedger(p: Protocol)
    requires Ledger(p) && Enabled(p, SendAppend)
    ensures Ledger(Step1(p, SendAppend))
  {
    AppendsSnoc(p.commands, Append(p.pendingInput[0]));
    var q := Step1(p, SendAppend);
    assert p.pendingInput == [p.pendingInput[0]] + q.pendingInput;
    assert Underway(q) == Underway(p) + [p.pendingInput[0]];
  }

  lemma AppendAnswerKeepsLedger(p: Protocol, ok: bool)
    requires Ledger(p) && Enabled(p, WorkerAnswer(ok)) && p.handling.value.Append?
    ensures Ledger(Step1(p, WorkerAnswer(ok)))
  {
    var q := Step1(p, WorkerAnswer(ok));
    AcksSnoc(p.answers, q.answers[|p.answers|]);
    PacketsSnoc(p.handled, q.handled[|p.handled|]);
    StoredSnoc(p.handled, q.handled[|p.handled|]);
    assert Underway(p) == [p.handling.value.packet] + Underway(q);
    Reorder(Packets(p.handled), p.handling.value.packet, Underway(q), p.pendingInput);
  }

  lemma Reorder(a: seq<Message>, x: Message, b: seq<Message>, c: seq<Message>)
    ensures a + ([x] + b) + c == a + [x] + b + c
  {
  }

  lemma WorkerKeepsLedger(p: Protocol, s: Step)
    requires Sane(p) && Enabled(p, s) && (s.WorkerTake? || s.WorkerAnswer?)
    ensures Ledger(Step1(p, s))
  {
    var q := Step1(p, s);
    if s.WorkerTake? {
      assert Underway(q) == Underway(p);
    } else if p.handling.value.Append? {
      AppendAnswerKeepsLedger(p, s.ok);
    } else {
      AcksSnoc(p.answers, q.answers[|p.answers|]);
    }
  }

  lemma ReceiveKeepsHandshake(p: Protocol)
    requires Sane(p) && Enabled(p, Receive)
    ensures Handshake(Step1(p, Receive))
  {
    var q := Step1(p, Receive);
    assert Underway(q) == Underway(p);
    forall i | 0 <= i < |p.commands| ensures !p.commands[i].Shutdown? {
      assert p.commands[i] in p.commands;
    }
    assert p.answers[0] in p.answers;
    assert forall r :: r in q.answers ==> r in p.answers;
  }

  lemma AnswerKeepsErrors(p: Protocol, ok: bool)
    requires Enabled(p, WorkerAnswer(ok)) && p.handling.value.Append? && Errors(p.answers) == Failures(p.handled)
    ensures Errors(Step1(p, WorkerAnswer(ok)).answers) == Failures(Step1(p, WorkerAnswer(ok)).handled)
  {
    var q := Step1(p, WorkerAnswer(ok));
    AcksSnoc(p.answers, q.answers[|p.answers|]);
    StoredSnoc(p.handled, q.handled[|p.handled|]);
  }

  lemma TakeKeepsHandshake(p: Protocol)
    requires Sane(p) && Enabled(p, WorkerTake)
    ensures Handshake(Step1(p, WorkerTake))
  {
    assert Underway(Step1(p, WorkerTake)) == Underway(p);
    assert p.commands[0] in p.commands;
    assert forall c :: c in p.commands[1..] ==> c in p.commands;
  }

  lemma AnswerKeepsHandshake(p: Protocol, ok: bool)
    requires Sane(p) && Enabled(p, WorkerAnswer(ok))
    ensures Handshake(Step1(p, WorkerAnswer(ok)))
  {
    if p.state.Active? { AnswerKeepsErrors(p, ok); }
  }

  lemma StepKeepsHandshake(p: Protocol, s: Step)
    requires Sane(p) && Enabled(p, s)
    ensures Handshake(Step1(p, s))
  {
    match s
    case Receive => ReceiveKeepsHandshake(p);
    case Configure(url) => AppendsSnoc(p.commands, Connect(url));
    case Absorb(_) =>
    case SendAppend => AppendsSnoc(p.commands, Append(p.pendingInput[0]));
    case FinishAtEof => EndKeepsHandshake(p);
    case FinishOnStop => EndKeepsHandshake(p);
    case SendRefused =>
    case WorkerTake => TakeKeepsHandshake(p);
    case WorkerAnswer(ok) => AnswerKeepsHandshake(p, ok);
  }

  /** Until the component ends, no shutdown is on its way. */
  lemma NoShutdownYet(p: Protocol)
    requires Handshake(p) && !p.state.Ended?
    ensures forall i :: 0 <= i < |p.commands| ==> !p.commands[i].Shutdown?
    ensures p.handling.Some? ==> !p.handling.value.Shutdown?
  {
    forall i | 0 <= i < |p.commands| ensures !p.commands[i].Shutdown? {
      assert p.commands[i] in p.commands;
    }
  }

  lemma EndKeepsHandshake(p: Protocol)
    requires Sane(p) && !p.state.Ended?
    ensures Handshake(p.(commands := p.commands + [Shutdown], state := Ended))
  {
    NoShutdownYet(p);
    AppendsSnoc(p.commands, Shutdown);
    assert Underway(p.(commands := p.commands + [Shutdown], state := Ended)) == Underway(p);
  }

  lemma StepKeepsSane(p: Protocol, s: Step)
    requires Sane(p) && Enabled(p, s)
    ensures Sane(Step1(p, s))
  {
    if s.WorkerTake? || s.WorkerAnswer? { WorkerKeepsLedger(p, s); } else { ComponentKeepsLedger(p, s); }
    StepKeepsHandshake(p, s);
  }

  lemma {:induction false} StepsKeepSane(p: Protocol, ss: seq<Step>)
    requires Sane(p) && Steps(p, ss)
    ensures Sane(AfterSteps(p, ss))
    decreases |ss|
  {
    if ss != [] {
      StepKeepsSane(p, ss[0]);
      StepsKeepSane(Step1(p, ss[0]), ss[1..]);
    }
  }

  // ----- the theorems, over every interleaving from the start -----

  /** What the server is sent at a step at which it stores something: the bytes of the packet, or none for a text. */
  function Saved(p: Protocol, s: Step): seq<seq<Byte>>
    requires Enabled(p, s)
  {
    if s == WorkerAnswer(true) && p.handling.value.Append? then
      var m := p.handling.value.packet;
      if m.Bytes? then [m.data] else [[]]
    else []
  }

  /** All that the server stores in a run. */
  function ServerGot(p: Protocol, ss: seq<Step>): seq<seq<Byte>>
    requires Steps(p, ss)
    decreases |ss|
  {
    if ss == [] then [] else Saved(p, ss[0]) + ServerGot(Step1(p, ss[0]), ss[1..])
  }

  /** The appends that the server refuses in a run. */
  function Refusals(p: Protocol, ss: seq<Step>): nat
    requires Steps(p, ss)
    decreases |ss|
  {
    if ss == [] then 0
    else
      Refusals(Step1(p, ss[0]), ss[1..])
        + if ss[0] == WorkerAnswer(false) && p.handling.value.Append? then 1 else 0
  }

  /** All that the component takes from IN in a run. */
  function Absorbed(ss: seq<Step>): seq<Message> {
    if ss == [] then [] else (if ss[0].Absorb? then ss[0].chunk else []) + Absorbed(ss[1..])
  }

  /** From p to q the histories grew by so much. */
  ghost predicate Grown(p: Protocol, q: Protocol, stored: seq<seq<Byte>>, taken: seq<Message>, refused: nat) {
    && q.server == p.server + stored && q.consumed == p.consumed + taken
    && Failures(q.handled) == Failures(p.handled) + refused
  }

  lemma GrownOn(p: Protocol, q: Protocol, r: Protocol, stored: seq<seq<Byte>>, taken: seq<Message>, refused: nat,
      alsoStored: seq<seq<Byte>>, alsoTaken: seq<Message>, alsoRefused: nat)
    requires Grown(p, q, stored, taken, refused) && Grown(q, r, alsoStored, alsoTaken, alsoRefused)
    ensures Grown(p, r, stored + alsoStored, taken + alsoTaken, refused + alsoRefused)
  {
  }

  lemma StepTells(p: Protocol, s: Step)
    requires Handshake(p) && Enabled(p, s)
    ensures Grown(p, Step1(p, s), Saved(p, s), if s.Absorb? then s.chunk else [],
                  if s == WorkerAnswer(false) && p.handling.value.Append? then 1 else 0)
  {
    if s.WorkerAnswer? && p.handling.value.Append? {
      assert Underway(p)[0] == p.handling.value.packet;
      StoredSnoc(p.handled, Handled(p.handling.value.packet, s.ok));
    }
  }

  /** The histories are what the steps say, whoever writes them down. */
  lemma {:induction false} HistoriesTell(p: Protocol, ss: seq<Step>)
    requires Sane(p) && Steps(p, ss)
    ensures Grown(p, AfterSteps(p, ss), ServerGot(p, ss), Absorbed(ss), Refusals(p, ss))
    decreases |ss|
  {
    if ss != [] {
      var q, rest := Step1(p, ss[0]), ss[1..];
      StepTells(p, ss[0]);
      StepKeepsSane(p, ss[0]);
      HistoriesTell(q, rest);
      GrownOn(p, q, AfterSteps(q, rest), Saved(p, ss[0]), if ss[0].Absorb? then ss[0].chunk else [],
              if ss[0] == WorkerAnswer(false) && p.handling.value.Append? then 1 else 0,
              ServerGot(q, rest), Absorbed(rest), Refusals(q, rest));
    }
  }

  lemma GrownFromNothing(p: Protocol, q: Protocol, stored: seq<seq<Byte>>, taken: seq<Message>, refused: nat)
    requires Grown(p, q, stored, taken, refused) && p.server == [] && p.consumed == [] && p.handled == []
    ensures q.server == stored && q.consumed == taken && Failures(q.handled) == refused
  {
  }

  /** What holds on every run from the start. */
  lemma SaneFromStart(ss: seq<Step>)
    requires Steps(START, ss)
    ensures var p := AfterSteps(START, ss);
      Sane(p) && p.server == ServerGot(START, ss) && p.consumed == Absorbed(ss)
        && Failures(p.handled) == Refusals(START, ss)
  {
    StepsKeepSane(START, ss);
    HistoriesTell(START, ss);
    GrownFromNothing(START, AfterSteps(START, ss), ServerGot(START, ss), Absorbed(ss), Refusals(START, ss));
  }

  lemma InflightPositive(p: Protocol)
    requires Sane(p)
    ensures (p.answers != [] && p.answers[0].Appended? ==> p.inflight > 0) && !Enabled(p, SendRefused)
  {
  }

  /**
   The count of appends is exact: queued, being handled, acknowledged but unread, or refused by the
   server. So an acknowledgement always finds it positive and the saturating decrement never saturates;
   and while the component is active the command channel is open.
   */
  lemma InflightIsExact(ss: seq<Step>)
    requires Steps(START, ss)
    ensures var p := AfterSteps(START, ss);
      && p.inflight == |Underway(p)| + Acks(p.answers) + Refusals(START, ss)
      && (p.answers != [] && p.answers[0].Appended? ==> p.inflight > 0)
      && !Enabled(p, SendRefused)
  {
    SaneFromStart(ss);
    InflightPositive(AfterSteps(START, ss));
  }

  /** Step i of the run is the server's yes to a connect. */
  ghost predicate ConnectAnswered(p: Protocol, ss: seq<Step>, i: nat) {
    && i < |ss| && ss[i] == WorkerAnswer(true) && Steps(p, ss[..i])
    && var q := AfterSteps(p, ss[..i]);
    q.handling.Some? && q.handling.value.Connect?
  }

  /** The worker sees an append only while it has a session, which only a successful connect opens. */
  lemma NoAppendBeforeConnect(ss: seq<Step>)
    requires Steps(START, ss)
    ensures var p := AfterSteps(START, ss);
      p.handling.Some? && p.handling.value.Append? ==> p.session && exists i :: ConnectAnswered(START, ss, i)
  {
    StepsKeepSane(START, ss);
    SessionWasOpened(START, ss);
  }

  lemma {:induction false} SessionWasOpened(p: Protocol, ss: seq<Step>)
    requires Steps(p, ss)
    ensures AfterSteps(p, ss).session ==> p.session || exists i :: ConnectAnswered(p, ss, i)
    decreases |ss|
  {
    if ss != [] && AfterSteps(p, ss).session && !p.session {
      var q, rest := Step1(p, ss[0]), ss[1..];
      SessionWasOpened(q, rest);
      if q.session {
        assert ConnectAnswered(p, ss, 0);
      } else {
        var i: nat :| ConnectAnswered(q, rest, i);
        assert ss[..i + 1][0] == ss[0] && ss[..i + 1][1..] == rest[..i];
        assert ConnectAnswered(p, ss, i + 1);
      }
    }
  }

  /**
   Finishing at the end of input means that the server holds one entry for every packet taken from IN, in
   order, even if some answers were failures on the way: those keep the count up, and the end is not
   reached. What it holds are the packets themselves exactly when all of them are bytes; of a text
   packet it gets an empty body.
   */
  lemma EofMeansStored(ss: seq<Step>)
    requires Steps(START, ss) && Enabled(AfterSteps(START, ss), FinishAtEof)
    ensures var server, taken := ServerGot(START, ss), Absorbed(ss);
      && Refusals(START, ss) == 0 && |server| == |taken|
      && (forall i :: 0 <= i < |taken| ==> server[i] == if taken[i].Bytes? then taken[i].data else [])
      && ((forall i :: 0 <= i < |taken| ==> Bytes(server[i]) == taken[i]) <==> forall m :: m in taken ==> m.Bytes?)
  {
    AllSent(ss);
    PayloadsAt(Absorbed(ss));
  }

  lemma AllSent(ss: seq<Step>)
    requires Steps(START, ss) && Enabled(AfterSteps(START, ss), FinishAtEof)
    ensures Refusals(START, ss) == 0 && ServerGot(START, ss) == Payloads(Absorbed(ss))
  {
    SaneFromStart(ss);
    AllHandled(AfterSteps(START, ss));
  }

  lemma AllHandled(p: Protocol)
    requires Ledger(p) && p.pendingInput == [] && p.inflight == 0
    ensures Failures(p.handled) == 0 && p.server == Payloads(p.consumed)
  {
    AllStored(p.handled);
    assert p.consumed == Packets(p.handled);
  }

  /** One text packet, sent and acknowledged: the component may finish, and the server holds an empty body. */
  lemma TextStoredEmpty() returns (ss: seq<Step>)
    ensures Steps(START, ss) && Enabled(AfterSteps(START, ss), FinishAtEof)
    ensures Absorbed(ss) == [Text("x")] && ServerGot(START, ss) == [[]]
  {
    var steps := [Configure("url"), WorkerTake, WorkerAnswer(true), Receive, Absorb([Text("x")]),
                  SendAppend, WorkerTake, WorkerAnswer(true), Receive];
    ss := [];
    ss := Onward(ss, steps[0]);
    ss := Onward(ss, steps[1]);
    ss := Onward(ss, steps[2]);
    ss := Onward(ss, steps[3]);
    ss := Onward(ss, steps[4]);
    ss := Onward(ss, steps[5]);
    ss := Onward(ss, steps[6]);
    ss := Onward(ss, steps[7]);
    ss := Onward(ss, steps[8]);
    SaneFromStart(ss);
  }

  lemma Onward(ss: seq<Step>, s: Step) returns (more: seq<Step>)
    requires Steps(START, ss) && Enabled(AfterSteps(START, ss), s)
    ensures more == ss + [s] && Steps(START, more) && AfterSteps(START, more) == Step1(AfterSteps(START, ss), s)
  {
    StepsSnoc(START, ss, s);
    more := ss + [s];
  }

  // ----- how it goes on and how it ends -----

  /** The component is at its end, or will be when it has read its answers. */
  predicate Over(p: Protocol) {
    p.state.Ended? || Failed in p.answers
  }

  /** What ends a component: a stop, the end of its input, or a refusal by the server. */
  predicate Fatal(p: Protocol, ss: seq<Step>)
    requires Steps(p, ss)
    decreases |ss|
  {
    ss != [] && (ss[0].FinishOnStop? || ss[0].FinishAtEof? || Refused(p, ss[0]) || Fatal(Step1(p, ss[0]), ss[1..]))
  }

  /** The server says no to a connect or an append. */
  predicate Refused(p: Protocol, s: Step)
    requires Enabled(p, s)
  {
    s == WorkerAnswer(false) && !p.handling.value.Shutdown?
  }

  lemma ReceiveOver(p: Protocol)
    requires Sane(p) && Enabled(p, Receive)
    ensures Over(Step1(p, Receive)) <==> Over(p)
  {
    assert p.answers == [p.answers[0]] + p.answers[1..];
    assert p.answers[0] in p.answers;
  }

  lemma AnswerOver(p: Protocol, ok: bool)
    requires Sane(p) && Enabled(p, WorkerAnswer(ok))
    ensures Over(Step1(p, WorkerAnswer(ok))) <==> Over(p) || Refused(p, WorkerAnswer(ok))
  {
    if p.handling.value.Append? { assert Underway(p)[0] == p.handling.value.packet; }
    var q := Step1(p, WorkerAnswer(ok));
    assert q.answers == p.answers + [q.answers[|p.answers|]];
  }

  lemma StepOver(p: Protocol, s: Step)
    requires Sane(p) && Enabled(p, s)
    ensures Over(Step1(p, s)) <==> Over(p) || s.FinishOnStop? || s.FinishAtEof? || Refused(p, s)
  {
    match s
    case Receive => ReceiveOver(p);
    case WorkerAnswer(ok) => AnswerOver(p, ok);
    case _ =>
  }

  lemma {:induction false} RunOver(p: Protocol, ss: seq<Step>)
    requires Sane(p) && Steps(p, ss)
    ensures Over(AfterSteps(p, ss)) <==> Over(p) || Fatal(p, ss)
    decreases |ss|
  {
    if ss != [] {
      StepOver(p, ss[0]);
      StepKeepsSane(p, ss[0]);
      RunOver(Step1(p, ss[0]), ss[1..]);
    }
  }

  lemma {:induction false} EndedStays(p: Protocol, ss: seq<Step>)
    requires Steps(p, ss) && p.state.Ended?
    ensures AfterSteps(p, ss).state.Ended?
    decreases |ss|
  {
    if ss != [] {
      assert Step1(p, ss[0]).state.Ended?;
      EndedStays(Step1(p, ss[0]), ss[1..]);
    }
  }

  lemma StepWaits(p: Protocol, s: Step)
    requires Sane(p) && Enabled(p, s) && !Step1(p, s).state.Ended?
    ensures Step1(p, s).state.WaitingForConfig? <==> p.state.WaitingForConfig? && !s.Configure?
  {
  }

  /** The component has passed a configuration on, and waits for one no more. */
  lemma {:induction false} ConfiguredOnce(p: Protocol, ss: seq<Step>)
    requires Sane(p) && Steps(p, ss) && !AfterSteps(p, ss).state.Ended?
    ensures AfterSteps(p, ss).state.WaitingForConfig? <==>
      p.state.WaitingForConfig? && forall i :: 0 <= i < |ss| ==> !ss[i].Configure?
    decreases |ss|
  {
    if ss != [] {
      var q, rest := Step1(p, ss[0]), ss[1..];
      if q.state.Ended? {
        EndedStays(q, rest);
        return;
      }
      StepWaits(p, ss[0]);
      StepKeepsSane(p, ss[0]);
      ConfiguredOnce(q, rest);
      assert forall i :: 0 <= i < |rest| ==> rest[i] == ss[i + 1];
    }
  }

  /**
   The fate of a component: it has ended, or has a failure to read, exactly if it was stopped, met the end
   of its input, or the server refused a connect or an append. Otherwise, whenever nothing is on its way, it
   is still waiting if no configuration was passed on, and if one was it is active, with no append counted.
   */
  lemma AppendFate(ss: seq<Step>)
    requires Steps(START, ss)
    ensures var p := AfterSteps(START, ss);
      && (p.state.Ended? || Failed in p.answers <==> Fatal(START, ss))
      && (!Fatal(START, ss) && p.commands == [] && p.handling.None? && p.answers == [] ==>
            if forall i :: 0 <= i < |ss| ==> !ss[i].Configure? then p.state.WaitingForConfig?
            else p.state.Active? && p.inflight == 0)
  {
    StepsKeepSane(START, ss);
    RunOver(START, ss);
    if !AfterSteps(START, ss).state.Ended? { ConfiguredOnce(START, ss); }
  }

  /** The URL of a connect that is queued or being handled. */
  predicate Dials(p: Protocol, url: string) {
    Connect(url) in p.commands || p.handling == Some(Connect(url))
  }

  /** A connect dials the URL that a configuration gave. */
  lemma {:induction false} DialsAsConfigured(p: Protocol, ss: seq<Step>, url: string)
    requires Steps(p, ss) && Dials(AfterSteps(p, ss), url)
    ensures Dials(p, url) || Configure(url) in ss
    decreases |ss|
  {
    if ss != [] {
      DialsAsConfigured(Step1(p, ss[0]), ss[1..], url);
      assert forall s :: s in ss[1..] ==> s in ss;
      assert ss[0] in ss;
    }
  }

  lemma AllStored(hs: seq<Handled>)
    requires Failures(hs) == 0
    ensures Stored(hs) == Payloads(Packets(hs))
  {
  }

  lemma PayloadsAt(ms: seq<Message>)
    ensures |Payloads(ms)| == |ms| && forall i :: 0 <= i < |ms| ==> Payloads(ms)[i] == Payload(ms[i])
  {
  }

  // ----- the surroundings of a call -----

  /** A CONF packet; what is no text makes the call panic. */
  datatype Conf = Url(url: string) | NotText

  /**
   What happens at one moment of a call: packets written to IN, IN closed, and so many turns of the
   worker, each with the verdict of the server should it be asked.
   */
  datatype Gust = Gust(packets: seq<Message>, closes: bool, turns: seq<bool>)

  const CALM := Gust([], false, [])

  /** The moments: before each look at the results, after each send, and before the look at IN's producer. */
  datatype Moment = BeforeReceive(k: nat) | AfterSend(k: nat) | BeforeCheck

  function WorkerStep(p: Protocol, ok: bool): Protocol {
    if p.alive && p.handling.Some? then Step1(p, WorkerAnswer(ok))
    else if p.alive && p.commands != [] then Step1(p, WorkerTake)
    else p
  }

  function RunWorker(p: Protocol, turns: seq<bool>): Protocol
    decreases |turns|
  {
    if turns == [] then p else RunWorker(WorkerStep(p, turns[0]), turns[1..])
  }

  /** Answers that may still be read. */
  function Outstanding(p: Protocol): nat {
    |p.answers| + |p.commands| + if p.handling.Some? then 1 else 0
  }

  lemma WorkerStepKeeps(p: Protocol, ok: bool)
    ensures var q := WorkerStep(p, ok);
      && q.state == p.state && q.pendingInput == p.pendingInput && q.inflight == p.inflight && q.consumed == p.consumed
      && Outstanding(q) == Outstanding(p) && p.answers <= q.answers
      && (p.commands == [] && p.handling.None? ==> q == p)
  {
  }

  /** The worker leaves the component's side alone, and turns commands into answers, one for one. */
  lemma RunWorkerKeeps(p: Protocol, turns: seq<bool>)
    ensures var q := RunWorker(p, turns);
      && q.state == p.state && q.pendingInput == p.pendingInput && q.inflight == p.inflight && q.consumed == p.consumed
      && Outstanding(q) == Outstanding(p) && p.answers <= q.answers
      && (p.commands == [] && p.handling.None? ==> q == p)
    decreases |turns|
  {
    if turns != [] {
      WorkerStepKeeps(p, turns[0]);
      RunWorkerKeeps(WorkerStep(p, turns[0]), turns[1..]);
    }
  }

  /** The receive loop, undisturbed. */
  function Received(p: Protocol): Protocol
    decreases |p.answers|
  {
    if p.answers == [] || p.state.Ended? then p else Received(Step1(p, Receive))
  }

  /** The receive loop has come from `p` to `q`: no failure was passed over, and an idle node stays idle. */
  ghost predicate ReceivedFrom(p: Protocol, q: Protocol, calm: bool) {
    && (Failed in p.answers ==> Failed in q.answers)
    && (p.state.WaitingForConfig? && Idle(p) ==>
          q.state.WaitingForConfig? && q.answers == [] && q.commands == [] && q.handling.None?)
    && (calm ==> Received(q) == Received(p))
  }

  lemma ReceiveFrom(p: Protocol, q: Protocol, calm: bool)
    requires ReceivedFrom(p, q, calm) && q.answers != [] && !q.state.Ended?
    ensures var r := Step1(q, Receive);
      && Outstanding(r) < Outstanding(q)
      && if r.state.Ended? then calm ==> r == Received(p) else ReceivedFrom(p, r, calm)
  {
    var r := Step1(q, Receive);
    assert Received(q) == Received(r) && (r.state.Ended? ==> Received(r) == r);
  }

  lemma WorkerFrom(p: Protocol, q: Protocol, turns: seq<bool>, calm: bool)
    requires ReceivedFrom(p, q, calm) && (calm ==> turns == [])
    ensures ReceivedFrom(p, RunWorker(q, turns), calm) && Outstanding(RunWorker(q, turns)) == Outstanding(q)
  {
    RunWorkerKeeps(q, turns);
  }

  function Yes(n: nat): seq<bool> {
    seq(n, _ => true)
  }

  function Acknowledged(n: nat): seq<Answer> {
    seq(n, _ => Appended)
  }

  /** A worker with a session and enough time acknowledges every append. */
  lemma {:induction false} WorkerAcknowledges(p: Protocol, n: nat)
    requires p.alive && p.session && (forall c :: c in p.commands ==> c.Append?)
    requires p.handling.Some? ==> p.handling.value.Append?
    requires 2 * |p.commands| + (if p.handling.Some? then 1 else 0) <= n
    ensures var q := RunWorker(p, Yes(n));
      && q.answers == p.answers + Acknowledged(|p.commands| + if p.handling.Some? then 1 else 0)
      && q.alive
    decreases n
  {
    if n == 0 {
      assert p.answers + Acknowledged(0) == p.answers;
    } else {
      var q := WorkerStep(p, true);
      assert Yes(n)[1..] == Yes(n - 1);
      if p.handling.None? && p.commands != [] {
        assert p.commands[0] in p.commands;
        assert forall c :: c in q.commands ==> c in p.commands;
      }
      WorkerAcknowledges(q, n - 1);
      if p.handling.Some? {
        assert p.answers + [Appended] + Acknowledged(|p.commands|) == p.answers + Acknowledged(|p.commands| + 1);
      }
    }
  }

  /** A worker that is asked to connect, and has the time, does so if the server lets it. */
  lemma WorkerConnects(p: Protocol, n: nat)
    requires Dialling(p) && Failed !in p.answers && 2 <= n
    ensures var q := RunWorker(p, Yes(n)); q.answers == [Connected] && q.alive
  {
    assert Yes(n)[1..] == Yes(n - 1) && Yes(n - 1)[1..] == Yes(n - 2);
    if p.answers != [] {
      assert p.answers[0] in p.answers;
      RunWorkerKeeps(p, Yes(n));
    } else {
      var q := WorkerStep(p, true);
      var r := if p.commands != [] then WorkerStep(q, true) else q;
      assert r.answers == [Connected];
      RunWorkerKeeps(q, Yes(n - 1));
      RunWorkerKeeps(r, Yes(n - 2));
      RunWorkerKeeps(r, Yes(n - 1));
    }
  }

  lemma {:induction false} AcknowledgedReceived(p: Protocol)
    requires p.state.Active? && p.answers == Acknowledged(|p.answers|) && p.inflight == |p.answers|
    ensures Received(p) == p.(answers := [], inflight := 0)
    decreases |p.answers|
  {
    if p.answers != [] {
      assert p.answers[1..] == Acknowledged(|p.answers| - 1);
      AcknowledgedReceived(Step1(p, Receive));
    }
  }

  lemma NoErrors(rs: seq<Answer>)
    requires Failed !in rs && forall r :: r in rs ==> r.Appended? || r.Failed?
    ensures Errors(rs) == 0 && Acks(rs) == |rs| && rs == Acknowledged(|rs|)
  {
    if rs != [] {
      assert rs[0] in rs && forall r :: r in rs[1..] ==> r in rs;
      NoErrors(rs[1..]);
    }
  }

  lemma AppendsAll(cs: seq<Command>)
    requires forall c :: c in cs ==> c.Append?
    ensures |AppendsIn(cs)| == |cs|
  {
    if cs != [] {
      assert cs[0] in cs && forall c :: c in cs[1..] ==> c in cs;
      AppendsAll(cs[1..]);
    }
  }

  /** Once the worker has had the time and the results are read, nothing is in flight any more. */
  lemma AllSettles(p: Protocol, n: nat)
    requires Sane(p) && (p.state.Active? || p.state.Connecting?) && Failed !in p.answers && 2 * |p.commands| + 2 <= n
    ensures var q := Received(RunWorker(p, Yes(n)));
      q.state.Active? && q.inflight == 0 && q.answers == [] && q.pendingInput == p.pendingInput && q.alive
  {
    var q := RunWorker(p, Yes(n));
    RunWorkerKeeps(p, Yes(n));
    if p.state.Active? {
      WorkerAcknowledges(p, n);
      NoErrors(p.answers);
      AppendsAll(p.commands);
      assert q.answers == Acknowledged(|q.answers|);
      AcknowledgedReceived(q);
    } else {
      WorkerConnects(p, n);
      assert p.inflight == 0;
      assert Step1(q, Receive).answers == [];
    }
  }

  // ----- the component and the worker -----

  function Sends(ss: seq<Step>): nat {
    if ss == [] then 0 else (if ss[0].SendAppend? then 1 else 0) + Sends(ss[1..])
  }

  /** The work units a call reports: receipts, the connect request and the appends sent. */
  function Work(ss: seq<Step>): nat {
    if ss == [] then 0 else (if ss[0].Receive? || ss[0].Configure? || ss[0].SendAppend? then 1 else 0) + Work(ss[1..])
  }

  lemma CountsSnoc(ss: seq<Step>, s: Step)
    ensures Sends(ss + [s]) == Sends(ss) + if s.SendAppend? then 1 else 0
    ensures Work(ss + [s]) == Work(ss) + if s.Receive? || s.Configure? || s.SendAppend? then 1 else 0
  {
    if ss != [] {
      assert (ss + [s])[1..] == ss[1..] + [s];
      CountsSnoc(ss[1..], s);
    }
  }

  /** A stretch of the protocol from p to q in which the counts are as given. */
  ghost predicate Stretch(p: Protocol, ss: seq<Step>, q: Protocol, sends: nat, work: nat) {
    Steps(p, ss) && AfterSteps(p, ss) == q && Sends(ss) == sends && Work(ss) == work
  }

  lemma Extend(p: Protocol, ss: seq<Step>, q: Protocol, sends: nat, work: nat, s: Step)
    requires Stretch(p, ss, q, sends, work) && Enabled(q, s)
    ensures Stretch(p, ss + [s], Step1(q, s), sends + (if s.SendAppend? then 1 else 0),
                    work + if s.Receive? || s.Configure? || s.SendAppend? then 1 else 0)
  {
    StepsSnoc(p, ss, s);
    CountsSnoc(ss, s);
  }

  /** Such a stretch that has not touched the configuration. */
  ghost predicate Listening(p: Protocol, ss: seq<Step>, q: Protocol, sends: nat, work: nat) {
    Stretch(p, ss, q, sends, work) && forall s :: s in ss ==> !s.Configure?
  }

  lemma Listen(p: Protocol, ss: seq<Step>, q: Protocol, sends: nat, work: nat, s: Step)
    requires Listening(p, ss, q, sends, work) && Enabled(q, s) && !s.Configure?
    ensures Listening(p, ss + [s], Step1(q, s), sends + (if s.SendAppend? then 1 else 0),
                      work + if s.Receive? || s.Configure? || s.SendAppend? then 1 else 0)
  {
    Extend(p, ss, q, sends, work, s);
  }

  lemma NoWorkMeans(ss: seq<Step>)
    requires Work(ss) == 0
    ensures forall s :: s in ss ==> !s.Receive? && !s.Configure? && !s.SendAppend?
  {
    if ss != [] { NoWorkMeans(ss[1..]); }
  }

  /**
   What a call makes of CONF. It leaves it alone, or it takes the first packet: its URL is passed on
   unless the worker is gone, and what is no text makes the call panic.
   */
  ghost predicate ConfUsed(before: seq<Conf>, after: seq<Conf>, ss: seq<Step>, panicked: bool) {
    if after == before then
      !panicked && forall s :: s in ss ==> !s.Configure?
    else
      && before != [] && after == before[1..] && (panicked <==> before[0].NotText?)
      && (forall s :: s in ss && s.Configure? ==> before[0] == Url(s.url))
      && (before[0].Url? ==> Configure(before[0].url) in ss || SendRefused in ss)
  }

  /** The step with which a call finishes the component, and when that is allowed. */
  predicate Ending(last: Step, signals: seq<string>, abandoned: bool) {
    || (last.FinishOnStop? && StopNext(signals))
    || (last.FinishAtEof? && abandoned)
    || last.Receive?
    || last.SendRefused?
  }

  predicate EndsAtEof(ss: seq<Step>) {
    ss != [] && ss[|ss| - 1].FinishAtEof?
  }

  /** After the first moment of a call nothing stirs before the look at IN's producer. */
  ghost predicate CalmOnceReceiving(world: Moment -> Gust) {
    forall m: Moment :: m != BeforeCheck && m != BeforeReceive(0) ==> world(m) == CALM
  }

  /** IN is open, and nothing is there to be sent; nothing has failed; the rest the worker can settle in time. */
  predicate Unfinished(p: Protocol, ring: seq<Message>, closed: bool) {
    !closed && ring == [] && p.pendingInput == [] && (p.state.Active? || p.state.Connecting?) && Failed !in p.answers
  }

  /** What the surroundings can do to an exposed node: let the worker settle all, then write and close. */
  ghost predicate Baited(p: Protocol, world: Moment -> Gust) {
    && world(BeforeReceive(0)) == Gust([], false, Yes(2 * |p.commands| + 2))
    && CalmOnceReceiving(world) && world(BeforeCheck).closes
  }

  ghost predicate Caught(p: Protocol, ring: seq<Message>, closed: bool, world: Moment -> Gust) {
    Sane(p) && Unfinished(p, ring, closed) && Baited(p, world)
  }

  lemma CaughtSettles(p: Protocol, ring: seq<Message>, closed: bool, world: Moment -> Gust)
    requires Caught(p, ring, closed, world)
    ensures var q := Received(RunWorker(p, world(BeforeReceive(0)).turns)); q.state.Active? && q.inflight == 0
    ensures world(BeforeReceive(0)) == Gust([], false, world(BeforeReceive(0)).turns) && CalmOnceReceiving(world)
    ensures ring == [] && !closed
  {
    AllSettles(p, 2 * |p.commands| + 2);
  }

  class AppendNode {
    var conf: seq<Conf>
    var inn: seq<Message>
    var innAbandoned: bool
    var signalsIn: seq<string>
    var state: AppendState
    var pendingInput: seq<Message>
    var inflightAppends: nat
    var commands: seq<Command>
    var answers: seq<Answer>
    var handling: Option<Command>
    var session: bool
    var alive: bool
    ghost var consumed: seq<Message>
    ghost var handled: seq<Handled>
    ghost var server: seq<seq<Byte>>

    ghost function View(): Protocol
      reads this
    {
      Protocol(state, pendingInput, inflightAppends, commands, answers, handling, session, alive, consumed, handled,
        server)
    }

    constructor (conf: seq<Conf>, inn: seq<Message>, innAbandoned: bool, signalsIn: seq<string>)
      ensures View() == START
    {
      this.conf, this.inn, this.innAbandoned, this.signalsIn := conf, inn, innAbandoned, signalsIn;
      state, pendingInput, inflightAppends := WaitingForConfig, [], 0;
      commands, answers, handling, session, alive := [], [], None, false, true;
      consumed, handled, server := [], [], [];
    }

    /** One turn of the worker's loop body; `ok` is what the server makes of it. */
    method WorkerTurn(ok: bool)
      requires alive && handling.Some?
      modifies this`handling, this`session, this`alive, this`answers, this`handled, this`server
      ensures View() == Step1(old(View()), WorkerAnswer(ok))
      ensures |answers| == |old(answers)| + 1 && old(answers) < answers && handling.None?
      ensures var answer, command := answers[|old(answers)|], old(handling.value);
        && (command.Connect? ==> answer == if ok then Connected else Failed)
        && (command.Append? ==> answer == if old(session) && ok then Appended else Failed)
        && (command.Shutdown? ==> answer == Stopped && !alive)
      ensures var command := old(handling.value);
        server == old(server) +
          if command.Append? && old(session) && ok then
            [if command.packet.Bytes? then command.packet.data else []]
          else []
    {
      var answer;
      match handling.value {
        case Connect(_) =>
          if ok {
            session, answer := true, Connected;
          } else {
            answer := Failed;
          }
        case Append(packet) =>
          if session {
            var bytes := if packet.Bytes? then packet.data else [];
            if ok {
              server, answer := server + [bytes], Appended;
            } else {
              answer := Failed;
            }
          } else {
            answer := Failed;
          }
          handled := handled + [Handled(packet, session && ok)];
        case Shutdown =>
          session, alive, answer := false, false, Stopped;
      }
      handling := None;
      answers := answers + [answer];
    }

    /** The worker thread between two steps of the component: so many of its own steps. */
    method WorkerRuns(turns: seq<bool>, ghost p: Protocol, ghost ss: seq<Step>, ghost sends: nat, ghost work: nat)
      returns (ghost more: seq<Step>)
      requires Listening(p, ss, View(), sends, work)
      modifies this`handling, this`session, this`alive, this`answers, this`handled, this`server, this`commands
      ensures Listening(p, more, View(), sends, work) && ss <= more
      ensures View() == RunWorker(old(View()), turns)
    {
      more := ss;
      for i := 0 to |turns|
        invariant Listening(p, more, View(), sends, work) && ss <= more
        invariant RunWorker(View(), turns[i..]) == RunWorker(old(View()), turns)
      {
        assert turns[i..][1..] == turns[i + 1..];
        if alive && handling.Some? {
          Listen(p, more, View(), sends, work, WorkerAnswer(turns[i]));
          more := more + [WorkerAnswer(turns[i])];
          WorkerTurn(turns[i]);
        } else if alive && commands != [] {
          Listen(p, more, View(), sends, work, WorkerTake);
          more := more + [WorkerTake];
          handling, commands := Some(commands[0]), commands[1..];
        }
      }
    }

    /** The rest of the world at one moment of a call: the producer of IN, and the worker. */
    method Meanwhile(g: Gust, ghost p: Protocol, ghost ss: seq<Step>, ghost sends: nat, ghost work: nat)
      returns (ghost more: seq<Step>)
      requires Listening(p, ss, View(), sends, work)
      modifies this`inn, this`innAbandoned
      modifies this`handling, this`session, this`alive, this`answers, this`handled, this`server, this`commands
      ensures Listening(p, more, View(), sends, work) && ss <= more
      ensures View() == RunWorker(old(View()), g.turns)
      ensures inn == old(inn) + (if old(innAbandoned) then [] else g.packets)
      ensures innAbandoned == (old(innAbandoned) || g.closes)
    {
      if !innAbandoned {
        inn := inn + g.packets;
        innAbandoned := g.closes;
      }
      more := WorkerRuns(g.turns, p, ss, sends, work);
    }

    /** One answer read and acted on. */
    method HandleAnswer() returns (ended: bool)
      requires answers != [] && !state.Ended?
      modifies this`state, this`inflightAppends, this`answers
      ensures View() == Step1(old(View()), Receive) && ended == state.Ended?
    {
      var result := answers[0];
      answers := answers[1..];
      ended := false;
      match result {
        case Connected =>
          state := Active;
        case Appended =>
          inflightAppends := if inflightAppends == 0 then 0 else inflightAppends - 1;
        case Stopped =>
          state, ended := Ended, true;
        case Failed =>
          state, ended := Ended, true;
      }
    }

    /** How far the receive loop has come, seen from the state `p` and the ring it began with. */
    ghost predicate Receiving(p: Protocol, ring: seq<Message>, closed: bool, calm: bool)
      reads this
    {
      && ring <= inn && (closed ==> innAbandoned && inn == ring)
      && ReceivedFrom(p, View(), calm) && (calm ==> inn == ring && innAbandoned == closed)
    }

    /** One answer, and what happens until the next look. */
    method ReceiveOne(g: Gust, ghost p: Protocol, ghost ss: seq<Step>, units: nat,
        ghost start: Protocol, ghost ring: seq<Message>, ghost closed: bool, ghost calm: bool)
      returns (ended: bool, ghost more: seq<Step>)
      requires Listening(p, ss, View(), 0, units) && !state.Ended? && answers != [] && (calm ==> g == CALM)
      requires Receiving(start, ring, closed, calm)
      modifies this`inn, this`innAbandoned, this`state, this`inflightAppends
      modifies this`handling, this`session, this`alive, this`answers, this`handled, this`server, this`commands
      ensures Listening(p, more, View(), 0, units + 1) && ended == state.Ended? && (closed ==> innAbandoned)
      ensures if ended then more == ss + [Receive] && (calm ==> View() == Received(start))
              else Receiving(start, ring, closed, calm) && Outstanding(View()) < Outstanding(old(View()))
    {
      Listen(p, ss, View(), 0, units, Receive);
      more := ss + [Receive];
      ReceiveFrom(start, View(), calm);
      ended := HandleAnswer();
      if !ended {
        WorkerFrom(start, View(), g.turns, calm);
        more := Meanwhile(g, p, more, 0, units + 1);
      }
    }

    /** The receive loop: until the result channel is found empty, or an answer ends the component. */
    method ReceiveAll(world: Moment -> Gust, ghost p: Protocol, ghost ss: seq<Step>)
      returns (workUnits: nat, ended: bool, ghost more: seq<Step>)
      requires Listening(p, ss, View(), 0, 0) && !state.Ended?
      modifies this`inn, this`innAbandoned, this`state, this`inflightAppends
      modifies this`handling, this`session, this`alive, this`answers, this`handled, this`server, this`commands
      ensures Listening(p, more, View(), 0, if ended then workUnits + 1 else workUnits)
      ensures ended == state.Ended? && (!ended ==> answers == [])
      ensures ended ==> more != [] && more[|more| - 1].Receive?
      ensures old(innAbandoned) ==> innAbandoned
      ensures !ended ==> Receiving(old(View()), old(inn), old(innAbandoned), CalmOnceReceiving(world))
      ensures CalmOnceReceiving(world) ==> View() == Received(old(View()))
    {
      workUnits, ended, more := 0, false, ss;
      ghost var start, ring, closed, calm := View(), inn, innAbandoned, CalmOnceReceiving(world);
      while answers != []
        invariant Listening(p, more, View(), 0, workUnits) && !state.Ended?
        invariant Receiving(start, ring, closed, calm)
        decreases Outstanding(View())
      {
        ended, more := ReceiveOne(world(BeforeReceive(workUnits + 1)), p, more, workUnits, start, ring, closed, calm);
        if ended {
          return;
        }
        workUnits := workUnits + 1;
      }
    }

    /** `cmd_tx.send`: lost once the worker has gone. */
    method Send(c: Command)
      modifies this`commands
      ensures commands == Sent(old(View()), c)
    {
      if alive {
        commands := commands + [c];
      }
    }

    /** Waiting for the configuration: passes the first one on. */
    method PassConf(ghost p: Protocol, ghost ss: seq<Step>, units: nat)
      returns (workUnits: nat, ended: bool, panicked: bool, ghost more: seq<Step>)
      requires Listening(p, ss, View(), 0, units) && state.WaitingForConfig?
      modifies this`conf, this`state, this`commands
      ensures Stretch(p, more, View(), 0, workUnits) && ss <= more
      ensures (panicked <==> old(conf) != [] && old(conf)[0].NotText?) && (panicked ==> state.WaitingForConfig?)
      ensures ended == state.Ended? && !state.Active? && (state.WaitingForConfig? && !panicked ==> old(conf) == [])
      ensures ConfUsed(old(conf), conf, more, panicked)
      ensures ended ==> more == ss + [SendRefused]
    {
      workUnits, ended, panicked, more := units, false, false, ss;
      if conf != [] {
        var packet := conf[0];
        conf := conf[1..];
        if packet.NotText? {
          panicked := true;
          return;
        }
        if !alive {
          Extend(p, more, View(), 0, workUnits, SendRefused);
          more := more + [SendRefused];
          state, ended := Ended, true;
          return;
        }
        Extend(p, more, View(), 0, workUnits, Configure(packet.url));
        more := more + [Configure(packet.url)];
        Send(Connect(packet.url));
        state := Connecting;
        workUnits := workUnits + 1;
      }
    }

    /** How far the sending loop has come: the count grew with each send, and nothing else moved before the first. */
    ghost predicate Sending(p: Protocol, ring: seq<Message>, closed: bool, sends: nat)
      reads this
    {
      && ring <= inn && (closed ==> innAbandoned && inn == ring)
      && inflightAppends == p.inflight + sends && consumed == p.consumed
      && (sends == 0 ==> View() == p && inn == ring && innAbandoned == closed)
    }

    /** Sends pending packets while there is budget; the surroundings may act after each send. */
    method SendPending(world: Moment -> Gust, ghost p: Protocol, ghost ss: seq<Step>, units: nat, context: Context)
      returns (after: Context, workUnits: nat, refused: bool, ghost more: seq<Step>)
      requires Listening(p, ss, View(), 0, units) && state.Active?
      modifies this`inn, this`innAbandoned, this`state, this`pendingInput, this`inflightAppends
      modifies this`handling, this`session, this`alive, this`answers, this`handled, this`server, this`commands
      ensures after == context.(remainingBudget := after.remainingBudget)
        && after.remainingBudget <= context.remainingBudget
      ensures Listening(p, more, View(), context.remainingBudget - after.remainingBudget, workUnits) && ss <= more
      ensures if refused then state.Ended? && more != [] && more[|more| - 1] == SendRefused
              else state.Active? && (pendingInput == [] || after.remainingBudget == 0)
      ensures old(innAbandoned) ==> innAbandoned
      ensures old(pendingInput) == [] ==> after == context && !refused
      ensures !refused ==>
        Sending(old(View()), old(inn), old(innAbandoned), context.remainingBudget - after.remainingBudget)
    {
      after, workUnits, refused, more := context, units, false, ss;
      ghost var start, ring, closed := View(), inn, innAbandoned;
      var k := 0;
      while after.remainingBudget > 0 && pendingInput != []
        invariant after == context.(remainingBudget := after.remainingBudget) && state.Active?
        invariant k + after.remainingBudget == context.remainingBudget
        invariant Listening(p, more, View(), k, workUnits) && ss <= more
        invariant Sending(start, ring, closed, k) && (old(pendingInput) == [] ==> k == 0 && pendingInput == [])
        decreases after.remainingBudget
      {
        if !alive {
          Listen(p, more, View(), k, workUnits, SendRefused);
          more := more + [SendRefused];
          state, refused := Ended, true;
          return;
        }
        more := SendOne(p, more, k, workUnits);
        k, workUnits := k + 1, workUnits + 1;
        after := after.(remainingBudget := after.remainingBudget - 1);
        RunWorkerKeeps(View(), world(AfterSend(k)).turns);
        more := Meanwhile(world(AfterSend(k)), p, more, k, workUnits);
      }
    }

    /** Sends the first pending packet. */
    method SendOne(ghost p: Protocol, ghost ss: seq<Step>, ghost sends: nat, ghost work: nat)
      returns (ghost more: seq<Step>)
      requires Listening(p, ss, View(), sends, work) && state.Active? && alive && pendingInput != []
      modifies this`pendingInput, this`inflightAppends, this`commands
      ensures View() == Step1(old(View()), SendAppend) && more == ss + [SendAppend]
      ensures Listening(p, more, View(), sends + 1, work + 1)
    {
      Listen(p, ss, View(), sends, work, SendAppend);
      more := ss + [SendAppend];
      Send(Append(pendingInput[0]));
      pendingInput := pendingInput[1..];
      inflightAppends := inflightAppends + 1;
    }

    /** Takes all of IN at once. */
    method TakeInput(ghost p: Protocol, ghost ss: seq<Step>, ghost work: nat) returns (ghost more: seq<Step>)
      requires Listening(p, ss, View(), 0, work) && state.Active?
      modifies this`inn, this`pendingInput, this`consumed
      ensures View() == Step1(old(View()), Absorb(old(inn))) && inn == [] && more == ss + [Absorb(old(inn))]
      ensures Listening(p, more, View(), 0, work)
    {
      Listen(p, ss, View(), 0, work, Absorb(inn));
      more := ss + [Absorb(inn)];
      pendingInput, consumed := pendingInput + inn, consumed + inn;
      inn := [];
    }

    /** The look at IN's producer, which may have written and closed since IN was taken. */
    method CheckEof(g: Gust, ghost p: Protocol, ghost ss: seq<Step>, ghost sends: nat, units: nat)
      returns (ended: bool, ghost more: seq<Step>)
      requires Listening(p, ss, View(), sends, units) && state.Active?
      modifies this`inn, this`innAbandoned, this`state
      modifies this`handling, this`session, this`alive, this`answers, this`handled, this`server, this`commands
      ensures Listening(p, more, View(), sends, units) && ss <= more
      ensures inn == old(inn) + (if old(innAbandoned) then [] else g.packets)
      ensures innAbandoned == (old(innAbandoned) || g.closes)
      ensures ended == (pendingInput == [] && innAbandoned && inflightAppends == 0)
      ensures if ended then state.Ended? && more != [] && more[|more| - 1].FinishAtEof? else state.Active?
    {
      RunWorkerKeeps(View(), g.turns);
      more := Meanwhile(g, p, ss, sends, units);
      ended := pendingInput == [] && innAbandoned && inflightAppends == 0;
      if ended {
        Listen(p, more, View(), sends, units, FinishAtEof);
        more := more + [FinishAtEof];
        Send(Shutdown);
        state := Ended;
      }
    }

    /** When a finish at the end of input leaves packets in IN: those written since the take, which found nothing. */
    ghost predicate EofLeaves(p: Protocol, ring: seq<Message>, closed: bool, world: Moment -> Gust)
      reads this
    {
      p.pendingInput == [] && ring == [] && innAbandoned && inn == if closed then [] else world(BeforeCheck).packets
    }

    /** The active state: take all of IN, send, and look for the end. */
    method Pump(world: Moment -> Gust, ghost p: Protocol, ghost ss: seq<Step>, units: nat, context: Context)
      returns (after: Context, workUnits: nat, raised: bool, ended: bool, ghost more: seq<Step>)
      requires Listening(p, ss, View(), 0, units) && state.Active?
      modifies this
      ensures after == context.(remainingBudget := after.remainingBudget)
        && after.remainingBudget <= context.remainingBudget
      ensures Listening(p, more, View(), context.remainingBudget - after.remainingBudget, workUnits) && ss <= more
      ensures ended == state.Ended? && !state.WaitingForConfig? && !state.Connecting?
      ensures consumed == old(consumed) + old(inn) && (old(innAbandoned) ==> innAbandoned)
      ensures raised == (state.Active? && pendingInput != [])
      ensures state.Active? ==> pendingInput == [] || after.remainingBudget == 0
      ensures state.Active? ==> !(pendingInput == [] && innAbandoned && inflightAppends == 0)
      ensures ended ==> more != [] && (more[|more| - 1].SendRefused? || more[|more| - 1].FinishAtEof?)
      ensures EndsAtEof(more) && ended ==> EofLeaves(old(View()), old(inn), old(innAbandoned), world)
      ensures old(pendingInput == [] && inn == [] && inflightAppends == 0) && world(BeforeCheck).closes ==>
        EndsAtEof(more) && ended
      ensures unchanged(`signalsIn, `conf)
    {
      raised, ended, workUnits := false, false, units;
      more := TakeInput(p, ss, units);
      var refused;
      after, workUnits, refused, more := SendPending(world, p, more, units, context);
      if refused {
        ended := true;
        return;
      }
      ghost var sends: nat := context.remainingBudget - after.remainingBudget;
      ended, more := CheckEof(world(BeforeCheck), p, more, sends, workUnits);
      raised := !ended && pendingInput != [];
    }

    /** What is left to do once the answers are read, by state. */
    method Continue(world: Moment -> Gust, ghost p: Protocol, ghost ss: seq<Step>, units: nat, context: Context)
      returns (after: Context, workUnits: nat, raised: bool, ended: bool, panicked: bool, ghost more: seq<Step>)
      requires Listening(p, ss, View(), 0, units) && !state.Ended?
      modifies this
      ensures after == context.(remainingBudget := after.remainingBudget)
        && after.remainingBudget <= context.remainingBudget
      ensures Stretch(p, more, View(), context.remainingBudget - after.remainingBudget, workUnits) && ss <= more
      ensures ended == state.Ended? && raised == (state.Active? && pendingInput != [])
      ensures panicked <==> old(state).WaitingForConfig? && old(conf) != [] && old(conf)[0].NotText?
      ensures state.WaitingForConfig? && !panicked ==> old(conf) == []
      ensures ConfUsed(old(conf), conf, more, panicked)
      ensures panicked ==> state.WaitingForConfig?
      ensures old(state).Active? ==> consumed == old(consumed) + old(inn)
      ensures state.Active? ==> old(state).Active? && (pendingInput == [] || after.remainingBudget == 0)
      ensures state.Active? ==> !(pendingInput == [] && innAbandoned && inflightAppends == 0)
      ensures old(innAbandoned) ==> innAbandoned
      ensures ended ==> more != [] && (more[|more| - 1].SendRefused? || (more[|more| - 1].FinishAtEof? && innAbandoned))
      ensures EndsAtEof(more) && ended ==>
        old(state).Active? && EofLeaves(old(View()), old(inn), old(innAbandoned), world)
      ensures old(state.Active? && pendingInput == [] && inn == [] && inflightAppends == 0) ==>
        world(BeforeCheck).closes ==> EndsAtEof(more) && ended
      ensures unchanged(`signalsIn)
    {
      after, workUnits, raised, ended, panicked, more := context, units, false, false, false, ss;
      match state {
        case WaitingForConfig =>
          workUnits, ended, panicked, more := PassConf(p, ss, units);
        case Connecting =>
        case Active =>
          after, workUnits, raised, ended, more := Pump(world, p, ss, units, context);
        case Ended =>
      }
    }

    /**
     The states from which a packet can be lost at the end of input: such a state with no stop waiting.
     A producer that writes and closes after IN was taken leaves its packet behind.
     */
    ghost predicate Exposed()
      reads this
    {
      Unfinished(View(), inn, innAbandoned) && !StopNext(signalsIn)
    }

    /** Once the results are read: what that leaves for the end of input. */
    ghost predicate Gathered(p: Protocol, ring: seq<Message>, closed: bool)
      reads this
    {
      && answers == [] && ring <= inn && (closed ==> innAbandoned && inn == ring)
      && pendingInput == p.pendingInput && consumed == p.consumed && Failed !in p.answers
      && (Sane(p) && state.Active? ==> p.state.Active? || p.state.Connecting?)
    }

    /** Reads the results, after whatever happened before the first look. */
    method Gather(world: Moment -> Gust) returns (workUnits: nat, ended: bool, ghost ss: seq<Step>)
      requires !state.Ended?
      modifies this`inn, this`innAbandoned, this`state, this`inflightAppends
      modifies this`handling, this`session, this`alive, this`answers, this`handled, this`server, this`commands
      ensures Listening(old(View()), ss, View(), 0, if ended then workUnits + 1 else workUnits)
      ensures ended == state.Ended? && (old(innAbandoned) ==> innAbandoned)
      ensures if ended then ss != [] && ss[|ss| - 1].Receive? else Gathered(old(View()), old(inn), old(innAbandoned))
      ensures Caught(old(View()), old(inn), old(innAbandoned), world) ==>
        state.Active? && inflightAppends == 0 && inn == [] && !innAbandoned
    {
      ghost var p, turns := View(), world(BeforeReceive(0)).turns;
      ghost var caught := Caught(p, inn, innAbandoned, world);
      if caught { CaughtSettles(p, inn, innAbandoned, world); }
      RunWorkerKeeps(p, turns);
      ss := Meanwhile(world(BeforeReceive(0)), p, [], 0, 0);
      assert caught ==> Received(View()).state.Active? && Received(View()).inflight == 0;
      workUnits, ended, ss := ReceiveAll(world, p, ss);
      assert caught ==> View().state.Active? && View().inflight == 0;
    }

    /** The call once no stop signal was found. */
    method Attend(context: Context, world: Moment -> Gust)
      returns (after: Context, result: CallResult, raised: bool, ghost ss: seq<Step>, ghost drained: nat)
      requires !state.Ended?
      modifies this
      ensures after == context.(remainingBudget := after.remainingBudget)
        && after.remainingBudget <= context.remainingBudget
      ensures Stretch(old(View()), ss, View(), context.remainingBudget - after.remainingBudget, Work(ss))
      ensures !result.Panicked? ==>
        result == if state.Ended? then Finished else if Work(ss) > 0 then DidWork(Work(ss)) else NoWork
      ensures result.Panicked? ==> state.WaitingForConfig? && old(conf) != [] && old(conf)[0].NotText?
      ensures !state.Ended? ==>
        drained <= |ss| && Steps(old(View()), ss[..drained]) && AfterSteps(old(View()), ss[..drained]).answers == []
      ensures ConfUsed(old(conf), conf, ss, result.Panicked?)
      ensures state.WaitingForConfig? && !result.Panicked? ==> old(conf) == []
      ensures result.NoWork? ==> forall s :: s in ss ==> !s.Receive? && !s.Configure? && !s.SendAppend?
      ensures state.Active? ==>
        (pendingInput == [] || after.remainingBudget == 0) && old(consumed) + old(inn) <= consumed
      ensures EndsAtEof(ss) && state.Ended? ==> old(consumed) + old(inn) <= consumed
      ensures state.Active? ==> !(pendingInput == [] && innAbandoned && inflightAppends == 0)
      ensures raised == (state.Active? && pendingInput != [])
      ensures state.Ended? ==> ss != [] && Ending(ss[|ss| - 1], [], innAbandoned) && !result.Panicked?
      ensures old(innAbandoned) ==> innAbandoned
      ensures EndsAtEof(ss) && state.Ended? ==> inn == [] || inn == world(BeforeCheck).packets
      ensures EndsAtEof(ss) && state.Ended? && old(innAbandoned) ==> inn == []
      ensures EndsAtEof(ss) && state.Ended? && inn != [] && Sane(old(View())) ==>
        Unfinished(old(View()), old(inn), old(innAbandoned))
      ensures Caught(old(View()), old(inn), old(innAbandoned), world) ==>
        EndsAtEof(ss) && state.Ended? && inn == world(BeforeCheck).packets
      ensures unchanged(`signalsIn)
    {
      after, raised, drained := context, false, 0;
      ghost var p := View();
      var workUnits, ended, panicked;
      workUnits, ended, ss := Gather(world);
      if ended {
        return after, Finished, raised, ss, drained;
      }
      drained := |ss|;
      assert ss[..drained] == ss;
      ghost var received := ss;
      after, workUnits, raised, ended, panicked, ss := Continue(world, p, ss, workUnits, after);
      assert ss[..drained] == received;
      if panicked {
        result := Panicked;
      } else if ended {
        result := Finished;
      } else {
        result := if workUnits > 0 then DidWork(workUnits) else NoWork;
        if workUnits == 0 { NoWorkMeans(ss); }
      }
    }

    /** One signal read, if there is one. */
    method ReadSignal() returns (stop: bool)
      modifies this`signalsIn
      ensures stop == StopNext(old(signalsIn))
      ensures signalsIn == if old(signalsIn) == [] then [] else old(signalsIn)[1..]
    {
      stop := false;
      if signalsIn != [] {
        stop := signalsIn[0] == "stop";
        signalsIn := signalsIn[1..];
      }
    }

    /**
     `process`. It is a run of the protocol, worker included; its report counts the steps of its own;
     the receive loop left the result channel empty (`drained` marks that point) or ended the component;
     an active component took what it found in IN and then sent until the queue or the budget was empty.
     If it finishes at the end of input and IN is not empty then, what is there was written after the
     take, and the state the call began in was exposed: in particular IN is empty if it was abandoned
     before. And surroundings that bait an exposed state get just that.
     */
    method Process(context: Context, world: Moment -> Gust)
      returns (after: Context, result: CallResult, raised: bool, ghost ss: seq<Step>, ghost drained: nat)
      requires !state.Ended?
      modifies this
      ensures Steps(old(View()), ss) && View() == AfterSteps(old(View()), ss)
      ensures after == context.(remainingBudget := after.remainingBudget)
      ensures after.remainingBudget + Sends(ss) == context.remainingBudget
      ensures result.Finished? <==> state.Ended?
      ensures result.Panicked? ==> state.WaitingForConfig? && old(conf) != [] && old(conf)[0].NotText?
      ensures !result.Finished? && !result.Panicked? ==> result == if Work(ss) > 0 then DidWork(Work(ss)) else NoWork
      ensures !result.Finished? ==>
        drained <= |ss| && Steps(old(View()), ss[..drained]) && AfterSteps(old(View()), ss[..drained]).answers == []
      ensures ConfUsed(old(conf), conf, ss, result.Panicked?)
      ensures state.WaitingForConfig? && !result.Panicked? ==> old(conf) == []
      ensures result.NoWork? ==> forall s :: s in ss ==> !s.Receive? && !s.Configure? && !s.SendAppend?
      ensures state.Active? ==>
        (pendingInput == [] || after.remainingBudget == 0) && old(consumed) + old(inn) <= consumed
      ensures EndsAtEof(ss) && state.Ended? ==> old(consumed) + old(inn) <= consumed
      ensures state.Active? ==> !(pendingInput == [] && innAbandoned && inflightAppends == 0)
      ensures raised == (state.Active? && pendingInput != [])
      ensures result.Finished? ==> ss != [] && Ending(ss[|ss| - 1], old(signalsIn), innAbandoned)
      ensures StopNext(old(signalsIn)) ==> ss == [FinishOnStop]
      ensures signalsIn == if old(signalsIn) == [] then [] else old(signalsIn)[1..]
      ensures EndsAtEof(ss) && result.Finished? ==> inn == [] || inn == world(BeforeCheck).packets
      ensures EndsAtEof(ss) && result.Finished? && old(innAbandoned) ==> inn == []
      ensures EndsAtEof(ss) && result.Finished? && inn != [] && Sane(old(View())) ==> old(Exposed())
      ensures Sane(old(View())) && old(Exposed()) && Baited(old(View()), world) ==>
        EndsAtEof(ss) && result.Finished? && inn == world(BeforeCheck).packets
    {
      after, raised, ss, drained := context, false, [], 0;
      ghost var p := View();
      var stop := ReadSignal();
      if stop {
        Extend(p, ss, View(), 0, 0, FinishOnStop);
        ss := ss + [FinishOnStop];
        Send(Shutdown);
        state, result := Ended, Finished;
        return;
      }
      assert View() == p;
      after, result, raised, ss, drained := Attend(context, world);
    }

    /** From every exposed state some surroundings do make a call lose a packet. */
    method LosingCall(context: Context, p: Message) returns (after: Context, result: CallResult, raised: bool)
      requires Sane(View()) && Exposed()
      modifies this
      ensures result.Finished? && state.Ended? && inn == [p]
    {
      var turns := Yes(2 * |commands| + 2);
      var world := (m: Moment) =>
        if m == BeforeReceive(0) then Gust([], false, turns)
        else if m == BeforeCheck then Gust([p], true, [])
        else CALM;
      ghost var ss, drained;
      after, result, raised, ss, drained := Process(context, world);
    }
  }
}
