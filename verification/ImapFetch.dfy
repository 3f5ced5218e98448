/**
 `IMAPFetchIdle` and its worker thread. The component asks for one poll at a time and forwards what
 the worker fetched; `pollInflight` says whether a poll is out. As in ImapAppend.dfy the protocol is a
 machine of single sends and receives, and `FetchNode.Process` is proved to be a run of it.
 */
module ImapFetch {
  import opened Prelude
  import opened ComponentApi

  /** A fetched message, encoded; its bytes play no part here. */
  type Mail = string

  datatype FetchState = WaitingForConfig | Connecting | Active | Ended

  datatype Command = Connect(url: string) | Poll | Shutdown

  datatype Answer = Connected | Messages(batch: seq<Mail>) | IdleTimeout | Failed | Stopped

  /** What the worker is busy with; after a successful connect it may still have to announce it. */
  datatype Job = Doing(command: Command) | Announcing

  /** What the server makes of a request. */
  datatype Reaction = Refused | Opened(unseen: seq<Mail>) | Mailbox(batch: seq<Mail>) | Quiet

  datatype Protocol = Protocol(
    state: FetchState,
    pending: seq<Mail>,
    pollInflight: bool,
    commands: seq<Command>,
    answers: seq<Answer>,
    job: Option<Job>,
    session: bool,
    alive: bool,
    sent: seq<Mail>)

  const START := Protocol(WaitingForConfig, [], false, [], [], None, false, true, [])

  datatype Step =
    | Receive
    | Configure(url: string)
    | RejectConf
    | Forward
    | SendPoll
    | FinishOnStop
    | SendRefused
    | WorkerTake
    | WorkerAct(reaction: Reaction)

  predicate Enabled(p: Protocol, s: Step) {
    match s
    case Receive => !p.state.Ended? && p.answers != []
    case Configure(_) => p.state.WaitingForConfig? && p.alive
    case RejectConf => p.state.WaitingForConfig?
    case Forward => !p.state.Ended? && p.pending != []
    case SendPoll => p.state.Active? && !p.pollInflight && p.alive
    case FinishOnStop => !p.state.Ended?
    case SendRefused => (p.state.WaitingForConfig? || (p.state.Active? && !p.pollInflight)) && !p.alive
    case WorkerTake => p.alive && p.job.None? && p.commands != []
    case WorkerAct(_) => p.alive && p.job.Some?
  }

  function Sent(p: Protocol, c: Command): seq<Command> {
    if p.alive then p.commands + [c] else p.commands
  }

  function Step1(p: Protocol, s: Step): Protocol
    requires Enabled(p, s)
  {
    match s
    case Receive =>
      var q := p.(answers := p.answers[1..]);
      (match p.answers[0]
       case Connected => q.(state := Active, pollInflight := false)
       case Messages(batch) => q.(pending := p.pending + batch, pollInflight := false)
       case IdleTimeout => q.(pollInflight := false)
       case Failed => q.(state := Ended)
       case Stopped => q.(state := Ended))
    case Configure(url) => p.(commands := Sent(p, Connect(url)), state := Connecting, pollInflight := true)
    case RejectConf => p.(state := Ended)
    case Forward => p.(pending := p.pending[1..], sent := p.sent + [p.pending[0]])
    case SendPoll => p.(commands := Sent(p, Poll), pollInflight := true)
    case FinishOnStop => p.(commands := Sent(p, Shutdown), state := Ended)
    case SendRefused => p.(state := Ended)
    case WorkerTake => p.(job := Some(Doing(p.commands[0])), commands := p.commands[1..])
    case WorkerAct(reaction) => Act(p, p.job.value, reaction)
  }

  /** One turn of the worker; a reaction that does not fit the request counts as a refusal. */
  function Act(p: Protocol, job: Job, reaction: Reaction): Protocol {
    var q := p.(job := None);
    match job
    case Announcing => q.(answers := p.answers + [Connected])
    case Doing(Connect(_)) =>
      if !reaction.Opened? then q.(answers := p.answers + [Failed])
      else if reaction.unseen == [] then q.(session := true, answers := p.answers + [Connected])
      else q.(session := true, job := Some(Announcing), answers := p.answers + [Messages(reaction.unseen)])
    case Doing(Poll) =>
      if p.session && reaction.Mailbox? then q.(answers := p.answers + [Messages(reaction.batch)])
      else if p.session && reaction.Quiet? then q.(answers := p.answers + [IdleTimeout])
      else q.(answers := p.answers + [Failed])
    case Doing(Shutdown) => q.(session := false, alive := false, answers := p.answers + [Stopped])
  }

  predicate Steps(p: Protocol, ss: seq<Step>)
    decreases |ss|
  {
    ss == [] || (Enabled(p, ss[0]) && Steps(Step1(p, ss[0]), ss[1..]))
  }

  function AfterSteps(p: Protocol, ss: seq<Step>): Protocol
    requires Steps(p, ss)
    decreases |ss|
  {
    if ss == [] then p else AfterSteps(Step1(p, ss[0]), ss[1..])
  }

  lemma StepsSnoc(p: Protocol, ss: seq<Step>, s: Step)
    requires Steps(p, ss) && Enabled(AfterSteps(p, ss), s)
    ensures Steps(p, ss + [s]) && AfterSteps(p, ss + [s]) == Step1(AfterSteps(p, ss), s)
    decreases |ss|
  {
    if ss == [] {
      assert ([] + [s])[1..] == [];
    } else {
      assert (ss + [s])[1..] == ss[1..] + [s];
      StepsSnoc(Step1(p, ss[0]), ss[1..], s);
    }
  }

  // ----- the invariant -----

  function Polls(cs: seq<Command>): nat {
    if cs == [] then 0 else (if cs[0].Poll? then 1 else 0) + Polls(cs[1..])
  }

  /** Answers that close a poll: mail, a timeout or a failure. */
  function PollAnswers(rs: seq<Answer>): nat {
    if rs == [] then 0
    else PollAnswers(rs[1..]) + if rs[0].Messages? || rs[0].IdleTimeout? || rs[0].Failed? then 1 else 0
  }

  function Unread(rs: seq<Answer>): seq<Mail> {
    if rs == [] then [] else (if rs[0].Messages? then rs[0].batch else []) + Unread(rs[1..])
  }

  function PollsOut(p: Protocol): nat {
    Polls(p.commands) + (if p.job == Some(Doing(Poll)) then 1 else 0)
  }

  lemma PollsSnoc(cs: seq<Command>, c: Command)
    ensures Polls(cs + [c]) == Polls(cs) + if c.Poll? then 1 else 0
  {
    if cs != [] {
      assert (cs + [c])[1..] == cs[1..] + [c];
      PollsSnoc(cs[1..], c);
    }
  }

  lemma AnswersSnoc(rs: seq<Answer>, r: Answer)
    ensures PollAnswers(rs + [r]) == PollAnswers(rs) + if r.Messages? || r.IdleTimeout? || r.Failed? then 1 else 0
    ensures Unread(rs + [r]) == Unread(rs) + if r.Messages? then r.batch else []
  {
    if rs != [] {
      assert (rs + [r])[1..] == rs[1..] + [r];
      AnswersSnoc(rs[1..], r);
    }
  }

  ghost predicate Idle(p: Protocol) {
    p.commands == [] && p.job.None? && p.answers == [] && p.alive
  }

  /** Between the connect request and its answer; an initial batch may travel ahead of `Connected`. */
  ghost predicate Dialling(p: Protocol) {
    && p.alive
    && (forall c :: c in p.commands ==> c.Connect?)
    && (p.job.Some? ==> p.job.value.Announcing? || p.job.value.command.Connect?)
    && (p.commands != [] ==> |p.commands| == 1 && p.job.None? && p.answers == [])
    && (p.job.Some? && p.job.value.Doing? ==> p.answers == [])
    && (p.job.Some? && p.job.value.Announcing? ==>
       p.session && (p.answers == [] || (|p.answers| == 1 && p.answers[0].Messages?)))
    && (p.job.None? && p.commands == [] ==>
          || (|p.answers| == 1 && (p.answers[0].Failed? || (p.answers[0].Connected? && p.session)))
          || (|p.answers| == 2 && p.answers[0].Messages? && p.answers[1].Connected? && p.session))
  }

  ghost predicate Polling(p: Protocol) {
    && p.alive && p.session
    && (forall c :: c in p.commands ==> c.Poll?)
    && (p.job.Some? ==> p.job.value == Doing(Poll))
    && (forall r :: r in p.answers ==> r.Messages? || r.IdleTimeout? || r.Failed?)
    && PollsOut(p) + PollAnswers(p.answers) == if p.pollInflight then 1 else 0
  }

  ghost predicate Handshake(p: Protocol) {
    && (p.state.WaitingForConfig? ==> Idle(p))
    && (p.state.Connecting? ==> Dialling(p))
    && (p.state.Active? ==> Polling(p))
    && (p.state.Ended? ==> forall i :: 0 <= i < |p.commands| - 1 ==> !p.commands[i].Shutdown?)
    && (p.job == Some(Doing(Shutdown)) ==> p.commands == [])
    && (PollsOut(p) > 0 ==> p.session && p.alive)
  }

  /** A turn of the worker adds one answer, and leaves the component's side alone. */
  lemma ActAnswers(p: Protocol, job: Job, reaction: Reaction)
    ensures var q := Act(p, job, reaction);
      && |q.answers| == |p.answers| + 1 && q.answers == p.answers + [q.answers[|p.answers|]]
      && q.state == p.state && q.sent == p.sent && q.pending == p.pending && q.commands == p.commands
  {
  }

  lemma PollsAll(cs: seq<Command>)
    requires forall c :: c in cs ==> c.Poll?
    ensures Polls(cs) == |cs|
  {
    if cs != [] {
      assert cs[0] in cs;
      assert forall c :: c in cs[1..] ==> c in cs;
      PollsAll(cs[1..]);
    }
  }

  /** An answer is only there to be read once nothing else of the exchange is left. */
  lemma ReceiveKeepsHandshake(p: Protocol)
    requires Handshake(p) && Enabled(p, Receive)
    ensures Handshake(Step1(p, Receive))
  {
    var q := Step1(p, Receive);
    assert p.answers[0] in p.answers;
    assert forall r :: r in q.answers ==> r in p.answers;
    if p.state.Active? { PollsAll(p.commands); }
  }

  lemma TakeKeepsHandshake(p: Protocol)
    requires Handshake(p) && Enabled(p, WorkerTake)
    ensures Handshake(Step1(p, WorkerTake))
  {
    var q := Step1(p, WorkerTake);
    assert p.commands[0] in p.commands;
    assert forall c :: c in q.commands ==> c in p.commands;
    assert PollsOut(q) == PollsOut(p);
  }

  lemma ActKeepsDialling(p: Protocol, reaction: Reaction)
    requires Dialling(p) && p.job.Some?
    ensures Dialling(Act(p, p.job.value, reaction))
  {
  }

  lemma ActKeepsPolling(p: Protocol, reaction: Reaction)
    requires Polling(p) && p.job.Some?
    ensures Polling(Act(p, p.job.value, reaction))
  {
    var q := Act(p, p.job.value, reaction);
    AnswersSnoc(p.answers, q.answers[|p.answers|]);
  }

  lemma ActKeepsHandshake(p: Protocol, reaction: Reaction)
    requires Handshake(p) && Enabled(p, WorkerAct(reaction))
    ensures Handshake(Step1(p, WorkerAct(reaction)))
  {
    if p.state.Connecting? { ActKeepsDialling(p, reaction); }
    if p.state.Active? { ActKeepsPolling(p, reaction); }
    assert Polls(p.commands) > 0 ==> p.session;
  }

  lemma CommandKeepsHandshake(p: Protocol, s: Step)
    requires Handshake(p) && Enabled(p, s) && !s.WorkerTake? && !s.WorkerAct? && !s.Receive?
    ensures Handshake(Step1(p, s))
  {
    forall i | 0 <= i < |p.commands| && !p.state.Ended? ensures !p.commands[i].Shutdown? {
      assert p.commands[i] in p.commands;
    }
    match s
    case Configure(url) => PollsSnoc(p.commands, Connect(url));
    case SendPoll => PollsSnoc(p.commands, Poll);
    case FinishOnStop => PollsSnoc(p.commands, Shutdown);
    case _ =>
  }

  lemma StepKeepsHandshake(p: Protocol, s: Step)
    requires Handshake(p) && Enabled(p, s)
    ensures Handshake(Step1(p, s))
  {
    if s.WorkerTake? {
      TakeKeepsHandshake(p);
    } else if s.WorkerAct? {
      ActKeepsHandshake(p, s.reaction);
    } else if s.Receive? {
      ReceiveKeepsHandshake(p);
    } else {
      CommandKeepsHandshake(p, s);
    }
  }

  lemma {:induction false} StepsKeepHandshake(p: Protocol, ss: seq<Step>)
    requires Handshake(p) && Steps(p, ss)
    ensures Handshake(AfterSteps(p, ss))
    decreases |ss|
  {
    if ss != [] {
      StepKeepsHandshake(p, ss[0]);
      StepsKeepHandshake(Step1(p, ss[0]), ss[1..]);
    }
  }

  // ----- the theorems, over every interleaving from the start -----

  /** While active, exactly one poll is queued, being handled or answered
      but unread if the flag is set, and none otherwise. */
  lemma OnePollAtATime(ss: seq<Step>)
    requires Steps(START, ss) && AfterSteps(START, ss).state.Active?
    ensures var p := AfterSteps(START, ss);
      && PollsOut(p) + PollAnswers(p.answers) == (if p.pollInflight then 1 else 0)
      && p.alive && !Enabled(p, SendRefused)
  {
    StepsKeepHandshake(START, ss);
  }

  /** Step i of the run is the server's yes to a connect. */
  ghost predicate ConnectAnswered(p: Protocol, ss: seq<Step>, i: nat) {
    && i < |ss| && ss[i].WorkerAct? && ss[i].reaction.Opened? && Steps(p, ss[..i])
    && var q := AfterSteps(p, ss[..i]);
    q.job.Some? && q.job.value.Doing? && q.job.value.command.Connect?
  }

  /** The worker handles a poll only while it has a session, which only a successful connect opens. */
  lemma NoPollBeforeConnect(ss: seq<Step>)
    requires Steps(START, ss) && AfterSteps(START, ss).job == Some(Doing(Poll))
    ensures AfterSteps(START, ss).session && exists i :: ConnectAnswered(START, ss, i)
  {
    StepsKeepHandshake(START, ss);
    SessionWasOpened(START, ss);
  }

  lemma {:induction false} SessionWasOpened(p: Protocol, ss: seq<Step>)
    requires Steps(p, ss)
    ensures AfterSteps(p, ss).session ==> p.session || exists i :: ConnectAnswered(p, ss, i)
    decreases |ss|
  {
    if ss != [] && AfterSteps(p, ss).session && !p.session {
      var q, rest := Step1(p, ss[0]), ss[1..];
      SessionWasOpened(q, rest);
      if q.session {
        assert ConnectAnswered(p, ss, 0);
      } else {
        var i: nat :| ConnectAnswered(q, rest, i);
        assert ss[..i + 1][0] == ss[0] && ss[..i + 1][1..] == rest[..i];
        assert ConnectAnswered(p, ss, i + 1);
      }
    }
  }

  // ----- the mail -----

  /** The mail that the server hands over at a step: unseen mail with a connect, a batch with a poll. */
  function Given(p: Protocol, s: Step): seq<Mail>
    requires Enabled(p, s)
  {
    if !s.WorkerAct? || p.job.value.Announcing? then []
    else if p.job.value.command.Connect? && s.reaction.Opened? then s.reaction.unseen
    else if p.job.value.command.Poll? && s.reaction.Mailbox? then s.reaction.batch
    else []
  }

  /** The mail that the server hands over in a run. */
  function Handed(p: Protocol, ss: seq<Step>): seq<Mail>
    requires Steps(p, ss)
    decreases |ss|
  {
    if ss == [] then [] else Given(p, ss[0]) + Handed(Step1(p, ss[0]), ss[1..])
  }

  /** The mail on the way: on OUT, in the queue, in answers that have not been read. */
  function Held(p: Protocol): seq<Mail> {
    p.sent + p.pending + Unread(p.answers)
  }

  lemma ReceiveHolds(p: Protocol)
    requires Enabled(p, Receive)
    ensures Held(Step1(p, Receive)) == Held(p)
  {
    if p.answers[0].Messages? {
      assert Unread(p.answers) == p.answers[0].batch + Unread(p.answers[1..]);
      assert p.sent + p.pending + (p.answers[0].batch + Unread(p.answers[1..]))
          == p.sent + (p.pending + p.answers[0].batch) + Unread(p.answers[1..]);
    } else {
      assert Unread(p.answers) == Unread(p.answers[1..]);
    }
  }

  lemma ActHolds(p: Protocol, reaction: Reaction)
    requires Handshake(p) && Enabled(p, WorkerAct(reaction))
    ensures Held(Step1(p, WorkerAct(reaction))) == Held(p) + Given(p, WorkerAct(reaction))
  {
    var q := Step1(p, WorkerAct(reaction));
    ActAnswers(p, p.job.value, reaction);
    AnswersSnoc(p.answers, q.answers[|p.answers|]);
    assert Unread(q.answers) == Unread(p.answers) + Given(p, WorkerAct(reaction));
    assert p.sent + p.pending + (Unread(p.answers) + Given(p, WorkerAct(reaction)))
        == p.sent + p.pending + Unread(p.answers) + Given(p, WorkerAct(reaction));
  }

  lemma StepHolds(p: Protocol, s: Step)
    requires Handshake(p) && Enabled(p, s)
    ensures Held(Step1(p, s)) == Held(p) + Given(p, s)
  {
    match s
    case Receive => ReceiveHolds(p);
    case Forward => assert p.pending == [p.pending[0]] + p.pending[1..];
    case WorkerAct(reaction) => ActHolds(p, reaction);
    case _ =>
  }

  lemma {:induction false} RunHolds(p: Protocol, ss: seq<Step>)
    requires Handshake(p) && Steps(p, ss)
    ensures Held(AfterSteps(p, ss)) == Held(p) + Handed(p, ss)
    decreases |ss|
  {
    if ss != [] {
      var q := Step1(p, ss[0]);
      StepHolds(p, ss[0]);
      StepKeepsHandshake(p, ss[0]);
      RunHolds(q, ss[1..]);
      assert Held(p) + Given(p, ss[0]) + Handed(q, ss[1..]) == Held(p) + (Given(p, ss[0]) + Handed(q, ss[1..]));
    }
  }

  /** Nothing the server handed over is lost, repeated or reordered: OUT, then
      the queue, then the batches not read yet are all of it, on every run. */
  lemma MailInOrder(ss: seq<Step>)
    requires Steps(START, ss)
    ensures var p := AfterSteps(START, ss);
      p.sent + p.pending + Unread(p.answers) == Handed(START, ss)
  {
    RunHolds(START, ss);
  }

  // ----- how it goes on and how it ends -----

  /** The server fails a request: a connect that opens nothing, a poll that brings neither mail nor a timeout. */
  predicate Refuses(p: Protocol, s: Step)
    requires Enabled(p, s)
  {
    s.WorkerAct? && p.job.value.Doing? &&
    match p.job.value.command
    case Connect(_) => !s.reaction.Opened?
    case Poll => !s.reaction.Mailbox? && !s.reaction.Quiet?
    case Shutdown => false
  }

  /** The component is at its end, or will be when it has read its answers. */
  predicate Over(p: Protocol) {
    p.state.Ended? || Failed in p.answers
  }

  /** What ends a component: a stop, a configuration that is rejected, or a request that failed. */
  predicate Fatal(p: Protocol, ss: seq<Step>)
    requires Steps(p, ss)
    decreases |ss|
  {
    ss != [] && (ss[0].FinishOnStop? || ss[0].RejectConf? || Refuses(p, ss[0]) || Fatal(Step1(p, ss[0]), ss[1..]))
  }

  lemma ReceiveOver(p: Protocol)
    requires Handshake(p) && Enabled(p, Receive)
    ensures Over(Step1(p, Receive)) <==> Over(p)
  {
    assert p.answers == [p.answers[0]] + p.answers[1..];
    assert p.answers[0] in p.answers;
  }

  lemma ActOver(p: Protocol, reaction: Reaction)
    requires Handshake(p) && Enabled(p, WorkerAct(reaction))
    ensures Over(Step1(p, WorkerAct(reaction))) <==> Over(p) || Refuses(p, WorkerAct(reaction))
  {
    ActAnswers(p, p.job.value, reaction);
  }

  lemma StepOver(p: Protocol, s: Step)
    requires Handshake(p) && Enabled(p, s)
    ensures Over(Step1(p, s)) <==> Over(p) || s.FinishOnStop? || s.RejectConf? || Refuses(p, s)
  {
    match s
    case Receive => ReceiveOver(p);
    case WorkerAct(reaction) => ActOver(p, reaction);
    case _ =>
  }

  lemma {:induction false} RunOver(p: Protocol, ss: seq<Step>)
    requires Handshake(p) && Steps(p, ss)
    ensures Over(AfterSteps(p, ss)) <==> Over(p) || Fatal(p, ss)
    decreases |ss|
  {
    if ss != [] {
      StepOver(p, ss[0]);
      StepKeepsHandshake(p, ss[0]);
      RunOver(Step1(p, ss[0]), ss[1..]);
    }
  }

  lemma {:induction false} EndedStays(p: Protocol, ss: seq<Step>)
    requires Steps(p, ss) && p.state.Ended?
    ensures AfterSteps(p, ss).state.Ended?
    decreases |ss|
  {
    if ss != [] {
      assert Step1(p, ss[0]).state.Ended?;
      EndedStays(Step1(p, ss[0]), ss[1..]);
    }
  }

  /** The component has passed a configuration on, and waits for one no more. */
  lemma {:induction false} ConfiguredOnce(p: Protocol, ss: seq<Step>)
    requires Handshake(p) && Steps(p, ss) && !AfterSteps(p, ss).state.Ended?
    ensures AfterSteps(p, ss).state.WaitingForConfig? <==>
      p.state.WaitingForConfig? && forall i :: 0 <= i < |ss| ==> !ss[i].Configure?
    decreases |ss|
  {
    if ss != [] {
      var q, rest := Step1(p, ss[0]), ss[1..];
      if q.state.Ended? { EndedStays(q, rest); }
      assert p.state.WaitingForConfig? ==> q.state.WaitingForConfig? || ss[0].Configure?;
      StepKeepsHandshake(p, ss[0]);
      ConfiguredOnce(q, rest);
      assert forall i :: 0 <= i < |rest| ==> rest[i] == ss[i + 1];
    }
  }

  /**
   The fate of a component: it has ended, or has a failure to read, exactly if it was stopped, its
   configuration was rejected, or the server failed a connect or a poll; mail and timeouts do not end it.
   Otherwise, whenever nothing is on its way, it is still waiting if no configuration was passed on, and
   if one was it is active with no poll out, so that it can ask for the next.
   */
  lemma FetchFate(ss: seq<Step>)
    requires Steps(START, ss)
    ensures var p := AfterSteps(START, ss);
      && (p.state.Ended? || Failed in p.answers <==> Fatal(START, ss))
      && (!Fatal(START, ss) && p.commands == [] && p.job.None? && p.answers == [] ==>
            if forall i :: 0 <= i < |ss| ==> !ss[i].Configure? then p.state.WaitingForConfig?
            else p.state.Active? && !p.pollInflight && Enabled(p, SendPoll))
  {
    StepsKeepHandshake(START, ss);
    RunOver(START, ss);
    if !AfterSteps(START, ss).state.Ended? { ConfiguredOnce(START, ss); }
  }

  /** The URL of a connect that is queued or being handled. */
  predicate Dials(p: Protocol, url: string) {
    Connect(url) in p.commands || p.job == Some(Doing(Connect(url)))
  }

  /** A connect dials the URL that a configuration gave. */
  lemma {:induction false} DialsAsConfigured(p: Protocol, ss: seq<Step>, url: string)
    requires Steps(p, ss) && Dials(AfterSteps(p, ss), url)
    ensures Dials(p, url) || Configure(url) in ss
    decreases |ss|
  {
    if ss != [] {
      DialsAsConfigured(Step1(p, ss[0]), ss[1..], url);
      assert forall s :: s in ss[1..] ==> s in ss;
      assert ss[0] in ss;
    }
  }

  // ----- the component and the worker -----

  function Forwards(ss: seq<Step>): nat {
    if ss == [] then 0 else (if ss[0].Forward? then 1 else 0) + Forwards(ss[1..])
  }

  /** The work units a call reports: receipts, the connect request, messages forwarded, the poll. */
  function Work(ss: seq<Step>): nat {
    if ss == [] then 0
    else Work(ss[1..]) + if ss[0].Receive? || ss[0].Configure? || ss[0].Forward? || ss[0].SendPoll? then 1 else 0
  }

  lemma CountsSnoc(ss: seq<Step>, s: Step)
    ensures Forwards(ss + [s]) == Forwards(ss) + if s.Forward? then 1 else 0
    ensures Work(ss + [s]) == Work(ss) + if s.Receive? || s.Configure? || s.Forward? || s.SendPoll? then 1 else 0
  {
    if ss != [] {
      assert (ss + [s])[1..] == ss[1..] + [s];
      CountsSnoc(ss[1..], s);
    }
  }

  lemma NoWorkMeans(ss: seq<Step>)
    requires Work(ss) == 0
    ensures forall s :: s in ss ==> !s.Receive? && !s.Configure? && !s.Forward? && !s.SendPoll?
  {
    if ss != [] { NoWorkMeans(ss[1..]); }
  }

  /** A stretch of the protocol from p to q in which the counts are as given. */
  ghost predicate Stretch(p: Protocol, ss: seq<Step>, q: Protocol, forwards: nat, work: nat) {
    Steps(p, ss) && AfterSteps(p, ss) == q && Forwards(ss) == forwards && Work(ss) == work
  }

  lemma Extend(p: Protocol, ss: seq<Step>, q: Protocol, forwards: nat, work: nat, s: Step)
    requires Stretch(p, ss, q, forwards, work) && Enabled(q, s)
    ensures Stretch(p, ss + [s], Step1(q, s), forwards + (if s.Forward? then 1 else 0),
      work + if s.Receive? || s.Configure? || s.Forward? || s.SendPoll? then 1 else 0)
  {
    StepsSnoc(p, ss, s);
    CountsSnoc(ss, s);
  }

  /** Such a stretch that has not touched the configuration yet. */
  ghost predicate Listening(p: Protocol, ss: seq<Step>, q: Protocol, forwards: nat, work: nat) {
    Stretch(p, ss, q, forwards, work) && forall s :: s in ss ==> !s.Configure? && !s.RejectConf?
  }

  lemma Listen(p: Protocol, ss: seq<Step>, q: Protocol, forwards: nat, work: nat, s: Step)
    requires Listening(p, ss, q, forwards, work) && Enabled(q, s) && !s.Configure? && !s.RejectConf?
    ensures Listening(p, ss + [s], Step1(q, s), forwards + (if s.Forward? then 1 else 0),
                      work + if s.Receive? || s.Configure? || s.Forward? || s.SendPoll? then 1 else 0)
  {
    Extend(p, ss, q, forwards, work, s);
  }

  // ----- the surroundings of a call -----

  /** A CONF packet: a connection, one that `parse_fetch_config` rejects, or no text at all, which panics. */
  datatype Conf = Connection(url: string) | Unusable | NotText

  /** What happens at one moment of a call: room made on OUT, and turns of the worker with the server's reactions. */
  datatype Gust = Gust(room: nat, turns: seq<Reaction>)

  /** The moments: before each look at the results, and before each push. */
  datatype Moment = BeforeReceive(k: nat) | BeforePush(k: nat)

  function WorkerStep(p: Protocol, reaction: Reaction): Protocol {
    if p.alive && p.job.Some? then Step1(p, WorkerAct(reaction))
    else if p.alive && p.commands != [] then Step1(p, WorkerTake)
    else p
  }

  function RunWorker(p: Protocol, turns: seq<Reaction>): Protocol
    decreases |turns|
  {
    if turns == [] then p else RunWorker(WorkerStep(p, turns[0]), turns[1..])
  }

  /** Answers that may still be read: a connect can bring two. */
  function Outstanding(p: Protocol): nat {
    |p.answers| + 2 * |p.commands| + match p.job
      case None => 0
      case Some(Announcing) => 1
      case Some(Doing(_)) => 2
  }

  lemma WorkerStepKeeps(p: Protocol, reaction: Reaction)
    ensures var q := WorkerStep(p, reaction);
      q.state == p.state && q.pending == p.pending && q.pollInflight == p.pollInflight
        && Outstanding(q) <= Outstanding(p)
  {
  }

  /** The worker leaves the component's side alone, and brings no more answers than it was asked for. */
  lemma RunWorkerKeeps(p: Protocol, turns: seq<Reaction>)
    ensures var q := RunWorker(p, turns);
      q.state == p.state && q.pending == p.pending && q.pollInflight == p.pollInflight
        && Outstanding(q) <= Outstanding(p)
    decreases |turns|
  {
    if turns != [] {
      WorkerStepKeeps(p, turns[0]);
      RunWorkerKeeps(WorkerStep(p, turns[0]), turns[1..]);
    }
  }

  /**
   What a call makes of CONF. It leaves it alone, or it takes the first packet: a connection is passed on
   with its URL unless the worker is gone, a bad one is rejected, and what is no text makes it panic.
   */
  ghost predicate ConfUsed(before: seq<Conf>, after: seq<Conf>, ss: seq<Step>, panicked: bool) {
    if after == before then
      !panicked && forall s :: s in ss ==> !s.Configure? && !s.RejectConf?
    else
      && before != [] && after == before[1..] && (panicked <==> before[0].NotText?)
      && (forall s :: s in ss && s.Configure? ==> before[0] == Connection(s.url))
      && (forall s :: s in ss && s.RejectConf? ==> before[0].Unusable?)
      && (before[0].Connection? ==> Configure(before[0].url) in ss || SendRefused in ss)
      && (before[0].Unusable? ==> RejectConf in ss)
  }

  // ----- the component and its worker -----

  /** The step with which a call finishes the component, and when that is allowed. */
  predicate Ending(last: Step, signals: seq<string>) {
    || (last.FinishOnStop? && StopNext(signals))
    || last.RejectConf?
    || last.Receive?
    || last.SendRefused?
  }

  class FetchNode {
    var conf: seq<Conf>
    var outRoom: nat
    var signalsIn: seq<string>
    var state: FetchState
    var pendingMessages: seq<Mail>
    var pollInflight: bool
    var commands: seq<Command>
    var answers: seq<Answer>
    var job: Option<Job>
    var session: bool
    var alive: bool
    ghost var sent: seq<Mail>

    ghost function View(): Protocol
      reads this
    {
      Protocol(state, pendingMessages, pollInflight, commands, answers, job, session, alive, sent)
    }

    constructor (conf: seq<Conf>, outRoom: nat, signalsIn: seq<string>)
      ensures View() == START
    {
      this.conf, this.outRoom, this.signalsIn := conf, outRoom, signalsIn;
      state, pendingMessages, pollInflight := WaitingForConfig, [], false;
      commands, answers, job, session, alive := [], [], None, false, true;
      sent := [];
    }

    /** One send of the worker's loop body; a connect with unseen mail takes two. */
    method WorkerTurn(reaction: Reaction)
      requires alive && job.Some?
      modifies this`job, this`session, this`alive, this`answers
      ensures View() == Step1(old(View()), WorkerAct(reaction))
      ensures |answers| == |old(answers)| + 1 && old(answers) < answers
      ensures var answer, handled := answers[|old(answers)|], old(job.value);
        && (handled == Doing(Poll) && old(session) && reaction.Mailbox? ==> answer == Messages(reaction.batch))
        && (handled == Doing(Poll) && old(session) && reaction.Quiet? ==> answer == IdleTimeout)
        && (handled == Doing(Poll) && (!old(session) || reaction.Refused? || reaction.Opened?) ==> answer == Failed)
        && (handled == Doing(Shutdown) ==> answer == Stopped && !alive && !session)
        && (handled == Announcing ==> answer == Connected)
      ensures var answer, handled := answers[|old(answers)|], old(job.value);
        handled.Doing? && handled.command.Connect? ==>
          if !reaction.Opened? then answer == Failed
          else session && answer == if reaction.unseen == [] then Connected else Messages(reaction.unseen)
      ensures job.None? || (job == Some(Announcing) && answers[|old(answers)|].Messages?)
    {
      var answer, next := Failed, None;
      match job.value {
        case Announcing =>
          answer := Connected;
        case Doing(Connect(_)) =>
          if reaction.Opened? {
            session := true;
            if reaction.unseen != [] {
              answer, next := Messages(reaction.unseen), Some(Announcing);
            } else {
              answer := Connected;
            }
          }
        case Doing(Poll) =>
          if session {
            if reaction.Mailbox? {
              answer := Messages(reaction.batch);
            } else if reaction.Quiet? {
              answer := IdleTimeout;
            }
          }
        case Doing(Shutdown) =>
          session, alive, answer := false, false, Stopped;
      }
      job := next;
      answers := answers + [answer];
    }

    /** The worker thread between two steps of the component: so many of its own steps. */
    method WorkerRuns(turns: seq<Reaction>, ghost p: Protocol, ghost ss: seq<Step>, ghost forwards: nat,
      ghost work: nat)
      returns (ghost more: seq<Step>)
      requires Listening(p, ss, View(), forwards, work)
      modifies this`job, this`session, this`alive, this`answers, this`commands
      ensures Listening(p, more, View(), forwards, work) && ss <= more
      ensures View() == RunWorker(old(View()), turns)
    {
      more := ss;
      for i := 0 to |turns|
        invariant Listening(p, more, View(), forwards, work) && ss <= more
        invariant RunWorker(View(), turns[i..]) == RunWorker(old(View()), turns)
      {
        assert turns[i..][1..] == turns[i + 1..];
        if alive && job.Some? {
          Listen(p, more, View(), forwards, work, WorkerAct(turns[i]));
          more := more + [WorkerAct(turns[i])];
          WorkerTurn(turns[i]);
        } else if alive && commands != [] {
          Listen(p, more, View(), forwards, work, WorkerTake);
          more := more + [WorkerTake];
          job, commands := Some(Doing(commands[0])), commands[1..];
        }
      }
    }

    /** The rest of the world at one moment of a call: the reader of OUT, and the worker. */
    method Meanwhile(g: Gust, ghost p: Protocol, ghost ss: seq<Step>, ghost forwards: nat, ghost work: nat)
      returns (ghost more: seq<Step>)
      requires Listening(p, ss, View(), forwards, work)
      modifies this`outRoom
      modifies this`job, this`session, this`alive, this`answers, this`commands
      ensures Listening(p, more, View(), forwards, work) && ss <= more
      ensures View() == RunWorker(old(View()), g.turns) && outRoom == old(outRoom) + g.room
    {
      outRoom := outRoom + g.room;
      more := WorkerRuns(g.turns, p, ss, forwards, work);
    }

    /** One answer read and acted on. */
    method HandleAnswer() returns (ended: bool)
      requires answers != [] && !state.Ended?
      modifies this`state, this`pendingMessages, this`pollInflight, this`answers
      ensures View() == Step1(old(View()), Receive) && ended == state.Ended?
    {
      var result := answers[0];
      answers := answers[1..];
      ended := false;
      match result {
        case Connected =>
          state, pollInflight := Active, false;
        case Messages(batch) =>
          pendingMessages, pollInflight := pendingMessages + batch, false;
        case IdleTimeout =>
          pollInflight := false;
        case Stopped =>
          state, ended := Ended, true;
        case Failed =>
          state, ended := Ended, true;
      }
    }

    /** The receive loop: until the result channel is found empty, or an answer ends the component. */
    method ReceiveAll(world: Moment -> Gust, ghost p: Protocol, ghost ss: seq<Step>)
      returns (workUnits: nat, ended: bool, ghost more: seq<Step>)
      requires Listening(p, ss, View(), 0, 0) && !state.Ended?
      modifies this`outRoom, this`state, this`pendingMessages, this`pollInflight
      modifies this`job, this`session, this`alive, this`answers, this`commands
      ensures Listening(p, more, View(), 0, if ended then workUnits + 1 else workUnits)
      ensures ended == state.Ended? && (!ended ==> answers == [])
      ensures ended ==> more != [] && more[|more| - 1].Receive?
      ensures old(outRoom) <= outRoom
    {
      workUnits, ended, more := 0, false, ss;
      while answers != []
        invariant Listening(p, more, View(), 0, workUnits) && !state.Ended? && old(outRoom) <= outRoom
        decreases Outstanding(View())
      {
        Listen(p, more, View(), 0, workUnits, Receive);
        more := more + [Receive];
        ended := HandleAnswer();
        if ended {
          return;
        }
        workUnits := workUnits + 1;
        RunWorkerKeeps(View(), world(BeforeReceive(workUnits)).turns);
        more := Meanwhile(world(BeforeReceive(workUnits)), p, more, 0, workUnits);
      }
    }

    /** The forwarding loop: until nothing is pending, the budget is used up, or OUT is full. */
    method ForwardPending(world: Moment -> Gust, ghost p: Protocol, ghost ss: seq<Step>, units: nat, context: Context)
      returns (after: Context, workUnits: nat, ghost more: seq<Step>)
      requires Listening(p, ss, View(), 0, units) && !state.Ended?
      modifies this`pendingMessages, this`outRoom, this`sent
      modifies this`job, this`session, this`alive, this`answers, this`commands
      ensures after == context.(remainingBudget := after.remainingBudget)
        && after.remainingBudget <= context.remainingBudget
      ensures Listening(p, more, View(), context.remainingBudget - after.remainingBudget, workUnits) && ss <= more
      ensures pendingMessages == [] || after.remainingBudget == 0 || outRoom == 0
      ensures old(outRoom) + after.remainingBudget <= outRoom + context.remainingBudget
    {
      after, workUnits, more := context, units, ss;
      var k := 0;
      while after.remainingBudget > 0 && pendingMessages != []
        invariant after == context.(remainingBudget := after.remainingBudget) && !state.Ended?
        invariant k + after.remainingBudget == context.remainingBudget && old(outRoom) <= outRoom + k
        invariant Listening(p, more, View(), k, workUnits) && ss <= more
        decreases after.remainingBudget
      {
        RunWorkerKeeps(View(), world(BeforePush(k)).turns);
        more := Meanwhile(world(BeforePush(k)), p, more, k, workUnits);
        if outRoom == 0 {
          break;
        }
        Listen(p, more, View(), k, workUnits, Forward);
        more := more + [Forward];
        outRoom := outRoom - 1;
        sent := sent + [pendingMessages[0]];
        pendingMessages := pendingMessages[1..];
        k, workUnits := k + 1, workUnits + 1;
        after := after.(remainingBudget := after.remainingBudget - 1);
      }
    }

    /** `cmd_tx.send`: lost once the worker has gone. */
    method Send(c: Command)
      modifies this`commands
      ensures commands == Sent(old(View()), c)
    {
      if alive {
        commands := commands + [c];
      }
    }

    /** The requests: connect once there is a configuration; while active, keep one poll out. */
    method Request(ghost p: Protocol, ghost ss: seq<Step>, ghost forwards: nat, units: nat)
      returns (workUnits: nat, ended: bool, panicked: bool, ghost more: seq<Step>)
      requires Listening(p, ss, View(), forwards, units) && !state.Ended?
      modifies this`conf, this`state, this`pollInflight, this`commands
      ensures Stretch(p, more, View(), forwards, workUnits) && ss <= more
      ensures ended == state.Ended?
      ensures ended ==> more != [] && (more[|more| - 1].RejectConf? || more[|more| - 1].SendRefused?)
      ensures panicked <==> old(state).WaitingForConfig? && old(conf) != [] && old(conf)[0].NotText?
      ensures panicked ==> state.WaitingForConfig?
      ensures ConfUsed(old(conf), conf, more, panicked)
      ensures (state.WaitingForConfig? && !panicked ==> old(conf) == []) && (state.Active? ==> pollInflight)
    {
      workUnits, ended, panicked, more := units, false, false, ss;
      match state {
        case WaitingForConfig =>
          if conf != [] {
            var packet := conf[0];
            conf := conf[1..];
            match packet {
              case NotText =>
                panicked := true;
              case Unusable =>
                Extend(p, more, View(), forwards, workUnits, RejectConf);
                more := more + [RejectConf];
                state, ended := Ended, true;
              case Connection(url) =>
                if !alive {
                  Extend(p, more, View(), forwards, workUnits, SendRefused);
                  more := more + [SendRefused];
                  state, ended := Ended, true;
                } else {
                  Extend(p, more, View(), forwards, workUnits, Configure(url));
                  more := more + [Configure(url)];
                  Send(Connect(url));
                  state, pollInflight := Connecting, true;
                  workUnits := workUnits + 1;
                }
            }
          }
        case Connecting =>
        case Active =>
          if !pollInflight {
            if !alive {
              Extend(p, more, View(), forwards, workUnits, SendRefused);
              more := more + [SendRefused];
              state, ended := Ended, true;
            } else {
              Extend(p, more, View(), forwards, workUnits, SendPoll);
              more := more + [SendPoll];
              Send(Poll);
              pollInflight := true;
              workUnits := workUnits + 1;
            }
          }
        case Ended =>
      }
    }

    /** Reads the results, after whatever happened before the first look. */
    method Gather(world: Moment -> Gust) returns (workUnits: nat, ended: bool, ghost ss: seq<Step>)
      requires !state.Ended?
      modifies this`outRoom, this`state, this`pendingMessages, this`pollInflight
      modifies this`job, this`session, this`alive, this`answers, this`commands
      ensures Listening(old(View()), ss, View(), 0, if ended then workUnits + 1 else workUnits)
      ensures ended == state.Ended? && (!ended ==> answers == [])
      ensures ended ==> ss != [] && ss[|ss| - 1].Receive?
      ensures old(outRoom) <= outRoom
    {
      ghost var p := View();
      RunWorkerKeeps(p, world(BeforeReceive(0)).turns);
      ss := Meanwhile(world(BeforeReceive(0)), p, [], 0, 0);
      workUnits, ended, ss := ReceiveAll(world, p, ss);
    }

    /** The call once no stop signal was found. */
    method Attend(context: Context, world: Moment -> Gust)
      returns (after: Context, result: CallResult, raised: bool, ghost ss: seq<Step>, ghost drained: nat)
      requires !state.Ended?
      modifies this`conf, this`outRoom, this`state, this`pendingMessages, this`pollInflight, this`sent
      modifies this`commands, this`answers, this`job, this`session, this`alive
      ensures after == context.(remainingBudget := after.remainingBudget)
        && after.remainingBudget <= context.remainingBudget
      ensures Stretch(old(View()), ss, View(), context.remainingBudget - after.remainingBudget, Work(ss))
      ensures !result.Panicked? ==>
        result == if state.Ended? then Finished else if Work(ss) > 0 then DidWork(Work(ss)) else NoWork
      ensures result.Panicked? ==> state.WaitingForConfig? && old(conf) != [] && old(conf)[0].NotText?
      ensures !state.Ended? ==>
        drained <= |ss| && Steps(old(View()), ss[..drained]) && AfterSteps(old(View()), ss[..drained]).answers == []
      ensures !state.Ended? ==> pendingMessages == [] || after.remainingBudget == 0 || outRoom == 0
      ensures ConfUsed(old(conf), conf, ss, result.Panicked?)
      ensures (state.WaitingForConfig? && !result.Panicked? ==> old(conf) == []) && (state.Active? ==> pollInflight)
      ensures result.NoWork? ==> forall s :: s in ss ==> !s.Receive? && !s.Configure? && !s.Forward? && !s.SendPoll?
      ensures old(outRoom) <= outRoom + Forwards(ss)
      ensures raised == (!state.Ended? && !result.Panicked? && pendingMessages != [])
      ensures state.Ended? ==> ss != [] && Ending(ss[|ss| - 1], [])
    {
      after, raised, drained := context, false, 0;
      ghost var p := View();
      var workUnits, ended, panicked;
      workUnits, ended, ss := Gather(world);
      if ended {
        return after, Finished, raised, ss, drained;
      }
      drained := |ss|;
      assert ss[..drained] == ss;
      ghost var received := ss;
      after, workUnits, ss := ForwardPending(world, p, ss, workUnits, after);
      ghost var forwards: nat := context.remainingBudget - after.remainingBudget;
      workUnits, ended, panicked, ss := Request(p, ss, forwards, workUnits);
      assert ss[..drained] == received;
      if panicked {
        result := Panicked;
      } else if ended {
        result := Finished;
      } else {
        raised := pendingMessages != [];
        result := if workUnits > 0 then DidWork(workUnits) else NoWork;
        if workUnits == 0 { NoWorkMeans(ss); }
      }
    }

    /**
     `process`. It is a run of the protocol, worker included; its report counts the steps of its own;
     the receive loop left the result channel empty (`drained` marks that point) or ended the component;
     it forwarded until nothing was pending, the budget was used up or OUT was full; and an active
     component leaves with a poll out.
     */
    method Process(context: Context, world: Moment -> Gust)
      returns (after: Context, result: CallResult, raised: bool, ghost ss: seq<Step>, ghost drained: nat)
      requires !state.Ended?
      modifies this
      ensures Steps(old(View()), ss) && View() == AfterSteps(old(View()), ss)
      ensures after == context.(remainingBudget := after.remainingBudget)
      ensures after.remainingBudget + Forwards(ss) == context.remainingBudget
      ensures result.Finished? <==> state.Ended?
      ensures result.Panicked? ==> state.WaitingForConfig? && old(conf) != [] && old(conf)[0].NotText?
      ensures !result.Finished? && !result.Panicked? ==> result == if Work(ss) > 0 then DidWork(Work(ss)) else NoWork
      ensures !result.Finished? ==>
        drained <= |ss| && Steps(old(View()), ss[..drained]) && AfterSteps(old(View()), ss[..drained]).answers == []
      ensures !result.Finished? ==> pendingMessages == [] || after.remainingBudget == 0 || outRoom == 0
      ensures ConfUsed(old(conf), conf, ss, result.Panicked?)
      ensures (state.WaitingForConfig? && !result.Panicked? ==> old(conf) == []) && (state.Active? ==> pollInflight)
      ensures result.NoWork? ==> forall s :: s in ss ==> !s.Receive? && !s.Configure? && !s.Forward? && !s.SendPoll?
      ensures old(outRoom) <= outRoom + Forwards(ss)
      ensures raised == (!result.Finished? && !result.Panicked? && pendingMessages != [])
      ensures result.Finished? ==> ss != [] && Ending(ss[|ss| - 1], old(signalsIn))
      ensures StopNext(old(signalsIn)) ==> ss == [FinishOnStop]
      ensures signalsIn == if old(signalsIn) == [] then [] else old(signalsIn)[1..]
    {
      after, raised, ss, drained := context, false, [], 0;
      ghost var p := View();
      if signalsIn != [] {
        var text := signalsIn[0];
        signalsIn := signalsIn[1..];
        if text == "stop" {
          Extend(p, ss, View(), 0, 0, FinishOnStop);
          ss := ss + [FinishOnStop];
          Send(Shutdown);
          state, result := Ended, Finished;
          return;
        }
      }
      after, result, raised, ss, drained := Attend(context, world);
    }
  }
}
