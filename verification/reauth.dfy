/** The verify-only reauth seam of the daemon: the handler automaton, the discipline of
    everything it writes to a PAM worker, and its imperative form over sockets. */
module Reauth {
  import opened Protocol
  import opened Wires
  import opened Exchanges

  datatype ReauthOutcome = Allow | Deny | Cancelled | Transport

  function FromVerdict(v: Verdict): ReauthOutcome {
    match v
    case Success => ReauthOutcome.Allow
    case Failure => ReauthOutcome.Deny
    case Cancelled => ReauthOutcome.Cancelled
    case Transport => ReauthOutcome.Deny
  }

  /** Where the handler of one connection is blocked. The name it carries during an
      attempt is the one resolved from the peer's uid. */
  datatype Handler =
    | AwaitHello
    | AwaitRequest
    | AwaitEvent(name: string)
    | AwaitAnswer(name: string)
    | Closed

  /** The handler is inside an attempt, so a control socket to a worker is open. */
  predicate InAttempt(h: Handler) {
    h.AwaitEvent? || h.AwaitAnswer?
  }

  /** Which of the writes following a read succeed (to the client during the relay, to the
      worker, to the client when reporting), and whether a worker can be had. */
  datatype Oracle = Oracle(clientOk: bool, workerOk: bool, reportOk: bool, spawned: bool)

  /** One thing the handler reads, from whichever socket it is blocked on. */
  datatype Heard =
    | FromClient(req: Incoming<ReauthRequest>, o: Oracle)
    | FromWorker(ev: Incoming<WorkerEvent>, o: Oracle)

  /** What one read leads to before an attempt's outcome is reported: where the handler
      blocks next, the frames it got delivered, and the outcome if the attempt ended. */
  datatype Step = Step(
    next: Handler,
    toWorker: seq<WorkerCommand>,
    toClient: seq<ReauthResponse>,
    outcome: Option<ReauthOutcome>)

  /** A response whose write failure ends the connection. */
  function Say(r: ReauthResponse, next: Handler, o: Oracle): Step {
    if o.reportOk then Step(next, [], [r], None) else Step(Closed, [], [], None)
  }

  function Over(outcome: ReauthOutcome, cmds: seq<WorkerCommand>): Step {
    Step(AwaitRequest, cmds, [], Some(outcome))
  }

  function OnHello(req: Incoming<ReauthRequest>, o: Oracle): Step {
    match req
    case Got(Hello(v)) =>
      if v == PROTOCOL_VERSION then Say(ReauthResponse.Welcome(PROTOCOL_VERSION), AwaitRequest, o)
      else Say(ReauthResponse.Incompatible(PROTOCOL_VERSION), Closed, o)
    case Got(_) => Say(ReauthResponse.Error(HandshakeRequired), Closed, o)
    case _ => Step(Closed, [], [], None)
  }

  /** Between attempts. `who` is the name the peer's uid resolved to, if any. */
  function OnRequest(who: Option<string>, req: Incoming<ReauthRequest>, o: Oracle): Step {
    match req
    case Got(Begin) =>
      if who.None? || !o.spawned || !o.workerOk then Over(ReauthOutcome.Deny, [])
      else Step(AwaitEvent(who.value), [WorkerCommand.Auth(who.value)], [], None)
    case Got(Hello(_)) => Say(ReauthResponse.Welcome(PROTOCOL_VERSION), AwaitRequest, o)
    case Got(Cancel) => Step(AwaitRequest, [], [], None)
    case Got(Reply(_)) => Say(ReauthResponse.Error(NothingInProgress), AwaitRequest, o)
    case Garbled => Say(ReauthResponse.Error(MalformedRequest), Closed, o)
    case Gone => Step(Closed, [], [], None)
  }

  /** The client's move while a question is open. */
  function OnAnswer(name: string, req: Incoming<ReauthRequest>, o: Oracle): Step {
    match req
    case Got(Reply(r)) =>
      if o.workerOk then Step(AwaitEvent(name), [WorkerCommand.Reply(r)], [], None)
      else Over(ReauthOutcome.Deny, [])
    case Got(Cancel) => Step(AwaitEvent(name), Delivered(o.workerOk, [WorkerCommand.Cancel]), [], None)
    case _ => Over(ReauthOutcome.Transport, Delivered(o.workerOk, [WorkerCommand.Cancel]))
  }

  /** The worker's move during an attempt. */
  function OnEvent(name: string, ev: Incoming<WorkerEvent>, o: Oracle): Step {
    match ev
    case Got(Prompt(text, secret)) =>
      if o.clientOk then
        Step(AwaitAnswer(name), [], [ReauthResponse.Prompt(Question(text, secret))], None)
      else
        Over(ReauthOutcome.Transport, Delivered(o.workerOk, [WorkerCommand.Cancel]))
    case Got(Info(text)) =>
      Step(AwaitEvent(name), [], Delivered(o.clientOk, [ReauthResponse.Prompt(AuthPrompt.Info(text))]), None)
    case Got(Error(text)) =>
      Step(AwaitEvent(name), [], Delivered(o.clientOk, [ReauthResponse.Prompt(AuthPrompt.Error(text))]), None)
    case Got(Auth(v)) => Over(FromVerdict(v), [])
    case _ => Over(ReauthOutcome.Deny, [])
  }

  /** The socket the handler reads next is the one this input comes from. */
  predicate Expects(h: Handler, i: Heard) {
    match h
    case Closed => false
    case AwaitEvent(_) => i.FromWorker?
    case _ => i.FromClient?
  }

  function StepOf(h: Handler, who: Option<string>, i: Heard): Step
    requires Expects(h, i)
  {
    match h
    case AwaitHello => OnHello(i.req, i.o)
    case AwaitRequest => OnRequest(who, i.req, i.o)
    case AwaitEvent(name) => OnEvent(name, i.ev, i.o)
    case AwaitAnswer(name) => OnAnswer(name, i.req, i.o)
  }

  /** How an outcome is reported to the client; a vanished client gets no report. */
  function Report(outcome: ReauthOutcome): Option<ReauthResponse> {
    match outcome
    case Allow => Some(ReauthResponse.Allow)
    case Deny => Some(ReauthResponse.Deny(AuthenticationFailed))
    case Cancelled => Some(ReauthResponse.Deny(AuthenticationCancelled))
    case Transport => None
  }

  /** The complete reaction to one read, the report of an ended attempt included. */
  function React(h: Handler, who: Option<string>, i: Heard): (s: Step)
    requires Expects(h, i)
  {
    var s := StepOf(h, who, i);
    if s.outcome.None? then s
    else
      var r := Report(s.outcome.value);
      if r.None? || !i.o.reportOk then s.(next := Closed)
      else s.(toClient := s.toClient + [r.value])
  }

  // ---- A whole connection, as a fold of the automaton over what it hears ----

  /** What a connection has done so far. Each element of `attempts` is everything written
      on one worker's control socket. */
  datatype Played = Played(handler: Handler, attempts: seq<seq<WorkerCommand>>, said: seq<ReauthResponse>)

  function Last<T>(s: seq<T>): T
    requires s != []
  {
    s[|s| - 1]
  }

  function Front<T>(s: seq<T>): seq<T>
    requires s != []
  {
    s[..|s| - 1]
  }

  function Extend(attempts: seq<seq<WorkerCommand>>, h: Handler, cmds: seq<WorkerCommand>): seq<seq<WorkerCommand>>
    requires InAttempt(h) ==> attempts != []
  {
    if InAttempt(h) then Front(attempts) + [Last(attempts) + cmds]
    else if cmds != [] then attempts + [cmds]
    else attempts
  }

  /** Plays a log of reads from the fresh connection; `None` if the log reads a socket the
      handler is not blocked on. */
  function Play(who: Option<string>, log: seq<Heard>): (p: Option<Played>)
    ensures p.Some? && InAttempt(p.value.handler) ==> p.value.attempts != []
  {
    if log == [] then Some(Played(AwaitHello, [], []))
    else
      var p := Play(who, Front(log));
      if p.None? || !Expects(p.value.handler, Last(log)) then None
      else
        var s := React(p.value.handler, who, Last(log));
        Some(Played(s.next, Extend(p.value.attempts, p.value.handler, s.toWorker), p.value.said + s.toClient))
  }

  predicate IsAnswer(c: WorkerCommand) {
    c.Reply? || c.Cancel?
  }

  /** One `Auth` for the peer's own name, then only answers: in particular no `Start`. */
  predicate Disciplined(who: Option<string>, cmds: seq<WorkerCommand>) {
    && cmds != [] && who.Some? && cmds[0] == WorkerCommand.Auth(who.value)
    && forall k :: 1 <= k < |cmds| ==> IsAnswer(cmds[k])
  }

  /** What one reaction writes to a worker: an attempt is opened by exactly one `Auth` for
      the resolved name, and inside it a read leads to at most one answer. */
  lemma ReactionWrites(h: Handler, who: Option<string>, i: Heard)
    requires Expects(h, i)
    ensures var s := React(h, who, i);
            if InAttempt(h) then
              && (s.toWorker == [] || (|s.toWorker| == 1 && IsAnswer(s.toWorker[0])))
              && (InAttempt(s.next) ==> s.next.name == h.name)
            else if InAttempt(s.next) then
              && who == Some(s.next.name) && s.next.AwaitEvent?
              && s.toWorker == [WorkerCommand.Auth(s.next.name)]
            else s.toWorker == []
  {
  }

  predicate IsPrompt(i: Heard) {
    i.FromWorker? && i.ev.Got? && i.ev.msg.Prompt?
  }

  predicate IsSuccess(i: Heard) {
    i.FromWorker? && i.ev == Got(WorkerEvent.Auth(Success))
  }

  function Num(b: bool): nat {
    if b then 1 else 0
  }

  /** What one reaction says to the client: at most one frame, and an `Allow` exactly on a
      success that can be reported. */
  lemma ReactionSays(h: Handler, who: Option<string>, i: Heard)
    requires Expects(h, i)
    ensures var s := React(h, who, i);
            && |s.toClient| <= 1
            && Num(s.toClient != [] && s.toClient[0].Allow?) == Num(IsSuccess(i) && i.o.reportOk)
            && (!InAttempt(h) ==> !s.next.AwaitAnswer?)
  {
  }

  lemma ExtendKeepsDiscipline(who: Option<string>, p: Played, i: Heard)
    requires Expects(p.handler, i)
    requires InAttempt(p.handler) ==> p.attempts != [] && who == Some(p.handler.name)
    requires forall a :: a in p.attempts ==> Disciplined(who, a)
    ensures var s := React(p.handler, who, i);
            && (forall a :: a in Extend(p.attempts, p.handler, s.toWorker) ==> Disciplined(who, a))
            && (InAttempt(s.next) ==> who == Some(s.next.name))
  {
    ReactionWrites(p.handler, who, i);
    var s := React(p.handler, who, i);
    var q := Extend(p.attempts, p.handler, s.toWorker);
    forall a | a in q ensures Disciplined(who, a) {
      if a !in p.attempts && InAttempt(p.handler) {
        assert Disciplined(who, Last(p.attempts));
        assert a == Last(p.attempts) + s.toWorker;
      }
    }
  }

  /** No client, however it behaves, can make the handler write anything to a worker but
      one `Auth` naming the peer's own uid followed by answers. */
  lemma {:induction false} ControlDiscipline(who: Option<string>, log: seq<Heard>)
    requires Play(who, log).Some?
    ensures var p := Play(who, log).value;
            && (forall a :: a in p.attempts ==> Disciplined(who, a))
            && (InAttempt(p.handler) ==> who == Some(p.handler.name))
  {
    if log != [] {
      ControlDiscipline(who, Front(log));
      ExtendKeepsDiscipline(who, Play(who, Front(log)).value, Last(log));
    }
  }

  /** All writes of the log succeed. */
  predicate Writable(log: seq<Heard>) {
    forall i :: i in log ==> i.o.clientOk && i.o.workerOk && i.o.reportOk
  }

  /** The prompts of one attempt, in order, each with the answer its worker was given. */
  type Talk = seq<Option<WorkerCommand>>

  /** One read of an attempt: a prompt opens a round, and an answer may only close the round
      opened last. */
  function Continued(talk: Talk, i: Heard, cmds: seq<WorkerCommand>): Option<Talk> {
    var t := if IsPrompt(i) then talk + [None] else talk;
    if cmds == [] then Some(t)
    else if |cmds| == 1 && t != [] && Last(t) == None then Some(Front(t) + [Some(cmds[0])])
    else None
  }

  /** The rounds of each attempt, worker by worker; `None` as soon as something is answered
      that was not asked. */
  function Talks(who: Option<string>, log: seq<Heard>): Option<seq<Talk>> {
    if log == [] then Some([])
    else
      var t, p := Talks(who, Front(log)), Play(who, Front(log));
      if t.None? || p.None? || !Expects(p.value.handler, Last(log)) then None
      else
        var s := React(p.value.handler, who, Last(log));
        if !InAttempt(p.value.handler) then Some(if s.toWorker == [] then t.value else t.value + [[]])
        else if t.value == [] then None
        else
          var c := Continued(Last(t.value), Last(log), s.toWorker);
          if c.None? then None else Some(Front(t.value) + [c.value])
  }

  /** The answers given in these rounds. */
  function Given(talk: Talk): seq<WorkerCommand> {
    if talk == [] then [] else Given(Front(talk)) + if Last(talk) == None then [] else [Last(talk).value]
  }

  predicate AllGiven(talk: Talk) {
    forall x :: 0 <= x < |talk| ==> talk[x] != None
  }

  /** Where the last attempt's rounds stand: one is open exactly while an answer is awaited;
      if nothing was lost, every other one is answered. */
  predicate Standing(h: Handler, talk: Talk, lossless: bool) {
    if h.AwaitAnswer? then talk != [] && Last(talk) == None && (lossless ==> AllGiven(Front(talk)))
    else lossless ==> AllGiven(talk)
  }

  predicate Matches(t: seq<Talk>, attempts: seq<seq<WorkerCommand>>) {
    |t| == |attempts| && forall k :: 0 <= k < |t| ==> attempts[k] != [] && attempts[k][1..] == Given(t[k])
  }

  /** Each channel got after its `Auth` the answers to its own prompts, in order. */
  predicate Paired(h: Handler, attempts: seq<seq<WorkerCommand>>, t: seq<Talk>, lossless: bool) {
    && Matches(t, attempts)
    && (h.AwaitAnswer? ==> t != [])
    && (t != [] ==> Standing(h, Last(t), lossless))
    && (lossless ==> forall k :: 0 <= k < |t| - 1 ==> AllGiven(t[k]))
  }

  lemma GivenSnoc(talk: Talk, r: Option<WorkerCommand>)
    ensures Given(talk + [r]) == Given(talk) + if r == None then [] else [r.value]
    ensures AllGiven(talk + [r]) <==> AllGiven(talk) && r != None
    ensures Front(talk + [r]) == talk
  {
    assert Front(talk + [r]) == talk && Last(talk + [r]) == r;
    assert forall x :: 0 <= x < |talk| ==> (talk + [r])[x] == talk[x];
  }

  /** How a reaction inside an attempt moves the open round. */
  lemma RoundMoves(h: Handler, who: Option<string>, i: Heard)
    requires InAttempt(h) && Expects(h, i)
    ensures var s, ok := React(h, who, i), i.o.clientOk && i.o.workerOk;
            if h.AwaitAnswer? then !IsPrompt(i) && !s.next.AwaitAnswer? && (ok ==> s.toWorker != [])
            else if IsPrompt(i) then s.next.AwaitAnswer? <==> i.o.clientOk
            else s.toWorker == [] && !s.next.AwaitAnswer?
    ensures IsPrompt(i) && i.o.clientOk ==> React(h, who, i).toWorker == []
  {
  }

  lemma ContinuedMeans(h: Handler, who: Option<string>, i: Heard, talk: Talk, lossless: bool)
    requires InAttempt(h) && Expects(h, i) && Standing(h, talk, lossless)
    ensures var s := React(h, who, i); var c := Continued(talk, i, s.toWorker);
            c.Some? && Given(c.value) == Given(talk) + s.toWorker
            && Standing(s.next, c.value, lossless && i.o.clientOk && i.o.workerOk)
  {
    hide React, Given, AllGiven, IsPrompt, IsAnswer, Expects;
    ReactionWrites(h, who, i);
    RoundMoves(h, who, i);
    var s := React(h, who, i);
    GivenSnoc(talk, None);
    assert Given(talk) + [] == Given(talk);
    if IsPrompt(i) {
      if s.toWorker != [] {
        GivenSnoc(talk, Some(s.toWorker[0]));
      }
    } else if h.AwaitAnswer? {
      assert Front(talk) + [Last(talk)] == talk;
      GivenSnoc(Front(talk), None);
      if s.toWorker != [] {
        GivenSnoc(Front(talk), Some(s.toWorker[0]));
      }
    }
  }

  lemma PairedGoesOn(h: Handler, attempts: seq<seq<WorkerCommand>>, t: seq<Talk>, lossless: bool,
                     s: Step, c: Talk, still: bool)
    requires InAttempt(h) && Paired(h, attempts, t, lossless) && attempts != [] && (still ==> lossless)
    requires Given(c) == Given(Last(t)) + s.toWorker && Standing(s.next, c, still)
    ensures Paired(s.next, Extend(attempts, h, s.toWorker), Front(t) + [c], still)
  {
    hide Standing, Given, AllGiven;
    var last := Last(attempts);
    assert (last + s.toWorker)[1..] == last[1..] + s.toWorker;
    assert last[1..] == Given(Last(t));
  }

  lemma MatchesGrows(t: seq<Talk>, attempts: seq<seq<WorkerCommand>>, cmd: WorkerCommand)
    requires Matches(t, attempts)
    ensures Matches(t + [[]], attempts + [[cmd]])
  {
    NoRounds();
    hide Given;
    var t', attempts' := t + [[]], attempts + [[cmd]];
    forall k | 0 <= k < |t'|
      ensures attempts'[k] != [] && attempts'[k][1..] == Given(t'[k])
    {
      if k < |t| {
        assert t'[k] == t[k] && attempts'[k] == attempts[k];
      }
    }
  }

  lemma PairedStays(h: Handler, next: Handler, attempts: seq<seq<WorkerCommand>>, t: seq<Talk>,
                    lossless: bool, still: bool)
    requires !InAttempt(h) && Paired(h, attempts, t, lossless) && (still ==> lossless) && !next.AwaitAnswer?
    ensures Paired(next, attempts, t, still)
  {
    hide Matches, AllGiven;
  }

  lemma PairedGrows(h: Handler, next: Handler, attempts: seq<seq<WorkerCommand>>, t: seq<Talk>, cmd: WorkerCommand,
                    lossless: bool, still: bool)
    requires !InAttempt(h) && Paired(h, attempts, t, lossless) && (still ==> lossless) && !next.AwaitAnswer?
    ensures Paired(next, attempts + [[cmd]], t + [[]], still)
  {
    hide Matches, AllGiven;
    MatchesGrows(t, attempts, cmd);
    NoRounds();
    var t' := t + [[]];
    forall k | 0 <= k < |t'| - 1
      ensures still ==> AllGiven(t'[k])
    {
      assert t'[k] == t[k] && (k == |t| - 1 ==> t[k] == Last(t));
    }
  }

  lemma PairedOpens(h: Handler, who: Option<string>, i: Heard, attempts: seq<seq<WorkerCommand>>, t: seq<Talk>,
                    lossless: bool, still: bool)
    requires !InAttempt(h) && Expects(h, i) && Paired(h, attempts, t, lossless) && (still ==> lossless)
    ensures var s := React(h, who, i);
            Paired(s.next, Extend(attempts, h, s.toWorker), if s.toWorker == [] then t else t + [[]], still)
  {
    hide React, Paired, IsPrompt, IsSuccess, IsAnswer, Expects;
    ReactionWrites(h, who, i);
    ReactionSays(h, who, i);
    var s := React(h, who, i);
    if s.toWorker == [] {
      PairedStays(h, s.next, attempts, t, lossless, still);
    } else {
      PairedGrows(h, s.next, attempts, t, s.toWorker[0], lossless, still);
    }
  }

  lemma NoRounds()
    ensures Given([]) == [] && AllGiven([])
  {
  }

  lemma PairedAtFirst()
    ensures Paired(AwaitHello, [], [], Writable([]))
  {
  }

  lemma PairedOpen(h: Handler, attempts: seq<seq<WorkerCommand>>, t: seq<Talk>, lossless: bool)
    requires Paired(h, attempts, t, lossless)
    ensures t != [] ==> Standing(h, Last(t), lossless)
    ensures attempts != [] ==> t != []
  {
  }

  lemma WritableBefore(log: seq<Heard>)
    requires log != [] && Writable(log)
    ensures Writable(Front(log)) && Last(log).o.clientOk && Last(log).o.workerOk
  {
    assert Last(log) in log;
  }

  /** On every control channel answer and prompt pair up: no worker is given an answer but to
      the prompt it raised last, and to that only one; and if all writes succeed each prompt
      is answered, but for the one still open. */
  lemma {:induction false} AnswersFollowPrompts(who: Option<string>, log: seq<Heard>)
    requires Play(who, log).Some?
    ensures Talks(who, log).Some?
    ensures Paired(Play(who, log).value.handler, Play(who, log).value.attempts, Talks(who, log).value, Writable(log))
  {
    hide React, Standing, Paired, Extend, Continued, Writable;
    if log == [] {
      PairedAtFirst();
    } else {
      var before, i := Front(log), Last(log);
      AnswersFollowPrompts(who, before);
      var still := Writable(log);
      if still {
        WritableBefore(log);
      }
      var p, t := Play(who, before).value, Talks(who, before).value;
      var s := React(p.handler, who, i);
      PairedOpen(p.handler, p.attempts, t, Writable(before));
      if InAttempt(p.handler) {
        ContinuedMeans(p.handler, who, i, Last(t), Writable(before));
        var c := Continued(Last(t), i, s.toWorker).value;
        StandingStill(s.next, c, Writable(before) && i.o.clientOk && i.o.workerOk, still);
        PairedGoesOn(p.handler, p.attempts, t, Writable(before), s, c, still);
      } else {
        PairedOpens(p.handler, who, i, p.attempts, t, Writable(before), still);
      }
    }
  }

  lemma StandingStill(h: Handler, talk: Talk, lossless: bool, still: bool)
    requires Standing(h, talk, lossless) && (still ==> lossless)
    ensures Standing(h, talk, still)
  {
  }

  function Allows(said: seq<ReauthResponse>): nat {
    if said == [] then 0 else Allows(Front(said)) + Num(Last(said).Allow?)
  }

  /** Successful verdicts read from workers. */
  function Successes(log: seq<Heard>): nat {
    if log == [] then 0
    else
      var i := Last(log);
      Successes(Front(log)) + Num(IsSuccess(i))
  }

  lemma AllowsAppend(said: seq<ReauthResponse>, more: seq<ReauthResponse>)
    requires |more| <= 1
    ensures Allows(said + more) == Allows(said) + Num(more != [] && more[0].Allow?)
  {
    if more != [] {
      assert Front(said + more) == said;
    } else {
      assert said + more == said;
    }
  }

  /** Each `Allow` a client is sent answers its own worker success: never more `Allow`s
      than successes, and exactly as many when the client can be written to. */
  lemma {:induction false} OneSuccessPerAllow(who: Option<string>, log: seq<Heard>)
    requires Play(who, log).Some?
    ensures Allows(Play(who, log).value.said) <= Successes(log)
    ensures Writable(log) ==> Allows(Play(who, log).value.said) == Successes(log)
  {
    if log != [] {
      OneSuccessPerAllow(who, Front(log));
      assert Writable(log) ==> Writable(Front(log)) && Last(log) in log;
      var p := Play(who, Front(log)).value;
      ReactionSays(p.handler, who, Last(log));
      var s := React(p.handler, who, Last(log));
      AllowsAppend(p.said, s.toClient);
    }
  }

  // ---- The imperative form ----

  lemma {:induction false} PlaySnoc(who: Option<string>, log: seq<Heard>, i: Heard)
    requires Play(who, log).Some? && Expects(Play(who, log).value.handler, i)
    ensures var p := Play(who, log).value;
            var s := React(p.handler, who, i);
            Play(who, log + [i]) ==
            Some(Played(s.next, Extend(p.attempts, p.handler, s.toWorker), p.said + s.toClient))
  {
    assert Front(log + [i]) == log;
  }

  /** What a log read from the client, and from the workers. */
  function Asked(log: seq<Heard>): seq<Incoming<ReauthRequest>> {
    if log == [] then []
    else Asked(Front(log)) + if Last(log).FromClient? then [Last(log).req] else []
  }

  function Events(log: seq<Heard>): seq<Incoming<WorkerEvent>> {
    if log == [] then []
    else Events(Front(log)) + if Last(log).FromWorker? then [Last(log).ev] else []
  }

  lemma ReadsSnoc(log: seq<Heard>, i: Heard)
    ensures i.FromClient? ==> Asked(log + [i]) == Asked(log) + [i.req] && Events(log + [i]) == Events(log)
    ensures i.FromWorker? ==> Asked(log + [i]) == Asked(log) && Events(log + [i]) == Events(log) + [i.ev]
  {
    assert Front(log + [i]) == log;
  }

  /** Who the peer is, how many frames it accepts, and how many each worker of the factory
      accepts; none where no worker can be started. */
  datatype Setting = Setting(who: Option<string>, client: nat, workers: seq<Option<nat>>)

  function WorkerRoom(on: Setting, k: int): nat {
    if 0 <= k < |on.workers| && on.workers[k].Some? then on.workers[k].value else 0
  }

  /** What really becomes of the writes that follow a read: a socket takes frames until it has
      taken all it accepts, and the factory hands its workers out in order. */
  function Truth(on: Setting, tries: nat, h: Handler, cmds: seq<WorkerCommand>, said: seq<ReauthResponse>): Oracle {
    var ok := |said| < on.client;
    Oracle(ok, |cmds| < WorkerRoom(on, if InAttempt(h) then tries - 1 else tries), ok,
           tries < |on.workers| && on.workers[tries].Some?)
  }

  /** A read that has the factory asked for a worker. */
  predicate IsTry(on: Setting, h: Handler, i: Heard) {
    h.AwaitRequest? && on.who.Some? && i.FromClient? && i.req == Got(ReauthRequest.Begin)
  }

  function Tries(on: Setting, log: seq<Heard>): nat {
    if log == [] then 0
    else
      var p := Play(on.who, Front(log));
      Tries(on, Front(log)) + Num(p.Some? && IsTry(on, p.value.handler, Last(log)))
  }

  /** What the current worker was written. */
  function Current(p: Played): seq<WorkerCommand>
    requires InAttempt(p.handler) ==> p.attempts != []
  {
    if InAttempt(p.handler) then Last(p.attempts) else []
  }

  /** The read has the fate of its writes right. */
  predicate Rightly(on: Setting, tries: nat, p: Played, i: Heard)
    requires InAttempt(p.handler) ==> p.attempts != []
  {
    i.o == Truth(on, tries, p.handler, Current(p), p.said)
  }

  /** And so do all reads of the log: given what was read, there is only one such log. */
  predicate Truthful(on: Setting, log: seq<Heard>) {
    log != [] ==>
      && Truthful(on, Front(log))
      && Play(on.who, Front(log)).Some?
      && Rightly(on, Tries(on, Front(log)), Play(on.who, Front(log)).value, Last(log))
  }

  lemma TruthSnoc(on: Setting, log: seq<Heard>, i: Heard)
    requires Play(on.who, log).Some? && Truthful(on, log)
    requires Rightly(on, Tries(on, log), Play(on.who, log).value, i)
    ensures Truthful(on, log + [i])
    ensures Tries(on, log + [i]) == Tries(on, log) + Num(IsTry(on, Play(on.who, log).value.handler, i))
  {
    hide Play, Rightly;
    assert Front(log + [i]) == log;
  }

  /** A log's last read, and what went before it. */
  lemma LastOf(on: Setting, log: seq<Heard>)
    requires log != [] && Play(on.who, log).Some? && Truthful(on, log)
    ensures Play(on.who, Front(log)).Some? && Truthful(on, Front(log))
    ensures var p, i := Play(on.who, Front(log)).value, Last(log);
            && Expects(p.handler, i) && Rightly(on, Tries(on, Front(log)), p, i)
            && Asked(log) == Asked(Front(log)) + (if i.FromClient? then [i.req] else [])
            && Events(log) == Events(Front(log)) + (if i.FromWorker? then [i.ev] else [])
  {
    hide Rightly, Expects, React, Extend;
  }

  lemma {:induction false} ReadsCounted(log: seq<Heard>)
    ensures |Asked(log)| + |Events(log)| == |log|
  {
    if log != [] {
      ReadsCounted(Front(log));
    }
  }

  /** Two logs that read the same, as far as both go, are the same as far as both go. */
  lemma {:induction false} SamePrefix(on: Setting, a: seq<Heard>, b: seq<Heard>,
                                      asked: seq<Incoming<ReauthRequest>>, events: seq<Incoming<WorkerEvent>>)
    requires Truthful(on, a) && Play(on.who, a).Some? && Truthful(on, b) && Play(on.who, b).Some?
    requires Asked(a) <= asked && Asked(b) <= asked && Events(a) <= events && Events(b) <= events && |a| <= |b|
    ensures a <= b
    decreases |a| + |b|
  {
    hide Play, Truthful, Asked, Events, Tries, Rightly, Expects;
    if a != [] {
      LastOf(on, a);
      LastOf(on, b);
      if |a| < |b| {
        SamePrefix(on, a, Front(b), asked, events);
      } else {
        SamePrefix(on, Front(a), Front(b), asked, events);
        assert Front(a) == Front(b);
        SameRead(on, Play(on.who, Front(a)).value, Tries(on, Front(a)), Last(a), Last(b),
                 Asked(Front(a)), Events(Front(a)), asked, events);
      }
    }
  }

  lemma SameRead(on: Setting, p: Played, tries: nat, i: Heard, j: Heard,
                 asked: seq<Incoming<ReauthRequest>>, events: seq<Incoming<WorkerEvent>>,
                 allAsked: seq<Incoming<ReauthRequest>>, allEvents: seq<Incoming<WorkerEvent>>)
    requires InAttempt(p.handler) ==> p.attempts != []
    requires Expects(p.handler, i) && Expects(p.handler, j) && Rightly(on, tries, p, i) && Rightly(on, tries, p, j)
    requires i.FromClient? ==> asked + [i.req] <= allAsked
    requires j.FromClient? ==> asked + [j.req] <= allAsked
    requires i.FromWorker? ==> events + [i.ev] <= allEvents
    requires j.FromWorker? ==> events + [j.ev] <= allEvents
    ensures i == j
  {
    hide Truth, Current;
    if i.FromClient? {
      assert allAsked[|asked|] == i.req && allAsked[|asked|] == j.req;
    } else {
      assert allEvents[|events|] == i.ev && allEvents[|events|] == j.ev;
    }
  }

  /** What was read from the sockets leaves one log only, and so one set of writes. */
  lemma ReadsDetermineLog(on: Setting, a: seq<Heard>, b: seq<Heard>)
    requires Truthful(on, a) && Play(on.who, a).Some? && Truthful(on, b) && Play(on.who, b).Some?
    requires Asked(a) == Asked(b) && Events(a) == Events(b)
    ensures a == b
  {
    hide Play, Truthful, Asked, Events;
    ReadsCounted(a);
    ReadsCounted(b);
    SamePrefix(on, a, b, Asked(a), Events(a));
  }

  /** The automaton, having truly heard `log` and asked for so many workers, is blocked in `h`
      having written `cmds` to the current worker, `done` to earlier ones, and `said` to the
      client. */
  ghost predicate At(on: Setting, log: seq<Heard>, tries: nat, h: Handler,
                     done: seq<seq<WorkerCommand>>, cmds: seq<WorkerCommand>, said: seq<ReauthResponse>)
  {
    && Play(on.who, log) == Some(Played(h, if cmds == [] then done else done + [cmds], said))
    && (InAttempt(h) <==> cmds != [])
    && Truthful(on, log) && Tries(on, log) == tries
  }

  /** The relay is over: reading `last` after `log` made the automaton end the attempt with
      this outcome, and everything written is what the automaton writes short of the
      report. */
  ghost predicate Relayed(on: Setting, log: seq<Heard>, last: Heard, tries: nat, outcome: ReauthOutcome,
                          done: seq<seq<WorkerCommand>>, cmds: seq<WorkerCommand>, said: seq<ReauthResponse>)
  {
    && Play(on.who, log).Some?
    && var p := Play(on.who, log).value;
    && Expects(p.handler, last) && Truthful(on, log) && Rightly(on, Tries(on, log), p, last)
    && tries == Tries(on, log) + Num(IsTry(on, p.handler, last))
    && var s := StepOf(p.handler, on.who, last);
    && s.outcome == Some(outcome)
    && Extend(p.attempts, p.handler, s.toWorker) == (if cmds == [] then done else done + [cmds])
    && p.said == said
  }

  /** `Begin` with a worker at hand opens the relay. */
  lemma RelayStarts(on: Setting, name: string, log: seq<Heard>, tries: nat, done: seq<seq<WorkerCommand>>,
                    said: seq<ReauthResponse>, i: Heard)
    requires At(on, log, tries, AwaitRequest, done, [], said) && on.who == Some(name)
    requires i == FromClient(Got(ReauthRequest.Begin), Truth(on, tries, AwaitRequest, [], said))
    requires i.o.spawned && i.o.workerOk
    ensures At(on, log + [i], tries + 1, AwaitEvent(name), done, [WorkerCommand.Auth(name)], said)
    ensures Asked(log + [i]) == Asked(log) + [i.req] && Events(log + [i]) == Events(log)
  {
    ReadsSnoc(log, i);
    PlaySnoc(on.who, log, i);
    TruthSnoc(on, log, i);
    assert said + [] == said;
  }

  /** A `Begin` that finds no identity, no worker or one that is gone before the `Auth` is a
      denial. */
  lemma DeadAttempt(on: Setting, log: seq<Heard>, tries: nat, done: seq<seq<WorkerCommand>>,
                    said: seq<ReauthResponse>, i: Heard)
    requires At(on, log, tries, AwaitRequest, done, [], said)
    requires i == FromClient(Got(ReauthRequest.Begin), Truth(on, tries, AwaitRequest, [], said))
    requires on.who == None || !i.o.spawned || !i.o.workerOk
    ensures Relayed(on, log, i, tries + Num(on.who.Some?), ReauthOutcome.Deny, done, [], said)
    ensures Asked(log + [i]) == Asked(log) + [i.req] && Events(log + [i]) == Events(log)
  {
    ReadsSnoc(log, i);
  }

  lemma StaysIn(h: Handler, who: Option<string>, i: Heard)
    requires InAttempt(h) && Expects(h, i) && StepOf(h, who, i).outcome == None
    ensures InAttempt(StepOf(h, who, i).next) && React(h, who, i) == StepOf(h, who, i)
  {
  }

  /** A read that leaves the relay running. */
  lemma RelayGoesOn(on: Setting, log: seq<Heard>, tries: nat, h: Handler, done: seq<seq<WorkerCommand>>,
                    cmds: seq<WorkerCommand>, said: seq<ReauthResponse>, i: Heard, s: Step)
    requires At(on, log, tries, h, done, cmds, said) && InAttempt(h)
    requires Expects(h, i) && i.o == Truth(on, tries, h, cmds, said)
    requires StepOf(h, on.who, i) == s && s.outcome == None
    ensures At(on, log + [i], tries, s.next, done, cmds + s.toWorker, said + s.toClient)
    ensures s.toWorker == [] ==> cmds + s.toWorker == cmds
    ensures s.toClient == [] ==> said + s.toClient == said
    ensures i.FromClient? ==> Asked(log + [i]) == Asked(log) + [i.req] && Events(log + [i]) == Events(log)
    ensures i.FromWorker? ==> Asked(log + [i]) == Asked(log) && Events(log + [i]) == Events(log) + [i.ev]
  {
    hide Play, StepOf, Truth, Truthful, Tries, Asked, Events;
    ReadsSnoc(log, i);
    PlaySnoc(on.who, log, i);
    StaysIn(h, on.who, i);
    assert Last(done + [cmds]) == cmds && Front(done + [cmds]) == done;
    TruthSnoc(on, log, i);
  }

  /** A read that ends it. */
  lemma RelayEnds(on: Setting, log: seq<Heard>, tries: nat, h: Handler, done: seq<seq<WorkerCommand>>,
                  cmds: seq<WorkerCommand>, said: seq<ReauthResponse>, i: Heard, s: Step)
    requires At(on, log, tries, h, done, cmds, said) && InAttempt(h)
    requires Expects(h, i) && i.o == Truth(on, tries, h, cmds, said)
    requires StepOf(h, on.who, i) == s && s.outcome.Some?
    ensures Relayed(on, log, i, tries, s.outcome.value, done, cmds + s.toWorker, said)
    ensures s.toWorker == [] ==> cmds + s.toWorker == cmds
    ensures i.FromClient? ==> Asked(log + [i]) == Asked(log) + [i.req] && Events(log + [i]) == Events(log)
    ensures i.FromWorker? ==> Asked(log + [i]) == Asked(log) && Events(log + [i]) == Events(log) + [i.ev]
  {
    ReadsSnoc(log, i);
    assert Last(done + [cmds]) == cmds && Front(done + [cmds]) == done;
  }

  /** What decides an attempt says nothing to the client; the complete reaction adds just the
      report. */
  lemma ReactReports(h: Handler, who: Option<string>, i: Heard)
    requires Expects(h, i) && StepOf(h, who, i).outcome.Some?
    ensures var s, r := StepOf(h, who, i), React(h, who, i);
            var report := Report(s.outcome.value);
            var reported := report.Some? && i.o.reportOk;
            && r.next == (if reported then AwaitRequest else Closed)
            && r.toWorker == s.toWorker
            && r.toClient == if reported then [report.value] else []
  {
  }

  /** The report of a relay's outcome completes the automaton's reaction. */
  lemma ReportCompletes(on: Setting, log: seq<Heard>, last: Heard, tries: nat, outcome: ReauthOutcome,
                        done: seq<seq<WorkerCommand>>, said: seq<ReauthResponse>, ok: bool)
    requires Relayed(on, log, last, tries, outcome, done, [], said)
    requires Report(outcome).Some? ==> ok == (|said| < on.client)
    ensures var reported := Report(outcome).Some? && ok;
            At(on, log + [last], tries, if reported then AwaitRequest else Closed, done, [],
               said + if reported then [Report(outcome).value] else [])
  {
    var p := Play(on.who, log).value;
    assert last.o.reportOk == (|said| < on.client);
    ReactReports(p.handler, on.who, last);
    PlaySnoc(on.who, log, last);
    TruthSnoc(on, log, last);
  }

  /** What an attempt comes to: allowed and cancelled are the worker's words, and the client's
      absence ends the connection. Everything else is a denial. */
  predicate Decides(x: Exchange, outcome: ReauthOutcome) {
    && (outcome.Allow? <==> x.got != [] && x.got[|x.got| - 1] == Got(WorkerEvent.Auth(Verdict.Success)))
    && (outcome.Cancelled? <==> x.got != [] && x.got[|x.got| - 1] == Got(WorkerEvent.Auth(Verdict.Cancelled)))
    && (outcome.Transport? <==> Vanished(x))
  }

  lemma VerdictDecides(x: Exchange, v: Verdict)
    requires !Vanished(x)
    ensures x.got != [] && x.got[|x.got| - 1] == Got(WorkerEvent.Auth(v)) ==> Decides(x, FromVerdict(v))
    ensures (x.got != [] ==> !x.got[|x.got| - 1].Got? || !x.got[|x.got| - 1].msg.Auth?) ==>
              Decides(x, ReauthOutcome.Deny)
  {
  }

  lemma NothingDecides()
    ensures Decides(Exchange([], [], [], []), ReauthOutcome.Deny)
  {
  }

  /** A last word of the worker's that is neither question nor notice. */
  lemma Closes(name: string, room: nat, left: nat, x: Exchange, ev: Incoming<WorkerEvent>)
    requires Settled(name, room, left, x) && (ev.Got? ==> ev.msg.Auth? || ev.msg.Started? || ev.msg.StartFailed?)
    ensures var y := x.(got := x.got + [ev]);
            && Carried(name, room, left, y)
            && (ev.Got? && ev.msg.Auth? ==> Decides(y, FromVerdict(ev.msg.verdict)))
            && (!ev.Got? || !ev.msg.Auth? ==> Decides(y, ReauthOutcome.Deny))
  {
    hide Settled, Carried, Prompts, Chatter;
    GotMore(x.got, ev);
    assert Chatter(x.got) + [] == Chatter(x.got) && x.shown + [] == x.shown;
    Noticed(name, room, left, x, ev, []);
    var y := x.(got := x.got + [ev]);
    assert y == x.(got := x.got + [ev], shown := x.shown + Delivered(|x.shown| < left, []));
    SettledIsCarried(name, room, left, y);
    if ev.Got? && ev.msg.Auth? {
      VerdictDecides(y, ev.msg.verdict);
    } else {
      VerdictDecides(y, Verdict.Failure);
    }
  }

  predicate EndsAsking(x: Exchange) {
    x.got != [] && x.got[|x.got| - 1].Got? && x.got[|x.got| - 1].msg.Prompt?
  }

  lemma BreaksOff(x: Exchange)
    requires EndsAsking(x) && Vanished(x)
    ensures Decides(x, ReauthOutcome.Transport)
  {
  }

  /** A move leaves the attempt to the worker, unless the worker is gone; anything else is the
      end of it. */
  lemma MetDecides(name: string, room: nat, left: nat, x: Exchange, req: Incoming<ReauthRequest>)
    requires EndsAsking(x)
    requires if IsMove(req) then Settled(name, room, left, x) else Carried(name, room, left, x) && Vanished(x)
    ensures IsMove(req) ==> Carried(name, room, left, x) && Decides(x, ReauthOutcome.Deny)
    ensures !IsMove(req) ==> Decides(x, ReauthOutcome.Transport)
  {
    hide Settled, Carried, Prompts, Chatter;
    if IsMove(req) {
      SettledIsCarried(name, room, left, x);
      VerdictDecides(x, Verdict.Failure);
    } else {
      BreaksOff(x);
    }
  }

  lemma AtHand(on: Setting, tries: nat, said: seq<ReauthResponse>, room: nat)
    requires tries < |on.workers| && on.workers[tries] == Some(room)
    ensures var o := Truth(on, tries, AwaitRequest, [], said); o.spawned && (o.workerOk <==> room > 0)
  {
  }

  /** The worker's last word ends the relay. */
  lemma RelayCloses(on: Setting, log: seq<Heard>, tries: nat, name: string, done: seq<seq<WorkerCommand>>,
                    cmds: seq<WorkerCommand>, said: seq<ReauthResponse>, ev: Incoming<WorkerEvent>,
                    room: nat, left: nat, x: Exchange)
    requires At(on, log, tries, AwaitEvent(name), done, cmds, said) && Settled(name, room, left, x)
    requires ev.Got? ==> ev.msg.Auth? || ev.msg.Started? || ev.msg.StartFailed?
    ensures var i := FromWorker(ev, Truth(on, tries, AwaitEvent(name), cmds, said));
            var outcome := if ev.Got? && ev.msg.Auth? then FromVerdict(ev.msg.verdict) else ReauthOutcome.Deny;
            && Relayed(on, log, i, tries, outcome, done, cmds, said)
            && Asked(log + [i]) == Asked(log) && Events(log + [i]) == Events(log) + [ev]
            && Carried(name, room, left, x.(got := x.got + [ev])) && Decides(x.(got := x.got + [ev]), outcome)
  {
    hide Play, Truth, Truthful, Asked, Events, At, Relayed, Settled, Carried, Decides, Tries;
    var i := FromWorker(ev, Truth(on, tries, AwaitEvent(name), cmds, said));
    RelayEnds(on, log, tries, AwaitEvent(name), done, cmds, said, i, OnEvent(name, ev, i.o));
    Closes(name, room, left, x, ev);
  }

  class WorkerReauth {
    const control: Wire<WorkerEvent, WorkerCommand>

    constructor (control: Wire<WorkerEvent, WorkerCommand>)
      ensures this.control == control
    {
      this.control := control;
    }

    /** Relays one verify-only conversation for `username` to `client`. The ghost results
        say what it read after `base`, ending with the read that decided it. */
    method Reauthenticate(username: string, client: Wire<ReauthRequest, ReauthResponse>,
                          ghost on: Setting, ghost tries: nat,
                          ghost base: seq<Heard>, ghost done: seq<seq<WorkerCommand>>)
        returns (outcome: ReauthOutcome, ghost log: seq<Heard>, ghost last: Heard, ghost x: Exchange)
      requires client.Valid() && control.Valid() && control.Untouched()
      requires on.who == Some(username) && on.client == client.room
      requires tries < |on.workers| && on.workers[tries] == Some(control.room)
      requires At(on, base, tries, AwaitRequest, done, [], client.sent)
      requires client.got == Asked(base) + [Got(ReauthRequest.Begin)]
      modifies control, client
      ensures client.Valid() && control.Valid() && (control.sent == [] ==> control.got == [])
      ensures client.got == Asked(log + [last])
      ensures Events(log + [last]) == Events(base) + control.got
      ensures Relayed(on, log, last, tries + 1, outcome, done, control.sent, client.sent)
      ensures client.Left() <= old(client.Left())
      ensures x.got == control.got && x.sent == control.sent
      ensures client.got == old(client.got) + x.answers && client.sent == old(client.sent) + x.shown
      ensures Carried(username, control.room, client.room - |old(client.sent)|, x) && Decides(x, outcome)
    {
      hide Play, StepOf, React, Asked, Events, At, Relayed, Settled, Carried, Decides, Truth;
      ghost var got0, said0, left: nat := client.got, client.sent, client.room - |client.sent|;
      Opened(username, control.room, left);
      log := base;
      last := FromClient(Got(ReauthRequest.Begin), Truth(on, tries, AwaitRequest, [], client.sent));
      AtHand(on, tries, client.sent, control.room);
      var sent := control.Write(WorkerCommand.Auth(username));
      if !sent {
        assert control.sent == [] && control.got == [];
        DeadAttempt(on, log, tries, done, client.sent, last);
        NothingDecides();
        return ReauthOutcome.Deny, log, last, Exchange([], [], [], []);
      }
      assert control.sent == [WorkerCommand.Auth(username)];
      x := Exchange([], [WorkerCommand.Auth(username)], [], []);
      RelayStarts(on, username, log, tries, done, client.sent, last);
      log := log + [last];
      while true
        invariant client.Valid() && control.Valid()
        invariant client.got == Asked(log) && Events(base) + control.got == Events(log)
        invariant control.sent != [] && client.Left() <= old(client.Left())
        invariant At(on, log, tries + 1, AwaitEvent(username), done, control.sent, client.sent)
        invariant x.got == control.got && x.sent == control.sent
        invariant client.got == got0 + x.answers && client.sent == said0 + x.shown
        invariant Settled(username, control.room, left, x)
        decreases control.Left()
      {
        ghost var cmds, said := control.sent, client.sent;
        ghost var o := Truth(on, tries + 1, AwaitEvent(username), cmds, said);
        var event := control.Read();
        last := FromWorker(event, o);
        match event {
          case Got(Prompt(text, secret)) =>
            var over;
            over, outcome, log, last, x := PutQuestion(username, text, secret, client, on, tries + 1, log, done, x,
                                                        got0, said0);
            if over {
              return;
            }
          case Got(Info(text)) =>
            log, x := PassOn(username, event, AuthPrompt.Info(text), client, on, tries + 1, log, done, x, got0, said0);
          case Got(Error(text)) =>
            log, x := PassOn(username, event, AuthPrompt.Error(text), client, on, tries + 1, log, done, x, got0, said0);
          case Got(Auth(v)) =>
            RelayCloses(on, log, tries + 1, username, done, cmds, said, event, control.room, left, x);
            return FromVerdict(v), log, last, x.(got := control.got);
          case _ =>
            RelayCloses(on, log, tries + 1, username, done, cmds, said, event, control.room, left, x);
            return ReauthOutcome.Deny, log, last, x.(got := control.got);
        }
      }
    }

    /** A notice of the worker's: shown to the client if it can be. */
    method PassOn(username: string, event: Incoming<WorkerEvent>, notice: AuthPrompt,
                  client: Wire<ReauthRequest, ReauthResponse>, ghost on: Setting, ghost tries: nat,
                  ghost log: seq<Heard>, ghost done: seq<seq<WorkerCommand>>, ghost x: Exchange,
                  ghost got0: seq<Incoming<ReauthRequest>>, ghost said0: seq<ReauthResponse>)
        returns (ghost log': seq<Heard>, ghost y: Exchange)
      requires || (notice.Info? && event == Got(WorkerEvent.Info(notice.text)))
               || (notice.Error? && event == Got(WorkerEvent.Error(notice.text)))
      requires client.Valid() && control.Valid() && control.sent != [] && on.client == client.room
      requires At(on, log, tries, AwaitEvent(username), done, control.sent, client.sent)
      requires client.got == Asked(log)
      requires |said0| <= client.room && Settled(username, control.room, client.room - |said0|, x)
      requires x.sent == control.sent && client.got == got0 + x.answers && client.sent == said0 + x.shown
      modifies client`sent
      ensures client.Valid() && client.Left() == old(client.Left())
      ensures client.got == Asked(log') && Events(log') == Events(log) + [event]
      ensures At(on, log', tries, AwaitEvent(username), done, control.sent, client.sent)
      ensures y.got == x.got + [event] && y.sent == control.sent
      ensures client.got == got0 + y.answers && client.sent == said0 + y.shown
      ensures Settled(username, control.room, client.room - |said0|, y)
    {
      hide Play, Extend, Asked, Events, At, Settled, Prompts, Chatter;
      ghost var o := Truth(on, tries, AwaitEvent(username), control.sent, client.sent);
      ghost var said := client.sent;
      var shown := client.Write(ReauthResponse.Prompt(notice));
      GotMore(x.got, event);
      Noticed(username, control.room, client.room - |said0|, x, event, [ReauthResponse.Prompt(notice)]);
      y := x.(got := x.got + [event], shown := x.shown + Delivered(shown, [ReauthResponse.Prompt(notice)]));
      RelayGoesOn(on, log, tries, AwaitEvent(username), done, control.sent, said, FromWorker(event, o),
                  OnEvent(username, event, o));
      log' := log + [FromWorker(event, o)];
    }

    /** A question of the worker's: shown to the client, whose move it then is. */
    method PutQuestion(username: string, text: string, secret: bool, client: Wire<ReauthRequest, ReauthResponse>,
                       ghost on: Setting, ghost tries: nat,
                       ghost log: seq<Heard>, ghost done: seq<seq<WorkerCommand>>, ghost x: Exchange,
                       ghost got0: seq<Incoming<ReauthRequest>>, ghost said0: seq<ReauthResponse>)
        returns (over: bool, outcome: ReauthOutcome, ghost log': seq<Heard>, ghost last: Heard, ghost y: Exchange)
      requires client.Valid() && control.Valid() && control.sent != []
      requires on.client == client.room && WorkerRoom(on, tries - 1) == control.room
      requires At(on, log, tries, AwaitEvent(username), done, control.sent, client.sent)
      requires client.got == Asked(log)
      requires |said0| <= client.room && Settled(username, control.room, client.room - |said0|, x)
      requires x.sent == control.sent && client.got == got0 + x.answers && client.sent == said0 + x.shown
      modifies control`sent, client
      ensures client.Valid() && control.Valid()
      ensures client.got == Asked(if over then log' + [last] else log')
      ensures Events(if over then log' + [last] else log') == Events(log) + [Got(WorkerEvent.Prompt(text, secret))]
      ensures y.got == x.got + [Got(WorkerEvent.Prompt(text, secret))] && y.sent == control.sent
      ensures client.got == got0 + y.answers && client.sent == said0 + y.shown
      ensures over ==> Carried(username, control.room, client.room - |said0|, y) && Decides(y, outcome)
      ensures !over ==> Settled(username, control.room, client.room - |said0|, y)
      ensures control.sent != [] && client.Left() <= old(client.Left())
      ensures !over ==> At(on, log', tries, AwaitEvent(username), done, control.sent, client.sent)
      ensures over ==> Relayed(on, log', last, tries, outcome, done, control.sent, client.sent)
    {
      hide Play, Extend, Asked, Events, At, Relayed, Settled, Asking, Carried, Decides, Vanished;
      ghost var left: nat := client.room - |said0|;
      ghost var cmds, said := control.sent, client.sent;
      ghost var event := Got(WorkerEvent.Prompt(text, secret));
      last := FromWorker(event, Truth(on, tries, AwaitEvent(username), cmds, said));
      var question := ReauthResponse.Prompt(Question(text, secret));
      Put(username, control.room, left, x, text, secret);
      var shown := client.Write(question);
      if shown {
        RelayGoesOn(on, log, tries, AwaitEvent(username), done, cmds, said, last,
                    Step(AwaitAnswer(username), [], [question], None));
        y := x.(got := x.got + [event], shown := x.shown + [question]);
        over, outcome, log', last, y := Answer(username, client, on, tries, log + [last], done, y, got0, said0);
      } else {
        var w := control.Write(WorkerCommand.Cancel);
        assert said + [] == said;
        RelayEnds(on, log, tries, AwaitEvent(username), done, cmds, said, last,
                  Over(ReauthOutcome.Transport, Delivered(w, [WorkerCommand.Cancel])));
        over, outcome, log' := true, ReauthOutcome.Transport, log;
        y := x.(got := x.got + [event], sent := control.sent);
        BreaksOff(y);
      }
    }

    /** The inner read of the relay: the client's move on an open question. `over` says the
        attempt ended on it. */
    method Answer(username: string, client: Wire<ReauthRequest, ReauthResponse>,
                  ghost on: Setting, ghost tries: nat,
                  ghost log: seq<Heard>, ghost done: seq<seq<WorkerCommand>>, ghost x: Exchange,
                       ghost got0: seq<Incoming<ReauthRequest>>, ghost said0: seq<ReauthResponse>)
        returns (over: bool, outcome: ReauthOutcome, ghost log': seq<Heard>, ghost last: Heard, ghost y: Exchange)
      requires client.Valid() && control.Valid() && control.sent != []
      requires on.client == client.room && WorkerRoom(on, tries - 1) == control.room
      requires |said0| <= client.room && Asking(username, control.room, client.room - |said0|, x) && EndsAsking(x)
      requires x.sent == control.sent && client.got == got0 + x.answers
      requires At(on, log, tries, AwaitAnswer(username), done, control.sent, client.sent)
      requires client.got == Asked(log)
      modifies control`sent, client`got
      ensures client.got == old(client.got) + [ReadOf(client.script, |old(client.got)|)] == got0 + y.answers
      ensures y == x.(sent := control.sent, answers := x.answers + [ReadOf(client.script, |old(client.got)|)])
      ensures over ==> Carried(username, control.room, client.room - |said0|, y) && Decides(y, outcome)
      ensures !over ==> Settled(username, control.room, client.room - |said0|, y)
      ensures client.Valid() && control.Valid()
      ensures client.got == Asked(if over then log' + [last] else log')
      ensures Events(if over then log' + [last] else log') == Events(log)
      ensures control.sent != [] && client.Left() <= old(client.Left())
      ensures !over ==> At(on, log', tries, AwaitEvent(username), done, control.sent, client.sent)
      ensures over ==> Relayed(on, log', last, tries, outcome, done, control.sent, client.sent)
    {
      hide Play, Extend, Asked, Events, At, Relayed, Settled, Asking, Carried, Decides, Vanished;
      ghost var left: nat := client.room - |said0|;
      ghost var cmds, said := control.sent, client.sent;
      ghost var o := Truth(on, tries, AwaitAnswer(username), cmds, said);
      var request := client.Read();
      var w;
      match request {
        case Got(Reply(r)) =>
          w := control.Write(WorkerCommand.Reply(r));
          over, outcome := !w, ReauthOutcome.Deny;
        case Got(Cancel) =>
          w := control.Write(WorkerCommand.Cancel);
          over, outcome := false, ReauthOutcome.Deny;
        case _ =>
          w := control.Write(WorkerCommand.Cancel);
          over, outcome := true, ReauthOutcome.Transport;
      }
      Met(username, control.room, left, x, request);
      y := x.(sent := control.sent, answers := x.answers + [request]);
      MetDecides(username, control.room, left, y, request);
      last := FromClient(request, o);
      ghost var s := OnAnswer(username, request, o);
      if over {
        RelayEnds(on, log, tries, AwaitAnswer(username), done, cmds, said, last, s);
        log' := log;
      } else {
        RelayGoesOn(on, log, tries, AwaitAnswer(username), done, cmds, said, last, s);
        log' := log + [last];
      }
    }
  }

  /** What the factory hands an attempt: the control socket of a fresh worker, or null if no
      worker could be started. */
  type Control = Wire?<WorkerEvent, WorkerCommand>

  ghost function Controls(factory: seq<Control>): set<Control> {
    set w | w in factory && w != null
  }

  /** No control socket is handed out twice or is the client's, and from `next` on none has
      been used. */
  ghost predicate Ready(factory: seq<Control>, conn: Wire<ReauthRequest, ReauthResponse>, next: nat)
    reads Controls(factory)
  {
    && (forall i, j :: 0 <= i < j < |factory| && factory[i] != null ==> factory[i] != factory[j])
    && (forall i :: 0 <= i < |factory| ==> (factory[i] as object?) != (conn as object))
    && (forall i :: next <= i < |factory| && factory[i] != null ==> factory[i].Untouched() && factory[i].Valid())
  }

  /** One worker as the daemon dealt with it: the exchange, and how many of the client's frames
      had been read, and how many frames said to it, when it began. */
  datatype Dealt = Dealt(x: Exchange, begun: nat, said: nat)

  const NOTHING: Exchange := Exchange([], [], [], [])

  /** This is what was done with the first workers: nothing was read but what they sent, and
      nothing before they were written to. */
  ghost predicate Dealings(factory: seq<Control>, dealt: seq<Dealt>)
    reads Controls(factory)
  {
    && |dealt| <= |factory|
    && forall k :: 0 <= k < |dealt| ==>
         if factory[k] == null then dealt[k].x == NOTHING
         else
           && dealt[k].x.got == factory[k].got && dealt[k].x.sent == factory[k].sent
           && factory[k].Valid() && (factory[k].sent == [] ==> factory[k].got == [])
  }

  /** Everything read from these workers, one after the other. */
  function HeardFrom(dealt: seq<Dealt>): seq<Incoming<WorkerEvent>> {
    if dealt == [] then [] else HeardFrom(Front(dealt)) + Last(dealt).x.got
  }

  /** What was delivered to each worker that was written to at all. */
  function WrittenTo(dealt: seq<Dealt>): seq<seq<WorkerCommand>> {
    if dealt == [] then []
    else WrittenTo(Front(dealt)) + if Last(dealt).x.sent == [] then [] else [Last(dealt).x.sent]
  }

  /** What this connection meets. */
  ghost function Meets(who: Option<string>, conn: Wire<ReauthRequest, ReauthResponse>, factory: seq<Control>): Setting {
    Setting(who, conn.room,
            seq(|factory|, i requires 0 <= i < |factory| => if factory[i] == null then None else Some(factory[i].room)))
  }

  /** Every worker asked for was taken off the factory, as long as there were any. */
  predicate Drawn(next: nat, tries: nat, supply: nat) {
    next == if tries < supply then tries else supply
  }

  /** What went on between a worker and the client, if there was a worker. */
  predicate Attempted(on: Setting, k: nat, d: Dealt) {
    && k < |on.workers| && on.who.Some? && d.said <= on.client
    && if on.workers[k] == None then d.x == NOTHING
       else Carried(on.who.value, on.workers[k].value, on.client - d.said, d.x)
  }

  /** The frame that tells the client how it went with the worker: allowed or cancelled only by
      the worker's last word. */
  predicate Announces(got: seq<Incoming<WorkerEvent>>, frame: ReauthResponse) {
    if got != [] && got[|got| - 1] == Got(WorkerEvent.Auth(Verdict.Success)) then frame == ReauthResponse.Allow
    else if got != [] && got[|got| - 1] == Got(WorkerEvent.Auth(Verdict.Cancelled)) then
      frame == ReauthResponse.Deny(AuthenticationCancelled)
    else frame == ReauthResponse.Deny(AuthenticationFailed)
  }

  /** The exchange's place on the client's connection: its answers are the frames read right after
      the `Begin`, and the next frame said after what was shown announces the verdict; it fails
      to come only if the client vanished or accepts no more. */
  predicate Placed(got: seq<Incoming<ReauthRequest>>, sent: seq<ReauthResponse>, room: nat, d: Dealt) {
    var to, at := d.begun + |d.x.answers|, d.said + |d.x.shown|;
    && 1 <= d.begun <= to <= |got| && got[d.begun - 1] == Got(ReauthRequest.Begin) && got[d.begun..to] == d.x.answers
    && at <= |sent| && sent[d.said..at] == d.x.shown
    && (at < |sent| ==> Announces(d.x.got, sent[at]))
    && (at == |sent| < room ==> Vanished(d.x))
  }

  predicate Announced(sent: seq<ReauthResponse>, d: Dealt) {
    d.said + |d.x.shown| < |sent|
  }

  /** What passed on the client's connection and with the workers, attempt by attempt, one after
      the other; while the connection is open, all verdicts are out. */
  ghost predicate Content(on: Setting, got: seq<Incoming<ReauthRequest>>, sent: seq<ReauthResponse>,
                          dealt: seq<Dealt>, open: bool)
  {
    forall k :: 0 <= k < |dealt| ==>
      && Attempted(on, k, dealt[k]) && Placed(got, sent, on.client, dealt[k])
      && (open ==> Announced(sent, dealt[k]))
      && (k > 0 ==> dealt[k - 1].begun + |dealt[k - 1].x.answers| < dealt[k].begun)
  }

  lemma PlacedStill(got: seq<Incoming<ReauthRequest>>, sent: seq<ReauthResponse>, room: nat, d: Dealt,
                    got': seq<Incoming<ReauthRequest>>, sent': seq<ReauthResponse>)
    requires Placed(got, sent, room, d) && got <= got' && sent <= sent' && (Announced(sent, d) || sent' == sent)
    ensures Placed(got', sent', room, d) && (Announced(sent, d) ==> Announced(sent', d))
  {
    var to, at := d.begun + |d.x.answers|, d.said + |d.x.shown|;
    assert got'[d.begun..to] == got[d.begun..to] && sent'[d.said..at] == sent[d.said..at];
  }

  /** More read and said outside the attempts. */
  lemma ContentStays(on: Setting, got: seq<Incoming<ReauthRequest>>, sent: seq<ReauthResponse>, dealt: seq<Dealt>,
                     got': seq<Incoming<ReauthRequest>>, sent': seq<ReauthResponse>, open: bool)
    requires Content(on, got, sent, dealt, true) && got <= got' && sent <= sent'
    ensures Content(on, got', sent', dealt, open)
  {
    hide Attempted, Placed, Announced;
    forall k | 0 <= k < |dealt|
      ensures Placed(got', sent', on.client, dealt[k]) && Announced(sent', dealt[k])
    {
      PlacedStill(got, sent, on.client, dealt[k], got', sent');
    }
  }

  /** One more attempt, and its report. */
  lemma ContentGrows(on: Setting, got: seq<Incoming<ReauthRequest>>, sent: seq<ReauthResponse>, dealt: seq<Dealt>,
                     d: Dealt, outcome: ReauthOutcome, report: seq<ReauthResponse>)
    requires got != [] && Last(got) == Got(ReauthRequest.Begin) && d.begun == |got| && d.said == |sent|
    requires Content(on, Front(got), sent, dealt, true) && |sent| <= on.client
    requires Attempted(on, |dealt|, d) && Decides(d.x, outcome)
    requires report == if Report(outcome).Some? && |sent + d.x.shown| < on.client then [Report(outcome).value] else []
    ensures Content(on, got + d.x.answers, sent + d.x.shown + report, dealt + [d], report != [])
  {
    var got', sent' := got + d.x.answers, sent + d.x.shown + report;
    hide Attempted, Carried, Prompts, Chatter, Placed, Announced, Decides, Vanished;
    ContentStays(on, Front(got), sent, dealt, got', sent', report != []);
    PlacedAtLast(got, sent, on.client, d, outcome, report);
    LastEnds(on, Front(got), sent, dealt);
    var all := dealt + [d];
    assert forall k :: 0 <= k < |dealt| ==> all[k] == dealt[k];
  }

  lemma LastEnds(on: Setting, got: seq<Incoming<ReauthRequest>>, sent: seq<ReauthResponse>, dealt: seq<Dealt>)
    requires Content(on, got, sent, dealt, true)
    ensures dealt != [] ==> Last(dealt).begun + |Last(dealt).x.answers| <= |got|
  {
  }

  lemma PlacedAtLast(got: seq<Incoming<ReauthRequest>>, sent: seq<ReauthResponse>, room: nat, d: Dealt,
                     outcome: ReauthOutcome, report: seq<ReauthResponse>)
    requires got != [] && Last(got) == Got(ReauthRequest.Begin) && d.begun == |got| && d.said == |sent|
    requires Decides(d.x, outcome)
    requires report == if Report(outcome).Some? && |sent + d.x.shown| < room then [Report(outcome).value] else []
    ensures var got', sent' := got + d.x.answers, sent + d.x.shown + report;
            Placed(got', sent', room, d) && (report != [] ==> Announced(sent', d))
  {
    hide Vanished;
    var got', sent' := got + d.x.answers, sent + d.x.shown + report;
    assert got'[|got|..|got| + |d.x.answers|] == d.x.answers && sent'[|sent|..|sent| + |d.x.shown|] == d.x.shown;
  }

  /** One begun attempt, from the factory to its outcome. It uses the next worker, if there is
      one. */
  method RunAttempt(who: Option<string>, conn: Wire<ReauthRequest, ReauthResponse>, factory: seq<Control>, next: nat,
                    ghost tries: nat, ghost log: seq<Heard>, ghost dealt: seq<Dealt>)
      returns (outcome: ReauthOutcome, next': nat, ghost tries': nat,
               ghost log': seq<Heard>, ghost last: Heard, ghost dealt': seq<Dealt>)
    requires conn.Valid() && |dealt| == next && Ready(factory, conn, next) && Dealings(factory, dealt)
    requires Drawn(next, tries, |factory|)
    requires At(Meets(who, conn, factory), log, tries, AwaitRequest, WrittenTo(dealt), [], conn.sent)
    requires conn.got == Asked(log) + [Got(ReauthRequest.Begin)] && Events(log) == HeardFrom(dealt)
    modifies conn, Controls(factory)
    ensures conn.Valid() && |dealt'| == next' && Ready(factory, conn, next') && Dealings(factory, dealt')
    ensures conn.Left() <= old(conn.Left()) && Drawn(next', tries', |factory|)
    ensures conn.got == Asked(log' + [last]) && Events(log' + [last]) == HeardFrom(dealt')
    ensures Relayed(Meets(who, conn, factory), log', last, tries', outcome, WrittenTo(dealt'), [], conn.sent)
    ensures dealt <= dealt' && |dealt'| <= |dealt| + 1
    ensures |dealt'| == |dealt| ==>
              conn.got == old(conn.got) && conn.sent == old(conn.sent) && outcome == ReauthOutcome.Deny
    ensures |dealt'| > |dealt| ==>
              var d := dealt'[|dealt|];
              && d.begun == |old(conn.got)| && conn.got == old(conn.got) + d.x.answers
              && d.said == |old(conn.sent)| && conn.sent == old(conn.sent) + d.x.shown
              && Attempted(Meets(who, conn, factory), next, d) && Decides(d.x, outcome)
  {
    hide Play, StepOf, React, Asked, Events, Relayed, At, HeardFrom, WrittenTo, Carried, Decides, Prompts, Chatter;
    ghost var on, done := Meets(who, conn, factory), WrittenTo(dealt);
    next', log', dealt', tries' := next, log, dealt, tries + Num(who.Some?);
    last := FromClient(Got(ReauthRequest.Begin), Truth(on, tries, AwaitRequest, [], conn.sent));
    if who == None {
      DeadAttempt(on, log, tries, done, conn.sent, last);
      return ReauthOutcome.Deny, next', tries', log', last, dealt';
    }
    if next == |factory| {
      DeadAttempt(on, log, tries, done, conn.sent, last);
      return ReauthOutcome.Deny, next', tries', log', last, dealt';
    }
    var control := factory[next];
    next' := next + 1;
    if control == null {
      DeadAttempt(on, log, tries, done, conn.sent, last);
      ghost var none := Dealt(NOTHING, |conn.got|, |conn.sent|);
      DealtNothing(dealt, none);
      NothingDecides();
      return ReauthOutcome.Deny, next', tries', log', last, dealt + [none];
    }
    ghost var begun, said := |conn.got|, |conn.sent|;
    var auth := new WorkerReauth(control);
    ghost var x;
    outcome, log', last, x := auth.Reauthenticate(who.value, conn, on, tries, log, done);
    dealt' := dealt + [Dealt(x, begun, said)];
    DealtSnoc(dealt, Dealt(x, begun, said));
    RelayedByOne(on, log', last, tries', outcome, done, control.sent, conn.sent);
  }

  lemma DealtSnoc(dealt: seq<Dealt>, d: Dealt)
    ensures HeardFrom(dealt + [d]) == HeardFrom(dealt) + d.x.got
    ensures WrittenTo(dealt + [d]) == WrittenTo(dealt) + if d.x.sent == [] then [] else [d.x.sent]
  {
    assert Front(dealt + [d]) == dealt;
  }

  lemma DealtNothing(dealt: seq<Dealt>, d: Dealt)
    requires d.x == NOTHING
    ensures HeardFrom(dealt + [d]) == HeardFrom(dealt)
    ensures WrittenTo(dealt + [d]) == WrittenTo(dealt)
  {
    DealtSnoc(dealt, d);
    assert HeardFrom(dealt) + [] == HeardFrom(dealt) && WrittenTo(dealt) + [] == WrittenTo(dealt);
  }

  lemma RelayedByOne(on: Setting, log: seq<Heard>, last: Heard, tries: nat, outcome: ReauthOutcome,
                     done: seq<seq<WorkerCommand>>, cmds: seq<WorkerCommand>, said: seq<ReauthResponse>)
    requires Relayed(on, log, last, tries, outcome, done, cmds, said)
    ensures Relayed(on, log, last, tries, outcome, done + if cmds == [] then [] else [cmds], [], said)
  {
    assert done + [] == done;
  }

  lemma StaysOut(h: Handler, who: Option<string>, i: Heard)
    requires h.AwaitRequest? && i.FromClient? && i.req != Got(ReauthRequest.Begin)
    ensures var s := React(h, who, i); s == OnRequest(who, i.req, i.o) && s.toWorker == [] && !InAttempt(s.next)
  {
  }

  /** A read between attempts that is not `Begin`. */
  lemma BetweenAttempts(on: Setting, log: seq<Heard>, tries: nat, done: seq<seq<WorkerCommand>>,
                        said: seq<ReauthResponse>, i: Heard)
    requires At(on, log, tries, AwaitRequest, done, [], said) && i.FromClient? && i.req != Got(ReauthRequest.Begin)
    requires i.o == Truth(on, tries, AwaitRequest, [], said)
    ensures var s := OnRequest(on.who, i.req, i.o);
            At(on, log + [i], tries, s.next, done, [], said + s.toClient)
    ensures Asked(log + [i]) == Asked(log) + [i.req] && Events(log + [i]) == Events(log)
  {
    hide Play, React, OnRequest, Truth, Truthful, Tries, Asked, Events;
    ReadsSnoc(log, i);
    PlaySnoc(on.who, log, i);
    StaysOut(AwaitRequest, on.who, i);
    TruthSnoc(on, log, i);
  }

  /** A request between attempts that is not `Begin`. */
  method AnswerRequest(who: Option<string>, conn: Wire<ReauthRequest, ReauthResponse>, request: Incoming<ReauthRequest>,
                       ghost on: Setting, ghost tries: nat,
                       ghost written: seq<seq<WorkerCommand>>, ghost log: seq<Heard>)
      returns (open: bool, ghost log': seq<Heard>)
    requires conn.Valid() && At(on, log, tries, AwaitRequest, written, [], conn.sent)
    requires on.who == who && on.client == conn.room
    requires request != Got(ReauthRequest.Begin) && conn.got == Asked(log) + [request]
    modifies conn`sent
    ensures conn.Valid() && (request == Gone ==> !open) && conn.Left() == old(conn.Left())
    ensures conn.sent == old(conn.sent) + Delivered(|old(conn.sent)| < conn.room,
                                                    match request
                                                    case Got(Hello(_)) => [ReauthResponse.Welcome(3)]
                                                    case Got(Reply(_)) => [ReauthResponse.Error(NothingInProgress)]
                                                    case Garbled => [ReauthResponse.Error(MalformedRequest)]
                                                    case _ => [])
    ensures open <==> request.Got? && (request.msg.Cancel? || |old(conn.sent)| < conn.room)
    ensures conn.got == Asked(log') && Events(log') == Events(log)
    ensures At(on, log', tries, if open then AwaitRequest else Closed, written, [], conn.sent)
  {
    hide Play, Asked, Events, At;
    ghost var said := conn.sent;
    ghost var i := FromClient(request, Truth(on, tries, AwaitRequest, [], said));
    match request {
      case Got(Hello(_)) =>
        open := conn.Write(ReauthResponse.Welcome(PROTOCOL_VERSION));
      case Got(Cancel) =>
        open := true;
      case Got(Reply(_)) =>
        open := conn.Write(ReauthResponse.Error(NothingInProgress));
      case Garbled =>
        var _ := conn.Write(ReauthResponse.Error(MalformedRequest));
        open := false;
      case Gone =>
        open := false;
    }
    BetweenAttempts(on, log, tries, written, said, i);
    log' := log + [i];
    assert said + [] == said;
  }

  lemma HandshakePlays(on: Setting, i: Heard)
    requires i.FromClient? && i.o == Truth(on, 0, AwaitHello, [], [])
    ensures var s := OnHello(i.req, i.o); At(on, [i], 0, s.next, [], [], s.toClient)
    ensures Asked([i]) == [i.req] && Events([i]) == []
  {
    ReadsSnoc([], i);
    PlaySnoc(on.who, [], i);
    TruthSnoc(on, [], i);
    assert [] + [i] == [i];
    var s := OnHello(i.req, i.o);
    assert [] + s.toClient == s.toClient;
  }

  /** The mandatory first exchange. */
  method ReauthHandshake(conn: Wire<ReauthRequest, ReauthResponse>, ghost on: Setting)
      returns (open: bool, ghost log: seq<Heard>)
    requires conn.Valid() && conn.Untouched() && on.client == conn.room
    modifies conn
    ensures conn.Valid() && conn.Left() <= old(conn.Left())
    ensures conn.got == Asked(log) && Events(log) == []
    ensures var first: Incoming<ReauthRequest> := ReadOf(conn.script, 0);
            && conn.got == [first]
            && conn.sent == Delivered(conn.room > 0,
                                      match first
                                      case Got(Hello(v)) =>
                                        if v == 3 then [ReauthResponse.Welcome(3)] else [ReauthResponse.Incompatible(3)]
                                      case Got(_) => [ReauthResponse.Error(HandshakeRequired)]
                                      case _ => [])
            && (open <==> first == Got(ReauthRequest.Hello(3)) && conn.room > 0)
    ensures At(on, log, 0, if open then AwaitRequest else Closed, [], [], conn.sent)
  {
    hide Play;
    var first := conn.Read();
    open := false;
    match first {
      case Got(Hello(v)) =>
        if v == PROTOCOL_VERSION {
          open := conn.Write(ReauthResponse.Welcome(PROTOCOL_VERSION));
        } else {
          var _ := conn.Write(ReauthResponse.Incompatible(PROTOCOL_VERSION));
        }
      case Got(_) =>
        var _ := conn.Write(ReauthResponse.Error(HandshakeRequired));
      case _ =>
    }
    ghost var i := FromClient(first, Truth(on, 0, AwaitHello, [], []));
    HandshakePlays(on, i);
    assert conn.sent == OnHello(first, i.o).toClient;
    log := [i];
  }

  /** Serves one reauth client whose peer uid resolved to `who` (or to nobody). The factory
      is what each begun attempt is handed, and `dealt` what was done with each. The ghost log
      is what was read from the client and from the workers, with the true fate of every write,
      so it is the only one there can be; and everything delivered to each of them is exactly
      what the automaton writes on it. */
  method HandleReauthConnection(who: Option<string>, conn: Wire<ReauthRequest, ReauthResponse>, factory: seq<Control>)
      returns (ghost log: seq<Heard>, ghost dealt: seq<Dealt>)
    requires conn.Valid() && conn.Untouched() && Ready(factory, conn, 0)
    modifies conn, Controls(factory)
    ensures conn.Valid() && Ready(factory, conn, |dealt|) && Dealings(factory, dealt)
    ensures Asked(log) == conn.got && Events(log) == HeardFrom(dealt)
    ensures var on := Meets(who, conn, factory); Truthful(on, log) && Drawn(|dealt|, Tries(on, log), |factory|)
    ensures Play(who, log) == Some(Played(Closed, WrittenTo(dealt), conn.sent))
    ensures Content(Meets(who, conn, factory), conn.got, conn.sent, dealt, false)
    ensures ReauthResponse.Allow in conn.sent ==> Vouched(who, factory)
  {
    var next, open := 0, true;
    ghost var on, tries := Meets(who, conn, factory), 0;
    dealt := [];
    open, log := ReauthHandshake(conn, on);
    hide *;
    NothingDealt(on, conn.got, conn.sent);
    while open
      invariant conn.Valid() && |dealt| == next && Ready(factory, conn, next) && Dealings(factory, dealt)
      invariant At(on, log, tries, if open then AwaitRequest else Closed, WrittenTo(dealt), [], conn.sent)
      invariant conn.got == Asked(log) && Events(log) == HeardFrom(dealt) && Drawn(next, tries, |factory|)
      invariant Content(on, conn.got, conn.sent, dealt, open)
      decreases conn.Left(), open
    {
      open, next, tries, log, dealt := ServeRequest(who, conn, factory, next, tries, log, dealt);
    }
    AtTheEnd(on, log, tries, WrittenTo(dealt), conn.sent);
    ContentAtTheEnd(on, conn.got, conn.sent, dealt, open);
    AllowIsVouched(who, log, factory, dealt, conn.sent);
  }

  lemma NothingDealt(on: Setting, got: seq<Incoming<ReauthRequest>>, sent: seq<ReauthResponse>)
    ensures Content(on, got, sent, [], true)
  {
  }

  lemma ContentAtTheEnd(on: Setting, got: seq<Incoming<ReauthRequest>>, sent: seq<ReauthResponse>, dealt: seq<Dealt>,
                        open: bool)
    requires Content(on, got, sent, dealt, open)
    ensures Content(on, got, sent, dealt, false)
  {
  }

  lemma AtTheEnd(on: Setting, log: seq<Heard>, tries: nat, written: seq<seq<WorkerCommand>>, said: seq<ReauthResponse>)
    requires At(on, log, tries, Closed, written, [], said)
    ensures Play(on.who, log) == Some(Played(Closed, written, said))
    ensures Truthful(on, log) && Tries(on, log) == tries
  {
  }

  /** One turn of the handler's loop. */
  method ServeRequest(who: Option<string>, conn: Wire<ReauthRequest, ReauthResponse>, factory: seq<Control>, next: nat,
                      ghost tries: nat, ghost log: seq<Heard>, ghost dealt: seq<Dealt>)
      returns (open: bool, next': nat, ghost tries': nat, ghost log': seq<Heard>, ghost dealt': seq<Dealt>)
    requires conn.Valid() && |dealt| == next && Ready(factory, conn, next) && Dealings(factory, dealt)
    requires Drawn(next, tries, |factory|)
    requires At(Meets(who, conn, factory), log, tries, AwaitRequest, WrittenTo(dealt), [], conn.sent)
    requires conn.got == Asked(log) && Events(log) == HeardFrom(dealt)
    requires Content(Meets(who, conn, factory), conn.got, conn.sent, dealt, true)
    modifies conn, Controls(factory)
    ensures conn.Valid() && |dealt'| == next' && Ready(factory, conn, next') && Dealings(factory, dealt')
    ensures conn.Left() <= old(conn.Left()) && (open ==> conn.Left() < old(conn.Left()))
    ensures conn.got == Asked(log') && Events(log') == HeardFrom(dealt') && Drawn(next', tries', |factory|)
    ensures At(Meets(who, conn, factory), log', tries', if open then AwaitRequest else Closed, WrittenTo(dealt'), [],
               conn.sent)
    ensures Content(Meets(who, conn, factory), conn.got, conn.sent, dealt', open)
  {
    hide Play, Asked, Events, At, HeardFrom, WrittenTo, Drawn, Content;
    ghost var got, sent := conn.got, conn.sent;
    var request := conn.Read();
    next', dealt', tries' := next, dealt, tries;
    if request == Got(ReauthRequest.Begin) {
      hide *;
      open, next', tries', log', dealt' := ServeBegin(who, conn, factory, next, tries, log, dealt);
    } else {
      open, log' := AnswerRequest(who, conn, request, Meets(who, conn, factory), tries, WrittenTo(dealt), log);
      ContentStays(Meets(who, conn, factory), got, sent, dealt, conn.got, conn.sent, open);
    }
  }

  /** A begun attempt and the report of its outcome; without a report the connection is
      over. */
  method ServeBegin(who: Option<string>, conn: Wire<ReauthRequest, ReauthResponse>, factory: seq<Control>, next: nat,
                    ghost tries: nat, ghost log: seq<Heard>, ghost dealt: seq<Dealt>)
      returns (open: bool, next': nat, ghost tries': nat, ghost log': seq<Heard>, ghost dealt': seq<Dealt>)
    requires conn.Valid() && |dealt| == next && Ready(factory, conn, next) && Dealings(factory, dealt)
    requires Drawn(next, tries, |factory|)
    requires At(Meets(who, conn, factory), log, tries, AwaitRequest, WrittenTo(dealt), [], conn.sent)
    requires conn.got == Asked(log) + [Got(ReauthRequest.Begin)] && Events(log) == HeardFrom(dealt)
    requires Content(Meets(who, conn, factory), Asked(log), conn.sent, dealt, true)
    modifies conn, Controls(factory)
    ensures conn.Valid() && |dealt'| == next' && Ready(factory, conn, next') && Dealings(factory, dealt')
    ensures conn.Left() <= old(conn.Left()) && Drawn(next', tries', |factory|)
    ensures |dealt'| == |dealt| ==>
              && conn.got == old(conn.got)
              && conn.sent == old(conn.sent) + Delivered(open, [ReauthResponse.Deny(AuthenticationFailed)])
    ensures conn.got == Asked(log') && Events(log') == HeardFrom(dealt')
    ensures At(Meets(who, conn, factory), log', tries', if open then AwaitRequest else Closed, WrittenTo(dealt'), [],
               conn.sent)
    ensures Content(Meets(who, conn, factory), conn.got, conn.sent, dealt', open)
  {
    hide Play, StepOf, React, Asked, Events, Relayed, HeardFrom, WrittenTo, At, Drawn, Content, Attempted, Decides,
         Dealings;
    ghost var got, sent0 := conn.got, conn.sent;
    var outcome;
    ghost var last;
    outcome, next', tries', log', last, dealt' := RunAttempt(who, conn, factory, next, tries, log, dealt);
    ghost var said := conn.sent;
    var report, ok := Report(outcome), false;
    if report.Some? {
      ok := conn.Write(report.value);
    }
    open := ok;
    ReportCompletes(Meets(who, conn, factory), log', last, tries', outcome, WrittenTo(dealt'), said, ok);
    log' := log' + [last];
    ghost var reported := if ok then [report.value] else [];
    assert conn.sent == said + reported;
    assert Front(got) == Asked(log);
    if |dealt'| == |dealt| {
      assert dealt' == dealt;
      ContentStays(Meets(who, conn, factory), Asked(log), sent0, dealt, conn.got, conn.sent, open);
    } else {
      assert dealt' == dealt + [dealt'[|dealt|]];
      ContentGrows(Meets(who, conn, factory), got, sent0, dealt, dealt'[|dealt|], outcome, reported);
    }
  }

  /** Some worker that was asked about this very user answered with success. */
  ghost predicate Vouched(who: Option<string>, factory: seq<Control>)
    reads Controls(factory)
  {
    who.Some? && exists k :: 0 <= k < |factory| && factory[k] != null
                             && Got(WorkerEvent.Auth(Verdict.Success)) in factory[k].got
                             && factory[k].sent != [] && factory[k].sent[0] == WorkerCommand.Auth(who.value)
  }

  lemma {:induction false} SuccessesHeard(log: seq<Heard>)
    ensures Successes(log) > 0 ==> Got(WorkerEvent.Auth(Verdict.Success)) in Events(log)
  {
    if log != [] {
      SuccessesHeard(Front(log));
    }
  }

  lemma {:induction false} AllowsCounted(said: seq<ReauthResponse>)
    ensures ReauthResponse.Allow in said ==> Allows(said) > 0
  {
    if said != [] {
      AllowsCounted(Front(said));
    }
  }

  lemma {:induction false} HeardFromSome(dealt: seq<Dealt>, e: Incoming<WorkerEvent>) returns (k: nat)
    requires e in HeardFrom(dealt)
    ensures k < |dealt| && e in dealt[k].x.got
  {
    k := |dealt| - 1;
    if e !in dealt[k].x.got {
      k := HeardFromSome(Front(dealt), e);
    }
  }

  lemma {:induction false} WrittenToAll(dealt: seq<Dealt>, k: nat)
    requires k < |dealt| && dealt[k].x.sent != []
    ensures dealt[k].x.sent in WrittenTo(dealt)
  {
    if k < |dealt| - 1 {
      WrittenToAll(Front(dealt), k);
    }
  }

  /** No `Allow` without a success that one of the workers really sent. */
  lemma AllowIsVouched(who: Option<string>, log: seq<Heard>, factory: seq<Control>, dealt: seq<Dealt>,
                       said: seq<ReauthResponse>)
    requires Dealings(factory, dealt) && Events(log) == HeardFrom(dealt)
    requires Play(who, log) == Some(Played(Closed, WrittenTo(dealt), said))
    ensures ReauthResponse.Allow in said ==> Vouched(who, factory)
  {
    if ReauthResponse.Allow in said {
      hide Play;
      AllowsCounted(said);
      OneSuccessPerAllow(who, log);
      SuccessesHeard(log);
      var k := HeardFromSome(dealt, Got(WorkerEvent.Auth(Verdict.Success)));
      WrittenToAll(dealt, k);
      ControlDiscipline(who, log);
      assert Disciplined(who, dealt[k].x.sent);
    }
  }
}
