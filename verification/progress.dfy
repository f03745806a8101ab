/** Deadlock freedom and termination of an unlock attempt, when no connection breaks, the
    person answers the prompts put to them, and PAM makes finitely many calls. Other peers
    of the socket and the person's idle typing may interleave arbitrarily. */
module Progress {
  import opened Protocol
  import opened PamWorker
  import opened Reauth
  import opened UnlockSystem
  import L = Locker

  /** The connection of the attempt under way. */
  function Cur(s: Sys): Conn
    requires s.current < |s.conns|
  {
    s.conns[s.current]
  }

  predicate OnCurrent(s: Sys, k: nat) {
    L.Connected(s.thread) && k == s.current
  }

  /** Everything goes through. */
  const GOOD := Oracle(true, true, true, true)

  predicate Sound(o: Oracle) {
    o.clientOk && o.workerOk && o.reportOk
  }

  /** Steps in which nothing breaks. `fuel` bounds the prompts and notices PAM still makes;
      it may return at any time. */
  predicate FairEnabled(s: Sys, fuel: nat, a: Act) {
    && Enabled(s, a) && s.ui.phase == L.Authenticating
    && match a
       case Person(_) => true
       case Deliver => true
       case ThreadReads(i) => i.sendOk && (i.FromUi? ==> i.dialOk) && (i.FromDaemon? ==> i.r.Got?)
       case HandlerReads(k, h) =>
         OnCurrent(s, k) ==> Sound(h.o) && (if h.FromClient? then h.req.Got? else h.ev.Got?)
       case WorkerReads(k, c) => OnCurrent(s, k) ==> c.Got?
       case PamMoves(k, m, ok) => OnCurrent(s, k) ==> ok && (m.Return? || m.Broken? || fuel > 0)
       case Connects(_) => true
       case StrangerSends(_, _) => true
       case _ => false
  }

  /** The steps that belong to the attempt; the others are bystanders'. */
  predicate OfAttempt(s: Sys, a: Act) {
    match a
    case Person(m) => m.PromptSubmitted? && s.ui.prompt.Some?
    case Deliver => true
    case ThreadReads(_) => true
    case HandlerReads(k, _) => OnCurrent(s, k)
    case WorkerReads(k, _) => OnCurrent(s, k)
    case PamMoves(k, _, _) => OnCurrent(s, k)
    case _ => false
  }

  function FuelAfter(s: Sys, fuel: nat, a: Act): nat
    requires FairEnabled(s, fuel, a)
  {
    if a.PamMoves? && OnCurrent(s, a.k) && !a.move.Return? && !a.move.Broken? then fuel - 1 else fuel
  }

  // ---- Where the attempt's token is ----

  predicate Remarks(down: seq<ReauthResponse>) {
    forall r :: r in down ==> r.Prompt? && !r.prompt.Question?
  }

  predicate RemarkEvents(events: seq<WorkerEvent>) {
    forall e :: e in events ==> e.Info? || e.Error?
  }

  /** The control socket and the worker while the handler waits for an event. */
  predicate Pipe(c: Conn) {
    match c.worker
    case Idle(_) =>
      if c.cmds != [] then |c.cmds| == 1 && c.cmds[0].Auth? && c.events == []
      else c.events != [] && RemarkEvents(Front(c.events)) && Last(c.events).Auth?
    case Conversing(_, _, _, _) => c.cmds == [] && RemarkEvents(c.events)
    case Asking(_, _, _) =>
      if c.cmds != [] then |c.cmds| == 1 && IsAnswer(c.cmds[0]) && c.events == []
      else c.events != [] && RemarkEvents(Front(c.events)) && Last(c.events).Prompt?
    case Exited => false
  }

  predicate WorkerAsks(c: Conn) {
    c.worker.Asking? && c.cmds == [] && c.events == []
  }

  predicate Greets(c: Conn) {
    c.worker == Exited && GreetsOn(c)
  }

  predicate GreetsOn(c: Conn) {
    || (c.handler == AwaitHello && c.up == [ReauthRequest.Hello(PROTOCOL_VERSION)] && c.down == [])
    || (c.handler == AwaitRequest && c.up == [] && |c.down| == 1 && c.down[0].Welcome?)
  }

  predicate Talks(c: Conn) {
    match c.handler
    case AwaitRequest =>
      && c.worker == Exited
      && if c.up != [] then c.up == [ReauthRequest.Begin] && c.down == []
         else c.down != [] && Remarks(Front(c.down)) && (Last(c.down).Allow? || Last(c.down).Deny?)
    case AwaitEvent(_) => c.up == [] && Remarks(c.down) && Pipe(c)
    case AwaitAnswer(_) =>
      && WorkerAsks(c)
      && (if c.up != [] then |c.up| == 1 && c.up[0].Reply? && c.down == []
          else c.down != [] && Remarks(Front(c.down)) && Last(c.down).Prompt? && Last(c.down).prompt.Question?)
    case _ => false
  }

  predicate Asks(c: Conn) {
    c.handler.AwaitAnswer? && WorkerAsks(c) && c.up == [] && c.down == []
  }

  /** Exactly one party holds the attempt's token. */
  predicate Token(s: Sys) {
    && !s.lost
    && (match s.thread
        case Idle => true
        case Greeting => s.current < |s.conns| && Greets(Cur(s))
        case Reading => s.current < |s.conns| && Talks(Cur(s))
        case AwaitingReply => s.current < |s.conns| && Asks(Cur(s))
        case Dead => false)
  }

  // ---- The measure ----

  function UpWeight(up: seq<ReauthRequest>): nat {
    if up == [] then 0
    else match up[0]
         case Hello(_) => 14
         case Begin => 12
         case _ => 3
  }

  function CmdWeight(cmds: seq<WorkerCommand>): nat {
    if cmds == [] then 0 else if cmds[0].Auth? then 11 else 2
  }

  /** What the checks still to return can lead to. */
  function WorkerWeight(w: Worker): nat {
    if !Busy(w) then 0 else if w.account then 9 else 10
  }

  /** What is still in flight on the current connection. */
  function ConnWeight(greeting: bool, c: Conn): nat {
    UpWeight(c.up) + (if greeting then 13 * |c.down| else 7 * |c.down|) +
    if InAttempt(c.handler) then CmdWeight(c.cmds) + 8 * |c.events| + WorkerWeight(c.worker) else 0
  }

  function CommandWeight(commands: seq<L.Command>): nat {
    if commands == [] then 0 else if commands[0].Authenticate? then 15 else 4
  }

  /** An upper bound on the attempt steps still to come. */
  function Measure(s: Sys, fuel: nat): nat {
    9 * fuel + 6 * |s.messages| + CommandWeight(s.commands) + 5 * Num(s.ui.prompt.Some?) +
    if L.Connected(s.thread) && s.current < |s.conns| then ConnWeight(s.thread.Greeting?, Cur(s)) else 0
  }

  // ---- One connection ----

  lemma GreetingAdvances(w: World, c: Conn, h: Heard)
    requires Greets(c) && Expects(c.handler, h) && Sound(h.o)
    requires h.FromClient? && h.req.Got? && Available(h.req, c.up)
    ensures var d := HandlerNext(w, c, h);
            Greets(d) && ConnWeight(true, d) < ConnWeight(true, c)
  {
  }

  lemma GreetingReads(c: Conn, h: Heard)
    requires Greets(c) && Expects(c.handler, h)
    ensures h.FromClient?
  {
  }

  /** Taking the first event off: only remarks stand in front of a prompt or a verdict. */
  lemma FirstEvent(c: Conn)
    requires Pipe(c) && c.events != []
    ensures var e, rest := c.events[0], c.events[1..];
            if e.Info? || e.Error? then Pipe(c.(events := rest))
            else rest == [] && c.cmds == [] && (if e.Prompt? then c.worker.Asking? else e.Auth?)
  {
    assert c.events[0] in c.events;
    if |c.events| > 1 {
      assert Front(c.events)[0] == c.events[0] && c.events[0] in Front(c.events);
      assert Front(c.events[1..]) == Front(c.events)[1..];
    }
  }

  lemma RemarkAdvances(w: World, c: Conn, h: Heard)
    requires Talks(c) && c.handler.AwaitEvent? && h.FromWorker? && Sound(h.o)
    requires h.ev.Got? && Available(h.ev, c.events) && (h.ev.msg.Info? || h.ev.msg.Error?)
    ensures var d := HandlerNext(w, c, h);
            Talks(d) && ConnWeight(false, d) < ConnWeight(false, c)
  {
    FirstEvent(c);
    var d := HandlerNext(w, c, h);
    assert c.cmds + [] == c.cmds;
    assert d == c.(events := c.events[1..], down := d.down);
  }

  lemma OutcomeAdvances(w: World, c: Conn, h: Heard)
    requires Talks(c) && c.handler.AwaitEvent? && h.FromWorker? && Sound(h.o)
    requires h.ev.Got? && Available(h.ev, c.events) && !h.ev.msg.Info? && !h.ev.msg.Error?
    ensures var d := HandlerNext(w, c, h);
            Talks(d) && ConnWeight(false, d) < ConnWeight(false, c)
  {
    FirstEvent(c);
    var r := React(c.handler, Resolve(w, c.uid), h);
    assert r.toWorker == [] && |r.toClient| == 1;
    var d := HandlerNext(w, c, h);
    assert Front(c.down + r.toClient) == c.down && Last(c.down + r.toClient) == r.toClient[0];
    assert c.cmds + [] == c.cmds;
  }

  lemma BeginAdvances(w: World, c: Conn, h: Heard)
    requires Talks(c) && c.handler.AwaitRequest? && h.FromClient? && Sound(h.o)
    requires h.req.Got? && Available(h.req, c.up)
    ensures var d := HandlerNext(w, c, h);
            Talks(d) && ConnWeight(false, d) < ConnWeight(false, c)
  {
    hide React, Talks, Resolve;
    BeginStands(c);
    BeginReacts(Resolve(w, c.uid), h);
    assert c.down + React(c.handler, Resolve(w, c.uid), h).toClient == React(c.handler, Resolve(w, c.uid), h).toClient;
    NowTalks(HandlerNext(w, c, h));
  }

  /** A `Begin` on its way to a handler between attempts is all there is. */
  lemma BeginStands(c: Conn)
    requires Talks(c) && c.handler.AwaitRequest? && c.up != []
    ensures c.up == [ReauthRequest.Begin] && c.up[1..] == [] && c.down == [] && c.worker == Exited
  {
  }

  /** The two ways a connection stands once it has been read. */
  lemma NowTalks(d: Conn)
    requires d.up == []
    ensures (&& d.handler.AwaitEvent? && d.down == [] && d.events == []
             && d.worker.Idle? && |d.cmds| == 1 && d.cmds[0].Auth?) ==> Talks(d)
    ensures d.handler.AwaitRequest? && d.worker == Exited && |d.down| == 1 && d.down[0].Deny? ==> Talks(d)
  {
  }

  /** A `Begin` opens an attempt or is denied. */
  lemma BeginReacts(who: Option<string>, h: Heard)
    requires h.FromClient? && h.req == Got(ReauthRequest.Begin) && Sound(h.o)
    ensures var r := React(AwaitRequest, who, h);
            if InAttempt(r.next) then
              r.next.AwaitEvent? && r.toClient == [] && |r.toWorker| == 1 && r.toWorker[0].Auth?
            else r.next == AwaitRequest && r.toWorker == [] && |r.toClient| == 1 && r.toClient[0].Deny?
  {
  }

  lemma ReplyAdvances(w: World, c: Conn, h: Heard)
    requires Talks(c) && c.handler.AwaitAnswer? && h.FromClient? && Sound(h.o)
    requires h.req.Got? && Available(h.req, c.up)
    ensures var d := HandlerNext(w, c, h);
            Talks(d) && ConnWeight(false, d) < ConnWeight(false, c)
  {
    var r := React(c.handler, Resolve(w, c.uid), h);
    assert r == Step(AwaitEvent(c.handler.name), [WorkerCommand.Reply(h.req.msg.response)], [], None);
    var d := HandlerNext(w, c, h);
    assert d.cmds == r.toWorker && d.down == c.down;
  }

  lemma WorkerAdvances(c: Conn, cmd: Incoming<WorkerCommand>)
    requires Talks(c) && InAttempt(c.handler) && Reading(c.worker) && cmd.Got? && Available(cmd, c.cmds)
    ensures Talks(WorkerNext(c, cmd)) && ConnWeight(false, WorkerNext(c, cmd)) < ConnWeight(false, c)
  {
  }

  lemma PamAdvances(c: Conn, m: PamMove)
    requires Talks(c) && InAttempt(c.handler) && c.worker.Conversing?
    ensures var d := PamNext(c, m, true);
            && Talks(d)
            && ConnWeight(false, d) <= ConnWeight(false, c) + if m.Return? || m.Broken? then -1 else 8
  {
    var d := PamNext(c, m, true);
    if d.events != c.events {
      assert Front(d.events) == c.events;
    }
  }

  // ---- The whole system ----

  /** Whatever the handler reads while the attempt is under way brings it on. */
  lemma TalkAdvances(w: World, c: Conn, h: Heard)
    requires Talks(c) && Expects(c.handler, h) && Sound(h.o)
    requires h.FromClient? ==> h.req.Got? && Available(h.req, c.up)
    requires h.FromWorker? ==> h.ev.Got? && Available(h.ev, c.events)
    ensures Talks(HandlerNext(w, c, h)) && ConnWeight(false, HandlerNext(w, c, h)) < ConnWeight(false, c)
  {
    hide HandlerNext, ConnWeight, Pipe, WorkerAsks, Remarks, Available, Sound;
    match c.handler {
      case AwaitEvent(_) =>
        if h.ev.msg.Info? || h.ev.msg.Error? {
          RemarkAdvances(w, c, h);
        } else {
          OutcomeAdvances(w, c, h);
        }
      case AwaitRequest =>
        BeginAdvances(w, c, h);
      case _ =>
        ReplyAdvances(w, c, h);
    }
  }

  /** Only within an attempt is there a worker, and one that asks waits for the client. */
  lemma WorkerOf(c: Conn)
    ensures Greets(c) ==> c.worker.Exited?
    ensures Talks(c) ==> InAttempt(c.handler) || c.worker.Exited?
    ensures Asks(c) ==> c.handler.AwaitAnswer? && c.worker.Asking? && c.cmds == [] && c.up == []
  {
  }

  lemma DaemonAdvances(w: World, s: Sys, fuel: nat, a: Act)
    requires Inv(w, s) && Token(s) && FairEnabled(s, fuel, a) && OfAttempt(s, a)
    requires a.HandlerReads? || a.WorkerReads? || a.PamMoves?
    ensures Token(Next(w, s, a)) && Measure(Next(w, s, a), FuelAfter(s, fuel, a)) < Measure(s, fuel)
  {
    hide HandlerNext, WorkerNext, PamNext, ConnWeight, Greets, Talks, Asks, Turn, Linked, UnlocksGranted;
    var c := Cur(s);
    WorkerOf(c);
    match a {
      case HandlerReads(k, h) =>
        if s.thread.Greeting? {
          GreetingReads(c, h);
          GreetingAdvances(w, c, h);
        } else if s.thread.Reading? {
          TalkAdvances(w, c, h);
        }
      case WorkerReads(k, cmd) =>
        WorkerAdvances(c, cmd);
      case PamMoves(k, m, ok) =>
        PamAdvances(c, m);
    }
  }

  /** Taking the first response off: only remarks stand in front of a question or a
      verdict. */
  lemma FirstResponse(c: Conn)
    requires Talks(c) && c.down != []
    ensures var r, d := c.down[0], c.(down := c.down[1..]);
            if r.Prompt? then
              if r.prompt.Question? then Asks(d) else Talks(d)
            else (r.Allow? || r.Deny?) && d.down == [] && !InAttempt(c.handler) && c.up == [] && c.worker == Exited
  {
    assert c.down[0] in c.down;
    if |c.down| > 1 {
      assert Front(c.down)[0] == c.down[0] && c.down[0] in Front(c.down);
      assert Front(c.down[1..]) == Front(c.down)[1..];
    }
  }

  lemma ThreadReadsDaemon(w: World, s: Sys, fuel: nat, i: L.Read)
    requires Turn(s) && Token(s) && FairEnabled(s, fuel, ThreadReads(i)) && s.thread.Reading?
    ensures var s' := Next(w, s, ThreadReads(i));
            Token(s') && Measure(s', fuel) < Measure(s, fuel)
  {
    var c := Cur(s);
    FirstResponse(c);
    assert c.up + [] == c.up && s.commands == [];
    hide Turn, Talks, Asks;
  }

  lemma ThreadReadsCommand(w: World, s: Sys, fuel: nat, i: L.Read)
    requires Turn(s) && Token(s) && FairEnabled(s, fuel, ThreadReads(i)) && !s.thread.Reading?
    ensures var s' := Next(w, s, ThreadReads(i));
            Token(s') && Measure(s', fuel) < Measure(s, fuel)
  {
  }

  lemma UiAdvances(w: World, s: Sys, fuel: nat, a: Act)
    requires Inv(w, s) && Token(s) && FairEnabled(s, fuel, a) && OfAttempt(s, a)
    requires a.Person? || a.Deliver?
    ensures var s' := Next(w, s, a);
            Token(s') && Measure(s', fuel) < Measure(s, fuel)
  {
  }

  lemma TypingIsHarmless(w: World, s: Sys, fuel: nat, m: L.Message)
    requires Turn(s) && Token(s) && FairEnabled(s, fuel, Person(m)) && !OfAttempt(s, Person(m))
    ensures var s' := Next(w, s, Person(m));
            && Token(s') && Measure(s', fuel) == Measure(s, fuel)
            && s'.ui.phase == L.Authenticating && s'.conns == s.conns && s'.thread == s.thread
            && s'.attempts == s.attempts && s'.messages == s.messages && s'.current == s.current
  {
    assert s.commands + [] == s.commands;
  }

  /** Steps on other connections leave the attempt where it is. */
  lemma OthersAreHarmless(w: World, s: Sys, fuel: nat, a: Act)
    requires Inv(w, s) && Token(s) && FairEnabled(s, fuel, a) && !OfAttempt(s, a) && !a.Person?
    ensures var s' := Next(w, s, a);
            && s' == s.(conns := s'.conns) && FuelAfter(s, fuel, a) == fuel
            && (L.Connected(s.thread) ==> s.current < |s'.conns| && Cur(s') == Cur(s))
            && |s.conns| <= |s'.conns|
            && (forall k :: 0 <= k < |s.conns| ==> s'.conns[k].owner == s.conns[k].owner)
            && (forall k :: |s.conns| <= k < |s'.conns| ==> s'.conns[k].owner.Stranger?)
  {
    hide Turn, UnlocksGranted, Token, ConnInv, SingleBegin, React;
  }

  lemma SameAttempt(s: Sys, s': Sys, fuel: nat)
    requires Token(s) && s' == s.(conns := s'.conns)
    requires L.Connected(s.thread) ==> s.current < |s.conns| && s.current < |s'.conns| && Cur(s') == Cur(s)
    ensures Token(s') && Measure(s', fuel) == Measure(s, fuel)
  {
  }

  // ---- An acceptance always gets through ----

  /** On the way from PAM to the lock screen's thread, an acceptance is never dropped. */
  predicate ConnCarries(c: Conn) {
    c.accepted != [] ==>
      (InAttempt(c.handler) && WorkerEvent.Auth(Success) in c.events) || ReauthResponse.Allow in c.down
  }

  predicate Carries(w: World, s: Sys) {
    if L.Connected(s.thread) then
      s.current < |s.conns| && (if s.thread.Reading? then ConnCarries(Cur(s)) else Cur(s).accepted == [])
    else
      && (Granted(w, s, s.attempts) ==> L.AuthSucceeded in s.messages)
      && (forall k :: 0 <= k < |s.conns| && s.conns[k].owner == LockScreen(s.attempts) ==> Spent(s.conns[k]))
  }

  /** A connection whose one attempt is over: nothing can open another on it. */
  predicate Spent(c: Conn) {
    !InAttempt(c.handler) && c.worker == Exited && ReauthRequest.Begin !in c.up
  }

  lemma SpentStaysSpent(w: World, c: Conn, h: Heard)
    requires Spent(c) && Expects(c.handler, h)
    requires h.FromClient? ==> Available(h.req, c.up)
    requires h.FromWorker? ==> Available(h.ev, c.events)
    ensures Spent(HandlerNext(w, c, h))
  {
    var r := React(c.handler, Resolve(w, c.uid), h);
    if InAttempt(r.next) {
      OpensOnBegin(c.handler, Resolve(w, c.uid), h);
    }
  }

  lemma HandlerCarries(w: World, c: Conn, h: Heard)
    requires Talks(c) && Expects(c.handler, h) && Sound(h.o) && ConnCarries(c)
    requires if h.FromClient? then h.req.Got? && Available(h.req, c.up) else h.ev.Got? && Available(h.ev, c.events)
    ensures ConnCarries(HandlerNext(w, c, h))
  {
    if c.handler.AwaitEvent? {
      FirstEvent(c);
    }
    var r := React(c.handler, Resolve(w, c.uid), h);
    var d := HandlerNext(w, c, h);
    assert forall x :: x in c.down ==> x in d.down;
    assert forall x :: x in r.toClient ==> x in d.down;
    assert h.FromWorker? && InAttempt(d.handler) ==> d.events == c.events[1..];
    if h.FromWorker? {
      assert forall x :: x in c.events ==> x == c.events[0] || x in c.events[1..];
    }
  }

  lemma PamCarries(c: Conn, m: PamMove)
    requires Talks(c) && InAttempt(c.handler) && c.worker.Conversing? && ConnCarries(c)
    ensures ConnCarries(PamNext(c, m, true))
  {
    var d := PamNext(c, m, true);
    assert forall x :: x in c.events ==> x in d.events;
    if d.accepted != c.accepted {
      assert WorkerEvent.Auth(Success) in d.events;
    }
  }

  lemma DaemonCarries(w: World, s: Sys, fuel: nat, a: Act)
    requires Inv(w, s) && Token(s) && Carries(w, s) && FairEnabled(s, fuel, a) && OfAttempt(s, a)
    requires a.HandlerReads? || a.WorkerReads? || a.PamMoves?
    ensures Carries(w, Next(w, s, a))
  {
    hide ConnCarries;
    var c := Cur(s);
    match a {
      case HandlerReads(k, h) =>
        HandlerKeepsSingleBegin(w, c, h);
        if s.thread.Reading? {
          HandlerCarries(w, c, h);
        }
      case WorkerReads(k, cmd) =>
        WorkerCarries(c, cmd);
      case PamMoves(k, m, ok) =>
        PamCarries(c, m);
    }
  }

  lemma WorkerCarries(c: Conn, cmd: Incoming<WorkerCommand>)
    requires ConnCarries(c) && Reading(c.worker) && Available(cmd, c.cmds)
    ensures ConnCarries(WorkerNext(c, cmd))
  {
    var d := WorkerNext(c, cmd);
    assert forall x :: x in c.events ==> x in d.events;
  }

  /** The current connection is the only one of the attempt under way. */
  lemma OnlyCurrent(w: World, s: Sys)
    requires Linked(w, s) && L.Connected(s.thread)
    ensures Granted(w, s, s.attempts) <==> Cur(s).accepted != []
  {
  }

  lemma ThreadCarries(w: World, s: Sys, fuel: nat, i: L.Read)
    requires Inv(w, s) && Token(s) && Carries(w, s) && FairEnabled(s, fuel, ThreadReads(i))
    ensures Carries(w, Next(w, s, ThreadReads(i)))
  {
    var s' := Next(w, s, ThreadReads(i));
    if s.thread.Reading? {
      ReadingCarries(w, s, fuel, i);
    }
  }

  lemma ReadingCarries(w: World, s: Sys, fuel: nat, i: L.Read)
    requires Inv(w, s) && Token(s) && Carries(w, s) && FairEnabled(s, fuel, ThreadReads(i)) && s.thread.Reading?
    ensures Carries(w, Next(w, s, ThreadReads(i)))
  {
    hide Turn, Talks, ConnInv, UnlocksGranted, Next;
    var s' := Next(w, s, ThreadReads(i));
    OnlyCurrent(w, s);
    var c := Cur(s);
    FirstResponse(c);
    ReadingMoves(w, s, i);
    assert forall x :: x in c.down ==> x == c.down[0] || x in c.down[1..];
    if !L.Connected(s'.thread) && Granted(w, s', s'.attempts) {
      GrantsLast(w, s', s);
    }
  }

  /** What reading a response moves: it comes off its connection, and the thread with it. */
  lemma ReadingMoves(w: World, s: Sys, i: L.Read)
    requires Enabled(s, ThreadReads(i)) && s.thread.Reading? && i.r.Got?
    ensures var s', c := Next(w, s, ThreadReads(i)), s.conns[s.current];
            && s'.conns == s.conns[s.current := c.(down := c.down[1..])]
            && s'.current == s.current && s'.attempts == s.attempts
            && s'.thread == L.Step(s.thread, i).next && s'.messages == s.messages + L.Step(s.thread, i).emits
  {
    assert forall c: Conn :: c.up + [] == c.up;
  }

  /** Where the attempt stands is the same for states that differ in the UI only. */
  lemma SameGrants(w: World, s: Sys, s': Sys)
    requires s'.conns == s.conns
    ensures forall a :: Granted(w, s', a) <==> Granted(w, s, a)
  {
    GrantsLast(w, s, s');
    GrantsLast(w, s', s);
  }

  lemma PersonCarries(w: World, s: Sys, fuel: nat, m: L.Message)
    requires s.thread != L.Dead && Carries(w, s) && FairEnabled(s, fuel, Person(m))
    ensures Carries(w, Next(w, s, Person(m))) && Next(w, s, Person(m)).ui.phase == L.Authenticating
  {
    hide ConnCarries, Spent, Granted;
    SameGrants(w, s, Next(w, s, Person(m)));
  }

  lemma DeliveryCarries(w: World, s: Sys, fuel: nat)
    requires Inv(w, s) && !s.lost && s.thread != L.Dead && Carries(w, s) && FairEnabled(s, fuel, Deliver)
    ensures var s' := Next(w, s, Deliver);
            && (s'.ui.phase == L.Authenticating ==> Carries(w, s'))
            && (s'.ui.phase != L.Authenticating ==> (s'.ui.phase == L.Unlocking <==> Granted(w, s', s'.attempts)))
  {
    hide ConnCarries, Spent, Linked, Quiet, Front, Last, Granted;
    SameGrants(w, s, Next(w, s, Deliver));
    TakeFirst(s.messages);
    assert forall x :: x in s.messages ==> x == s.messages[0] || x in s.messages[1..];
  }

  lemma UiCarries(w: World, s: Sys, fuel: nat, a: Act)
    requires Inv(w, s) && Token(s) && Carries(w, s) && FairEnabled(s, fuel, a) && (a.Person? || a.Deliver?)
    ensures var s' := Next(w, s, a);
            && (s'.ui.phase == L.Authenticating ==> Carries(w, s'))
            && (s'.ui.phase != L.Authenticating ==> (s'.ui.phase == L.Unlocking <==> Granted(w, s', s'.attempts)))
  {
    hide Carries, Granted, Turn, Linked, UnlocksGranted, FairEnabled, Next;
    if a.Person? {
      PersonCarries(w, s, fuel, a.m);
    } else {
      DeliveryCarries(w, s, fuel);
    }
  }

  lemma OthersCarry(w: World, s: Sys, fuel: nat, a: Act)
    requires Inv(w, s) && Token(s) && Carries(w, s) && FairEnabled(s, fuel, a) && !OfAttempt(s, a) && !a.Person?
    ensures Carries(w, Next(w, s, a))
  {
    var s' := Next(w, s, a);
    OthersAreHarmless(w, s, fuel, a);
    if !L.Connected(s.thread) {
      forall k | 0 <= k < |s'.conns| && s'.conns[k].owner == LockScreen(s'.attempts)
        ensures Spent(s'.conns[k]) && s'.conns[k].accepted == s.conns[k].accepted
      {
        OtherSpent(w, s, fuel, a, k);
      }
      if Granted(w, s', s.attempts) {
        var k :| 0 <= k < |s'.conns| && s'.conns[k].owner == LockScreen(s.attempts) && s'.conns[k].accepted != [];
        assert s.conns[k].accepted != [];
      }
    }
  }

  lemma OtherSpent(w: World, s: Sys, fuel: nat, a: Act, k: nat)
    requires FairEnabled(s, fuel, a) && !OfAttempt(s, a) && !a.Person?
    requires k < |s.conns| && s.conns[k].owner.LockScreen? && Spent(s.conns[k])
    ensures k < |Next(w, s, a).conns|
    ensures Spent(Next(w, s, a).conns[k]) && Next(w, s, a).conns[k].accepted == s.conns[k].accepted
  {
    if a.HandlerReads? && a.k == k {
      SpentStaysSpent(w, s.conns[k], a.heard);
      HandlerKeepsSingleBegin(w, s.conns[k], a.heard);
    }
  }

  // ---- The theorems ----

  /** What an attempt under way keeps. */
  predicate UnderWay(w: World, s: Sys) {
    Inv(w, s) && Token(s) && Carries(w, s) && s.ui.phase == L.Authenticating
  }

  /** One fair step: an attempt step makes the measure drop, a bystander's leaves it; the
      step that ends the attempt unlocks exactly when PAM accepted. */
  lemma FairStep(w: World, s: Sys, fuel: nat, a: Act)
    requires UnderWay(w, s) && FairEnabled(s, fuel, a)
    ensures var s', fuel' := Next(w, s, a), FuelAfter(s, fuel, a);
            && (if OfAttempt(s, a) then Measure(s', fuel') < Measure(s, fuel)
                else Measure(s', fuel') == Measure(s, fuel))
            && (s'.ui.phase == L.Authenticating ==> UnderWay(w, s'))
            && (s'.ui.phase != L.Authenticating ==> (s'.ui.phase == L.Unlocking <==> Granted(w, s', s'.attempts)))
  {
    StepKeeps(w, s, a);
    hide Inv, Linked, Carries, Measure, Next;
    if a.Person? || a.Deliver? {
      FairUiStep(w, s, fuel, a);
    } else if OfAttempt(s, a) {
      FairAttemptStep(w, s, fuel, a);
    } else {
      FairOtherStep(w, s, fuel, a);
    }
  }

  lemma FairUiStep(w: World, s: Sys, fuel: nat, a: Act)
    requires UnderWay(w, s) && FairEnabled(s, fuel, a) && (a.Person? || a.Deliver?)
    ensures var s', fuel' := Next(w, s, a), FuelAfter(s, fuel, a);
            && (if OfAttempt(s, a) then Measure(s', fuel') < Measure(s, fuel)
                else Measure(s', fuel') == Measure(s, fuel))
            && Token(s')
            && (s'.ui.phase == L.Authenticating ==> Carries(w, s'))
            && (s'.ui.phase != L.Authenticating ==> (s'.ui.phase == L.Unlocking <==> Granted(w, s', s'.attempts)))
  {
    hide Carries, Measure, Next, Token, Turn, Linked, Granted;
    UiCarries(w, s, fuel, a);
    if OfAttempt(s, a) {
      UiAdvances(w, s, fuel, a);
    } else {
      TypingIsHarmless(w, s, fuel, a.m);
    }
  }

  lemma FairAttemptStep(w: World, s: Sys, fuel: nat, a: Act)
    requires UnderWay(w, s) && FairEnabled(s, fuel, a) && OfAttempt(s, a) && !a.Person? && !a.Deliver?
    ensures var s', fuel' := Next(w, s, a), FuelAfter(s, fuel, a);
            && Measure(s', fuel') < Measure(s, fuel)
            && Token(s') && Carries(w, s') && s'.ui.phase == L.Authenticating
  {
    hide Carries, Measure, Token, Turn, Linked, ThreadNext, HandlerNext;
    match a {
      case ThreadReads(i) =>
        ThreadCarries(w, s, fuel, i);
        ThreadAdvances(w, s, fuel, i);
      case _ =>
        DaemonCarries(w, s, fuel, a);
        DaemonAdvances(w, s, fuel, a);
    }
  }

  lemma ThreadAdvances(w: World, s: Sys, fuel: nat, i: L.Read)
    requires Inv(w, s) && Token(s) && FairEnabled(s, fuel, ThreadReads(i))
    ensures var s' := Next(w, s, ThreadReads(i));
            Token(s') && Measure(s', fuel) < Measure(s, fuel) && s'.ui == s.ui
  {
    hide Measure, Token, Turn, Linked;
    if s.thread.Reading? {
      ThreadReadsDaemon(w, s, fuel, i);
    } else {
      ThreadReadsCommand(w, s, fuel, i);
    }
  }

  lemma FairOtherStep(w: World, s: Sys, fuel: nat, a: Act)
    requires UnderWay(w, s) && FairEnabled(s, fuel, a) && !OfAttempt(s, a) && !a.Person?
    ensures var s', fuel' := Next(w, s, a), FuelAfter(s, fuel, a);
            && Measure(s', fuel') == Measure(s, fuel)
            && Token(s') && Carries(w, s') && s'.ui.phase == L.Authenticating
  {
    hide Carries, Measure, Turn, Next;
    OthersCarry(w, s, fuel, a);
    OthersAreHarmless(w, s, fuel, a);
    SameAttempt(s, Next(w, s, a), fuel);
  }

  /** No deadlock: while an attempt is under way some attempt step is enabled, be it only
      the person's submitting the prompt that is open. */
  lemma NeverBlocked(w: World, s: Sys, fuel: nat) returns (a: Act)
    requires UnderWay(w, s)
    ensures FairEnabled(s, fuel, a) && OfAttempt(s, a)
    ensures a.Person? ==> s.ui.prompt.Some? && s.thread.AwaitingReply? && s.commands == []
  {
    if s.messages != [] {
      a := Deliver;
    } else if s.ui.prompt.Some? {
      a := Person(L.PromptSubmitted);
    } else if s.commands != [] {
      a := ThreadReads(L.FromUi(s.commands[0], true, true));
    } else {
      var c := Cur(s);
      if c.down != [] {
        a := ThreadReads(L.FromDaemon(Got(c.down[0]), true));
      } else if c.up != [] {
        a := HandlerReads(s.current, FromClient(Got(c.up[0]), GOOD));
      } else if c.events != [] {
        a := HandlerReads(s.current, FromWorker(Got(c.events[0]), GOOD));
      } else if c.cmds != [] {
        a := WorkerReads(s.current, Got(c.cmds[0]));
      } else {
        a := PamMoves(s.current, Return(false), true);
      }
    }
  }

  /** A fair run so far: its state, the PAM calls left, and the attempt steps taken. */
  datatype Fair = Fair(s: Sys, fuel: nat, steps: nat)

  function FairRun(w: World, s: Sys, fuel: nat, acts: seq<Act>): Option<Fair> {
    if acts == [] then Some(Fair(s, fuel, 0))
    else
      var before := FairRun(w, s, fuel, Front(acts));
      var a := Last(acts);
      if before.None? || !FairEnabled(before.value.s, before.value.fuel, a) then None
      else
        var f := before.value;
        Some(Fair(Next(w, f.s, a), FuelAfter(f.s, f.fuel, a), f.steps + Num(OfAttempt(f.s, a))))
  }

  /** Along a fair run the attempt steps taken are paid for by the measure. */
  lemma {:induction false} FairRunPays(w: World, s: Sys, fuel: nat, acts: seq<Act>)
    requires UnderWay(w, s) && FairRun(w, s, fuel, acts).Some?
    ensures var f := FairRun(w, s, fuel, acts).value;
            && f.steps + Measure(f.s, f.fuel) <= Measure(s, fuel)
            && (if f.s.ui.phase == L.Authenticating then UnderWay(w, f.s)
                else (f.s.ui.phase == L.Unlocking <==> Granted(w, f.s, f.s.attempts)))
  {
    if acts != [] {
      FairRunPays(w, s, fuel, Front(acts));
      var f := FairRun(w, s, fuel, Front(acts)).value;
      FairStep(w, f.s, f.fuel, Last(acts));
      hide UnderWay, Measure, Next, OfAttempt;
    }
  }

  /** Pressing unlock on a ready, locked screen starts an attempt. */
  lemma PressStarts(w: World, s: Sys, fuel: nat)
    requires Inv(w, s) && s.ui.phase == L.Locked && s.ui.ready && s.thread != L.Dead
    ensures var s1 := Next(w, s, Person(L.UnlockPressed));
            UnderWay(w, s1) && Measure(s1, fuel) == 9 * fuel + 6 * |s.messages| + 15
  {
    StepKeeps(w, s, Person(L.UnlockPressed));
    hide ConnInv, SingleBegin, Fresh, UnlocksGranted;
    assert Turn(s) && Resting(s) && s.thread == L.Idle;
  }

  /** Every fair run from an unlock press ends within 9 steps per PAM call plus a constant
      and the notices still queued: it can only stop with the attempt decided, and then the
      screen is unlocking exactly when PAM accepted in this attempt, and locked otherwise. */
  lemma AttemptTerminates(w: World, dev: bool, acts: seq<Act>, s: Sys, fuel: nat, fair: seq<Act>)
    requires Run(w, Init(dev), acts) == Some(s)
    requires s.ui.phase == L.Locked && s.ui.ready && s.thread != L.Dead
    requires FairRun(w, Next(w, s, Person(L.UnlockPressed)), fuel, fair).Some?
    ensures var f := FairRun(w, Next(w, s, Person(L.UnlockPressed)), fuel, fair).value;
            && f.steps <= 9 * fuel + 6 * |s.messages| + 15
            && ((forall a :: FairEnabled(f.s, f.fuel, a) ==> !OfAttempt(f.s, a)) ==> f.s.ui.phase != L.Authenticating)
            && (f.s.ui.phase != L.Authenticating ==>
                  f.s.ui.phase == if Granted(w, f.s, f.s.attempts) then L.Unlocking else L.Locked)
  {
    RunKeeps(w, dev, acts);
    var s1 := Next(w, s, Person(L.UnlockPressed));
    PressStarts(w, s, fuel);
    FairRunPays(w, s1, fuel, fair);
    var f := FairRun(w, s1, fuel, fair).value;
    hide Run, Inv, Measure, Next, FairRun;
    if f.s.ui.phase == L.Authenticating {
      var a := NeverBlocked(w, f.s, f.fuel);
    }
  }
}
