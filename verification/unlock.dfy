/** The lock screen, the reauth listener and the PAM workers together, with any number of
    other local peers connected to the same socket. Every party moves one read at a time,
    in any interleaving, and any read or write may fail. */
module UnlockSystem {
  import opened Protocol
  import opened PamWorker
  import opened Reauth
  import L = Locker

  /** Fixed for a run: the lock screen's uid and the passwd database. */
  datatype World = World(lockUid: nat, passwd: map<nat, string>)

  function Resolve(w: World, uid: nat): Option<string> {
    if uid in w.passwd then Some(w.passwd[uid]) else None
  }

  /** Who dialled a connection: the lock screen for its n-th attempt, or anybody else. */
  datatype Owner = LockScreen(attempt: nat) | Stranger

  /** One connection to the reauth socket, with the worker of its current attempt.
      `begun` counts the attempts it opened and `accepted` the names PAM accepted. */
  datatype Conn = Conn(
    uid: nat,
    owner: Owner,
    up: seq<ReauthRequest>,
    down: seq<ReauthResponse>,
    handler: Handler,
    cmds: seq<WorkerCommand>,
    events: seq<WorkerEvent>,
    worker: Worker,
    begun: nat,
    accepted: seq<string>)

  /** `attempts` counts the `Authenticate` commands sent, `lost` remembers an unlock press
      that had no worker to go to, `asked` and `replied` count prompt messages emitted and
      reply commands sent, `pending` is an unlock on its way to the shell. */
  datatype Sys = Sys(
    ui: L.Ui,
    commands: seq<L.Command>,
    messages: seq<L.Message>,
    thread: L.LockWorker,
    current: nat,
    conns: seq<Conn>,
    attempts: nat,
    lost: bool,
    asked: nat,
    replied: nat,
    pending: Option<nat>,
    unlocked: seq<nat>)

  datatype Act =
    | Person(m: L.Message)
    | Deliver
    | UnLockReturns
    | ShellUnlocks
    | ThreadReads(read: L.Read)
    | ThreadDies
    | Connects(uid: nat)
    | StrangerSends(k: nat, req: ReauthRequest)
    | HandlerReads(k: nat, heard: Heard)
    | WorkerReads(k: nat, c: Incoming<WorkerCommand>)
    | PamMoves(k: nat, move: PamMove, ok: bool)

  function Init(dev: bool): Sys {
    Sys(L.Boot(dev), [], [L.WorkerReady], L.Idle, 0, [], 0, false, 0, 0, None, [])
  }

  /** A frame that is read must be the one in front; a broken or silent peer can be
      noticed at any time. */
  predicate Available<T(==)>(r: Incoming<T>, channel: seq<T>) {
    r.Got? ==> channel != [] && channel[0] == r.msg
  }

  function Rest<T>(r: Incoming<T>, channel: seq<T>): seq<T>
    requires r.Got? ==> channel != []
  {
    if r.Got? then channel[1..] else channel
  }

  predicate Enabled(s: Sys, a: Act) {
    match a
    case Person(m) => L.FromPerson(m)
    case Deliver => s.messages != []
    case UnLockReturns => s.pending.Some?
    case ShellUnlocks => s.pending.Some?
    case ThreadReads(i) =>
      && L.Expects(s.thread, i)
      && (i.FromUi? ==> s.commands != [] && s.commands[0] == i.c)
      && (i.FromDaemon? ==> s.current < |s.conns| && Available(i.r, s.conns[s.current].down))
    case ThreadDies => s.thread != L.Dead
    case Connects(_) => true
    case StrangerSends(k, _) => k < |s.conns| && s.conns[k].owner.Stranger?
    case HandlerReads(k, i) =>
      && k < |s.conns| && Expects(s.conns[k].handler, i)
      && (i.FromClient? ==> Available(i.req, s.conns[k].up))
      && (i.FromWorker? ==> Available(i.ev, s.conns[k].events))
    case WorkerReads(k, c) =>
      k < |s.conns| && Reading(s.conns[k].worker) && Available(c, s.conns[k].cmds)
    case PamMoves(k, _, _) => k < |s.conns| && s.conns[k].worker.Conversing?
  }

  function Dialled(uid: nat, owner: Owner, up: seq<ReauthRequest>): Conn {
    Conn(uid, owner, up, [], AwaitHello, [], [], Exited, 0, [])
  }

  /** The UI takes one message; a command it sends goes to the queue, and an unlock it
      emits is for the attempt under way. */
  function Shows(s: Sys, m: L.Message): Sys {
    var h := L.Update(s.ui, m, s.thread != L.Dead);
    var pressed := m.UnlockPressed? && s.ui.phase == L.Locked;
    s.(ui := h.ui,
       commands := s.commands + h.sent,
       attempts := if h.sent == [L.Authenticate] then s.attempts + 1 else s.attempts,
       replied := if h.sent != [] && h.sent[0].Reply? then s.replied + 1 else s.replied,
       lost := s.lost || (pressed && !s.ui.ready),
       pending := if m.AuthSucceeded? then Some(s.attempts) else s.pending)
  }

  /** The worker thread's move as the UI sees it. */
  function ThreadQueues(s: Sys, i: L.Read): Sys
    requires L.Expects(s.thread, i) && (i.FromUi? ==> s.commands != [])
  {
    var t := L.Step(s.thread, i);
    s.(thread := t.next,
       messages := s.messages + t.emits,
       asked := s.asked + Num(t.next.AwaitingReply?),
       commands := if i.FromUi? then s.commands[1..] else s.commands)
  }

  /** Its move on the connection: a dial opens a fresh one. */
  function ThreadNext(w: World, s: Sys, i: L.Read): Sys
    requires Enabled(s, ThreadReads(i))
  {
    var t := L.Step(s.thread, i);
    var q := ThreadQueues(s, i);
    if t.dials then
      q.(conns := s.conns + [Dialled(w.lockUid, LockScreen(s.attempts), t.requests)], current := |s.conns|)
    else if s.current < |s.conns| then
      var c := s.conns[s.current];
      q.(conns := s.conns[s.current := c.(up := c.up + t.requests,
                                          down := if i.FromDaemon? then Rest(i.r, c.down) else c.down)])
    else q
  }

  function HandlerNext(w: World, c: Conn, i: Heard): Conn
    requires Expects(c.handler, i)
    requires i.FromClient? ==> Available(i.req, c.up)
    requires i.FromWorker? ==> Available(i.ev, c.events)
  {
    var r := React(c.handler, Resolve(w, c.uid), i);
    var c1 := c.(handler := r.next, down := c.down + r.toClient,
                 up := if i.FromClient? then Rest(i.req, c.up) else c.up,
                 events := if i.FromWorker? then Rest(i.ev, c.events) else c.events);
    if !InAttempt(r.next) then c1.(cmds := [], events := [], worker := Exited)
    else if InAttempt(c.handler) then c1.(cmds := c.cmds + r.toWorker)
    else c1.(cmds := r.toWorker, events := [], worker := Idle(None), begun := c.begun + 1)
  }

  function WorkerNext(c: Conn, cmd: Incoming<WorkerCommand>): Conn
    requires Reading(c.worker) && Available(cmd, c.cmds)
  {
    var m := Receive(c.worker, cmd, false);
    c.(worker := m.next, cmds := Rest(cmd, c.cmds), events := c.events + m.out)
  }

  function PamNext(c: Conn, m: PamMove, ok: bool): Conn
    requires c.worker.Conversing?
  {
    var moved := Move(c.worker, m, ok);
    c.(worker := moved.next, events := c.events + moved.out,
       accepted := if m.Return? && VerdictOf(c.worker, m.passed) == Some(Verdict.Success)
                   then c.accepted + [c.worker.user] else c.accepted)
  }

  function Next(w: World, s: Sys, a: Act): Sys
    requires Enabled(s, a)
  {
    match a
    case Person(m) => Shows(s, m)
    case Deliver => Shows(s.(messages := s.messages[1..]), s.messages[0])
    case UnLockReturns =>
      var h := L.Update(s.ui, L.UnLock, true);
      if h.task == L.EmitUnLock then s else s.(pending := None)
    case ShellUnlocks => s.(unlocked := s.unlocked + [s.pending.value], pending := None)
    case ThreadReads(i) => ThreadNext(w, s, i)
    case ThreadDies => s.(thread := L.Dead, commands := [])
    case Connects(uid) => s.(conns := s.conns + [Dialled(uid, Stranger, [])])
    case StrangerSends(k, req) => s.(conns := s.conns[k := s.conns[k].(up := s.conns[k].up + [req])])
    case HandlerReads(k, i) => s.(conns := s.conns[k := HandlerNext(w, s.conns[k], i)])
    case WorkerReads(k, c) => s.(conns := s.conns[k := WorkerNext(s.conns[k], c)])
    case PamMoves(k, m, ok) => s.(conns := s.conns[k := PamNext(s.conns[k], m, ok)])
  }

  /** The state after a run, if every step of it is enabled where it is taken. */
  function Run(w: World, s: Sys, acts: seq<Act>): Option<Sys> {
    if acts == [] then Some(s)
    else
      var before := Run(w, s, acts[..|acts| - 1]);
      if before.None? || !Enabled(before.value, acts[|acts| - 1]) then None
      else Some(Next(w, before.value, acts[|acts| - 1]))
  }

  // ---- What every connection keeps ----

  /** The attempt's `Auth` is still on its way to a fresh worker. */
  predicate AuthUnderway(c: Conn) {
    exists cmd :: cmd in c.cmds && cmd.Auth?
  }

  predicate Busy(w: Worker) {
    w.Conversing? || w.Asking?
  }

  /** An `Auth` is only ever the first command, and only a fresh worker (or one that died
      before reading it) has it in front. */
  predicate AuthFirst(c: Conn) {
    && (forall k :: 1 <= k < |c.cmds| ==> IsAnswer(c.cmds[k]))
    && (c.cmds != [] && !IsAnswer(c.cmds[0]) ==> c.cmds[0].Auth? && c.worker in {Idle(None), Exited})
  }

  /** The only name a connection can involve is that of its own peer; PAM accepts it at most
      once per attempt; and a success is on its way, to the daemon or to the client, only
      once PAM accepted. */
  predicate ConnInv(w: World, c: Conn) {
    var who := Resolve(w, c.uid);
    && (InAttempt(c.handler) ==> who == Some(c.handler.name))
    && AuthFirst(c)
    && (forall cmd :: cmd in c.cmds && cmd.Auth? ==> who == Some(cmd.username))
    && (Busy(c.worker) ==> who == Some(c.worker.user))
    && (forall a :: a in c.accepted ==> who == Some(a))
    && (WorkerEvent.Auth(Success) in c.events ==> c.accepted != [])
    && (ReauthResponse.Allow in c.down ==> c.accepted != [])
    && |c.accepted| + Num(Busy(c.worker) || AuthUnderway(c)) <= c.begun
  }

  lemma ConnInvIgnoresUp(w: World, c: Conn, up: seq<ReauthRequest>)
    ensures ConnInv(w, c.(up := up)) == ConnInv(w, c)
  {
    assert AuthUnderway(c.(up := up)) == AuthUnderway(c);
  }

  lemma HandlerKeeps(w: World, c: Conn, i: Heard)
    requires ConnInv(w, c) && Expects(c.handler, i)
    requires i.FromClient? ==> Available(i.req, c.up)
    requires i.FromWorker? ==> Available(i.ev, c.events)
    ensures ConnInv(w, HandlerNext(w, c, i))
  {
    hide React;
    ReactionWrites(c.handler, Resolve(w, c.uid), i);
    ReactionSays(c.handler, Resolve(w, c.uid), i);
    var d := HandlerNext(w, c, i);
    if AuthUnderway(d) && InAttempt(c.handler) {
      assert AuthUnderway(c);
    }
  }

  lemma WorkerKeeps(w: World, c: Conn, cmd: Incoming<WorkerCommand>)
    requires ConnInv(w, c) && Reading(c.worker) && Available(cmd, c.cmds)
    ensures ConnInv(w, WorkerNext(c, cmd))
  {
    var d := WorkerNext(c, cmd);
    assert forall k :: 0 <= k < |d.cmds| && cmd.Got? ==> d.cmds[k] == c.cmds[k + 1];
    assert c.cmds != [] ==> c.cmds[0] in c.cmds;
    assert AuthUnderway(d) ==> AuthUnderway(c);
  }

  lemma PamKeeps(w: World, c: Conn, m: PamMove, ok: bool)
    requires ConnInv(w, c) && c.worker.Conversing?
    ensures ConnInv(w, PamNext(c, m, ok))
  {
    var d := PamNext(c, m, ok);
    assert !AuthUnderway(c);
    assert AuthUnderway(d) ==> AuthUnderway(c);
  }

  // ---- Whose turn it is between UI and worker thread ----

  predicate Hushed(m: L.Message) {
    m.Notice? || m.WorkerReady?
  }

  predicate Quiet(ms: seq<L.Message>) {
    forall m :: m in ms ==> Hushed(m)
  }

  /** One prompt is on its way to the UI, behind nothing but notices. */
  predicate PromptPending(s: Sys) {
    s.messages != [] && Quiet(Front(s.messages)) && Last(s.messages).Prompt?
  }

  /** The verdict of the attempt is the last message, and nothing else is under way. */
  predicate VerdictPending(s: Sys) {
    && s.ui.ready && s.ui.phase == L.Authenticating && s.ui.prompt.None?
    && s.messages != [] && Quiet(Front(s.messages)) && L.Terminal(Last(s.messages))
  }

  /** An attempt is running and the UI has nothing to answer. */
  predicate InFlight(s: Sys) {
    s.ui.ready && s.ui.phase == L.Authenticating && s.ui.prompt.None? && Quiet(s.messages)
  }

  /** No attempt is running. */
  predicate Resting(s: Sys) {
    s.ui.phase != L.Authenticating && s.ui.prompt.None? && Quiet(s.messages) && s.commands == []
  }

  /** The UI believes an attempt is running, but none is and none ever will be. */
  predicate Wedged(s: Sys) {
    && s.lost && s.ui.phase == L.Authenticating && s.ui.prompt.None?
    && Quiet(s.messages) && s.commands == [] && (s.thread.Idle? || s.thread.Dead?)
  }

  /** The person has the prompt, or its reply is queued, or the prompt is on its way. */
  predicate Conversing(s: Sys) {
    && s.ui.ready && s.ui.phase == L.Authenticating
    && (if s.commands == [] then
          if s.ui.prompt.None? then PromptPending(s) else Quiet(s.messages)
        else |s.commands| == 1 && s.commands[0].Reply? && s.ui.prompt.None? && Quiet(s.messages))
  }

  /** Exactly one of UI and worker thread can move the attempt on. */
  predicate Turn(s: Sys) {
    && (s.ui.ready ==> L.WorkerReady !in s.messages)
    && (!s.ui.ready ==> s.messages == [L.WorkerReady])
    && (s.lost ==> Wedged(s))
    && (s.ui.phase == L.Unlocking ==> Resting(s) && (s.thread.Idle? || s.thread.Dead?))
    && (s.pending.Some? ==> s.ui.phase == L.Unlocking)
    && (match s.thread
        case Idle =>
          || Resting(s) || Wedged(s)
          || (InFlight(s) && s.commands == [L.Authenticate])
          || (VerdictPending(s) && s.commands == [])
        case Greeting => InFlight(s) && s.commands == []
        case Reading => InFlight(s) && s.commands == []
        case AwaitingReply => Conversing(s)
        case Dead => s.commands == [] && (L.AuthSucceeded in s.messages ==> VerdictPending(s)))
    && (if s.thread.Dead? then s.replied <= s.asked <= s.replied + 1
        else s.asked == s.replied + Num(s.thread.AwaitingReply? && s.commands == []))
  }

  lemma TurnIgnoresConns(s: Sys, conns: seq<Conn>, current: nat)
    ensures Turn(s.(conns := conns, current := current)) == Turn(s)
  {
  }

  lemma PersonKeepsTurn(s: Sys, m: L.Message)
    requires Turn(s) && L.FromPerson(m)
    ensures Turn(Shows(s, m))
  {
  }

  /** What taking the first message off the queue leaves. */
  lemma TakeFirst(ms: seq<L.Message>)
    requires ms != []
    ensures Quiet(ms) ==> Quiet(ms[1..]) && Hushed(ms[0])
    ensures ms[0] in ms && forall m :: m in ms[1..] ==> m in ms
    ensures |ms| > 1 ==> Last(ms[1..]) == Last(ms) && (Quiet(Front(ms)) ==> Hushed(ms[0]) && Quiet(Front(ms[1..])))
    ensures |ms| == 1 ==> Last(ms) == ms[0] && ms[1..] == [] && Quiet(ms[1..])
  {
    if |ms| > 1 {
      assert Front(ms[1..]) == Front(ms)[1..] && Front(ms)[0] == ms[0];
    }
  }

  lemma QuietDeliveryKeepsTurn(s: Sys)
    requires Turn(s) && s.messages != [] && Hushed(s.messages[0])
    ensures Turn(Shows(s.(messages := s.messages[1..]), s.messages[0]))
  {
    hide Quiet, Front, Last;
    TakeFirst(s.messages);
  }

  lemma LastDeliveryKeepsTurn(s: Sys)
    requires Turn(s) && s.messages != [] && !Hushed(s.messages[0])
    ensures Turn(Shows(s.(messages := s.messages[1..]), s.messages[0]))
  {
    hide Turn, Hushed, Shows, Quiet, Front, Last;
    if s.thread.Dead? {
      DeadDeliveryKeepsTurn(s);
    } else {
      LoudIsLast(s);
      LastOneKeepsTurn(s);
    }
  }

  lemma DeadDeliveryKeepsTurn(s: Sys)
    requires Turn(s) && s.thread.Dead? && s.messages != [] && !Hushed(s.messages[0])
    ensures Turn(Shows(s.(messages := s.messages[1..]), s.messages[0]))
  {
    hide Quiet, Front, Last;
    TakeFirst(s.messages);
  }

  lemma LoudIsLast(s: Sys)
    requires Turn(s) && !s.thread.Dead? && s.messages != [] && !Hushed(s.messages[0])
    ensures |s.messages| == 1
  {
    hide Quiet, Front, Last, Hushed;
    TakeFirst(s.messages);
  }

  lemma LastOneKeepsTurn(s: Sys)
    requires Turn(s) && |s.messages| == 1 && !Hushed(s.messages[0])
    ensures Turn(Shows(s.(messages := s.messages[1..]), s.messages[0]))
  {
    hide Quiet, Front, Last;
    TakeFirst(s.messages);
  }

  lemma DeliverKeepsTurn(w: World, s: Sys)
    requires Turn(s) && s.messages != []
    ensures Turn(Next(w, s, Deliver))
  {
    hide Turn, Shows;
    if Hushed(s.messages[0]) {
      QuietDeliveryKeepsTurn(s);
    } else {
      LastDeliveryKeepsTurn(s);
    }
  }

  /** What putting a message at the end of the queue, or none, leaves. */
  lemma PutLast(ms: seq<L.Message>, more: seq<L.Message>)
    requires |more| <= 1
    ensures more != [] ==> Front(ms + more) == ms && Last(ms + more) == more[0]
    ensures more == [] ==> ms + more == ms
    ensures Quiet(ms) && (more == [] || Hushed(more[0])) ==> Quiet(ms + more)
    ensures forall m :: m in ms + more ==> m in ms || (more != [] && m == more[0])
  {
  }

  lemma IdleThreadKeepsTurn(s: Sys, i: L.Read)
    requires Turn(s) && s.thread.Idle? && i.FromUi? && s.commands != [] && s.commands[0] == i.c
    ensures Turn(ThreadQueues(s, i))
  {
    hide Quiet, Front, Last;
    PutLast(s.messages, L.Step(s.thread, i).emits);
  }

  lemma AskingThreadKeepsTurn(s: Sys, i: L.Read)
    requires Turn(s) && s.thread.AwaitingReply? && i.FromUi? && s.commands != [] && s.commands[0] == i.c
    ensures Turn(ThreadQueues(s, i))
  {
    hide Quiet, Front, Last;
    PutLast(s.messages, L.Step(s.thread, i).emits);
  }

  lemma ReadingThreadKeepsTurn(s: Sys, i: L.Read)
    requires Turn(s) && (s.thread.Greeting? || s.thread.Reading?) && i.FromDaemon?
    ensures Turn(ThreadQueues(s, i))
  {
    hide Quiet, Front, Last;
    PutLast(s.messages, L.Step(s.thread, i).emits);
  }

  // ---- Connections and attempts ----

  /** A connection of the lock screen carries at most one `Begin`, and opens at most one
      attempt for it. */
  predicate SingleBegin(c: Conn) {
    && c.begun <= 1
    && (ReauthRequest.Begin in c.up ==> c.begun == 0)
    && (forall i, j :: 0 <= i < j < |c.up| && c.up[i].Begin? ==> !c.up[j].Begin?)
  }

  predicate Fresh(c: Conn) {
    c.begun == 0 && ReauthRequest.Begin !in c.up
  }

  /** Every attempt has at most one connection, dialled by the lock screen's own uid; while
      the thread is connected, its connection is that of the attempt under way. */
  predicate Linked(w: World, s: Sys) {
    && (forall k :: 0 <= k < |s.conns| ==> ConnInv(w, s.conns[k]))
    && (forall k :: 0 <= k < |s.conns| && s.conns[k].owner.LockScreen? ==>
          && s.conns[k].uid == w.lockUid && SingleBegin(s.conns[k])
          && 1 <= s.conns[k].owner.attempt <= s.attempts
          && (s.commands == [L.Authenticate] ==> s.conns[k].owner.attempt < s.attempts))
    && (s.commands == [L.Authenticate] ==> s.attempts >= 1)
    && (forall j, k :: 0 <= j < k < |s.conns| && s.conns[j].owner.LockScreen? ==> s.conns[j].owner != s.conns[k].owner)
    && (L.Connected(s.thread) ==>
          && s.current < |s.conns| && s.conns[s.current].owner == LockScreen(s.attempts)
          && (s.thread.Greeting? ==> Fresh(s.conns[s.current])))
  }

  /** PAM accepted the lock screen's own user in this very attempt. */
  predicate Granted(w: World, s: Sys, attempt: nat) {
    exists k :: 0 <= k < |s.conns| && s.conns[k].owner == LockScreen(attempt) && s.conns[k].accepted != []
  }

  /** An unlock is announced, pending or done only for granted attempts. */
  predicate UnlocksGranted(w: World, s: Sys) {
    && (L.AuthSucceeded in s.messages ==> Granted(w, s, s.attempts))
    && (s.pending.Some? ==> Granted(w, s, s.pending.value))
    && (forall a :: a in s.unlocked ==> Granted(w, s, a))
  }

  predicate Inv(w: World, s: Sys) {
    Turn(s) && Linked(w, s) && UnlocksGranted(w, s)
  }

  /** Connections are only added, keep their owner, and never lose an acceptance. */
  predicate Grows(s: Sys, s': Sys) {
    && |s.conns| <= |s'.conns|
    && forall k :: 0 <= k < |s.conns| ==>
         s'.conns[k].owner == s.conns[k].owner && (s.conns[k].accepted != [] ==> s'.conns[k].accepted != [])
  }

  lemma GrantsLast(w: World, s: Sys, s': Sys)
    requires Grows(s, s')
    ensures forall a :: Granted(w, s, a) ==> Granted(w, s', a)
  {
    forall a | Granted(w, s, a) ensures Granted(w, s', a) {
      var k :| 0 <= k < |s.conns| && s.conns[k].owner == LockScreen(a) && s.conns[k].accepted != [];
      assert s'.conns[k].owner == LockScreen(a);
    }
  }

  lemma OpensOnBegin(h: Handler, who: Option<string>, i: Heard)
    requires Expects(h, i) && !InAttempt(h) && InAttempt(React(h, who, i).next)
    ensures i.FromClient? && i.req == Got(ReauthRequest.Begin)
  {
  }

  lemma HandlerKeepsSingleBegin(w: World, c: Conn, i: Heard)
    requires Expects(c.handler, i)
    requires i.FromClient? ==> Available(i.req, c.up)
    requires i.FromWorker? ==> Available(i.ev, c.events)
    ensures SingleBegin(c) ==> SingleBegin(HandlerNext(w, c, i))
    ensures Fresh(c) ==> Fresh(HandlerNext(w, c, i))
    ensures HandlerNext(w, c, i).owner == c.owner && HandlerNext(w, c, i).uid == c.uid
    ensures HandlerNext(w, c, i).accepted == c.accepted
  {
    var r := React(c.handler, Resolve(w, c.uid), i);
    if !InAttempt(c.handler) && InAttempt(r.next) {
      OpensOnBegin(c.handler, Resolve(w, c.uid), i);
    }
    hide React;
    var d := HandlerNext(w, c, i);
    assert d.up == c.up || d.up == c.up[1..];
  }

  /** A step of the daemon's side touches one connection and nothing of the lock screen. */
  lemma OneConnKeeps(w: World, s: Sys, k: nat, c: Conn)
    requires Inv(w, s) && k < |s.conns| && ConnInv(w, c)
    requires c.owner == s.conns[k].owner && c.uid == s.conns[k].uid
    requires s.conns[k].accepted != [] ==> c.accepted != []
    requires c.owner.LockScreen? && SingleBegin(s.conns[k]) ==> SingleBegin(c)
    requires c.owner.LockScreen? && Fresh(s.conns[k]) ==> Fresh(c)
    ensures Inv(w, s.(conns := s.conns[k := c]))
  {
    var s' := s.(conns := s.conns[k := c]);
    TurnIgnoresConns(s, s'.conns, s.current);
    hide Turn;
    GrantsLast(w, s, s');
  }

  lemma DaemonKeeps(w: World, s: Sys, a: Act)
    requires Inv(w, s) && Enabled(s, a)
    requires a.StrangerSends? || a.HandlerReads? || a.WorkerReads? || a.PamMoves?
    ensures Inv(w, Next(w, s, a))
  {
    hide HandlerNext, ConnInv;
    assert Linked(w, s);
    var c := s.conns[a.k];
    match a {
      case StrangerSends(k, req) =>
        ConnInvIgnoresUp(w, c, c.up + [req]);
        OneConnKeeps(w, s, k, c.(up := c.up + [req]));
      case HandlerReads(k, heard) =>
        HandlerKeeps(w, c, heard);
        HandlerKeepsSingleBegin(w, c, heard);
        OneConnKeeps(w, s, k, HandlerNext(w, c, heard));
      case WorkerReads(k, cmd) =>
        WorkerKeeps(w, c, cmd);
        OneConnKeeps(w, s, k, WorkerNext(c, cmd));
      case PamMoves(k, move, ok) =>
        PamKeeps(w, c, move, ok);
        OneConnKeeps(w, s, k, PamNext(c, move, ok));
    }
  }

  /** What the UI's move does outside the UI: it starts an attempt only when none runs. */
  ghost predicate UiOnly(s: Sys, s': Sys) {
    && s'.conns == s.conns && s'.thread == s.thread && s'.current == s.current
    && (s'.attempts == s.attempts ||
        (s'.attempts == s.attempts + 1 && !L.Connected(s.thread) && L.AuthSucceeded !in s.messages))
    && (s'.commands == [L.Authenticate] ==> s'.attempts == s.attempts + 1 || s.commands == [L.Authenticate])
    && (L.AuthSucceeded in s'.messages ==> L.AuthSucceeded in s.messages)
    && s'.unlocked == s.unlocked
    && (s'.pending == s.pending || (s'.pending == Some(s.attempts) && L.AuthSucceeded in s.messages))
  }

  lemma PersonIsUiOnly(s: Sys, m: L.Message)
    requires Turn(s) && L.FromPerson(m)
    ensures UiOnly(s, Shows(s, m))
  {
    if m.UnlockPressed? && s.ui.phase == L.Locked {
      assert s.commands == [] && (Quiet(s.messages) || s.thread.Dead?);
    }
  }

  lemma DeliveryIsUiOnly(s: Sys)
    requires Turn(s) && s.messages != []
    ensures UiOnly(s, Shows(s.(messages := s.messages[1..]), s.messages[0]))
  {
    hide Quiet, Front, Last;
    TakeFirst(s.messages);
  }

  lemma UiKeeps(w: World, s: Sys, a: Act)
    requires Inv(w, s) && Enabled(s, a) && (a.Person? || a.Deliver?)
    ensures Inv(w, Next(w, s, a))
  {
    hide Turn, Linked, UnlocksGranted, UiOnly, Shows, L.FromPerson;
    if a.Person? {
      PersonKeepsTurn(s, a.m);
      PersonIsUiOnly(s, a.m);
    } else {
      DeliverKeepsTurn(w, s);
      DeliveryIsUiOnly(s);
    }
    UiKeepsLinked(w, s, Next(w, s, a));
  }

  lemma UiKeepsLinked(w: World, s: Sys, s': Sys)
    requires Inv(w, s) && UiOnly(s, s')
    ensures Linked(w, s') && UnlocksGranted(w, s')
  {
    hide Turn, ConnInv, SingleBegin, Fresh;
    GrantsLast(w, s, s');
  }

  /** The thread's current connection moves: more requests up, one response read. */
  lemma CurrentKeeps(w: World, s: Sys, i: L.Read, c: Conn)
    requires Inv(w, s) && Enabled(s, ThreadReads(i)) && s.current < |s.conns|
    requires var t, before := L.Step(s.thread, i), s.conns[s.current];
             && !t.dials
             && c == before.(up := before.up + t.requests,
                             down := if i.FromDaemon? then Rest(i.r, before.down) else before.down)
    ensures ConnInv(w, c)
    ensures L.Connected(s.thread) ==> SingleBegin(c) && (L.Step(s.thread, i).next.Greeting? ==> Fresh(c))
    ensures !L.Connected(s.thread) ==> c == s.conns[s.current]
  {
    hide Turn, UnlocksGranted;
    var before := s.conns[s.current];
    assert forall r :: r in c.down ==> r in before.down;
    if L.Connected(s.thread) {
      assert SingleBegin(before);
    }
    assert before.up + [] == before.up;
  }

  lemma ThreadNextIs(w: World, s: Sys, i: L.Read)
    requires Enabled(s, ThreadReads(i))
    ensures var q, s' := ThreadQueues(s, i), ThreadNext(w, s, i); s' == q.(conns := s'.conns, current := s'.current)
  {
  }

  lemma ThreadKeepsTurn(w: World, s: Sys, i: L.Read)
    requires Turn(s) && Enabled(s, ThreadReads(i))
    ensures Turn(ThreadNext(w, s, i))
  {
    hide Turn, ThreadQueues, ThreadNext;
    match s.thread {
      case Idle => IdleThreadKeepsTurn(s, i);
      case AwaitingReply => AskingThreadKeepsTurn(s, i);
      case _ => ReadingThreadKeepsTurn(s, i);
    }
    ThreadNextIs(w, s, i);
    TurnIgnoresConns(ThreadQueues(s, i), ThreadNext(w, s, i).conns, ThreadNext(w, s, i).current);
  }

  lemma ThreadKeeps(w: World, s: Sys, i: L.Read)
    requires Inv(w, s) && Enabled(s, ThreadReads(i))
    ensures Inv(w, ThreadNext(w, s, i))
  {
    hide Turn, UnlocksGranted, Linked, ThreadNext, Enabled;
    ThreadKeepsTurn(w, s, i);
    ThreadKeepsLinked(w, s, i);
    ThreadKeepsGrants(w, s, i);
  }

  /** Reading an `Allow` off its own connection is what entitles the thread to announce
      success. */
  lemma ThreadKeepsGrants(w: World, s: Sys, i: L.Read)
    requires Inv(w, s) && Enabled(s, ThreadReads(i))
    ensures UnlocksGranted(w, ThreadNext(w, s, i))
  {
    hide SingleBegin, Fresh, Turn, L.Step;
    var s' := ThreadNext(w, s, i);
    ThreadTells(s, i);
    if L.AuthSucceeded in s'.messages && L.AuthSucceeded !in s.messages {
      assert ConnInv(w, s.conns[s.current]) && s.conns[s.current].accepted != [];
      assert s.conns[s.current].owner == LockScreen(s.attempts);
    }
    GrantsLast(w, s, s');
  }

  /** The thread announces success only on an `Allow`. */
  lemma ThreadTells(s: Sys, i: L.Read)
    requires L.Expects(s.thread, i) && (i.FromUi? ==> s.commands != [])
    ensures L.AuthSucceeded in ThreadQueues(s, i).messages && L.AuthSucceeded !in s.messages ==>
              i.FromDaemon? && i.r == Got(ReauthResponse.Allow)
    ensures L.Step(s.thread, i).dials ==> i.FromUi?
  {
  }

  lemma ThreadKeepsLinked(w: World, s: Sys, i: L.Read)
    requires Inv(w, s) && Enabled(s, ThreadReads(i))
    ensures Linked(w, ThreadNext(w, s, i))
  {
    if L.Step(s.thread, i).dials {
      DialKeepsLinked(w, s, i);
    } else {
      RelayKeepsLinked(w, s, i);
    }
  }

  lemma DialKeepsLinked(w: World, s: Sys, i: L.Read)
    requires Inv(w, s) && Enabled(s, ThreadReads(i)) && L.Step(s.thread, i).dials
    ensures Linked(w, ThreadNext(w, s, i))
  {
    var s' := ThreadNext(w, s, i);
    assert s.commands == [L.Authenticate] && s'.commands == [];
    var c := s'.conns[|s.conns|];
    assert ConnInv(w, c) && Fresh(c) && SingleBegin(c);
    hide ConnInv, SingleBegin, Fresh, Turn, UnlocksGranted;
  }

  lemma RelayKeepsLinked(w: World, s: Sys, i: L.Read)
    requires Inv(w, s) && Enabled(s, ThreadReads(i)) && !L.Step(s.thread, i).dials
    ensures Linked(w, ThreadNext(w, s, i))
  {
    var s' := ThreadNext(w, s, i);
    assert s'.commands == [];
    if s.current < |s.conns| {
      CurrentKeeps(w, s, i, s'.conns[s.current]);
      assert s'.conns == s.conns[s.current := s'.conns[s.current]];
    } else {
      assert s'.conns == s.conns;
    }
    assert L.Connected(s'.thread) ==> L.Connected(s.thread);
    hide ConnInv, SingleBegin, Fresh, Turn, UnlocksGranted;
  }

  lemma StrangerKeeps(w: World, s: Sys, uid: nat)
    requires Inv(w, s)
    ensures Inv(w, Next(w, s, Connects(uid)))
  {
    var s' := Next(w, s, Connects(uid));
    assert ConnInv(w, s'.conns[|s.conns|]);
    assert Linked(w, s) && s'.conns[..|s.conns|] == s.conns;
    TurnIgnoresConns(s, s'.conns, s.current);
    hide ConnInv, SingleBegin, Fresh, Turn;
    GrantsLast(w, s, s');
  }

  lemma UnlockStepKeeps(w: World, s: Sys, a: Act)
    requires Inv(w, s) && Enabled(s, a) && (a.UnLockReturns? || a.ShellUnlocks?)
    ensures Inv(w, Next(w, s, a))
  {
    hide ConnInv, SingleBegin, Fresh, Quiet;
    GrantsLast(w, s, Next(w, s, a));
  }

  lemma DeathKeepsTurn(w: World, s: Sys)
    requires Turn(s) && s.thread != L.Dead
    ensures Turn(Next(w, s, ThreadDies))
  {
    assert s.messages != [] ==> forall m :: m in s.messages ==> m in Front(s.messages) || m == Last(s.messages);
  }

  lemma DeathKeeps(w: World, s: Sys)
    requires Inv(w, s) && s.thread != L.Dead
    ensures Inv(w, Next(w, s, ThreadDies))
  {
    hide ConnInv, SingleBegin, Fresh, Turn;
    DeathKeepsTurn(w, s);
    GrantsLast(w, s, Next(w, s, ThreadDies));
  }

  /** Every step of every party keeps the invariant. */
  lemma StepKeeps(w: World, s: Sys, a: Act)
    requires Inv(w, s) && Enabled(s, a)
    ensures Inv(w, Next(w, s, a))
  {
    hide *;
    match a {
      case Person(_) => UiKeeps(w, s, a);
      case Deliver => UiKeeps(w, s, a);
      case ThreadReads(i) => StepIsThreadNext(w, s, i);
      case Connects(uid) => StrangerKeeps(w, s, uid);
      case UnLockReturns => UnlockStepKeeps(w, s, a);
      case ShellUnlocks => UnlockStepKeeps(w, s, a);
      case ThreadDies => StepIsDeath(w, s);
      case _ => DaemonKeeps(w, s, a);
    }
  }

  lemma StepIsDeath(w: World, s: Sys)
    requires Inv(w, s) && Enabled(s, ThreadDies)
    ensures Inv(w, Next(w, s, ThreadDies))
  {
    DeathKeeps(w, s);
  }

  lemma StepIsThreadNext(w: World, s: Sys, i: L.Read)
    requires Inv(w, s) && Enabled(s, ThreadReads(i))
    ensures Inv(w, Next(w, s, ThreadReads(i)))
  {
    ThreadKeeps(w, s, i);
  }

  lemma {:induction false} RunKeeps(w: World, dev: bool, acts: seq<Act>)
    requires Run(w, Init(dev), acts).Some?
    ensures Inv(w, Run(w, Init(dev), acts).value)
  {
    if acts != [] {
      RunKeeps(w, dev, acts[..|acts| - 1]);
      StepKeeps(w, Run(w, Init(dev), acts[..|acts| - 1]).value, acts[|acts| - 1]);
    }
  }

  // ---- The theorems ----

  /** The session was unlocked for this attempt only if its own connection, dialled under
      the lock screen's uid, opened exactly one attempt in which PAM accepted exactly the
      name that uid resolves to. */
  lemma UnlockSafety(w: World, dev: bool, acts: seq<Act>, attempt: nat)
    requires Run(w, Init(dev), acts).Some?
    requires attempt in Run(w, Init(dev), acts).value.unlocked
    ensures var s := Run(w, Init(dev), acts).value;
            && w.lockUid in w.passwd
            && exists k :: 0 <= k < |s.conns| && s.conns[k].owner == LockScreen(attempt)
                        && s.conns[k].uid == w.lockUid && s.conns[k].begun == 1
                        && s.conns[k].accepted == [w.passwd[w.lockUid]]
  {
    RunKeeps(w, dev, acts);
    var s := Run(w, Init(dev), acts).value;
    assert Granted(w, s, attempt);
    var k :| 0 <= k < |s.conns| && s.conns[k].owner == LockScreen(attempt) && s.conns[k].accepted != [];
    var c := s.conns[k];
    assert ConnInv(w, c) && SingleBegin(c);
    assert c.accepted[0] in c.accepted;
    assert c.accepted == [w.passwd[w.lockUid]];
  }

  /** Whoever connects, and whatever they send: the name a worker is told to test, the name it
      is testing and every name PAM accepted are that of the connection's own peer uid, with
      at most one test and one acceptance per attempt between them; and an
      `Allow` is on its way to a peer only after that. */
  lemma NoCrossUserOracle(w: World, dev: bool, acts: seq<Act>, k: nat)
    requires Run(w, Init(dev), acts).Some? && k < |Run(w, Init(dev), acts).value.conns|
    ensures var c := Run(w, Init(dev), acts).value.conns[k];
            && (forall u :: WorkerCommand.Auth(u) in c.cmds ==> c.uid in w.passwd && w.passwd[c.uid] == u)
            && (forall u :: u in c.accepted ==> c.uid in w.passwd && w.passwd[c.uid] == u)
            && (Busy(c.worker) ==> c.uid in w.passwd && w.passwd[c.uid] == c.worker.user)
            && |c.accepted| + Num(Busy(c.worker)) <= c.begun
            && (ReauthResponse.Allow in c.down ==> c.uid in w.passwd && w.passwd[c.uid] in c.accepted)
            && (forall session :: WorkerCommand.Start(session) !in c.cmds)
  {
    RunKeeps(w, dev, acts);
    hide Run;
    ConnSays(w, Run(w, Init(dev), acts).value.conns[k]);
  }

  lemma ConnSays(w: World, c: Conn)
    requires ConnInv(w, c)
    ensures forall u :: WorkerCommand.Auth(u) in c.cmds ==> c.uid in w.passwd && w.passwd[c.uid] == u
    ensures forall u :: u in c.accepted ==> c.uid in w.passwd && w.passwd[c.uid] == u
    ensures Busy(c.worker) ==> c.uid in w.passwd && w.passwd[c.uid] == c.worker.user
    ensures |c.accepted| + Num(Busy(c.worker)) <= c.begun
    ensures ReauthResponse.Allow in c.down ==> c.uid in w.passwd && w.passwd[c.uid] in c.accepted
    ensures forall session :: WorkerCommand.Start(session) !in c.cmds
  {
    assert c.accepted != [] ==> c.accepted[0] in c.accepted;
  }

  /** UI and worker thread never get out of step: at most one command is queued; the thread
      waiting for a reply can only find a reply, and the idle thread only an
      `Authenticate`; and every prompt message has at most one reply. */
  lemma NeverDesynchronised(w: World, dev: bool, acts: seq<Act>)
    requires Run(w, Init(dev), acts).Some?
    ensures var s := Run(w, Init(dev), acts).value;
            && |s.commands| <= 1
            && (s.thread.AwaitingReply? && s.commands != [] ==> s.commands[0].Reply?)
            && (s.thread.Idle? && s.commands != [] ==> s.commands[0] == L.Authenticate)
            && s.replied <= s.asked <= s.replied + 1
            && (s.thread != L.Dead ==> (s.asked == s.replied + 1 <==> s.thread.AwaitingReply? && s.commands == []))
  {
    RunKeeps(w, dev, acts);
  }

  // ---- When the lock screen is stuck ----

  /** No continuation of the run ever leaves the authenticating phase or starts an attempt. */
  ghost predicate Stuck(w: World, s: Sys) {
    forall acts :: Run(w, s, acts).Some? ==>
      var s' := Run(w, s, acts).value;
      s'.ui.phase == L.Authenticating && s'.attempts == s.attempts && s'.unlocked == s.unlocked
  }

  /** The UI waits for a worker thread that has nothing to do for it, or is no more. */
  predicate Abandoned(s: Sys) {
    && s.ui.phase == L.Authenticating && s.ui.prompt.None? && Quiet(s.messages)
    && (s.lost || s.thread.Dead?)
  }

  lemma AbandonedKeeps(w: World, s: Sys, a: Act)
    requires Turn(s) && Abandoned(s) && Enabled(s, a)
    ensures var s' := Next(w, s, a);
            Abandoned(s') && s'.attempts == s.attempts && s'.unlocked == s.unlocked
  {
    if a.Deliver? {
      assert s.messages[0] in s.messages;
    }
  }

  lemma {:induction false} WedgedForever(w: World, s: Sys, acts: seq<Act>)
    requires Inv(w, s) && Abandoned(s) && Run(w, s, acts).Some?
    ensures var s' := Run(w, s, acts).value;
            Inv(w, s') && Abandoned(s') && s'.attempts == s.attempts && s'.unlocked == s.unlocked
  {
    if acts != [] {
      WedgedForever(w, s, acts[..|acts| - 1]);
      var s1 := Run(w, s, acts[..|acts| - 1]).value;
      hide Turn, Abandoned, Enabled, Next, Linked, UnlocksGranted;
      AbandonedKeeps(w, s1, acts[|acts| - 1]);
      StepKeeps(w, s1, acts[|acts| - 1]);
    }
  }

  /** Only what the worker thread emits is ever queued for the UI, and it is asked something
      only once the thread's channel has arrived. */
  predicate Posted(s: Sys) {
    && (forall m :: m in s.messages ==> Hushed(m) || m.Prompt? || L.Terminal(m))
    && (s.ui.prompt.Some? ==> s.ui.ready)
  }

  lemma ThreadPosts(s: Sys, i: L.Read)
    requires Posted(s) && L.Expects(s.thread, i) && (i.FromUi? ==> s.commands != [])
    ensures Posted(ThreadQueues(s, i))
  {
  }

  lemma UiKeepsPosted(s: Sys, m: L.Message)
    requires Posted(s) && (m.Prompt? ==> s.ui.ready)
    ensures Posted(Shows(s, m))
  {
  }

  lemma StepKeepsPosted(w: World, s: Sys, a: Act)
    requires Turn(s) && Posted(s) && Enabled(s, a)
    ensures Posted(Next(w, s, a))
  {
    match a {
      case Person(m) => UiKeepsPosted(s, m);
      case Deliver =>
        var rest := s.(messages := s.messages[1..]);
        assert forall m :: m in rest.messages ==> m in s.messages;
        assert s.messages[0].Prompt? ==> s.ui.ready;
        UiKeepsPosted(rest, s.messages[0]);
      case ThreadReads(i) =>
        ThreadPosts(s, i);
        ThreadNextIs(w, s, i);
      case _ =>
    }
  }

  lemma {:induction false} RunKeepsPosted(w: World, dev: bool, acts: seq<Act>)
    requires Run(w, Init(dev), acts).Some?
    ensures Posted(Run(w, Init(dev), acts).value)
  {
    if acts != [] {
      var before := acts[..|acts| - 1];
      RunKeepsPosted(w, dev, before);
      RunKeeps(w, dev, before);
      hide Turn, Posted, Enabled, Next, Linked, UnlocksGranted;
      StepKeepsPosted(w, Run(w, Init(dev), before).value, acts[|acts| - 1]);
    }
  }

  lemma {:induction false} RunCons(w: World, s: Sys, a: Act, more: seq<Act>)
    requires Enabled(s, a)
    ensures Run(w, s, [a] + more) == Run(w, Next(w, s, a), more)
  {
    hide Enabled, Next;
    if more == [] {
      assert [a] + more == [a] && [a][..0] == [];
    } else {
      RunCons(w, s, a, more[..|more| - 1]);
      assert ([a] + more)[..|more|] == [a] + more[..|more| - 1];
    }
  }

  /** Some continuation brings the UI back. */
  ghost predicate Recovers(w: World, s: Sys) {
    exists acts :: Run(w, s, acts).Some? && Run(w, s, acts).value.ui.phase != L.Authenticating
  }

  lemma RecoveredNow(w: World, s: Sys)
    requires s.ui.phase != L.Authenticating
    ensures Recovers(w, s)
  {
    assert Run(w, s, []) == Some(s);
  }

  lemma RecoversLater(w: World, s: Sys, a: Act)
    requires Enabled(s, a) && Recovers(w, Next(w, s, a))
    ensures Recovers(w, s)
  {
    hide Enabled, Next, Run;
    var more :| Run(w, Next(w, s, a), more).Some? && Run(w, Next(w, s, a), more).value.ui.phase != L.Authenticating;
    RunCons(w, s, a, more);
  }

  /** What one delivery does while an attempt is believed to be running: a notice changes
      nothing, a question is put or answered at once, a verdict ends it. */
  lemma DeliveryBrings(w: World, s: Sys)
    requires Posted(s) && s.messages != [] && s.ui.phase == L.Authenticating && s.ui.ready
    ensures var s', m := Next(w, s, Deliver), s.messages[0];
            && s'.messages == s.messages[1..] && s'.thread == s.thread && s'.ui.ready
            && (Hushed(m) ==> s'.ui.phase == s.ui.phase && s'.ui.prompt == s.ui.prompt)
            && (L.Terminal(m) ==> s'.ui.phase != L.Authenticating)
            && (m.Prompt? && s.thread.Dead? ==> s'.ui.phase != L.Authenticating || s'.ui.prompt.Some?)
  {
    assert s.messages[0] in s.messages;
  }

  /** Without its thread, the UI comes back once it has delivered what is still queued and the
      person has tried to answer: there is nobody to send the answer to. */
  lemma {:induction false} DeadThreadRecovers(w: World, s: Sys)
    requires Turn(s) && Posted(s) && s.thread.Dead? && (s.ui.prompt.Some? || !Quiet(s.messages))
    ensures Recovers(w, s)
    decreases |s.messages|
  {
    if s.ui.phase != L.Authenticating {
      RecoveredNow(w, s);
    } else if s.ui.prompt.Some? {
      RecoveredNow(w, Next(w, s, Person(L.PromptSubmitted)));
      RecoversLater(w, s, Person(L.PromptSubmitted));
    } else {
      var s' := Next(w, s, Deliver);
      ReadyToDeliver(s);
      DeliveryBrings(w, s);
      DeliverKeepsTurn(w, s);
      StepKeepsPosted(w, s, Deliver);
      FirstIsLoudOrLater(s.messages);
      hide Turn, Next, Quiet, Run;
      assert s.messages[0] in s.messages;
      if Hushed(s.messages[0]) || s.messages[0].Prompt? {
        if s'.ui.phase != L.Authenticating {
          RecoveredNow(w, s');
        } else {
          DeadThreadRecovers(w, s');
        }
      } else {
        RecoveredNow(w, s');
      }
      RecoversLater(w, s, Deliver);
    }
  }

  lemma ReadyToDeliver(s: Sys)
    requires Turn(s) && !Quiet(s.messages)
    ensures s.ui.ready && s.messages != []
  {
  }

  lemma FirstIsLoudOrLater(ms: seq<L.Message>)
    requires !Quiet(ms)
    ensures ms != [] && (!Hushed(ms[0]) || !Quiet(ms[1..]))
  {
    var m :| m in ms && !Hushed(m);
    if Hushed(ms[0]) {
      assert m in ms[1..];
    }
  }

  /** A verdict on its way is delivered after the notices in front of it. */
  lemma {:induction false} VerdictArrives(w: World, s: Sys)
    requires Turn(s) && VerdictPending(s)
    ensures Recovers(w, s)
    decreases |s.messages|
  {
    var s1 := Next(w, s, Deliver);
    DeliverKeepsTurn(w, s);
    TakeFirst(s.messages);
    if |s.messages| == 1 {
      RecoveredNow(w, s1);
    } else {
      VerdictArrives(w, s1);
    }
    RecoversLater(w, s, Deliver);
  }

  /** A thread that is at work for the UI can always fail it. */
  function Failing(s: Sys): L.Read
    requires s.thread.AwaitingReply? || s.thread.Idle? ==> s.commands != []
  {
    match s.thread
    case Idle => L.FromUi(s.commands[0], false, true)
    case AwaitingReply => L.FromUi(s.commands[0], true, false)
    case _ => L.FromDaemon(Gone, true)
  }

  lemma ThreadCanFail(w: World, s: Sys)
    requires Inv(w, s) && s.ui.phase == L.Authenticating && s.ui.prompt.None? && Quiet(s.messages)
    requires !s.lost && s.thread != L.Dead
    ensures s.thread.AwaitingReply? || s.thread.Idle? ==> s.commands != []
    ensures Enabled(s, ThreadReads(Failing(s))) && VerdictPending(Next(w, s, ThreadReads(Failing(s))))
  {
    FailureIsQueued(s);
    assert L.Connected(s.thread) ==> s.current < |s.conns|;
    ThreadNextIs(w, s, Failing(s));
  }

  lemma FailureIsQueued(s: Sys)
    requires Turn(s) && s.ui.phase == L.Authenticating && s.ui.prompt.None? && Quiet(s.messages)
    requires !s.lost && s.thread != L.Dead
    ensures s.thread.AwaitingReply? || s.thread.Idle? ==> s.commands != []
    ensures var i := Failing(s);
            && L.Expects(s.thread, i) && (i.FromUi? ==> s.commands != [] && s.commands[0] == i.c)
            && VerdictPending(ThreadQueues(s, i))
  {
    AtWork(s);
    hide Turn, Quiet, Front, Last;
    PutLast(s.messages, L.Step(s.thread, Failing(s)).emits);
  }

  /** Whose turn it is while nothing is queued for the UI. */
  lemma AtWork(s: Sys)
    requires Turn(s) && s.ui.phase == L.Authenticating && s.ui.prompt.None? && Quiet(s.messages)
    requires !s.lost && s.thread != L.Dead
    ensures s.ui.ready
    ensures s.thread.Idle? ==> s.commands == [L.Authenticate]
    ensures s.thread.AwaitingReply? ==> |s.commands| == 1 && s.commands[0].Reply?
    ensures L.Connected(s.thread) && !s.thread.AwaitingReply? ==> s.commands == []
  {
    LoudEnds(s.messages);
    hide Quiet, Front, Last;
  }

  /** A queue that ends in a question or a verdict is not quiet. */
  lemma LoudEnds(ms: seq<L.Message>)
    requires Quiet(ms)
    ensures ms != [] ==> Hushed(Last(ms))
  {
    if ms != [] {
      assert Last(ms) in ms;
    }
  }

  lemma NotAbandonedRecovers(w: World, s: Sys)
    requires Inv(w, s) && Posted(s) && !Abandoned(s)
    ensures Recovers(w, s)
  {
    hide Turn, Linked, UnlocksGranted, Posted, Quiet, VerdictPending, Recovers, Failing;
    if s.ui.phase != L.Authenticating {
      RecoveredNow(w, s);
    } else if s.ui.prompt.None? && Quiet(s.messages) {
      ThreadCanFail(w, s);
      var a := ThreadReads(Failing(s));
      StepKeeps(w, s, a);
      hide Next, Enabled;
      VerdictArrives(w, Next(w, s, a));
      RecoversLater(w, s, a);
    } else if s.thread.Dead? {
      DeadThreadRecovers(w, s);
    } else {
      StepKeeps(w, s, ThreadDies);
      StepKeepsPosted(w, s, ThreadDies);
      DeadThreadRecovers(w, Next(w, s, ThreadDies));
      RecoversLater(w, s, ThreadDies);
    }
  }

  /** Exactly when the lock screen is stuck for good, in any state a run can reach: it believes
      an attempt is running and has neither a question to put nor a message to come, and the
      unlock press found no channel or the worker thread is dead. From everywhere else some
      continuation leaves the authenticating phase. */
  lemma StuckIff(w: World, dev: bool, acts: seq<Act>)
    requires Run(w, Init(dev), acts).Some?
    ensures Stuck(w, Run(w, Init(dev), acts).value) <==> Abandoned(Run(w, Init(dev), acts).value)
  {
    RunKeeps(w, dev, acts);
    RunKeepsPosted(w, dev, acts);
    var s := Run(w, Init(dev), acts).value;
    StuckThere(w, s);
  }

  lemma StuckThere(w: World, s: Sys)
    requires Inv(w, s) && Posted(s)
    ensures Stuck(w, s) <==> Abandoned(s)
  {
    hide Inv, Posted, Abandoned, Run;
    if Abandoned(s) {
      forall more | Run(w, s, more).Some?
        ensures var s' := Run(w, s, more).value;
                s'.ui.phase == L.Authenticating && s'.attempts == s.attempts && s'.unlocked == s.unlocked
      {
        WedgedForever(w, s, more);
        AbandonedIs(Run(w, s, more).value);
      }
    } else {
      NotAbandonedRecovers(w, s);
      var more :| Run(w, s, more).Some? && Run(w, s, more).value.ui.phase != L.Authenticating;
    }
  }

  lemma AbandonedIs(s: Sys)
    ensures Abandoned(s) ==> s.ui.phase == L.Authenticating
  {
  }

  /** What an unlock press makes of a locked state. */
  lemma PressAbandonsIffNotReady(s: Sys)
    requires Turn(s) && Posted(s) && s.ui.phase == L.Locked
    ensures Abandoned(Shows(s, L.UnlockPressed)) <==> !s.ui.ready
  {
    if !s.ui.ready {
      assert Quiet(s.messages);
    }
  }

  /** In a locked state, pressing unlock gets the screen stuck exactly when the worker's channel
      has not arrived yet. */
  lemma PressWedgesIffNotReady(w: World, dev: bool, acts: seq<Act>)
    requires Run(w, Init(dev), acts).Some?
    requires Run(w, Init(dev), acts).value.ui.phase == L.Locked
    ensures var s := Run(w, Init(dev), acts).value;
            Stuck(w, Next(w, s, Person(L.UnlockPressed))) <==> !s.ui.ready
  {
    RunKeeps(w, dev, acts);
    RunKeepsPosted(w, dev, acts);
    var s := Run(w, Init(dev), acts).value;
    hide Run, Turn, Linked, UnlocksGranted, Posted, Abandoned, Stuck;
    StepKeeps(w, s, Person(L.UnlockPressed));
    StepKeepsPosted(w, s, Person(L.UnlockPressed));
    PressAbandonsIffNotReady(s);
    StuckThere(w, Next(w, s, Person(L.UnlockPressed)));
  }
}
