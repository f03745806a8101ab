/** The login seam of the daemon: one greeter connection, the login it owns, and the gate
    that lets a session start only for the user PAM last accepted on it. The greeter and
    the worker are arbitrary: each is whatever it will ever send. */
module Login {
  import opened Protocol
  import opened Wires
  import Greeter
  import PamWorker
  import Desktop = Sessions

  type Discovered = Desktop.Discovered

  function SessionType(kind: Desktop.SessionKind): string {
    if kind.Wayland? then "wayland" else "x11"
  }

  function ForWorker(d: Discovered): WorkerSession {
    WorkerSession(d.id, d.exec, SessionType(d.kind))
  }

  /** The first session with this id. */
  function Find(sessions: seq<Discovered>, id: string): Option<Discovered> {
    if sessions == [] then None
    else if sessions[0].id == id then Some(sessions[0])
    else Find(sessions[1..], id)
  }

  /** The session at `k` is the first of these with this id. */
  predicate FirstNamed(sessions: seq<Discovered>, k: nat, id: string) {
    k < |sessions| && sessions[k].id == id && forall i :: 0 <= i < k ==> sessions[i].id != id
  }

  /** What is found is the first session with the id asked for; nothing is, if none has it. */
  lemma {:induction false} FindMeans(sessions: seq<Discovered>, id: string)
    ensures Find(sessions, id) == None <==> forall d :: d in sessions ==> d.id != id
    ensures Find(sessions, id).Some? ==> exists k: nat :: FirstNamed(sessions, k, id)
    ensures forall k: nat :: FirstNamed(sessions, k, id) ==> Find(sessions, id) == Some(sessions[k])
  {
    if sessions != [] {
      var later := sessions[1..];
      FindMeans(later, id);
      assert forall d :: d in sessions <==> d == sessions[0] || d in later;
      if sessions[0].id == id {
        assert FirstNamed(sessions, 0, id);
      } else {
        forall k: nat
          ensures FirstNamed(sessions, k + 1, id) <==> FirstNamed(later, k, id)
        {
          assert forall i :: 0 <= i < |later| ==> later[i] == sessions[i + 1];
          assert forall i :: 1 <= i < |sessions| ==> sessions[i] == later[i - 1];
        }
        if k: nat :| FirstNamed(later, k, id) {
          assert FirstNamed(sessions, k + 1, id);
        }
        forall k: nat | FirstNamed(sessions, k, id)
          ensures Find(sessions, id) == Some(sessions[k])
        {
          assert k > 0 && FirstNamed(later, k - 1, id) by {
            assert FirstNamed(sessions, k - 1 + 1, id);
          }
        }
      }
    }
  }

  /** What the worker is told of the first session with this id: the id, the command line that
      discovery found for it, and its type. */
  ghost predicate Resolves(sessions: seq<Discovered>, id: string, session: WorkerSession) {
    exists k: nat :: FirstNamed(sessions, k, id) &&
      session == WorkerSession(id, sessions[k].exec, if sessions[k].kind.Wayland? then "wayland" else "x11")
  }

  lemma FindResolves(sessions: seq<Discovered>, id: string)
    ensures Find(sessions, id).Some? ==> Resolves(sessions, id, ForWorker(Find(sessions, id).value))
  {
    FindMeans(sessions, id);
    hide Find;
    if k: nat :| FirstNamed(sessions, k, id) {
    }
  }

  /** Everything one connection does and sees, in order. `TornDown` is the managed greeter's
      teardown having returned, with all that ever happened to the greeter; `SeatTaken` is the
      moment the seat stops being the greeter's. */
  datatype Entry =
    | Asked(req: Incoming<Request>)
    | Said(resp: Response)
    | Commanded(cmd: WorkerCommand)
    | Heard(ev: Incoming<WorkerEvent>)
    | Scanned(sessions: seq<Discovered>)
    | TornDown(life: seq<Greeter.Happening>)
    | SeatTaken

  // ---- Reading a journal, independently of the code that wrote it ----

  /** The name under test, the name last accepted, and whether a session launch is awaited. A
      test ends with the worker's next terminal event, whatever it is, a launch with its
      report or the worker's end. */
  datatype Binding = Binding(trying: Option<string>, bound: Option<string>, launching: bool)

  /** Neither a test nor a launch is under way. */
  predicate Free(b: Binding) {
    b.trying == None && !b.launching
  }

  function Observe(b: Binding, e: Entry): Binding {
    match e
    case Commanded(Auth(u)) => b.(trying := Some(u))
    case Commanded(Start(_)) => b.(launching := true)
    case Heard(Got(Auth(v))) =>
      b.(trying := None, bound := if v == Verdict.Success && b.trying.Some? then b.trying else b.bound)
    case Heard(Got(Started)) => b.(trying := None, launching := false)
    case Heard(Got(StartFailed)) => b.(trying := None, launching := false)
    case Heard(Garbled) => b.(launching := false)
    case Heard(Gone) => b.(launching := false)
    case _ => b
  }

  function Bindings(j: seq<Entry>): Binding {
    if j == [] then Binding(None, None, false) else Observe(Bindings(j[..|j| - 1]), j[|j| - 1])
  }

  /** The name of the most recent `Auth` that the worker answered with success. */
  function LastAccepted(j: seq<Entry>): Option<string> {
    Bindings(j).bound
  }

  /** The worker's latest question has not been answered yet. */
  predicate Questioned(j: seq<Entry>) {
    j != [] &&
    match j[|j| - 1]
    case Heard(Got(Prompt(_, _))) => true
    case Heard(Got(Auth(_))) => false
    case Heard(Got(Started)) => false
    case Heard(Got(StartFailed)) => false
    case Commanded(_) => false
    case _ => Questioned(j[..|j| - 1])
  }

  /** The most recent request, and the most recent scan of the session directories. */
  function LastAsked(j: seq<Entry>): Option<Request> {
    if j == [] then None
    else if j[|j| - 1].Asked? && j[|j| - 1].req.Got? then Some(j[|j| - 1].req.msg)
    else LastAsked(j[..|j| - 1])
  }

  function LastScan(j: seq<Entry>): seq<Discovered> {
    if j == [] then []
    else if j[|j| - 1].Scanned? then j[|j| - 1].sessions
    else LastScan(j[..|j| - 1])
  }

  /** The connection opened with a `Hello` of the daemon's own version. */
  predicate Greeted(j: seq<Entry>) {
    j != [] && j[0] == Asked(Got(Request.Hello(PROTOCOL_VERSION)))
  }

  predicate Last(j: seq<Entry>, e: Entry) {
    j != [] && j[|j| - 1] == e
  }

  /** What a journal says was read from and delivered to each side, and found in each scan. */
  function Requests(j: seq<Entry>): seq<Incoming<Request>> {
    if j == [] then [] else Requests(j[..|j| - 1]) + if j[|j| - 1].Asked? then [j[|j| - 1].req] else []
  }

  function Replies(j: seq<Entry>): seq<Response> {
    if j == [] then [] else Replies(j[..|j| - 1]) + if j[|j| - 1].Said? then [j[|j| - 1].resp] else []
  }

  function Events(j: seq<Entry>): seq<Incoming<WorkerEvent>> {
    if j == [] then [] else Events(j[..|j| - 1]) + if j[|j| - 1].Heard? then [j[|j| - 1].ev] else []
  }

  function Commands(j: seq<Entry>): seq<WorkerCommand> {
    if j == [] then [] else Commands(j[..|j| - 1]) + if j[|j| - 1].Commanded? then [j[|j| - 1].cmd] else []
  }

  function Scans(j: seq<Entry>): seq<seq<Discovered>> {
    if j == [] then [] else Scans(j[..|j| - 1]) + if j[|j| - 1].Scanned? then [j[|j| - 1].sessions] else []
  }

  // ---- The gate: what may be done after a history ----

  /** Whether a greeter is managed, and how many frames each side accepts. */
  datatype Setup = Setup(managed: bool, greeterRoom: nat, workerRoom: nat)

  /** The greeter, or the worker, takes no more frames. */
  predicate Deaf(j: seq<Entry>, on: Setup) {
    |Replies(j)| >= on.greeterRoom
  }

  predicate Shut(j: seq<Entry>, on: Setup) {
    |Commands(j)| >= on.workerRoom
  }

  /** The ids a greeter is shown: never an exec. */
  function Ids(sessions: seq<Discovered>): seq<string> {
    seq(|sessions|, i requires 0 <= i < |sessions| => sessions[i].id)
  }

  predicate AsksToStart(e: Entry) {
    e.Asked? && e.req.Got? && e.req.msg.Start?
  }

  /** The session just asked for, by somebody PAM accepted, was just found. */
  predicate Found(j: seq<Entry>) {
    && j != [] && j[|j| - 1].Scanned? && LastAccepted(j).Some?
    && LastAsked(j).Some? && LastAsked(j).value.Start?
    && Find(LastScan(j), LastAsked(j).value.sessionId).Some?
  }

  /** The next request is read once the last one is answered, or for the answer to a question
      just put. */
  predicate MayAsk(j: seq<Entry>) {
    j != [] ==>
      && Greeted(j) && j[|j| - 1].Said?
      && (Free(Bindings(j)) || (j[|j| - 1].resp.Auth? && j[|j| - 1].resp.prompt.Question?))
  }

  /** The worker is listened to only while it tests or launches; a notice of its is passed on
      first, and a question answered, if they can be. */
  predicate MayHear(j: seq<Entry>, on: Setup) {
    && j != [] && !Free(Bindings(j))
    && match j[|j| - 1]
       case Commanded(_) => true
       case Heard(Got(Info(_))) => Bindings(j).trying.Some? ==> Deaf(j, on)
       case Heard(Got(Error(_))) => Bindings(j).trying.Some? ==> Deaf(j, on)
       case Heard(_) => Bindings(j).trying == None
       case Said(r) => r.Auth? && !r.prompt.Question? && Bindings(j).trying.Some?
       case Asked(r) => r.Got? && !r.msg.AuthReply? && Shut(j, on) && Bindings(j).trying.Some?
       case _ => false
  }

  /** The directories are looked at for a list, or for a start that may be granted. */
  predicate MayScan(j: seq<Entry>) {
    && Free(Bindings(j))
    && (Last(j, Asked(Got(ListSessions))) || (j != [] && AsksToStart(j[|j| - 1]) && LastAccepted(j).Some?))
  }

  /** What a request that needs no more than an answer is answered. */
  predicate AnswersRequest(first: bool, request: Request, r: Response) {
    match r
    case Welcome(v) => v == PROTOCOL_VERSION && request.Hello? && (first ==> request.version == v)
    case Incompatible(v) => first && v == PROTOCOL_VERSION && request.Hello? && request.version != v
    case Error(HandshakeRequired) => first && !request.Hello?
    case Error(NothingInProgress) => !first && (request.AuthReply? || request.CancelAuth?)
    case Error(Unavailable) => !first && request.Power?
    case Error(AuthenticateFirst) => !first && request.Start?
    case _ => false
  }

  /** What is made of the worker's word, in a test and at a launch. */
  predicate Reports(ev: WorkerEvent, r: Response) {
    match r
    case Auth(Question(text, secret)) => ev == WorkerEvent.Prompt(text, secret)
    case Auth(Info(text)) => ev == WorkerEvent.Info(text)
    case Auth(Error(text)) => ev == WorkerEvent.Error(text)
    case AuthSuccess => ev == WorkerEvent.Auth(Verdict.Success)
    case AuthFailure(AuthenticationCancelled) => ev == WorkerEvent.Auth(Verdict.Cancelled)
    case AuthFailure(AuthenticationFailed) =>
      ev == WorkerEvent.Auth(Verdict.Failure) || ev.Started? || ev.StartFailed?
    case _ => false
  }

  /** What the greeter may be told. */
  predicate MaySay(j: seq<Entry>, r: Response, on: Setup) {
    && j != []
    && var before := Bindings(j[..|j| - 1]);
       match j[|j| - 1]
       case Asked(Got(request)) =>
         && Free(Bindings(j)) && AnswersRequest(|j| == 1, request, r)
         && (request.Start? && |j| > 1 ==> LastAccepted(j) == None)
       case Scanned(sessions) =>
         && LastAsked(j).Some?
         && (match r
             case Sessions(ids) => LastAsked(j).value.ListSessions? && ids == Ids(sessions)
             case Error(NoSuchSession) =>
               LastAsked(j).value.Start? && Find(LastScan(j), LastAsked(j).value.sessionId) == None
             case Error(CouldNotStart) => !on.managed && Found(j) && Shut(j, on)
             case _ => false)
       case Heard(ev) =>
         if before.trying.Some? then ev.Got? && Reports(ev.msg, r)
         else
           && before.launching && !on.managed
           && (r == Response.Error(CouldNotStart) || (r == Response.Started && ev == Got(WorkerEvent.Started)))
       case _ => false
  }

  /** A session may be commanded to start after this history: the connection was greeted,
      PAM accepted somebody on it, the request that led here is a `Start`, and the session
      is the one the scan of the directories made for it has under the requested id. */
  predicate MayStart(j: seq<Entry>, session: WorkerSession, managed: bool) {
    && Greeted(j)
    && LastAccepted(j).Some?
    && LastAsked(j).Some? && LastAsked(j).value.Start?
    && Find(LastScan(j), LastAsked(j).value.sessionId).Some?
    && session == ForWorker(Find(LastScan(j), LastAsked(j).value.sessionId).value)
    && if managed then |j| >= 3 && j[|j| - 3].Scanned? && j[|j| - 2].TornDown? && j[|j| - 1].SeatTaken?
       else j[|j| - 1].Scanned?
  }

  /** What the worker may be commanded, going by what was done last: a test of the very name
      the greeter gave, the greeter's very reply, and a cancellation only for want of one. */
  predicate Relays(j: seq<Entry>, c: WorkerCommand, on: Setup)
    requires j != []
  {
    var last := j[|j| - 1];
    match c
    case Auth(user) => last == Asked(Got(Request.BeginAuth(user)))
    case Reply(response) => last == Asked(Got(Request.AuthReply(response)))
    case Cancel =>
      || (last.Asked? && (last.req.Got? ==> !last.req.msg.AuthReply?))
      || (last.Heard? && last.ev.Got? && last.ev.msg.Prompt? && Deaf(j, on))
    case Start(_) => true
  }

  /** Whose turn it is: a test or a start only with neither under way, and an answer only to a
      question of the test that is open, and only one. */
  predicate InTurn(j: seq<Entry>, c: WorkerCommand) {
    if c.Auth? || c.Start? then Free(Bindings(j)) else Bindings(j).trying.Some? && Questioned(j)
  }

  predicate MayCommand(j: seq<Entry>, c: WorkerCommand, on: Setup) {
    j != [] && Relays(j, c, on) && InTurn(j, c) && (c.Start? ==> MayStart(j, c.session, on.managed))
  }

  /** An entry that may follow this history. It is all but determined by it: the seat changes
      hands only for a session that was asked for and found. */
  predicate Permitted(j: seq<Entry>, e: Entry, on: Setup) {
    match e
    case Asked(_) => MayAsk(j)
    case Said(r) => MaySay(j, r, on)
    case Commanded(c) => MayCommand(j, c, on)
    case Heard(_) => MayHear(j, on)
    case Scanned(_) => MayScan(j)
    case TornDown(life) => on.managed && Found(j) && Greeted(j) && Greeter.WholeLife(life)
    case SeatTaken => j != [] && j[|j| - 1].TornDown?
  }

  /** Everything done was permitted when it was done: in particular every request is answered
      as it must be before the next is read, every verdict told is the worker's, and every
      session commanded to start was one that might be. */
  predicate Gated(j: seq<Entry>, on: Setup) {
    forall k :: 0 <= k < |j| ==> Permitted(j[..k], j[k], on)
  }

  predicate IsStart(e: Entry) {
    e.Commanded? && e.cmd.Start?
  }

  /** A session has been commanded to start. */
  predicate AnyStart(j: seq<Entry>) {
    exists k :: 0 <= k < |j| && IsStart(j[k])
  }

  /** `j'` is `j` with one more entry, and what that means for each reading. */
  ghost predicate Follows(j: seq<Entry>, e: Entry, j': seq<Entry>) {
    && j' == j + [e]
    && Bindings(j') == Observe(Bindings(j), e)
    && LastAsked(j') == (if e.Asked? && e.req.Got? then Some(e.req.msg) else LastAsked(j))
    && LastScan(j') == (if e.Scanned? then e.sessions else LastScan(j))
    && (Greeted(j) ==> Greeted(j'))
    && AnyStart(j') == (AnyStart(j) || IsStart(e))
  }

  /** A longer history that has the same readings but for the last request and scan. */
  ghost predicate Steady(j: seq<Entry>, j': seq<Entry>) {
    Bindings(j') == Bindings(j) && AnyStart(j') == AnyStart(j) && (Greeted(j) ==> Greeted(j'))
  }

  lemma GatedSnoc(j: seq<Entry>, e: Entry, on: Setup)
    requires Gated(j, on) && Permitted(j, e, on)
    ensures Gated(j + [e], on)
  {
    hide Permitted;
    var j' := j + [e];
    forall k | 0 <= k < |j'|
      ensures Permitted(j'[..k], j'[k], on)
    {
      if k == |j| {
        assert j'[..k] == j && j'[k] == e;
      } else {
        assert j'[..k] == j[..k] && j'[k] == j[k];
      }
    }
  }

  lemma AnyStartSnoc(j: seq<Entry>, e: Entry)
    ensures AnyStart(j + [e]) == (AnyStart(j) || IsStart(e))
  {
    var j' := j + [e];
    assert j'[|j|] == e;
    if k: nat :| k < |j| && IsStart(j[k]) {
      assert j'[k] == j[k];
    }
  }

  lemma Snoc(j: seq<Entry>, e: Entry)
    ensures Follows(j, e, j + [e])
  {
    hide AnyStart;
    var j' := j + [e];
    assert j'[..|j|] == j && j'[|j|] == e;
    AnyStartSnoc(j, e);
  }

  lemma SteadySnoc(j: seq<Entry>, e: Entry)
    requires e.Asked? || e.Said? || (e.Commanded? && !e.cmd.Auth? && !e.cmd.Start?)
    ensures Steady(j, j + [e])
  {
    Snoc(j, e);
    hide Bindings, Greeted, AnyStart;
  }

  lemma SteadySame(j: seq<Entry>)
    ensures Steady(j, j)
  {
  }

  lemma ProjectSnoc(j: seq<Entry>, e: Entry)
    ensures Requests(j + [e]) == Requests(j) + if e.Asked? then [e.req] else []
    ensures Replies(j + [e]) == Replies(j) + if e.Said? then [e.resp] else []
    ensures Events(j + [e]) == Events(j) + if e.Heard? then [e.ev] else []
    ensures Commands(j + [e]) == Commands(j) + if e.Commanded? then [e.cmd] else []
    ensures Scans(j + [e]) == Scans(j) + if e.Scanned? then [e.sessions] else []
  {
    assert (j + [e])[..|j|] == j;
  }

  lemma NothingRead(j: seq<Entry>, e: Entry)
    requires e.TornDown? || e.SeatTaken?
    ensures Requests(j + [e]) == Requests(j) && Replies(j + [e]) == Replies(j)
    ensures Events(j + [e]) == Events(j) && Commands(j + [e]) == Commands(j) && Scans(j + [e]) == Scans(j)
  {
    ProjectSnoc(j, e);
  }

  // ---- The connection ----

  /** The greeter's socket and process, if it is managed, the worker's control socket, and the
      session directories as each scan will find them, with the journal of everything done so
      far. */
  class Peers {
    const managed: bool
    const handle: Greeter.GreeterHandle?
    const allowX11: bool
    const greeter: Wire<Request, Response>
    const worker: Wire<WorkerEvent, WorkerCommand>
    const directories: seq<seq<Desktop.Root>>
    var scanned: nat
    var journal: seq<Entry>

    constructor (handle: Greeter.GreeterHandle?, allowX11: bool, greeter: Wire<Request, Response>,
                 worker: Wire<WorkerEvent, WorkerCommand>, directories: seq<seq<Desktop.Root>>)
      requires greeter.Valid() && greeter.Untouched() && worker.Valid() && worker.Untouched()
      ensures Honest() && journal == [] && this.handle == handle && this.allowX11 == allowX11
      ensures this.greeter == greeter && this.worker == worker && this.directories == directories
    {
      this.managed, this.handle, this.allowX11 := handle != null, handle, allowX11;
      this.greeter, this.worker, this.directories, scanned, journal := greeter, worker, directories, 0, [];
    }

    ghost function On(): Setup {
      Setup(managed, greeter.room, worker.room)
    }

    /** What scan number `n` offers. */
    ghost function ScanOf(n: nat): seq<Discovered> {
      Desktop.Merge(Desktop.AllUnder(if n < |directories| then directories[n] else [], allowX11))
    }

    /** A teardown in the journal is the one of this greeter, and it is over. */
    ghost predicate SawEnd()
      reads this, handle
    {
      forall k :: 0 <= k < |journal| && journal[k].TornDown? ==>
        handle != null && handle.Over() && handle.history == journal[k].life
    }

    /** The journal is the truth: exactly what it says was read off each socket, was delivered
        over it, was found in the directories and happened to the greeter. */
    ghost predicate Accurate()
      reads this, greeter, worker, handle
    {
      && managed == (handle != null) && SawEnd()
      && greeter.Valid() && Requests(journal) == greeter.got && Replies(journal) == greeter.sent
      && worker.Valid() && Events(journal) == worker.got && Commands(journal) == worker.sent
      && |Scans(journal)| == scanned && forall k :: 0 <= k < scanned ==> Scans(journal)[k] == ScanOf(k)
    }

    /** It is true, and everything in it was permitted. */
    ghost predicate Honest()
      reads this, greeter, worker, handle
    {
      Accurate() && Gated(journal, On())
    }

    /** The daemon may leave the connection: a side accepts no more or has nothing more to say,
        the handshake failed, a worker was wanted and is dead, or the session has the seat. */
    ghost predicate Finished(dead: bool)
      reads this, greeter, worker
    {
      || |greeter.sent| >= greeter.room
      || |worker.sent| >= worker.room
      || (greeter.got != [] && Final(greeter.got[0], greeter.got[|greeter.got| - 1], dead))
      || (worker.got != [] && Ended(worker.got[|worker.got| - 1]))
      || SeatTaken in journal || Response.Started in greeter.sent
    }

    /** Adds an entry that is permitted; the caller has done what it says. */
    lemma Noted(j: seq<Entry>, e: Entry)
      requires Gated(j, On()) && Permitted(j, e, On())
      ensures Gated(j + [e], On()) && Follows(j, e, j + [e])
      ensures e.Asked? || e.Said? || (e.Commanded? && !e.cmd.Auth? && !e.cmd.Start?) ==> Steady(j, j + [e])
      ensures Requests(j + [e]) == Requests(j) + if e.Asked? then [e.req] else []
      ensures Replies(j + [e]) == Replies(j) + if e.Said? then [e.resp] else []
      ensures Events(j + [e]) == Events(j) + if e.Heard? then [e.ev] else []
      ensures Commands(j + [e]) == Commands(j) + if e.Commanded? then [e.cmd] else []
      ensures Scans(j + [e]) == Scans(j) + if e.Scanned? then [e.sessions] else []
    {
      hide *;
      GatedSnoc(j, e, On());
      Snoc(j, e);
      if e.Asked? || e.Said? || (e.Commanded? && !e.cmd.Auth? && !e.cmd.Start?) {
        SteadySnoc(j, e);
      }
      ProjectSnoc(j, e);
    }

    /** Ends the managed greeter, and the journal says how. Only a greeter that is over gets
        there. */
    method TearDown(before: seq<Greeter.Sighting>, after: seq<Greeter.Sighting>, reaped: bool)
      requires Honest() && handle != null && handle.Valid() && Found(journal) && Greeted(journal)
      modifies this`journal, handle
      ensures Honest() && handle.Valid() && handle.Over()
      ensures Follows(old(journal), TornDown(handle.history), journal)
    {
      hide Gated, Found, Greeted, Follows, Requests, Replies, Events, Commands, Scans, ScanOf, Greeter.WholeLife;
      handle.Terminate(before, after, reaped);
      Noted(journal, TornDown(handle.history));
      NothingRead(journal, TornDown(handle.history));
      journal := journal + [TornDown(handle.history)];
    }

    /** The seat stops being the greeter's. */
    method TakeSeat()
      requires Honest() && Permitted(journal, SeatTaken, On())
      modifies this`journal
      ensures Honest() && Follows(old(journal), SeatTaken, journal)
    {
      hide Permitted, Gated, Follows, Requests, Replies, Events, Commands, Scans, ScanOf;
      Noted(journal, SeatTaken);
      NothingRead(journal, SeatTaken);
      journal := journal + [SeatTaken];
    }

    method Ask() returns (r: Incoming<Request>)
      requires Honest() && MayAsk(journal)
      modifies this`journal, greeter`got
      ensures Honest()
      ensures greeter.Left() <= old(greeter.Left()) && (r != Gone ==> greeter.Left() < old(greeter.Left()))
      ensures r == ReadOf(greeter.script, |old(greeter.got)|) && greeter.got == old(greeter.got) + [r]
      ensures Follows(old(journal), Asked(r), journal)
      ensures journal == old(journal) + [Asked(r)] && Steady(old(journal), journal) && Last(journal, Asked(r))
    {
      hide Gated, MayAsk, Follows, Steady, AnyStart, Greeted, Bindings;
      hide Requests, Replies, Events, Commands, Scans, ScanOf;
      SteadySame(journal);
      r := greeter.Read();
      Noted(journal, Asked(r));
      journal := journal + [Asked(r)];
    }

    method Say(r: Response) returns (ok: bool)
      requires Honest() && MaySay(journal, r, On())
      modifies this`journal, greeter`sent
      ensures Honest() && greeter.Left() == old(greeter.Left())
      ensures ok == (|old(greeter.sent)| < greeter.room) && greeter.sent == old(greeter.sent) + Delivered(ok, [r])
      ensures journal == if ok then old(journal) + [Said(r)] else old(journal)
      ensures Steady(old(journal), journal) && (!ok ==> Deaf(journal, On()))
    {
      hide Gated, MaySay, Follows, Steady, AnyStart, Greeted, Bindings;
      hide Requests, Replies, Events, Commands, Scans, ScanOf;
      SteadySame(journal);
      ok := greeter.Write(r);
      if ok {
        Noted(journal, Said(r));
        journal := journal + [Said(r)];
      }
    }

    method Command(c: WorkerCommand) returns (ok: bool)
      requires Honest() && MayCommand(journal, c, On())
      modifies this`journal, worker`sent
      ensures Honest() && worker.Left() == old(worker.Left())
      ensures ok == (|old(worker.sent)| < worker.room) && worker.sent == old(worker.sent) + Delivered(ok, [c])
      ensures journal == if ok then old(journal) + [Commanded(c)] else old(journal)
      ensures !c.Auth? && !c.Start? ==> Steady(old(journal), journal)
      ensures ok ==> Bindings(journal) == Observe(Bindings(old(journal)), Commanded(c))
      ensures ok ==> Follows(old(journal), Commanded(c), journal)
      ensures !ok ==> Shut(journal, On())
      ensures c.Auth? ==> AnyStart(journal) == AnyStart(old(journal)) && (Greeted(old(journal)) ==> Greeted(journal))
    {
      hide Gated, MayCommand, Steady, Greeted, Bindings, Requests, Replies, Events, Commands, Scans, ScanOf;
      SteadySame(journal);
      ok := worker.Write(c);
      if ok {
        Noted(journal, Commanded(c));
        journal := journal + [Commanded(c)];
      }
    }

    method Hear() returns (e: Incoming<WorkerEvent>)
      requires Honest() && MayHear(journal, On())
      modifies this`journal, worker`got
      ensures Honest() && worker.got == old(worker.got) + [e]
      ensures worker.Left() <= old(worker.Left()) && (e != Gone ==> worker.Left() < old(worker.Left()))
      ensures Bindings(journal) == Observe(Bindings(old(journal)), Heard(e)) && journal == old(journal) + [Heard(e)]
      ensures AnyStart(journal) == AnyStart(old(journal)) && (Greeted(old(journal)) ==> Greeted(journal))
      ensures e == ReadOf(worker.script, |old(worker.got)|)
    {
      hide Gated, MayHear, Requests, Replies, Events, Commands, Scans, ScanOf, AnyStart, Greeted, Bindings;
      e := worker.Read();
      Noted(journal, Heard(e));
      journal := journal + [Heard(e)];
    }

    method Discover() returns (sessions: seq<Discovered>)
      requires Honest() && MayScan(journal)
      modifies this`scanned, this`journal
      ensures Honest() && scanned == old(scanned) + 1 && sessions == ScanOf(old(scanned))
      ensures journal == old(journal) + [Scanned(sessions)]
      ensures Follows(old(journal), Scanned(sessions), journal)
    {
      hide Gated, MayScan, Requests, Replies, Events, Commands, Scans, Desktop.Merge, Desktop.AllUnder;
      sessions := Desktop.Discover(if scanned < |directories| then directories[scanned] else [], allowX11);
      Noted(journal, Scanned(sessions));
      journal, scanned := journal + [Scanned(sessions)], scanned + 1;
    }
  }

  /** The greeter said something wrong at first, or something that ends the connection. */
  predicate Final(first: Incoming<Request>, last: Incoming<Request>, dead: bool) {
    || first != Got(Request.Hello(PROTOCOL_VERSION)) || !last.Got?
    || (dead && last.msg.BeginAuth?)
  }

  /** The worker is over, or gave up on the test. */
  predicate Ended(last: Incoming<WorkerEvent>) {
    last.Got? ==> last.msg == WorkerEvent.Auth(Verdict.Transport)
  }

  // ---- The login ----

  datatype AuthOutcome = Success | Failure | Cancelled | Transport

  function OutcomeOf(v: Verdict): AuthOutcome {
    match v
    case Success => AuthOutcome.Success
    case Failure => AuthOutcome.Failure
    case Cancelled => AuthOutcome.Cancelled
    case Transport => AuthOutcome.Transport
  }

  /** How the login's worker is owned; `Dead` is a worker that could not be started. */
  datatype Backend = Direct(child: bool) | Split | Dead

  /** The events of one conversation of a worker that keeps to its protocol: questions and
      notices, then the verdict. */
  predicate Conversation(events: seq<Frame<WorkerEvent>>) {
    && events != []
    && (forall k :: 0 <= k < |events| - 1 ==> Chatter(events[k]))
    && events[|events| - 1].Message? && events[|events| - 1].msg.Auth?
  }

  predicate Chatter(f: Frame<WorkerEvent>) {
    f.Message? && (f.msg.Prompt? || f.msg.Info? || f.msg.Error?)
  }

  /** A worker's frames are a conversation exactly if they are any questions and notices and then
      one verdict. */
  lemma ConversationIs(before: seq<Frame<WorkerEvent>>, last: Frame<WorkerEvent>)
    ensures Conversation(before + [last]) <==>
              && last.Message? && last.msg.Auth?
              && forall f :: f in before ==> f.Message? && (f.msg.Prompt? || f.msg.Info? || f.msg.Error?)
  {
    var all := before + [last];
    assert forall k :: 0 <= k < |before| ==> all[k] == before[k] && before[k] in before;
  }

  /** The worker's frames from `from` on, up to `to`, are questions and notices. */
  predicate Chatty(script: seq<Frame<WorkerEvent>>, from: nat, to: nat) {
    from <= to <= |script| && forall i :: from <= i < to ==> Chatter(script[i])
  }

  /** Whatever conversation the worker had at `from` was consumed, to its last event and no
      further, and its verdict is the outcome. */
  ghost predicate Drained(script: seq<Frame<WorkerEvent>>, from: nat, to: nat, outcome: AuthOutcome) {
    forall c: seq<Frame<WorkerEvent>> :: Conversation(c) && from <= |script| && c <= script[from..] ==>
      to == from + |c| && outcome == OutcomeOf(c[|c| - 1].msg.verdict)
  }

  /** A conversation that begins at `from` ends with the first frame that is no chatter. */
  lemma ConversationEnds(c: seq<Frame<WorkerEvent>>, script: seq<Frame<WorkerEvent>>, from: nat, k: nat)
    requires Chatty(script, from, k) && k < |script| && !Chatter(script[k])
    requires Conversation(c) && c <= script[from..]
    ensures from + |c| == k + 1 && c[k - from] == script[k]
  {
    assert forall i :: 0 <= i < |c| ==> c[i] == script[from + i];
  }

  lemma NothingYet(script: seq<Frame<WorkerEvent>>, from: nat)
    ensures from <= |script| ==> Chatty(script, from, from)
  {
  }

  /** The next frame read ends the conversation, or it goes on. */
  lemma FrameDrains(script: seq<Frame<WorkerEvent>>, from: nat, k: nat, e: WorkerEvent)
    requires from <= |script| ==> Chatty(script, from, k)
    requires ReadOf(script, k) == Got(e) && from <= k
    ensures Chatter(Message(e)) ==> Chatty(script, from, k + 1)
    ensures e.Auth? ==> Drained(script, from, k + 1, OutcomeOf(e.verdict))
    ensures !e.Auth? && !Chatter(Message(e)) ==> Drained(script, from, k + 1, AuthOutcome.Failure)
  {
    if !Chatter(script[k]) {
      forall c: seq<Frame<WorkerEvent>> | Conversation(c) && c <= script[from..]
        ensures from + |c| == k + 1 && c[k - from] == script[k]
      {
        ConversationEnds(c, script, from, k);
      }
    }
  }

  /** What answers the worker's question, going by what the greeter sent on being asked: its
      reply, or else a cancellation. */
  function Answer(request: Incoming<Request>): WorkerCommand {
    if request.Got? && request.msg.AuthReply? then WorkerCommand.Reply(request.msg.response) else WorkerCommand.Cancel
  }

  /** The conversation cannot go on: the greeter is gone, or its reply did not get through. */
  predicate Broken(request: Incoming<Request>, told: bool) {
    !request.Got? || (request.msg.AuthReply? && !told)
  }

  /** What the journal shows of one question that was dealt with: asked, and answered by the
      greeter's reply or a cancellation, which alone may fail to reach the worker. */
  ghost predicate Exchanged(text: string, secret: bool, j: seq<Entry>, j': seq<Entry>) {
    exists request: Incoming<Request>, told: bool ::
      !Broken(request, told) && j' == WithExchange(text, secret, j, request, told)
  }

  function WithExchange(text: string, secret: bool, j: seq<Entry>, request: Incoming<Request>, told: bool): seq<Entry> {
    j + [Said(Response.Auth(Question(text, secret)))] + [Asked(request)] + Delivered(told, [Commanded(Answer(request))])
  }

  lemma ExchangeWas(text: string, secret: bool, j: seq<Entry>, request: Incoming<Request>, told: bool, j': seq<Entry>)
    requires !Broken(request, told)
    requires var asked := j + [Said(Response.Auth(Question(text, secret)))] + [Asked(request)];
             j' == if told then asked + [Commanded(Answer(request))] else asked
    ensures Exchanged(text, secret, j, j')
  {
    assert j' == WithExchange(text, secret, j, request, told);
  }

  /** What may be done about a question and a notice. */
  lemma RelayPermitted(j: seq<Entry>, j': seq<Entry>, e: WorkerEvent, on: Setup)
    requires j' == j + [Heard(Got(e))] && Bindings(j).trying.Some?
    ensures e.Prompt? ==> Questioned(j') && MaySay(j', Response.Auth(Question(e.text, e.secret)), on)
    ensures e.Info? ==> MaySay(j', Response.Auth(AuthPrompt.Info(e.text)), on)
    ensures e.Error? ==> MaySay(j', Response.Auth(AuthPrompt.Error(e.text)), on)
  {
    assert j'[..|j'| - 1] == j;
  }

  /** A question that cannot be put is cancelled. */
  lemma CancelPermitted(j: seq<Entry>, text: string, secret: bool, on: Setup)
    requires Last(j, Heard(Got(WorkerEvent.Prompt(text, secret)))) && Bindings(j).trying.Some? && Deaf(j, on)
    ensures MayCommand(j, WorkerCommand.Cancel, on)
  {
  }

  /** One that was put is the greeter's to answer. */
  lemma PutPermitted(j: seq<Entry>, text: string, secret: bool)
    requires Questioned(j) && Greeted(j + [Said(Response.Auth(Question(text, secret)))])
    ensures MayAsk(j + [Said(Response.Auth(Question(text, secret)))])
  {
  }

  lemma AnswerPermitted(j: seq<Entry>, question: Response, request: Incoming<Request>, on: Setup)
    requires Questioned(j) && Bindings(j + [Said(question)] + [Asked(request)]).trying.Some?
    ensures MayCommand(j + [Said(question)] + [Asked(request)], Answer(request), on)
    ensures !Answer(request).Auth? && !Answer(request).Start?
  {
    hide Bindings;
    var j' := j + [Said(question)] + [Asked(request)];
    assert (j + [Said(question)])[..|j|] == j;
    assert Questioned(j + [Said(question)]);
    assert j'[..|j'| - 1] == j + [Said(question)];
    assert Questioned(j');
  }

  /** Once it is answered, or cannot be, the worker is listened to again. */
  lemma AnsweredPermits(j: seq<Entry>, request: Incoming<Request>, told: bool, j': seq<Entry>, on: Setup)
    requires !Broken(request, told) && Bindings(j').trying.Some? && Last(j, Asked(request))
    requires if told then j' == j + [Commanded(Answer(request))] else j' == j && Shut(j, on)
    ensures MayHear(j', on)
  {
    hide Bindings;
  }

  /** A notice shown, or one that could not be. */
  lemma NoticePermits(j: seq<Entry>, e: WorkerEvent, shown: bool, j': seq<Entry>, r: Response, on: Setup)
    requires Last(j, Heard(Got(e))) && (e.Info? || e.Error?) && Bindings(j').trying.Some?
    requires r.Auth? && !r.prompt.Question? && (if shown then j' == j + [Said(r)] else j' == j && Deaf(j', on))
    ensures MayHear(j', on)
  {
    hide Bindings;
  }

  lemma AuthPermitted(j: seq<Entry>, user: string, on: Setup)
    requires Last(j, Asked(Got(Request.BeginAuth(user)))) && Free(Bindings(j))
    ensures MayCommand(j, WorkerCommand.Auth(user), on)
    ensures MayHear(j + [Commanded(WorkerCommand.Auth(user))], on)
  {
    Snoc(j, Commanded(WorkerCommand.Auth(user)));
    hide Bindings;
  }

  /** The last thing heard is what this outcome stands for, and it ended a test. */
  predicate Concluded(j: seq<Entry>, outcome: AuthOutcome) {
    && j != [] && j[|j| - 1].Heard? && j[|j| - 1].ev.Got? && Bindings(j[..|j| - 1]).trying.Some?
    && match outcome
       case Success => j[|j| - 1].ev.msg == WorkerEvent.Auth(Verdict.Success)
       case Failure =>
         || j[|j| - 1].ev.msg == WorkerEvent.Auth(Verdict.Failure)
         || j[|j| - 1].ev.msg.Started? || j[|j| - 1].ev.msg.StartFailed?
       case Cancelled => j[|j| - 1].ev.msg == WorkerEvent.Auth(Verdict.Cancelled)
       case Transport => false
  }

  lemma Concludes(j: seq<Entry>, j': seq<Entry>, e: WorkerEvent)
    requires j' == j + [Heard(Got(e))] && Bindings(j).trying.Some?
    ensures e.Auth? && e.verdict != Verdict.Transport ==> Concluded(j', OutcomeOf(e.verdict))
    ensures e.Started? || e.StartFailed? ==> Concluded(j', AuthOutcome.Failure)
  {
    hide Bindings;
    assert j'[..|j'| - 1] == j;
  }

  lemma SteadyTwice(j: seq<Entry>, j': seq<Entry>, j'': seq<Entry>)
    requires Steady(j, j') && Steady(j', j'')
    ensures Steady(j, j'') && Bindings(j'') == Bindings(j)
  {
  }

  lemma SameReadings(j: seq<Entry>, j': seq<Entry>)
    requires Steady(j, j') && Greeted(j)
    ensures Greeted(j') && Bindings(j') == Bindings(j) && AnyStart(j') == AnyStart(j)
  {
  }

  lemma StartInTurn(j: seq<Entry>, session: WorkerSession, on: Setup)
    requires j != [] && Free(Bindings(j)) && MayStart(j, session, on.managed)
    ensures MayCommand(j, WorkerCommand.Start(session), on)
    ensures MayHear(j + [Commanded(WorkerCommand.Start(session))], on)
  {
    Snoc(j, Commanded(WorkerCommand.Start(session)));
    hide Bindings, MayStart;
  }

  /** What is said of a launch, by what was heard last or for want of a worker. */
  lemma LaunchReported(j: seq<Entry>, j': seq<Entry>, ev: Incoming<WorkerEvent>, on: Setup)
    requires j' == j + [Heard(ev)] && Bindings(j).trying == None && Bindings(j).launching
    ensures !on.managed ==> MaySay(j', Response.Error(CouldNotStart), on)
    ensures !on.managed && ev == Got(WorkerEvent.Started) ==> MaySay(j', Response.Started, on)
    ensures ev.Got? && !ev.msg.Started? && !ev.msg.StartFailed? ==> MayHear(j', on)
    ensures Bindings(j').bound == Bindings(j).bound && Bindings(j').trying == None
  {
    Snoc(j, Heard(ev));
    assert j'[..|j'| - 1] == j;
    hide Bindings;
  }

  lemma NotLaunched(j: seq<Entry>, on: Setup)
    requires Found(j) && Shut(j, on) && !on.managed
    ensures MaySay(j, Response.Error(CouldNotStart), on)
  {
    hide Bindings, LastAsked, LastScan;
  }

  class LoginSession {
    const peers: Peers
    var backend: Backend
    var username: Option<string>

    constructor (peers: Peers, backend: Backend)
      ensures this.peers == peers && this.backend == backend && username == None
    {
      this.peers, this.backend, username := peers, backend, None;
    }

    /** The login knows exactly the user the journal shows was last accepted. */
    ghost predicate Sound()
      reads this, peers
    {
      && username == LastAccepted(peers.journal)
      && (backend.Dead? ==> username == None)
      && Greeted(peers.journal)
    }

    /** Between requests, neither a test nor a launch is under way. */
    ghost predicate Valid()
      reads this, peers
    {
      Sound() && Free(Bindings(peers.journal))
    }

    /** Passes the greeter's answer to the question it was asked last. Any request but a reply
        cancels; `broken` ends the login. */
    method RelayAnswer(text: string, secret: bool, request: Incoming<Request>, ghost j0: seq<Entry>)
      returns (broken: bool)
      requires peers.Honest() && Questioned(j0) && Bindings(peers.journal).trying.Some?
      requires peers.journal == j0 + [Said(Response.Auth(Question(text, secret)))] + [Asked(request)]
      requires Steady(j0, peers.journal) && Last(peers.journal, Asked(request))
      modifies peers`journal, peers.worker`sent
      ensures peers.Honest() && Steady(j0, peers.journal)
      ensures if broken then !request.Got? || |peers.worker.sent| >= peers.worker.room
              else MayHear(peers.journal, peers.On()) && Exchanged(text, secret, j0, peers.journal)
    {
      hide Bindings, Questioned, MayCommand, MayHear, Steady, Last, Exchanged, Answer;
      hide Peers.Honest, Peers.On, Shut, Observe, Follows, AnyStart, Greeted;
      ghost var j2 := peers.journal;
      AnswerPermitted(j0, Response.Auth(Question(text, secret)), request, peers.On());
      var answer := Answer(request);
      var told := peers.Command(answer);
      broken := Broken(request, told);
      SteadyTwice(j0, j2, peers.journal);
      if !broken {
        SteadyTwice(j2, j2, peers.journal);
        AnsweredPermits(j2, request, told, peers.journal, peers.On());
        ExchangeWas(text, secret, j0, request, told, peers.journal);
      }
    }

    /** A question of the worker's, put to the greeter and answered with one command; one that
        cannot be shown is cancelled, and the login is over. */
    method RelayPrompt(text: string, secret: bool) returns (broken: bool)
      requires peers.Honest() && Greeted(peers.journal)
      requires Last(peers.journal, Heard(Got(WorkerEvent.Prompt(text, secret)))) && Questioned(peers.journal)
      requires MaySay(peers.journal, Response.Auth(Question(text, secret)), peers.On())
      requires Bindings(peers.journal).trying.Some?
      modifies peers`journal, peers.greeter, peers.worker`sent
      ensures peers.Honest() && Greeted(peers.journal)
      ensures Bindings(peers.journal) == old(Bindings(peers.journal))
      ensures AnyStart(peers.journal) == old(AnyStart(peers.journal))
      ensures peers.greeter.Left() <= old(peers.greeter.Left())
      ensures if broken then peers.Finished(backend.Dead?)
              else MayHear(peers.journal, peers.On()) && Exchanged(text, secret, old(peers.journal), peers.journal)
    {
      hide Bindings, Questioned, MaySay, MayAsk, MayCommand, MayHear, Steady, Last, Exchanged, Deaf, Final, Ended;
      hide Peers.Honest, Peers.On, Observe, Follows, AnyStart, Greeted;
      ghost var j0 := peers.journal;
      var shown := peers.Say(Response.Auth(Question(text, secret)));
      SameReadings(j0, peers.journal);
      if shown {
        ghost var j1 := peers.journal;
        PutPermitted(j0, text, secret);
        var request := peers.Ask();
        SteadyTwice(j0, j1, peers.journal);
        broken := RelayAnswer(text, secret, request, j0);
        SilentIsFinal(peers, request, backend.Dead?);
      } else {
        CancelPermitted(j0, text, secret, peers.On());
        var _ := peers.Command(WorkerCommand.Cancel);
        broken := true;
      }
      SameReadings(j0, peers.journal);
    }

    /** The worker's events up to the one that ends the conversation, its questions relayed.
        Returning anything but `Transport`, it has consumed exactly the conversation the
        worker had for it. */
    method Converse(user: string) returns (outcome: AuthOutcome)
      requires peers.Honest() && Greeted(peers.journal) && MayHear(peers.journal, peers.On())
      requires Bindings(peers.journal).trying == Some(user) && !Bindings(peers.journal).launching
      modifies peers`journal, peers.greeter, peers.worker
      ensures peers.Honest() && Greeted(peers.journal)
      ensures peers.greeter.Left() <= old(peers.greeter.Left())
      ensures AnyStart(peers.journal) == old(AnyStart(peers.journal))
      ensures match outcome
              case Success => Bindings(peers.journal) == Binding(None, Some(user), false)
              case Transport => Bindings(peers.journal).bound == old(Bindings(peers.journal)).bound
              case _ => Bindings(peers.journal) == Binding(None, old(Bindings(peers.journal)).bound, false)
      ensures if outcome == AuthOutcome.Transport then peers.Finished(backend.Dead?)
              else Concluded(peers.journal, outcome) &&
                   Drained(peers.worker.script, |old(peers.worker.got)|, |peers.worker.got|, outcome)
    {
      hide Bindings, Greeted, AnyStart, MayHear, MaySay, Questioned, Exchanged, Concluded, Follows, Steady, Deaf, Last;
      hide Peers.Honest, Peers.On, Drained, Chatty, Final;
      ghost var from := |peers.worker.got|;
      NothingYet(peers.worker.script, from);
      while true
        invariant peers.Honest() && Greeted(peers.journal) && MayHear(peers.journal, peers.On())
        invariant Bindings(peers.journal) == old(Bindings(peers.journal))
        invariant peers.greeter.Left() <= old(peers.greeter.Left())
        invariant AnyStart(peers.journal) == old(AnyStart(peers.journal))
        invariant from <= |peers.worker.got|
        invariant from <= |peers.worker.script| ==> Chatty(peers.worker.script, from, |peers.worker.got|)
        decreases peers.worker.Left()
      {
        ghost var j := peers.journal;
        var event := peers.Hear();
        LastIs(j, Heard(event));
        if event.Got? {
          RelayPermitted(j, peers.journal, event.msg, peers.On());
          Concludes(j, peers.journal, event.msg);
          FrameDrains(peers.worker.script, from, |peers.worker.got| - 1, event.msg);
        }
        match event {
          case Got(Prompt(text, secret)) =>
            var broken := RelayPrompt(text, secret);
            if broken {
              return AuthOutcome.Transport;
            }
          case Got(Info(text)) =>
            ShowNotice(event.msg, Response.Auth(AuthPrompt.Info(text)));
          case Got(Error(text)) =>
            ShowNotice(event.msg, Response.Auth(AuthPrompt.Error(text)));
          case Got(Auth(v)) =>
            return OutcomeOf(v);
          case Got(_) =>
            return AuthOutcome.Failure;
          case _ =>
            return AuthOutcome.Transport;
        }
      }
    }

    /** A notice is shown if it can be. */
    method ShowNotice(e: WorkerEvent, r: Response)
      requires peers.Honest() && Greeted(peers.journal) && Bindings(peers.journal).trying.Some?
      requires Last(peers.journal, Heard(Got(e))) && (e.Info? || e.Error?)
      requires r.Auth? && !r.prompt.Question? && MaySay(peers.journal, r, peers.On())
      modifies peers`journal, peers.greeter`sent
      ensures peers.Honest() && Greeted(peers.journal) && MayHear(peers.journal, peers.On())
      ensures Bindings(peers.journal) == old(Bindings(peers.journal))
      ensures AnyStart(peers.journal) == old(AnyStart(peers.journal))
      ensures peers.greeter.Left() == old(peers.greeter.Left())
    {
      hide Bindings, Greeted, AnyStart, MayHear, MaySay, Steady, Deaf, Last, Peers.Honest, Peers.On;
      ghost var j := peers.journal;
      var shown := peers.Say(r);
      SameReadings(j, peers.journal);
      NoticePermits(j, e, shown, peers.journal, r, peers.On());
    }

    /** One authentication conversation; its success binds the login to the user. */
    method Authenticate(user: string) returns (outcome: AuthOutcome)
      requires peers.Honest() && Valid()
      requires Last(peers.journal, Asked(Got(Request.BeginAuth(user)))) && peers.greeter.got != []
      requires peers.greeter.got[|peers.greeter.got| - 1] == Got(Request.BeginAuth(user))
      modifies this`username, peers`journal, peers.greeter, peers.worker
      ensures peers.Honest() && Sound() && (outcome != AuthOutcome.Transport ==> Valid())
      ensures peers.greeter.Left() <= old(peers.greeter.Left())
      ensures AnyStart(peers.journal) == old(AnyStart(peers.journal))
      ensures outcome == AuthOutcome.Success ==> username == Some(user)
      ensures outcome != AuthOutcome.Success ==> username == old(username)
      ensures if outcome == AuthOutcome.Transport then peers.Finished(backend.Dead?)
              else Concluded(peers.journal, outcome) &&
                   Drained(peers.worker.script, |old(peers.worker.got)|, |peers.worker.got|, outcome)
    {
      hide Bindings, Greeted, AnyStart, Drained, MayCommand, MayHear, Concluded, Follows, Last, Steady, Ended;
      hide Peers.Honest, Peers.On, Shut;
      if backend.Dead? {
        return AuthOutcome.Transport;
      }
      AuthPermitted(peers.journal, user, peers.On());
      var told := peers.Command(WorkerCommand.Auth(user));
      if !told {
        return AuthOutcome.Transport;
      }
      outcome := Converse(user);
      if outcome == AuthOutcome.Success {
        username := Some(user);
      }
    }

    /** Tells the worker to start a session that may be started, and waits for its verdict.
        `cloneOk` says whether the control socket can be duplicated to watch the session. */
    method Start(session: Discovered, cloneOk: bool) returns (launched: bool)
      requires peers.Honest() && Valid() && MayStart(peers.journal, ForWorker(session), peers.managed)
      requires peers.journal != [] && (!peers.managed ==> Found(peers.journal))
      requires peers.handle != null ==> peers.handle.Over()
      modifies this`backend, peers`journal, peers.worker
      ensures peers.Honest() && Valid() && backend.Dead? == old(backend.Dead?)
      ensures peers.worker.sent == old(peers.worker.sent) +
              Delivered(|old(peers.worker.sent)| < peers.worker.room, [WorkerCommand.Start(ForWorker(session))])
      ensures launched ==> AnyStart(peers.journal) && Last(peers.journal, Heard(Got(WorkerEvent.Started)))
      ensures !peers.managed ==>
                MaySay(peers.journal, if launched then Response.Started else Response.Error(CouldNotStart), peers.On())
      ensures old(peers.journal) <= peers.journal
    {
      hide Bindings, LastAsked, LastScan, MayStart, Greeted, AnyStart, ForWorker, MayCommand, MayHear, MaySay, Find;
      hide Peers.Honest, Peers.ScanOf, Steady, Found, Shut, Last;
      ghost var j0, on := peers.journal, peers.On();
      StartInTurn(j0, ForWorker(session), on);
      var told := peers.Command(WorkerCommand.Start(ForWorker(session)));
      if !told {
        if !on.managed {
          NotLaunched(j0, on);
        }
        return false;
      }
      while true
        invariant peers.Honest() && MayHear(peers.journal, on)
        invariant peers.worker.sent == old(peers.worker.sent) + [WorkerCommand.Start(ForWorker(session))]
        invariant Greeted(peers.journal) && j0 <= peers.journal
        invariant backend == old(backend) && AnyStart(peers.journal)
        invariant Bindings(peers.journal).bound == old(Bindings(peers.journal)).bound
        invariant Bindings(peers.journal).trying == None && Bindings(peers.journal).launching
        decreases peers.worker.Left()
      {
        ghost var j := peers.journal;
        var event := peers.Hear();
        LastIs(j, Heard(event));
        LaunchReported(j, peers.journal, event, on);
        match event {
          case Got(Started) =>
            match backend {
              case Direct(child) =>
                backend := Direct(false);
                return child;
              case _ =>
                return cloneOk;
            }
          case Got(StartFailed) =>
            return false;
          case Got(_) =>
          case _ =>
            return false;
        }
      }
    }
  }

  /** A greeter that said nothing more when asked, or a reply that does not get through, is
      the end. */
  lemma SilentIsFinal(peers: Peers, request: Incoming<Request>, dead: bool)
    requires peers.greeter.got != [] && peers.greeter.got[|peers.greeter.got| - 1] == request
    ensures !request.Got? || |peers.worker.sent| >= peers.worker.room ==> peers.Finished(dead)
  {
  }

  lemma LastIs(j: seq<Entry>, e: Entry)
    ensures Last(j + [e], e)
  {
  }

  // ---- The handler ----

  /** The answer to a first request, if it is one at all. */
  function HandshakeReply(first: Incoming<Request>): seq<Response> {
    match first
    case Got(Hello(v)) =>
      if v == PROTOCOL_VERSION then [Response.Welcome(PROTOCOL_VERSION)] else [Response.Incompatible(PROTOCOL_VERSION)]
    case Got(_) => [Response.Error(HandshakeRequired)]
    case _ => []
  }

  lemma HandshakePermitted(j: seq<Entry>, first: Incoming<Request>, on: Setup)
    requires j == [] + [Asked(first)]
    ensures HandshakeReply(first) != [] ==> MaySay(j, HandshakeReply(first)[0], on)
    ensures first == Got(Request.Hello(PROTOCOL_VERSION)) ==> Greeted(j)
    ensures Bindings(j) == Binding(None, None, false)
  {
    assert j[..|j| - 1] == [];
  }

  lemma EmptyJournal(on: Setup)
    ensures Gated([], on) && !AnyStart([]) && Bindings([]) == Binding(None, None, false) && MayAsk([])
  {
  }

  /** The greeter was told something last. */
  predicate Told(j: seq<Entry>) {
    j != [] && j[|j| - 1].Said?
  }

  lemma ToldNow(j: seq<Entry>, r: Response)
    ensures Told(j + [Said(r)])
  {
  }

  /** The mandatory first exchange: it succeeds exactly if the greeter opens with a `Hello` of
      the daemon's version and can be answered, and whatever else it opens with gets the
      answer for that. */
  method Handshake(peers: Peers) returns (ok: bool)
    requires peers.Honest() && peers.journal == [] && peers.greeter.Untouched()
    modifies peers`journal, peers.greeter
    ensures peers.Honest() && !AnyStart(peers.journal)
    ensures ok <==> ReadOf(peers.greeter.script, 0) == Got(Request.Hello(PROTOCOL_VERSION)) && peers.greeter.room > 0
    ensures peers.greeter.got == [ReadOf(peers.greeter.script, 0)]
    ensures peers.greeter.sent == Delivered(peers.greeter.room > 0, HandshakeReply(ReadOf(peers.greeter.script, 0)))
    ensures var first: Incoming<Request> := ReadOf(peers.greeter.script, 0);
            peers.greeter.sent == Delivered(peers.greeter.room > 0,
                                            if !first.Got? then []
                                            else if first.msg == Request.Hello(3) then [Response.Welcome(3)]
                                            else if first.msg.Hello? then [Response.Incompatible(3)]
                                            else [Response.Error(HandshakeRequired)])
    ensures ok ==> Greeted(peers.journal) && Told(peers.journal)
    ensures ok ==> Bindings(peers.journal) == Binding(None, None, false)
    ensures peers.worker.sent == old(peers.worker.sent)
  {
    hide Bindings, Gated, AnyStart, MayAsk, MaySay, Greeted, Last, Follows, Deaf, Told, Peers.Honest, Peers.On;
    EmptyJournal(peers.On());
    var first := peers.Ask();
    HandshakePermitted(peers.journal, first, peers.On());
    ghost var j := peers.journal;
    ok := false;
    match first {
      case Got(Hello(v)) =>
        if v == PROTOCOL_VERSION {
          ok := peers.Say(Response.Welcome(PROTOCOL_VERSION));
          ToldNow(j, Response.Welcome(PROTOCOL_VERSION));
        } else {
          var _ := peers.Say(Response.Incompatible(PROTOCOL_VERSION));
        }
      case Got(_) =>
        var _ := peers.Say(Response.Error(HandshakeRequired));
      case _ =>
    }
  }

  /** The answer each stateless request gets; `ids` are those of a fresh scan. */
  function DispatchReply(request: Request, ids: seq<string>): Response
    requires !request.BeginAuth? && !request.Start?
  {
    match request
    case Hello(_) => Response.Welcome(PROTOCOL_VERSION)
    case ListSessions => Response.Sessions(ids)
    case Power => Response.Error(Unavailable)
    case AuthReply(_) => Response.Error(NothingInProgress)
    case CancelAuth => Response.Error(NothingInProgress)
  }

  lemma LastAskedIs(j: seq<Entry>, request: Request)
    requires Last(j, Asked(Got(request)))
    ensures LastAsked(j) == Some(request)
  {
  }

  lemma ListPermitted(j: seq<Entry>, sessions: seq<Discovered>, on: Setup)
    requires Last(j, Asked(Got(ListSessions))) && Free(Bindings(j))
    ensures MayScan(j) && MaySay(j + [Scanned(sessions)], Response.Sessions(Ids(sessions)), on)
  {
    hide Bindings, LastAsked, LastScan, Greeted, AnyStart, Ids, Find, Found;
    LastAskedIs(j, ListSessions);
    Snoc(j, Scanned(sessions));
  }

  lemma DispatchPermitted(j: seq<Entry>, request: Request, sessions: seq<Discovered>, on: Setup)
    requires Last(j, Asked(Got(request))) && |j| > 1 && Free(Bindings(j)) && !request.BeginAuth? && !request.Start?
    ensures var reply := DispatchReply(request, Ids(sessions));
            if request.ListSessions? then MayScan(j) && MaySay(j + [Scanned(sessions)], reply, on)
            else MaySay(j, reply, on)
  {
    hide Bindings, LastAsked, LastScan, Ids, Find, Found, MayScan;
    if request.ListSessions? {
      ListPermitted(j, sessions, on);
    }
  }

  /** The stateless requests. The two that are not are handled by the loop, and never get
      here. */
  method Dispatch(peers: Peers, request: Request) returns (open: bool)
    requires peers.Honest() && Greeted(peers.journal) && Free(Bindings(peers.journal))
    requires Last(peers.journal, Asked(Got(request))) && |peers.journal| > 1
    requires !request.BeginAuth? && !request.Start?
    modifies peers`scanned, peers`journal, peers.greeter`sent
    ensures peers.Honest() && Greeted(peers.journal)
    ensures Bindings(peers.journal) == old(Bindings(peers.journal))
    ensures AnyStart(peers.journal) == old(AnyStart(peers.journal))
    ensures open == (|old(peers.greeter.sent)| < peers.greeter.room) && (open ==> Told(peers.journal))
    ensures peers.greeter.Left() == old(peers.greeter.Left())
    ensures peers.greeter.sent == old(peers.greeter.sent) +
            Delivered(open, [DispatchReply(request, Ids(peers.ScanOf(old(peers.scanned))))])
    ensures open ==>
              var r := peers.greeter.sent[|old(peers.greeter.sent)|];
              if request.Hello? then r == Response.Welcome(3)
              else if request.Power? then r == Response.Error(Unavailable)
              else if request.ListSessions? then r == Response.Sessions(Ids(peers.ScanOf(old(peers.scanned))))
              else r == Response.Error(NothingInProgress)
  {
    hide Bindings, LastAsked, LastScan, Greeted, AnyStart, MaySay, MayScan, Ids, Last, Deaf, Told;
    hide Peers.Honest, Peers.ScanOf, Peers.On;
    DispatchPermitted(peers.journal, request, peers.ScanOf(peers.scanned), peers.On());
    ghost var j, r := peers.journal, DispatchReply(request, Ids(peers.ScanOf(peers.scanned)));
    match request {
      case Hello(_) =>
        open := peers.Say(Response.Welcome(PROTOCOL_VERSION));
      case ListSessions =>
        var sessions := peers.Discover();
        j := peers.journal;
        open := peers.Say(Response.Sessions(Ids(sessions)));
      case Power =>
        open := peers.Say(Response.Error(Unavailable));
      case AuthReply(_) =>
        open := peers.Say(Response.Error(NothingInProgress));
      case CancelAuth =>
        open := peers.Say(Response.Error(NothingInProgress));
    }
    ToldNow(j, r);
  }

  /** How an outcome is reported, the greeter being there. */
  function AuthReport(outcome: AuthOutcome): Response
    requires outcome != AuthOutcome.Transport
  {
    match outcome
    case Success => Response.AuthSuccess
    case Failure => Response.AuthFailure(AuthenticationFailed)
    case Cancelled => Response.AuthFailure(AuthenticationCancelled)
  }

  lemma ReportPermitted(j: seq<Entry>, outcome: AuthOutcome, on: Setup)
    requires Concluded(j, outcome)
    ensures outcome != AuthOutcome.Transport && MaySay(j, AuthReport(outcome), on)
  {
    hide Bindings;
  }

  /** One authentication and its report; a vanished greeter closes the connection. */
  method RunAuth(login: LoginSession, user: string) returns (open: bool)
    requires login.peers.Honest() && login.Valid()
    requires Last(login.peers.journal, Asked(Got(Request.BeginAuth(user)))) && login.peers.greeter.got != []
    requires login.peers.greeter.got[|login.peers.greeter.got| - 1] == Got(Request.BeginAuth(user))
    modifies login`username, login.peers`journal, login.peers.greeter, login.peers.worker
    ensures login.peers.Honest() && login.Sound()
    ensures if open then login.Valid() && Told(login.peers.journal) else login.peers.Finished(login.backend.Dead?)
    ensures login.peers.greeter.Left() <= old(login.peers.greeter.Left())
    ensures AnyStart(login.peers.journal) == old(AnyStart(login.peers.journal))
    ensures open && Last(login.peers.journal, Said(Response.AuthSuccess)) ==> login.username == Some(user)
    ensures open && !Last(login.peers.journal, Said(Response.AuthSuccess)) ==> login.username == old(login.username)
  {
    hide Bindings, MaySay, Greeted, AnyStart, Drained, Concluded, Deaf, Final, Ended, Peers.Honest, Peers.On;
    var peers := login.peers;
    var outcome := login.Authenticate(user);
    if outcome != AuthOutcome.Transport {
      ReportPermitted(peers.journal, outcome, peers.On());
    }
    match outcome {
      case Success =>
        open := peers.Say(Response.AuthSuccess);
      case Failure =>
        open := peers.Say(Response.AuthFailure(AuthenticationFailed));
      case Cancelled =>
        open := peers.Say(Response.AuthFailure(AuthenticationCancelled));
      case Transport =>
        open := false;
    }
  }

  lemma StartPermitted(j: seq<Entry>, id: string, found: Discovered, managed: bool, life: seq<Greeter.Happening>,
                       j': seq<Entry>)
    requires Greeted(j) && LastAccepted(j).Some? && LastAsked(j) == Some(Request.Start(id))
    requires Find(LastScan(j), id) == Some(found) && j[|j| - 1].Scanned?
    requires LastAccepted(j') == LastAccepted(j) && LastAsked(j') == LastAsked(j)
    requires LastScan(j') == LastScan(j) && Greeted(j')
    requires if managed then j' == j + [TornDown(life)] + [SeatTaken] else j' == j
    ensures MayStart(j', ForWorker(found), managed)
  {
    hide LastAsked, LastScan, Bindings, Find, ForWorker;
  }

  lemma NoSuchSessionPermitted(j: seq<Entry>, id: string, on: Setup)
    requires LastAsked(j) == Some(Request.Start(id)) && j != [] && j[|j| - 1].Scanned? && Find(LastScan(j), id) == None
    ensures MaySay(j, Response.Error(NoSuchSession), on)
  {
    hide LastAsked, LastScan, Find, Bindings;
  }

  lemma SeatPermitted(j: seq<Entry>, life: seq<Greeter.Happening>, on: Setup)
    ensures Permitted(j + [TornDown(life)], SeatTaken, on)
  {
  }

  lemma ScanPermitted(j: seq<Entry>, id: string)
    requires Last(j, Asked(Got(Request.Start(id)))) && LastAccepted(j).Some? && Free(Bindings(j))
    ensures MayScan(j) && LastAsked(j) == Some(Request.Start(id))
  {
    hide Bindings;
  }

  /** What the environment does while a session is launched: what is seen of the greeter
      being torn down, and whether the control socket can be duplicated. */
  datatype Handoff = Handoff(before: seq<Greeter.Sighting>, after: seq<Greeter.Sighting>, reaped: bool, cloneOk: bool)

  /** What the worker is sent for a request to start this session. */
  function Launch(sessions: seq<Discovered>, id: string): seq<WorkerCommand> {
    var found := Find(sessions, id);
    if found.None? then [] else [WorkerCommand.Start(ForWorker(found.value))]
  }

  /** Resolves the requested id against a fresh scan and, if it is there, hands the seat
      over: a managed greeter is torn down first, and the connection is then finished
      whether or not the session started. `greeter` is null when none is managed. The worker
      is sent a start of exactly the session found, and nothing if there is none. */
  method RunStart(login: LoginSession, greeter: Greeter.GreeterHandle?, id: string, env: Handoff) returns (open: bool)
    requires login.peers.Honest() && login.Valid() && login.username.Some?
    requires Last(login.peers.journal, Asked(Got(Request.Start(id))))
    requires login.peers.handle == greeter && login.peers.managed == (greeter != null)
    requires greeter != null ==> greeter.Valid() && !AnyStart(login.peers.journal)
    modifies login`backend, login.peers, login.peers.greeter`sent, login.peers.worker, greeter
    ensures login.peers.Honest() && login.Valid()
    ensures if open then Told(login.peers.journal) else login.peers.Finished(login.backend.Dead?)
    ensures login.backend.Dead? == old(login.backend.Dead?)
    ensures login.peers.greeter.Left() <= old(login.peers.greeter.Left())
    ensures var sent := old(login.peers.worker.sent);
            login.peers.worker.sent ==
            sent + Delivered(|sent| < login.peers.worker.room, Launch(login.peers.ScanOf(old(login.peers.scanned)), id))
    ensures greeter != null ==> greeter.Valid() && (AnyStart(login.peers.journal) ==> greeter.Over() && !open)
    ensures var scan, sent := login.peers.ScanOf(old(login.peers.scanned)), old(login.peers.worker.sent);
            if exists d :: d in scan && d.id == id then
              exists session :: Resolves(scan, id, session) &&
                login.peers.worker.sent ==
                sent + Delivered(|sent| < login.peers.worker.room, [WorkerCommand.Start(session)])
            else
              && login.peers.worker.sent == sent
              && login.peers.greeter.sent == old(login.peers.greeter.sent) +
                 Delivered(|old(login.peers.greeter.sent)| < login.peers.greeter.room,
                           [Response.Error(NoSuchSession)])
  {
    hide Bindings, LastAsked, LastScan, Greeted, AnyStart, Find, ForWorker, MayScan, MaySay, MayStart, Last, Told, Deaf;
    hide Peers.Honest, Peers.ScanOf, Permitted, Found, Final, Ended, Resolves, FirstNamed;
    var peers := login.peers;
    ScanPermitted(peers.journal, id);
    var sessions := peers.Discover();
    FindMeans(sessions, id);
    FindResolves(sessions, id);
    var found := Find(sessions, id);
    ghost var j := peers.journal;
    if found == None {
      NoSuchSessionPermitted(j, id, peers.On());
      open := peers.Say(Response.Error(NoSuchSession));
      ToldNow(j, Response.Error(NoSuchSession));
      return;
    }
    FoundNow(j, id);
    if greeter != null {
      peers.TearDown(env.before, env.after, env.reaped);
      SeatPermitted(j, greeter.history, peers.On());
      peers.TakeSeat();
      ghost var j' := peers.journal;
      StartPermitted(j, id, found.value, true, greeter.history, j');
      var _ := login.Start(found.value, env.cloneOk);
      assert j'[|j'| - 1] == SeatTaken && j'[|j'| - 1] in peers.journal;
      open := false;
    } else {
      StartPermitted(j, id, found.value, false, [], j);
      open := Launched(login, found.value, env.cloneOk);
    }
  }

  lemma FoundNow(j: seq<Entry>, id: string)
    requires j != [] && j[|j| - 1].Scanned? && LastAccepted(j).Some? && LastAsked(j) == Some(Request.Start(id))
    requires Find(LastScan(j), id).Some?
    ensures Found(j)
  {
    hide Bindings, LastAsked, LastScan, Find;
  }

  /** The launch where no greeter is managed, and its report. */
  method Launched(login: LoginSession, found: Discovered, cloneOk: bool) returns (open: bool)
    requires login.peers.Honest() && login.Valid() && !login.peers.managed && Found(login.peers.journal)
    requires login.peers.journal != [] && MayStart(login.peers.journal, ForWorker(found), login.peers.managed)
    requires login.peers.handle == null
    modifies login`backend, login.peers`journal, login.peers.greeter`sent, login.peers.worker
    ensures login.peers.Honest() && login.Valid() && login.backend.Dead? == old(login.backend.Dead?)
    ensures if open then Told(login.peers.journal) else login.peers.Finished(login.backend.Dead?)
    ensures login.peers.greeter.Left() == old(login.peers.greeter.Left())
    ensures login.peers.worker.sent == old(login.peers.worker.sent) +
            Delivered(|old(login.peers.worker.sent)| < login.peers.worker.room, [WorkerCommand.Start(ForWorker(found))])
  {
    hide Bindings, LastAsked, LastScan, Greeted, AnyStart, ForWorker, MaySay, MayStart, Found, Last, Told, Deaf;
    hide Peers.Honest, Peers.On, Final, Ended;
    var peers := login.peers;
    var launched := login.Start(found, cloneOk);
    ghost var j := peers.journal;
    if launched {
      var told := peers.Say(Response.Started);
      assert told ==> Response.Started in peers.greeter.sent;
      open := false;
    } else {
      open := peers.Say(Response.Error(CouldNotStart));
      ToldNow(j, Response.Error(CouldNotStart));
    }
  }

  lemma FirstPermitted(j: seq<Entry>, id: string, on: Setup)
    requires Last(j, Asked(Got(Request.Start(id)))) && |j| > 1 && LastAccepted(j) == None && Free(Bindings(j))
    ensures MaySay(j, Response.Error(AuthenticateFirst), on)
  {
    hide Bindings;
  }

  lemma NextPermitted(j: seq<Entry>)
    requires Told(j) && Greeted(j) && Free(Bindings(j))
    ensures MayAsk(j) && j != []
  {
    hide Bindings;
  }

  /** Serves one greeter: authorize it by its kernel-attested uid, greet it, then answer its
      requests until the connection is over. `backend` is what the login factory produced,
      `envs` what each `Start` will meet. The journal says truly what was read, delivered and
      found; everything in it was permitted when it was done; and the connection is left only
      for a reason. */
  method HandleConnection(peerUid: nat, greeterUid: nat, peers: Peers, backend: Backend,
                          greeter: Greeter.GreeterHandle?, envs: seq<Handoff>)
    requires peers.Honest() && peers.journal == [] && peers.greeter.Untouched() && peers.worker.Untouched()
    requires peers.handle == greeter && peers.managed == (greeter != null)
    requires greeter != null ==> greeter.Valid()
    modifies peers, peers.greeter, peers.worker, greeter
    ensures peers.Honest()
    ensures if peerUid != greeterUid then peers.greeter.Untouched() && peers.worker.Untouched()
            else peers.greeter.got != [] && peers.Finished(backend.Dead?)
    ensures peerUid == greeterUid && ReadOf(peers.greeter.script, 0) != Got(Request.Hello(PROTOCOL_VERSION)) ==>
              peers.worker.Untouched()
    ensures greeter != null ==> greeter.Valid() && (AnyStart(peers.journal) ==> greeter.Over())
    ensures greeter != null ==>
              forall k :: 0 <= k < |peers.journal| && IsStart(peers.journal[k]) ==>
                HandedOver(peers.journal, k, greeter.history)
    ensures forall k :: 0 <= k < |peers.journal| && IsStart(peers.journal[k]) ==>
              AsAsked(peers.journal, k, peers.managed)
  {
    hide Bindings, Gated, Greeted, AnyStart, MayAsk, Told, Peers.Honest, Peers.On, Ended;
    EmptyJournal(peers.On());
    if peerUid != greeterUid {
      return;
    }
    var open := Handshake(peers);
    if !open {
      StartsAsAsked(peers);
      if greeter != null {
        StartsHandedOver(peers);
      }
      return;
    }
    var login := new LoginSession(peers, backend);
    var coming := envs;
    while open
      invariant peers.Honest() && login.peers == peers && login.backend.Dead? == backend.Dead?
      invariant peers.greeter.got != []
      invariant if open then login.Valid() && Told(peers.journal) else peers.Finished(backend.Dead?)
      invariant greeter != null ==> greeter.Valid() && (AnyStart(peers.journal) ==> greeter.Over() && !open)
      decreases peers.greeter.Left(), open
    {
      var env := if coming == [] then Handoff([], [], true, true) else coming[0];
      open := ServeRequest(login, greeter, env);
      coming := if coming == [] then [] else coming[1..];
    }
    StartsAsAsked(peers);
    if greeter != null {
      StartsHandedOver(peers);
    }
  }

  /** Right before the command at `k` the seat was taken from a greeter that had had this whole
      life: it was seen exited, was killed, or could not be waited on. */
  predicate HandedOver(j: seq<Entry>, k: nat, life: seq<Greeter.Happening>)
    requires k < |j|
  {
    k >= 2 && j[k - 2] == TornDown(life) && j[k - 1] == SeatTaken && Greeter.WholeLife(life)
  }

  lemma StartsHandedOver(peers: Peers)
    requires peers.Honest() && peers.handle != null
    ensures forall k :: 0 <= k < |peers.journal| && IsStart(peers.journal[k]) ==>
              HandedOver(peers.journal, k, peers.handle.history)
  {
    var j := peers.journal;
    forall k | 0 <= k < |j| && IsStart(j[k])
      ensures HandedOver(j, k, peers.handle.history)
    {
      StartHandedOver(j, peers.On(), k);
      assert j[k - 2].TornDown?;
    }
  }

  /** In every managed history the handler can produce, at the moment a session start is
      commanded the greeter is over and the seat no longer its. */
  lemma StartHandedOver(j: seq<Entry>, on: Setup, k: nat)
    requires Gated(j, on) && on.managed && k < |j| && IsStart(j[k])
    ensures k >= 2 && j[k - 2].TornDown? && HandedOver(j, k, j[k - 2].life)
  {
    hide MayAsk, MaySay, MayHear, MayScan, Found, Greeted, Bindings, Relays, InTurn, Greeter.WholeLife;
    assert Permitted(j[..k], j[k], on);
    assert Permitted(j[..k - 2], j[k - 2], on);
  }

  /** The command at `k` starts the session that the scan just made has under the id just asked
      for. */
  ghost predicate AsAsked(j: seq<Entry>, k: nat, managed: bool)
    requires k < |j| && IsStart(j[k])
  {
    var scan: int := if managed then k - 3 else k - 1;
    && scan >= 1 && j[scan].Scanned? && AsksToStart(j[scan - 1])
    && Resolves(j[scan].sessions, j[scan - 1].req.msg.sessionId, j[k].cmd.session)
  }

  lemma StartsAsAsked(peers: Peers)
    requires peers.Honest()
    ensures forall k :: 0 <= k < |peers.journal| && IsStart(peers.journal[k]) ==>
              AsAsked(peers.journal, k, peers.managed)
  {
    hide Permitted, AsAsked;
    forall k | 0 <= k < |peers.journal| && IsStart(peers.journal[k])
      ensures AsAsked(peers.journal, k, peers.managed)
    {
      StartIsAsAsked(peers.journal, peers.On(), k);
    }
  }

  lemma {:induction false} ScannedLast(j: seq<Entry>, s: nat)
    requires 1 <= s < |j| && j[s].Scanned? && j[s - 1].Asked? && j[s - 1].req.Got?
    requires forall k :: s < k < |j| ==> !j[k].Scanned? && !j[k].Asked?
    ensures LastScan(j) == j[s].sessions && LastAsked(j) == Some(j[s - 1].req.msg)
  {
    if s < |j| - 1 {
      ScannedLast(j[..|j| - 1], s);
    } else {
      assert j[..|j| - 1][|j| - 2] == j[s - 1];
    }
  }

  /** In every history the handler can produce, the session commanded to start is the first that
      the scan made for the request found under the very id requested. */
  lemma StartIsAsAsked(j: seq<Entry>, on: Setup, k: nat)
    requires Gated(j, on) && k < |j| && IsStart(j[k])
    ensures AsAsked(j, k, on.managed)
  {
    hide MayAsk, MaySay, MayHear, Found, Greeted, Bindings, Relays, InTurn, Find, Resolves, ForWorker;
    hide LastAsked, LastScan;
    assert Permitted(j[..k], j[k], on);
    var scan := if on.managed then k - 3 else k - 1;
    assert Permitted(j[..scan], j[scan], on);
    ScannedLast(j[..k], scan);
    FindResolves(j[scan].sessions, j[scan - 1].req.msg.sessionId);
  }

  /** And a managed greeter is torn down only once the session asked for, by somebody PAM accepted,
      was found. */
  lemma TornDownForASession(j: seq<Entry>, on: Setup, k: nat)
    requires Gated(j, on) && k < |j| && j[k].TornDown?
    ensures on.managed && 2 <= k && j[k - 1].Scanned? && AsksToStart(j[k - 2]) && LastAccepted(j[..k]).Some?
    ensures exists d :: d in j[k - 1].sessions && d.id == j[k - 2].req.msg.sessionId
  {
    hide MayAsk, MaySay, MayHear, Greeted, Bindings, Relays, InTurn, Find, LastAsked, LastScan;
    assert Permitted(j[..k], j[k], on);
    assert Permitted(j[..k - 1], j[k - 1], on);
    assert k >= 2;
    ScannedLast(j[..k], k - 1);
    FindMeans(j[k - 1].sessions, j[k - 2].req.msg.sessionId);
  }

  /** One turn of the handler's loop. */
  method ServeRequest(login: LoginSession, greeter: Greeter.GreeterHandle?, env: Handoff) returns (open: bool)
    requires login.peers.Honest() && login.Valid() && Told(login.peers.journal)
    requires login.peers.handle == greeter && login.peers.managed == (greeter != null)
    requires greeter != null ==> greeter.Valid() && !AnyStart(login.peers.journal)
    modifies login`username, login`backend, login.peers, login.peers.greeter, login.peers.worker, greeter
    ensures login.peers.Honest() && login.backend.Dead? == old(login.backend.Dead?) && login.peers.greeter.got != []
    ensures if open then login.Valid() && Told(login.peers.journal) else login.peers.Finished(login.backend.Dead?)
    ensures greeter != null ==> greeter.Valid() && (AnyStart(login.peers.journal) ==> greeter.Over() && !open)
    ensures login.peers.greeter.Left() <= old(login.peers.greeter.Left())
    ensures open ==> login.peers.greeter.Left() < old(login.peers.greeter.Left())
  {
    hide Bindings, LastAsked, LastScan, Greeted, AnyStart, MayAsk, MaySay, Last, Told, Deaf, Follows, Ended;
    hide Peers.Honest, Peers.ScanOf, Peers.On;
    var peers := login.peers;
    NextPermitted(peers.journal);
    var request := peers.Ask();
    match request {
      case Got(BeginAuth(user)) =>
        open := RunAuth(login, user);
      case Got(Start(id)) =>
        if login.username == None {
          FirstPermitted(peers.journal, id, peers.On());
          ghost var j' := peers.journal;
          open := peers.Say(Response.Error(AuthenticateFirst));
          ToldNow(j', Response.Error(AuthenticateFirst));
        } else {
          open := RunStart(login, greeter, id, env);
        }
      case Got(other) =>
        open := Dispatch(peers, other);
      case _ =>
        open := false;
    }
  }

  // ---- What the readings of a journal mean ----

  predicate IsAuth(e: Entry) {
    e.Commanded? && e.cmd.Auth?
  }

  /** An event that ends a test. */
  predicate Ends(e: Entry) {
    e.Heard? && e.ev.Got? && (e.ev.msg.Auth? || e.ev.msg.Started? || e.ev.msg.StartFailed?)
  }

  /** The test of `u` opened at `i` is still open after `j`. */
  predicate OpenTest(j: seq<Entry>, i: nat, u: string) {
    && i < |j| && j[i] == Commanded(WorkerCommand.Auth(u))
    && forall x :: i < x < |j| ==> !IsAuth(j[x]) && !Ends(j[x])
  }

  /** The test of `u` opened at `i` was answered with success at `m`. */
  predicate Accepted(j: seq<Entry>, i: nat, m: nat, u: string) {
    m < |j| && j[m] == Heard(Got(WorkerEvent.Auth(Verdict.Success))) && OpenTest(j[..m], i, u)
  }

  lemma {:induction false} TryingMeans(j: seq<Entry>)
    ensures Bindings(j).trying.Some? <==> exists i: nat, u :: OpenTest(j, i, u)
    ensures forall i: nat, u :: OpenTest(j, i, u) ==> Bindings(j).trying == Some(u)
  {
    if j != [] {
      var before, e := j[..|j| - 1], j[|j| - 1];
      TryingMeans(before);
      if IsAuth(e) {
        assert OpenTest(j, |j| - 1, e.cmd.username);
      }
      forall i: nat, u | OpenTest(j, i, u) ensures i == |j| - 1 || OpenTest(before, i, u) {
      }
      if !IsAuth(e) && !Ends(e) {
        forall i: nat, u | OpenTest(before, i, u) ensures OpenTest(j, i, u) {
        }
      }
    }
  }

  lemma AcceptedBefore(j: seq<Entry>)
    requires j != []
    ensures forall i: nat, m: nat, u ::
              Accepted(j[..|j| - 1], i, m, u) <==> m < |j| - 1 && Accepted(j, i, m, u)
  {
    hide OpenTest;
    var before := j[..|j| - 1];
    forall i: nat, m: nat, u ensures Accepted(before, i, m, u) <==> m < |j| - 1 && Accepted(j, i, m, u) {
      if m < |j| - 1 {
        assert before[..m] == j[..m];
      }
    }
  }

  lemma AcceptedNow(j: seq<Entry>)
    requires j != []
    ensures forall i: nat, m: nat, u :: Accepted(j, i, m, u) ==> m < |j|
    ensures forall i: nat, m: nat, u :: m == |j| - 1 ==>
              (Accepted(j, i, m, u) <==>
                 Last(j, Heard(Got(WorkerEvent.Auth(Verdict.Success)))) && OpenTest(j[..|j| - 1], i, u))
  {
    hide OpenTest;
  }

  /** The last accepted name is exactly that of the latest test answered with success. */
  lemma {:induction false} LastAcceptedMeans(j: seq<Entry>)
    ensures LastAccepted(j).Some? ==>
              exists i: nat, m: nat :: Accepted(j, i, m, LastAccepted(j).value)
                          && forall i': nat, m': nat, u' :: Accepted(j, i', m', u') ==> m' <= m
    ensures LastAccepted(j).None? ==> forall i: nat, m: nat, u :: !Accepted(j, i, m, u)
  {
    if j != [] {
      var before, e := j[..|j| - 1], j[|j| - 1];
      LastAcceptedMeans(before);
      TryingMeans(before);
      AcceptedBefore(j);
      AcceptedNow(j);
      hide Accepted, OpenTest;
      if e == Heard(Got(WorkerEvent.Auth(Verdict.Success))) && Bindings(before).trying.Some? {
        var i: nat, u :| OpenTest(before, i, u);
        assert Accepted(j, i, |j| - 1, u);
      } else if LastAccepted(before).Some? {
        var i: nat, m: nat :| Accepted(before, i, m, LastAccepted(before).value)
                    && forall i': nat, m': nat, u' :: Accepted(before, i', m', u') ==> m' <= m;
        assert Accepted(j, i, m, LastAccepted(j).value);
      }
    }
  }

  /** In every history the handler can produce, a session start is commanded only after an
      `Auth` for some user on the same connection was answered with success. */
  lemma StartNeedsAcceptance(j: seq<Entry>, on: Setup, k: nat)
    requires Gated(j, on) && k < |j| && IsStart(j[k])
    ensures j[0] == Asked(Got(Request.Hello(PROTOCOL_VERSION)))
    ensures exists i: nat, m: nat, u :: i < m < k && Accepted(j, i, m, u)
  {
    assert Permitted(j[..k], j[k], on);
    LastAcceptedMeans(j[..k]);
    var i: nat, m: nat :| Accepted(j[..k], i, m, LastAccepted(j[..k]).value);
    assert j[..k][..m] == j[..m];
    assert Accepted(j, i, m, LastAccepted(j[..k]).value);
  }

  /** What stands right before an entry in every history the handler can produce: a request or an
      event is answered at once, and with its own content. */
  predicate Answers(before: Entry, e: Entry) {
    match e
    case Commanded(Auth(user)) => before == Asked(Got(Request.BeginAuth(user)))
    case Commanded(Reply(response)) => before == Asked(Got(Request.AuthReply(response)))
    case Commanded(Cancel) =>
      if before.Asked? then !before.req.Got? || !before.req.msg.AuthReply?
      else before.Heard? && before.ev.Got? && before.ev.msg.Prompt?
    case Said(Auth(Question(text, secret))) => before == Heard(Got(WorkerEvent.Prompt(text, secret)))
    case Said(Auth(Info(text))) => before == Heard(Got(WorkerEvent.Info(text)))
    case Said(Auth(Error(text))) => before == Heard(Got(WorkerEvent.Error(text)))
    case Said(AuthSuccess) => before == Heard(Got(WorkerEvent.Auth(Verdict.Success)))
    case Said(AuthFailure(AuthenticationCancelled)) => before == Heard(Got(WorkerEvent.Auth(Verdict.Cancelled)))
    case Said(AuthFailure(AuthenticationFailed)) =>
      before == Heard(Got(WorkerEvent.Auth(Verdict.Failure))) || before == Heard(Got(WorkerEvent.Started))
      || before == Heard(Got(WorkerEvent.StartFailed))
    case Said(Started) => before == Heard(Got(WorkerEvent.Started))
    case Said(Sessions(ids)) =>
      before.Scanned? && |ids| == |before.sessions| && forall i :: 0 <= i < |ids| ==> ids[i] == before.sessions[i].id
    case Said(Welcome(v)) => v == 3 && before.Asked? && before.req.Got? && before.req.msg.Hello?
    case Said(Incompatible(v)) =>
      v == 3 && before.Asked? && before.req.Got? && before.req.msg.Hello? && before.req.msg.version != 3
    case Said(Error(NothingInProgress)) =>
      before.Asked? && before.req.Got? && (before.req.msg.AuthReply? || before.req.msg.CancelAuth?)
    case Said(Error(Unavailable)) => before == Asked(Got(Power))
    case Said(Error(AuthenticateFirst)) => before.Asked? && before.req.Got? && before.req.msg.Start?
    case Said(Error(HandshakeRequired)) => before.Asked? && before.req.Got? && !before.req.msg.Hello?
    case Said(Error(NoSuchSession)) => before.Scanned?
    case Said(Error(CouldNotStart)) => before.Heard? || before.Scanned?
    case Said(Error(_)) => false
    case _ => true
  }

  /** Every name tested, reply passed on, question and notice shown, verdict and list told is that
      of the entry right before it, word for word. */
  lemma EveryEntryAnswers(j: seq<Entry>, on: Setup, k: nat)
    requires Gated(j, on) && 0 < k < |j|
    ensures Answers(j[k - 1], j[k])
  {
    hide Bindings, LastAsked, LastScan, Find, Found, Greeted, MayAsk, MayHear, MayScan, MayStart, Questioned;
    assert Permitted(j[..k], j[k], on);
    assert j[..k][k - 1] == j[k - 1];
  }

  /** And nothing but a request is first. */
  lemma FirstIsAsked(j: seq<Entry>, on: Setup)
    requires Gated(j, on) && j != []
    ensures j[0].Asked?
  {
    assert Permitted(j[..0], j[0], on);
  }

  // ---- Agreement with the worker ----

  /** The worker's state as a journal shows it. `Starting` is its time inside a session launch,
      `Over` the time after it was last heard for good: it is the session now, or gone. */
  datatype Seen = Running(w: PamWorker.Worker) | Starting(authed: Option<string>) | Over

  /** What the events of a worker do not tell: which of its two checks is under way. */
  function Shown(w: PamWorker.Worker): PamWorker.Worker {
    if w.Conversing? || w.Asking? then w.(account := false) else w
  }

  /** What a worker may say, and what it is seen to be then. A test may always fail or
      succeed, a cancellation during the account check notwithstanding. */
  function Emits(w: PamWorker.Worker, ev: WorkerEvent): Option<PamWorker.Worker> {
    match w
    case Conversing(user, authed, fault, _) =>
      (match ev
       case Prompt(_, _) => if fault.None? then Some(PamWorker.Asking(user, authed, false)) else None
       case Info(_) => if fault.None? then Some(Shown(w)) else None
       case Error(_) => if fault.None? then Some(Shown(w)) else None
       case Auth(Success) => Some(PamWorker.Idle(Some(user)))
       case Auth(Failure) => Some(PamWorker.Idle(authed))
       case Auth(v) =>
         if fault == Some(v) || (fault.None? && v == Verdict.Transport) then Some(PamWorker.Idle(authed)) else None
       case _ => None)
    case _ => None
  }

  /** Every event a conversing worker can emit is one `Emits` allows, with the same effect, and
      what it does silently is not seen. */
  lemma EmitsCoversMoves(w: PamWorker.Worker, m: PamWorker.PamMove)
    requires w.Conversing? && (m.Broken? ==> w.fault.None?)
    ensures var moved := PamWorker.Move(w, m, true);
            && |moved.out| <= 1
            && if moved.out == [] then Shown(moved.next) == Shown(w)
               else Emits(Shown(w), moved.out[0]) == Some(Shown(moved.next))
  {
  }

  /** And nothing else is allowed: each such event is one some worker that looks the same can
      emit. */
  lemma EmitsArePossible(w: PamWorker.Worker, ev: WorkerEvent)
      returns (behind: PamWorker.Worker, m: PamWorker.PamMove)
    requires Emits(w, ev).Some?
    ensures Shown(behind) == Shown(w) && behind.Conversing?
    ensures PamWorker.Move(behind, m, true).out == [ev]
  {
    behind, m := w, PamWorker.Broken;
    match ev {
      case Prompt(text, secret) => m := PamWorker.Ask(text, secret);
      case Info(text) => m := PamWorker.NotifyInfo(text);
      case Error(text) => m := PamWorker.NotifyError(text);
      case Auth(Success) =>
        behind, m := PamWorker.Conversing(w.user, w.authed, w.fault, true), PamWorker.Return(true);
      case Auth(Failure) =>
        behind, m := PamWorker.Conversing(w.user, w.authed, w.fault, true), PamWorker.Return(false);
      case Auth(_) =>
        if w.fault.Some? {
          behind, m := PamWorker.Conversing(w.user, w.authed, w.fault, false), PamWorker.Return(false);
        }
      case _ =>
    }
  }

  /** One more entry: `None` if a command came out of turn, to a worker that was not waiting
      for it, or if the worker said what its contract does not allow. */
  function See(s: Option<Seen>, e: Entry): Option<Seen> {
    if s.None? || s.value.Over? then s
    else match e
         case Commanded(c) =>
           if s.value.Starting? then None
           else
             (match s.value.w
              case Idle(authed) =>
                if c.Start? then Some(Starting(authed))
                else if c.Auth? then Some(Running(PamWorker.Receive(s.value.w, Got(c), false).next))
                else None
              case Asking(_, _, _) =>
                if c.Auth? || c.Start? then None
                else Some(Running(PamWorker.Receive(s.value.w, Got(c), false).next))
              case _ => None)
         case Heard(Got(ev)) =>
           if s.value.Starting? then
             if ev.Started? then Some(Over)
             else if ev.StartFailed? then Some(Running(PamWorker.Idle(s.value.authed)))
             else None
           else
             var w := Emits(s.value.w, ev);
             if w.None? then None else Some(Running(w.value))
         case Heard(_) => Some(Over)
         case _ => s
  }

  function Watch(j: seq<Entry>): Option<Seen> {
    if j == [] then Some(Running(PamWorker.Idle(None))) else See(Watch(j[..|j| - 1]), j[|j| - 1])
  }

  /** Every event the worker was heard to send is one its contract allows where it was. This
      says nothing of what the daemon does. */
  predicate Conforms(j: seq<Entry>) {
    forall k :: 0 <= k < |j| && j[k].Heard? && Watch(j[..k]).Some? ==> See(Watch(j[..k]), j[k]).Some?
  }

  /** What the daemon's gate believes fits what the worker is doing. */
  predicate Agrees(s: Seen, b: Binding, questioned: bool) {
    match s
    case Running(Idle(authed)) => b == Binding(None, authed, false)
    case Running(Conversing(user, authed, _, _)) => b == Binding(Some(user), authed, false) && !questioned
    case Running(Asking(user, authed, _)) => b == Binding(Some(user), authed, false)
    case Running(Exited) => false
    case Starting(authed) => b == Binding(None, authed, true)
    case Over => true
  }

  lemma QuestionedSnoc(j: seq<Entry>, e: Entry)
    ensures Questioned(j + [e]) ==
            match e
            case Heard(Got(Prompt(_, _))) => true
            case Heard(Got(Auth(_))) => false
            case Heard(Got(Started)) => false
            case Heard(Got(StartFailed)) => false
            case Commanded(_) => false
            case _ => Questioned(j)
  {
    assert (j + [e])[..|j|] == j;
  }

  lemma CommandAgrees(s: Seen, b: Binding, questioned: bool, c: WorkerCommand)
    requires Agrees(s, b, questioned)
    requires if c.Auth? || c.Start? then Free(b) else b.trying.Some? && questioned
    ensures See(Some(s), Commanded(c)).Some?
    ensures Agrees(See(Some(s), Commanded(c)).value, Observe(b, Commanded(c)), false)
  {
  }

  lemma EventAgrees(s: Seen, b: Binding, questioned: bool, ev: Incoming<WorkerEvent>)
    requires Agrees(s, b, questioned) && See(Some(s), Heard(ev)).Some?
    ensures Agrees(See(Some(s), Heard(ev)).value, Observe(b, Heard(ev)),
                   if ev.Got? && ev.msg.Prompt? then true
                   else if ev.Got? && (ev.msg.Auth? || ev.msg.Started? || ev.msg.StartFailed?) then false
                   else questioned)
  {
  }

  lemma AgreesStep(s: Seen, b: Binding, j: seq<Entry>, e: Entry, on: Setup)
    requires Agrees(s, b, Questioned(j)) && b == Bindings(j) && Permitted(j, e, on)
    requires e.Heard? ==> See(Some(s), e).Some?
    ensures See(Some(s), e).Some? && Agrees(See(Some(s), e).value, Observe(b, e), Questioned(j + [e]))
  {
    hide Bindings, Questioned, Agrees, Relays, MayStart, MaySay, MayAsk, MayHear, MayScan, Found, LastAsked, LastScan;
    QuestionedSnoc(j, e);
    match e {
      case Commanded(c) => CommandAgrees(s, b, Questioned(j), c);
      case Heard(ev) => EventAgrees(s, b, Questioned(j), ev);
      case _ =>
    }
  }

  lemma NothingAgrees()
    ensures Watch([]).Some? && Agrees(Watch([]).value, Bindings([]), Questioned([]))
  {
  }

  /** The daemon never commands the worker out of turn, and the user whose PAM transaction the
      worker holds, and would open a session for, is always the user the gate believes it
      authenticated. All that is asked is that the worker keeps to its own contract. */
  lemma {:induction false} WorkerAgrees(j: seq<Entry>, on: Setup)
    requires Gated(j, on) && Conforms(j)
    ensures Watch(j).Some? && Agrees(Watch(j).value, Bindings(j), Questioned(j))
  {
    hide Gated, Conforms, Permitted, See, Agrees, Questioned;
    NothingAgrees();
    if j != [] {
      var front, last := j[..|j| - 1], j[|j| - 1];
      LastStep(j, on);
      WorkerAgrees(front, on);
      assert j == front + [last];
      AgreesStep(Watch(front).value, Bindings(front), front, last, on);
    }
  }

  lemma LastStep(j: seq<Entry>, on: Setup)
    requires Gated(j, on) && Conforms(j) && j != []
    ensures var front, last := j[..|j| - 1], j[|j| - 1];
            && Gated(front, on) && Conforms(front) && Permitted(front, last, on)
            && (last.Heard? && Watch(front).Some? ==> See(Watch(front), last).Some?)
  {
    hide Permitted, Watch, See;
    ShorterGated(j, |j| - 1, on);
    ShorterConforms(j, |j| - 1);
  }

  lemma ShorterGated(j: seq<Entry>, n: nat, on: Setup)
    requires Gated(j, on) && n <= |j|
    ensures Gated(j[..n], on)
  {
    hide Permitted;
    forall k | 0 <= k < n
      ensures Permitted(j[..n][..k], j[..n][k], on)
    {
      assert j[..n][..k] == j[..k] && Permitted(j[..k], j[k], on);
    }
  }

  lemma ShorterConforms(j: seq<Entry>, n: nat)
    requires Conforms(j) && n <= |j|
    ensures Conforms(j[..n])
  {
    hide Watch, See;
    forall k | 0 <= k < n && j[..n][k].Heard? && Watch(j[..n][..k]).Some?
      ensures See(Watch(j[..n][..k]), j[..n][k]).Some?
    {
      assert j[..n][..k] == j[..k] && j[..n][k] == j[k];
    }
  }

  /** So a start always reaches a worker that holds the PAM transaction of the very user it was
      allowed for, unless that worker is already gone. */
  lemma StartIsForItsUser(j: seq<Entry>, on: Setup, k: nat)
    requires Gated(j, on) && Conforms(j) && k < |j| && IsStart(j[k])
    ensures LastAccepted(j[..k]).Some?
    ensures Watch(j[..k]) == Some(Running(PamWorker.Idle(LastAccepted(j[..k])))) || Watch(j[..k]) == Some(Over)
  {
    assert Permitted(j[..k], j[k], on);
    ShorterGated(j, k, on);
    ShorterConforms(j, k);
    WorkerAgrees(j[..k], on);
    ShorterGated(j, k + 1, on);
    ShorterConforms(j, k + 1);
    WorkerAgrees(j[..k + 1], on);
    assert j[..k + 1][..k] == j[..k] && j[..k + 1][k] == j[k];
    hide Gated, Conforms, Bindings;
  }
}
