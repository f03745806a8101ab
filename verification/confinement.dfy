/** Startup confinement of the daemon: who is under which sandbox when, with the main thread
    and the reauth thread stepping in any order. */
module Confinement {
  import opened Protocol

  datatype SeccompMode = Unfiltered | Log | Enforce

  /** What the kernel holds against a thread or process. Both parts are inherited by whatever
      it creates and can only be added to. */
  datatype Sandbox = Sandbox(landlock: bool, seccomp: SeccompMode)

  const FREE := Sandbox(false, Unfiltered)

  /** `split` asks for the pre-forked spawners, `landlock` and `seccomp` are the modes set in
      the environment. */
  datatype Config = Config(split: bool, landlock: bool, seccomp: SeccompMode)

  datatype Role = GreeterWorker | SessionWorker | ReauthWorker

  datatype Child = Child(role: Role, sandbox: Sandbox)

  /** One socket operation of the reauth thread: its sandbox, main's at that moment, and
      whether main was past its own filter step. */
  datatype SocketOp = SocketOp(thread: Sandbox, main: Sandbox, filtered: bool)

  datatype MainPc =
    | ForkingSpawner
    | ForkingReauthSpawner
    | ApplyingLandlock
    | SpawningThread
    | ApplyingSeccomp
    | Releasing
    | Serving

  datatype ThreadPc = Absent | Parked | Listening

  /** `spawner` and `reauthSpawner` are the sandboxes of those processes, if they exist;
      `denied` counts unlock attempts that got no worker. */
  datatype State = State(
    pc: MainPc,
    thread: ThreadPc,
    released: bool,
    main: Sandbox,
    threadBox: Sandbox,
    spawner: Option<Sandbox>,
    reauthSpawner: Option<Sandbox>,
    children: seq<Child>,
    ops: seq<SocketOp>,
    denied: nat)

  const INIT := State(ForkingSpawner, Absent, false, FREE, FREE, None, None, [], [], 0)

  /** `ok` is whether the kernel, or the spawner asked, did what it was asked to. */
  datatype Act =
    | ForkSpawner(ok: bool)
    | ForkReauthSpawner(ok: bool)
    | ApplyLandlock(ok: bool)
    | SpawnThread(ok: bool)
    | ApplySeccomp(ok: bool)
    | Release
    | ThreadWakes
    | ThreadUsesSocket
    | BeginReauth(ok: bool)
    | LaunchGreeter(ok: bool)
    | BeginLogin(ok: bool)

  predicate Enabled(s: State, a: Act) {
    match a
    case ForkSpawner(_) => s.pc == ForkingSpawner
    case ForkReauthSpawner(_) => s.pc == ForkingReauthSpawner
    case ApplyLandlock(_) => s.pc == ApplyingLandlock
    case SpawnThread(_) => s.pc == SpawningThread
    case ApplySeccomp(_) => s.pc == ApplyingSeccomp
    case Release => s.pc == Releasing
    case ThreadWakes => s.thread == Parked && s.released
    case ThreadUsesSocket => s.thread == Listening
    case BeginReauth(_) => s.thread == Listening
    case LaunchGreeter(_) => s.pc == Serving
    case BeginLogin(_) => s.pc == Serving
  }

  /** A process may fork and execute only if its filter does not refuse what is unlisted:
      neither call is on the list. */
  predicate MayFork(box: Sandbox) {
    !box.seccomp.Enforce?
  }

  /** A child made for `asker`: by the spawner if there is one, else by the asker itself. */
  function Created(spawner: Option<Sandbox>, asker: Sandbox, ok: bool): Option<Sandbox> {
    match spawner
    case Some(box) => if ok then Some(box) else None
    case None => if ok && MayFork(asker) then Some(asker) else None
  }

  function WithChild(s: State, role: Role, box: Option<Sandbox>): State {
    if box.Some? then s.(children := s.children + [Child(role, box.value)]) else s
  }

  function Next(cfg: Config, s: State, a: Act): State
    requires Enabled(s, a)
  {
    match a
    case ForkSpawner(ok) =>
      s.(spawner := if cfg.split && ok then Some(s.main) else None, pc := ForkingReauthSpawner)
    case ForkReauthSpawner(ok) =>
      s.(reauthSpawner := if s.spawner.Some? && ok then Some(s.main) else None, pc := ApplyingLandlock)
    case ApplyLandlock(ok) =>
      // Landlock covers the calling thread alone.
      s.(main := if s.spawner.Some? && cfg.landlock && ok then s.main.(landlock := true) else s.main,
         pc := SpawningThread)
    case SpawnThread(ok) =>
      if ok then s.(thread := Parked, threadBox := s.main, pc := ApplyingSeccomp) else s.(pc := ApplyingSeccomp)
    case ApplySeccomp(ok) =>
      // The filter is installed on every thread or on none.
      if s.spawner.Some? && !cfg.seccomp.Unfiltered? && ok then
        s.(main := s.main.(seccomp := cfg.seccomp),
           threadBox := if s.thread.Absent? then s.threadBox else s.threadBox.(seccomp := cfg.seccomp),
           pc := Releasing)
      else s.(pc := Releasing)
    case Release => s.(released := !s.thread.Absent?, pc := Serving)
    case ThreadWakes => s.(thread := Listening)
    case ThreadUsesSocket =>
      s.(ops := s.ops + [SocketOp(s.threadBox, s.main, s.pc.Releasing? || s.pc.Serving?)])
    case BeginReauth(ok) =>
      var box := Created(s.reauthSpawner, s.threadBox, ok);
      WithChild(if box.None? then s.(denied := s.denied + 1) else s, ReauthWorker, box)
    case LaunchGreeter(ok) => WithChild(s, GreeterWorker, Created(s.spawner, s.main, ok))
    case BeginLogin(ok) => WithChild(s, SessionWorker, Created(s.spawner, s.main, ok))
  }

  function Run(cfg: Config, s: State, acts: seq<Act>): Option<State>
    decreases |acts|
  {
    if acts == [] then Some(s)
    else if !Enabled(s, acts[0]) then None
    else Run(cfg, Next(cfg, s, acts[0]), acts[1..])
  }

  predicate Early(pc: MainPc) {
    pc.ForkingSpawner? || pc.ForkingReauthSpawner? || pc.ApplyingLandlock?
  }

  /** The spawners predate every sandbox; main is sandboxed only if a spawner exists; and the
      thread, once there, carries what main carries. */
  predicate BoxesInv(s: State) {
    && (s.spawner.Some? ==> s.spawner.value == FREE)
    && (s.reauthSpawner.Some? ==> s.spawner.Some? && s.reauthSpawner.value == FREE)
    && (s.pc.ForkingSpawner? || s.pc.ForkingReauthSpawner? ==> s.reauthSpawner.None?)
    && (s.main != FREE ==> s.spawner.Some?)
    && (Early(s.pc) ==> s.main == FREE)
    && (s.pc.SpawningThread? || s.pc.ApplyingSeccomp? ==> s.main.seccomp.Unfiltered?)
    && (Early(s.pc) || s.pc.SpawningThread? ==> s.thread.Absent?)
    && (!s.thread.Absent? ==> s.threadBox == s.main)
    && (s.released ==> s.pc.Serving?)
    && (s.thread.Listening? ==> s.released)
  }

  predicate ChildFits(s: State, c: Child) {
    && (c.role.GreeterWorker? || c.role.SessionWorker? ==> c.sandbox == FREE)
    && (c.role.ReauthWorker? ==> c.sandbox == if s.reauthSpawner.Some? then FREE else s.main)
    && (c.role.ReauthWorker? ==> s.pc.Serving?)
    && (c.role.ReauthWorker? && s.reauthSpawner.None? ==> MayFork(s.main))
  }

  predicate Inv(s: State) {
    && BoxesInv(s)
    && (forall c :: c in s.children ==> ChildFits(s, c))
    && (forall o :: o in s.ops ==> o.filtered && o.thread == s.main && o.main == s.main)
    && (s.ops != [] || s.children != [] || s.denied > 0 ==> s.pc.Serving?)
  }

  lemma StepKeeps(cfg: Config, s: State, a: Act)
    requires Inv(s) && Enabled(s, a)
    ensures Inv(Next(cfg, s, a))
  {
    var t := Next(cfg, s, a);
    assert BoxesInv(t);
    assert s.pc.Serving? ==> t.pc.Serving? && t.main == s.main && t.reauthSpawner == s.reauthSpawner;
    forall c | c in t.children
      ensures ChildFits(t, c)
    {
      if c in s.children {
        assert ChildFits(s, c);
      }
    }
  }

  lemma {:induction false} RunKeeps(cfg: Config, s: State, acts: seq<Act>)
    requires Inv(s) && Run(cfg, s, acts).Some?
    ensures Inv(Run(cfg, s, acts).value)
    decreases |acts|
  {
    if acts != [] {
      StepKeeps(cfg, s, acts[0]);
      RunKeeps(cfg, Next(cfg, s, acts[0]), acts[1..]);
    }
  }

  /** In every run: the reauth thread touches its socket only once main is past the filter
      step, and then with the very sandbox main has; and every greeter worker and every
      session worker, with or without spawners and in every mode, is unconfined. */
  lemma ConfinementOrder(cfg: Config, acts: seq<Act>)
    requires Run(cfg, INIT, acts).Some?
    ensures var s := Run(cfg, INIT, acts).value;
            && (forall o :: o in s.ops ==> o.filtered && o.thread == o.main == s.main)
            && (forall c :: c in s.children && !c.role.ReauthWorker? ==> c.sandbox == FREE)
            && (s.main != FREE ==> s.spawner.Some?)
  {
    RunKeeps(cfg, INIT, acts);
    var s := Run(cfg, INIT, acts).value;
    forall c | c in s.children && !c.role.ReauthWorker?
      ensures c.sandbox == FREE
    {
      assert ChildFits(s, c);
    }
  }

  /** Not so the workers that check a locked session's password: where the second spawner
      could not be forked but the first was, the listener forks them itself, and they are
      confined exactly if some sandbox was installed. Under an enforcing filter it cannot
      fork at all, and every attempt is denied. */
  lemma ReauthWorkerConfinedIff(cfg: Config, acts: seq<Act>, ok: bool)
    requires Run(cfg, INIT, acts).Some? && Run(cfg, INIT, acts).value.thread.Listening?
    ensures var s := Run(cfg, INIT, acts).value; var t := Next(cfg, s, BeginReauth(ok));
            && (t.denied == s.denied + 1 <==> !ok || (s.reauthSpawner.None? && s.main.seccomp.Enforce?))
            && (t.denied == s.denied <==> |t.children| == |s.children| + 1)
            && (t.denied == s.denied ==>
                  var c := t.children[|s.children|];
                  c.role.ReauthWorker? &&
                  (c.sandbox != FREE <==> s.spawner.Some? && s.reauthSpawner.None? && s.main != FREE))
  {
    RunKeeps(cfg, INIT, acts);
  }

  /** The greeter and the login session get their worker whenever it can be made, each its own, and
      free of every sandbox. */
  lemma LoginWorkersUnconfined(cfg: Config, acts: seq<Act>, ok: bool)
    requires Run(cfg, INIT, acts).Some? && Run(cfg, INIT, acts).value.pc.Serving?
    ensures var s := Run(cfg, INIT, acts).value;
            && Next(cfg, s, LaunchGreeter(ok)) ==
               s.(children := s.children + if ok then [Child(GreeterWorker, Sandbox(false, Unfiltered))] else [])
            && Next(cfg, s, BeginLogin(ok)) ==
               s.(children := s.children + if ok then [Child(SessionWorker, Sandbox(false, Unfiltered))] else [])
  {
    RunKeeps(cfg, INIT, acts);
    var s := Run(cfg, INIT, acts).value;
    assert s.children + [] == s.children;
  }

  lemma {:induction false} RunAppend(cfg: Config, s: State, xs: seq<Act>, ys: seq<Act>)
    requires Run(cfg, s, xs).Some?
    ensures Run(cfg, s, xs + ys) == Run(cfg, Run(cfg, s, xs).value, ys)
    decreases |xs|
  {
    if xs == [] {
      assert xs + ys == ys;
    } else {
      assert (xs + ys)[1..] == xs[1..] + ys;
      RunAppend(cfg, Next(cfg, s, xs[0]), xs[1..], ys);
    }
  }

  lemma Extend(cfg: Config, acts: seq<Act>, s: State, a: Act)
    requires Run(cfg, INIT, acts) == Some(s) && Enabled(s, a)
    ensures Run(cfg, INIT, acts + [a]) == Some(Next(cfg, s, a))
  {
    assert [a][1..] == [];
    RunAppend(cfg, INIT, acts, [a]);
  }

  /** The main thread's own startup, step by step in program order. */
  class Supervisor {
    const cfg: Config
    var state: State
    ghost var trace: seq<Act>

    ghost predicate Valid()
      reads this
    {
      Run(cfg, INIT, trace) == Some(state)
    }

    constructor (cfg: Config)
      ensures Valid() && this.cfg == cfg && state == INIT
    {
      this.cfg, state, trace := cfg, INIT, [];
    }

    method Take(a: Act)
      requires Valid() && Enabled(state, a)
      modifies this
      ensures Valid() && state == Next(cfg, old(state), a)
    {
      Extend(cfg, trace, state, a);
      state, trace := Next(cfg, state, a), trace + [a];
    }

    /** Startup always gets to serving, whatever fails on the way. It ends with the reauth
        thread parked at an open gate if it could be made at all, with exactly the sandboxes
        asked for that could be installed, and with none if there is no spawner. */
    method Startup(forked: bool, forkedReauth: bool, landlocked: bool, threaded: bool, filtered: bool)
      requires Valid() && state == INIT
      modifies this
      ensures Valid() && state.pc.Serving? && state.children == [] && state.ops == [] && state.denied == 0
      ensures state.spawner == if cfg.split && forked then Some(FREE) else None
      ensures state.reauthSpawner == if cfg.split && forked && forkedReauth then Some(FREE) else None
      ensures state.main == if cfg.split && forked
                            then Sandbox(cfg.landlock && landlocked, if filtered then cfg.seccomp else Unfiltered)
                            else FREE
      ensures state.thread == if threaded then Parked else Absent
      ensures threaded ==> state.released && state.threadBox == state.main
    {
      Take(ForkSpawner(forked));
      Take(ForkReauthSpawner(forkedReauth));
      Take(ApplyLandlock(landlocked));
      Take(SpawnThread(threaded));
      Take(ApplySeccomp(filtered));
      Take(Release);
    }
  }

  /** A confined worker is reachable: both modes on, only the second fork failing, and a
      logging filter. */
  method AConfinedReauthWorker() returns (c: Child)
    ensures c == Child(ReauthWorker, Sandbox(true, Log))
  {
    var d := new Supervisor(Config(true, true, Log));
    d.Startup(true, false, true, true, true);
    d.Take(ThreadWakes);
    d.Take(BeginReauth(true));
    c := d.state.children[0];
  }

  /** And so is a daemon that can serve no unlock attempt: the same, with an enforcing filter.
      The attempt is denied although nothing else goes wrong. */
  method AnEnforcedDenial() returns (denied: nat, children: seq<Child>)
    ensures denied == 1 && children == []
  {
    var d := new Supervisor(Config(true, true, Enforce));
    d.Startup(true, false, true, true, true);
    d.Take(ThreadWakes);
    d.Take(BeginReauth(true));
    denied, children := d.state.denied, d.state.children;
  }

  /** There no attempt is ever served. */
  lemma EnforcedServesNone(cfg: Config, acts: seq<Act>)
    requires Run(cfg, INIT, acts).Some?
    requires var s := Run(cfg, INIT, acts).value; s.reauthSpawner.None? && s.main.seccomp.Enforce?
    ensures forall c :: c in Run(cfg, INIT, acts).value.children ==> !c.role.ReauthWorker?
  {
    RunKeeps(cfg, INIT, acts);
    var s := Run(cfg, INIT, acts).value;
    forall c | c in s.children
      ensures !c.role.ReauthWorker?
    {
      assert ChildFits(s, c);
    }
  }
}
