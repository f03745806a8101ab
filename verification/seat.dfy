/** Who holds the seat: the managed loop as a sequence of steps, with a teardown signal that
    may be handled between any two of them and a session that may end at any time. */
module Seat {
  import opened Protocol

  datatype Pc =
    | LoopTop
    | AtGreeter
    | Terminating
    | Clearing
    | Starting
    | InSession
    | Cleanup
    | GaveUp
    | ExitedFreeingSeat
    | Killed

  /** What the daemon knows of the greeter process; `Lost` is one it could not wait on. */
  datatype GreeterState = NoGreeter | Up | SeenExited | SentKill | Lost

  /** What becomes of the session when a start is reported failed: nothing runs; it runs all
      the same (the report came, and the way to watch it failed, or the report did not come
      through); or its worker is still launching it. */
  datatype Launched = Nothing | Runs | Coming

  /** `owned` is the session the loop waits for being alive; `strays` counts the other sessions
      that are, and `coming` the launches nobody waits for any more. */
  datatype Lives = Lives(owned: bool, strays: nat, coming: nat)

  /** What went wrong: a handler was overtaken by the hand-off, a session wait failed, a start
      was reported failed whose session runs or will, something of a session outlived it. */
  datatype Mishaps = Mishaps(overtaken: bool, waitFailed: bool, orphaned: bool, outlived: bool)

  /** Whether a session was alive at each VT reset by a handler, and the greeter's state at each
      session start. */
  datatype Record = Record(resets: seq<bool>, starts: seq<GreeterState>)

  /** `greeting` and `teardown` are the flags shared with the signal handler; `resetting` is a
      handler on another thread that has read `greeting` as set and has yet to reset the VT;
      `deferred` counts the signals that found `greeting` clear. */
  datatype State = State(
    pc: Pc,
    greeting: bool,
    teardown: bool,
    greeter: GreeterState,
    resetting: bool,
    deferred: nat,
    live: Lives,
    past: Mishaps,
    record: Record)

  /** `how` is what terminating a greeter ends in. A signal is handled whole by the looping
      thread, or in two steps by the thread that serves unlock requests. `PollFails` is a poll
      that gives the session up without having seen its end: a wait error where the worker is
      the daemon's child, a hard error of the control socket, taken for an end, where it is the
      spawner's. A session ends with its worker; its compositor may outlive it. */
  datatype Act =
    | Arm
    | Launch(ok: bool)
    | LaunchGivesUp
    | GreeterFoundDead(failed: bool)
    | ConnectionEnds
    | StartAccepted
    | Terminate(how: GreeterState)
    | ClearGreeting
    | StartFails(launched: Launched)
    | StartSucceeds
    | OwnedEnds(outlived: bool)
    | StrayEnds
    | LateLaunch
    | PollTeardown
    | PollExited
    | PollFails
    | CleanUp(how: GreeterState, giveUp: bool)
    | Signal
    | SignalElsewhere
    | HandlerResets

  const INIT := State(LoopTop, false, false, NoGreeter, false, 0,
                      Lives(false, 0, 0), Mishaps(false, false, false, false), Record([], []))

  /** Some session is alive, or what is left of one. */
  predicate Alive(s: State) {
    s.live.owned || s.live.strays > 0
  }

  predicate Running(pc: Pc) {
    !pc.GaveUp? && !pc.ExitedFreeingSeat? && !pc.Killed?
  }

  predicate EndOf(how: GreeterState) {
    how == SeenExited || how == SentKill || how == Lost
  }

  /** What terminating leaves: a greeter already over is left alone. */
  function Terminated(g: GreeterState, how: GreeterState): GreeterState {
    if g == Up then how else g
  }

  function Num(b: bool): nat {
    if b then 1 else 0
  }

  /** The steps that bring a greeter up, find it over and clean up after it. */
  predicate IsGreeting(a: Act) {
    a.Arm? || a.Launch? || a.LaunchGivesUp? || a.GreeterFoundDead? || a.ConnectionEnds? || a.CleanUp?
  }

  predicate GreetingEnabled(s: State, a: Act) {
    match a
    case Arm => s.pc == LoopTop
    case Launch(_) => s.pc == AtGreeter && s.greeter == NoGreeter
    case LaunchGivesUp => s.pc == AtGreeter && s.greeter == NoGreeter
    case GreeterFoundDead(_) => s.pc == AtGreeter && s.greeter == Up
    case ConnectionEnds => s.pc == AtGreeter && s.greeter == Up
    case CleanUp(how, _) => s.pc == Cleanup && EndOf(how)
    case _ => false
  }

  function GreetingNext(s: State, a: Act): State {
    match a
    case Arm => s.(greeting := true, pc := AtGreeter)
    case Launch(ok) => if ok then s.(greeter := Up) else s.(pc := LoopTop)
    case LaunchGivesUp => s.(pc := GaveUp)
    case GreeterFoundDead(failed) => s.(greeter := if failed then Lost else SeenExited, pc := Cleanup)
    case ConnectionEnds => s.(pc := Cleanup)
    case CleanUp(how, giveUp) => s.(greeter := NoGreeter, pc := if giveUp then GaveUp else LoopTop)
    case _ => s
  }

  /** The steps that hand the seat from the greeter to a session. */
  predicate IsHandOver(a: Act) {
    a.StartAccepted? || a.Terminate? || a.ClearGreeting? || a.StartFails? || a.StartSucceeds?
  }

  predicate HandOverEnabled(s: State, a: Act) {
    match a
    case StartAccepted => s.pc == AtGreeter && s.greeter == Up
    case Terminate(how) => s.pc == Terminating && EndOf(how)
    case ClearGreeting => s.pc == Clearing
    case StartFails(_) => s.pc == Starting
    case StartSucceeds => s.pc == Starting
    case _ => false
  }

  function HandOverNext(s: State, a: Act): State {
    match a
    case StartAccepted => s.(pc := Terminating)
    case Terminate(how) => s.(greeter := Terminated(s.greeter, how), pc := Clearing)
    case ClearGreeting =>
      s.(greeting := false, past := s.past.(overtaken := s.past.overtaken || s.resetting), pc := Starting)
    case StartFails(launched) =>
      s.(live := s.live.(strays := s.live.strays + Num(launched.Runs?),
                         coming := s.live.coming + Num(launched.Coming?)),
         past := s.past.(orphaned := s.past.orphaned || !launched.Nothing?), pc := Cleanup)
    case StartSucceeds =>
      s.(live := s.live.(owned := true), record := s.record.(starts := s.record.starts + [s.greeter]), pc := InSession)
    case _ => s
  }

  /** A signal, handled whole or in two steps. */
  predicate IsSignal(a: Act) {
    a.Signal? || a.SignalElsewhere? || a.HandlerResets?
  }

  predicate SignalEnabled(s: State, a: Act) {
    Running(s.pc) && (a.HandlerResets? ==> s.resetting)
  }

  /** The handler resets the VT and dies with the daemon. */
  function Resets(s: State): State {
    s.(record := s.record.(resets := s.record.resets + [Alive(s)]), pc := Killed)
  }

  function SignalNext(s: State, a: Act): State {
    if a.HandlerResets? then Resets(s)
    else if !s.greeting then s.(teardown := true, deferred := s.deferred + 1)
    else if a.Signal? then Resets(s.(teardown := true))
    else s.(teardown := true, resetting := true)
  }

  /** What becomes of the sessions, by themselves and in the loop's wait. */
  predicate SessionEnabled(s: State, a: Act) {
    match a
    case OwnedEnds(_) => s.live.owned
    case StrayEnds => s.live.strays > 0
    case LateLaunch => s.live.coming > 0
    case PollTeardown => s.pc == InSession && s.teardown
    case PollExited => s.pc == InSession && !s.teardown && !s.live.owned
    case PollFails => s.pc == InSession && !s.teardown
    case _ => false
  }

  function SessionNext(s: State, a: Act): State
    requires SessionEnabled(s, a)
  {
    match a
    case OwnedEnds(outlived) =>
      s.(live := s.live.(owned := false, strays := s.live.strays + Num(outlived)),
         past := s.past.(outlived := s.past.outlived || outlived))
    case StrayEnds => s.(live := s.live.(strays := s.live.strays - 1))
    case LateLaunch => s.(live := s.live.(strays := s.live.strays + 1, coming := s.live.coming - 1))
    case PollTeardown => s.(live := s.live.(owned := false), pc := ExitedFreeingSeat)
    case PollExited => s.(pc := Cleanup)
    case PollFails =>
      s.(live := s.live.(owned := false, strays := s.live.strays + Num(s.live.owned)),
         past := s.past.(waitFailed := true), pc := Cleanup)
    case _ => s
  }

  predicate Enabled(s: State, a: Act) {
    if IsGreeting(a) then GreetingEnabled(s, a)
    else if IsHandOver(a) then HandOverEnabled(s, a)
    else if IsSignal(a) then SignalEnabled(s, a)
    else SessionEnabled(s, a)
  }

  function Next(s: State, a: Act): State
    requires Enabled(s, a)
  {
    if IsGreeting(a) then GreetingNext(s, a)
    else if IsHandOver(a) then HandOverNext(s, a)
    else if IsSignal(a) then SignalNext(s, a)
    else SessionNext(s, a)
  }

  /** The state a run from `s` ends in, if every step of it can be taken. */
  function Run(s: State, acts: seq<Act>): Option<State>
    decreases |acts|
  {
    if acts == [] then Some(s)
    else if !Enabled(s, acts[0]) then None
    else Run(Next(s, acts[0]), acts[1..])
  }

  /** What the loop's position says of the flags and the greeter, and when a session can be
      alive elsewhere than in its own wait. */
  predicate Placed(s: State) {
    && (s.pc == AtGreeter || s.pc == Terminating || s.pc == Clearing ==> s.greeting)
    && (s.pc == Starting || s.pc == InSession ==> !s.greeting && EndOf(s.greeter))
    && (s.pc == Terminating ==> s.greeter == Up)
    && (s.pc == Clearing || s.pc == Cleanup ==> EndOf(s.greeter) || s.greeter == Up)
    && (s.pc == Clearing ==> EndOf(s.greeter))
    && (s.pc == LoopTop ==> s.greeter == NoGreeter)
    && (s.live.owned ==> s.pc == InSession || (s.pc == Killed && s.past.overtaken))
    && (s.live.strays > 0 || s.live.coming > 0 ==> s.past.waitFailed || s.past.orphaned || s.past.outlived)
    && (s.pc == InSession && s.resetting ==> s.past.overtaken)
    && (s.pc == Starting && s.resetting ==> s.past.overtaken)
    && (Running(s.pc) ==> (s.teardown <==> s.deferred > 0 || s.resetting))
  }

  /** One of the things happened that put a session's VT at risk. */
  predicate Excepted(s: State) {
    s.past.waitFailed || s.past.overtaken || s.past.orphaned || s.past.outlived
  }

  /** What the history can show. */
  predicate Recorded(s: State) {
    && (true in s.record.resets ==> Excepted(s))
    && (forall g :: g in s.record.starts ==> EndOf(g))
  }

  predicate Inv(s: State) {
    Placed(s) && Recorded(s)
  }

  /** A step of the loop or of a session resets no VT, and a session starts on a greeter that
      is over. */
  predicate Steady(s: State, t: State) {
    && (t.record.starts == s.record.starts || (t.record.starts == s.record.starts + [s.greeter] && EndOf(s.greeter)))
    && t.record.resets == s.record.resets && (Excepted(s) ==> Excepted(t))
  }

  lemma GreetingKeeps(s: State, a: Act)
    requires Placed(s) && GreetingEnabled(s, a)
    ensures Placed(GreetingNext(s, a)) && Steady(s, GreetingNext(s, a))
  {
  }

  lemma HandOverKeeps(s: State, a: Act)
    requires Placed(s) && HandOverEnabled(s, a)
    ensures Placed(HandOverNext(s, a)) && Steady(s, HandOverNext(s, a))
  {
  }

  lemma SessionKeeps(s: State, a: Act)
    requires Placed(s) && SessionEnabled(s, a)
    ensures Placed(SessionNext(s, a)) && Steady(s, SessionNext(s, a))
  {
  }

  /** A reset meets a session only where one may be. */
  lemma SignalKeeps(s: State, a: Act)
    requires Placed(s) && SignalEnabled(s, a) && IsSignal(a)
    ensures Placed(SignalNext(s, a)) && SignalNext(s, a).record.starts == s.record.starts
    ensures SignalNext(s, a).record.resets == s.record.resets ||
            (SignalNext(s, a).record.resets == s.record.resets + [Alive(s)] && (Alive(s) ==> Excepted(s)))
    ensures Excepted(SignalNext(s, a)) == Excepted(s)
  {
  }

  lemma PlaceKept(s: State, a: Act)
    requires Placed(s) && Enabled(s, a)
    ensures Placed(Next(s, a))
  {
    hide GreetingEnabled, GreetingNext, HandOverEnabled, HandOverNext, SessionEnabled, SessionNext;
    hide SignalEnabled, SignalNext, Placed, Steady;
    if IsGreeting(a) {
      GreetingKeeps(s, a);
    } else if IsHandOver(a) {
      HandOverKeeps(s, a);
    } else if IsSignal(a) {
      SignalKeeps(s, a);
    } else {
      SessionKeeps(s, a);
    }
  }

  lemma RecordKept(s: State, t: State)
    requires Recorded(s)
    requires Steady(s, t) ||
             (&& t.record.starts == s.record.starts && Excepted(t) == Excepted(s)
              && (t.record.resets == s.record.resets ||
                  (t.record.resets == s.record.resets + [Alive(s)] && (Alive(s) ==> Excepted(s)))))
    ensures Recorded(t)
  {
    hide Alive, Excepted, EndOf;
  }

  lemma StepKeeps(s: State, a: Act)
    requires Inv(s) && Enabled(s, a)
    ensures Inv(Next(s, a))
  {
    hide GreetingEnabled, GreetingNext, HandOverEnabled, HandOverNext, SessionEnabled, SessionNext;
    hide SignalEnabled, SignalNext, Placed, Recorded, Steady, Alive, Excepted;
    if IsGreeting(a) {
      GreetingKeeps(s, a);
    } else if IsHandOver(a) {
      HandOverKeeps(s, a);
    } else if IsSignal(a) {
      SignalKeeps(s, a);
    } else {
      SessionKeeps(s, a);
    }
    RecordKept(s, Next(s, a));
  }

  lemma {:induction false} RunKeeps(s: State, acts: seq<Act>)
    requires Inv(s) && Run(s, acts).Some?
    ensures Inv(Run(s, acts).value)
    decreases |acts|
  {
    if acts != [] {
      StepKeeps(s, acts[0]);
      RunKeeps(Next(s, acts[0]), acts[1..]);
    }
  }

  /** All there is of sessions: the one waited for, the others, and those still coming. */
  function Sessions(s: State): int {
    Num(s.live.owned) + s.live.strays + s.live.coming
  }

  /** No session appears or disappears but by a step that says so: a start brings one, also one
      that is reported failed; a session that ends leaves none, unless something outlives it; a
      teardown ends the one waited for; and giving one up, or its coming up late, changes only
      what it counts as. */
  lemma SessionsConserved(s: State, a: Act)
    requires Placed(s) && Enabled(s, a)
    ensures Sessions(Next(s, a)) - Sessions(s) ==
            match a
            case StartSucceeds => 1
            case StartFails(launched) => if launched.Nothing? then 0 else 1
            case OwnedEnds(outlived) => if outlived then 0 else -1
            case StrayEnds => -1
            case PollTeardown => if s.live.owned then -1 else 0
            case _ => 0
    ensures Next(s, a).live.coming - s.live.coming ==
            match a
            case StartFails(Coming) => 1
            case LateLaunch => -1
            case _ => 0
    ensures Next(s, a).live.owned <==>
              a.StartSucceeds? || (s.live.owned && !a.OwnedEnds? && !a.PollTeardown? && !a.PollFails?)
  {
    hide SignalEnabled;
  }

  /** However signals interleave: unless waiting on a session failed, a start was reported
      failed whose session runs, a compositor outlived its session, or a handler on another
      thread was overtaken by the hand-off, no handler resets the VT while a session is alive,
      and none can (see below for exactly when one can). A session only ever starts once the
      greeter was seen exited, was killed, or could not be waited on, and the flag stays clear
      for as long as the session is owned. */
  lemma SeatIsExclusive(acts: seq<Act>)
    requires Run(INIT, acts).Some?
    ensures var s := Run(INIT, acts).value;
            && (true in s.record.resets ==> s.past.waitFailed || s.past.orphaned || s.past.outlived || s.past.overtaken)
            && (s.live.strays > 0 ==> s.past.waitFailed || s.past.orphaned || s.past.outlived)
            && (s.live.owned && (s.pc != InSession || s.resetting) ==> s.past.overtaken)
            && (forall g :: g in s.record.starts ==> EndOf(g))
            && (s.pc == InSession || s.pc == Starting ==> !s.greeting)
  {
    RunKeeps(INIT, acts);
  }

  /** Runs compose. */
  lemma {:induction false} RunAppend(s: State, xs: seq<Act>, ys: seq<Act>)
    requires Run(s, xs).Some?
    ensures Run(s, xs + ys) == Run(Run(s, xs).value, ys)
    decreases |xs|
  {
    if xs == [] {
      assert xs + ys == ys;
    } else {
      assert (xs + ys)[1..] == xs[1..] + ys;
      RunAppend(Next(s, xs[0]), xs[1..], ys);
    }
  }

  lemma Extend(acts: seq<Act>, s: State, a: Act) returns (longer: seq<Act>, t: State)
    requires Run(INIT, acts) == Some(s) && Enabled(s, a)
    ensures longer == acts + [a] && t == Next(s, a) && Run(INIT, longer) == Some(t)
  {
    longer, t := acts + [a], Next(s, a);
    assert [a][1..] == [];
    RunAppend(INIT, acts, [a]);
  }

  lemma GreeterComesUp() returns (acts: seq<Act>, s: State)
    ensures Run(INIT, acts) == Some(s) && s == INIT.(pc := AtGreeter, greeting := true, greeter := Up)
  {
    assert Run(INIT, []) == Some(INIT);
    hide Run;
    acts, s := Extend([], INIT, Arm);
    acts, s := Extend(acts, s, Launch(true));
  }

  /** A start that is carried through: the session runs. */
  lemma HandsOver(acts: seq<Act>, s: State) returns (longer: seq<Act>, t: State)
    requires Run(INIT, acts) == Some(s)
    requires s.pc == Terminating && s.greeter == Up
    ensures Run(INIT, longer) == Some(t)
    ensures t == s.(pc := InSession, greeting := false, greeter := SeenExited, live := s.live.(owned := true),
                    past := s.past.(overtaken := s.past.overtaken || s.resetting),
                    record := s.record.(starts := s.record.starts + [SeenExited]))
  {
    hide Run;
    longer, t := Extend(acts, s, Terminate(SeenExited));
    longer, t := Extend(longer, t, ClearGreeting);
    longer, t := Extend(longer, t, StartSucceeds);
  }

  /** Some way to go on, in which nothing further goes wrong and no session ends by itself, has
      a handler reset the VT of a live session. */
  ghost predicate CanReset(s: State) {
    exists acts :: Undisturbed(acts) && Run(s, acts).Some? && HasReset(s, Run(s, acts).value)
  }

  predicate HasReset(s: State, t: State) {
    t.record.resets == s.record.resets + [true]
  }

  /** No wait fails, no failed start leaves a session, and none ends. */
  predicate Smooth(a: Act) {
    !a.PollFails? && !a.OwnedEnds? && !a.StrayEnds? && (a.StartFails? ==> a.launched.Nothing?)
  }

  predicate Undisturbed(acts: seq<Act>) {
    forall a :: a in acts ==> Smooth(a)
  }

  /** The daemon waits on its live session, or will tear it down at the next poll, and no
      handler is on its way; or it has given the seat up. */
  predicate Quiet(s: State) {
    if s.pc == InSession then (s.live.owned || s.teardown) && !s.greeting && !s.resetting else s.pc == ExitedFreeingSeat
  }

  lemma {:induction false} QuietStays(s: State, acts: seq<Act>)
    requires Quiet(s) && Undisturbed(acts) && Run(s, acts).Some?
    ensures Run(s, acts).value.record.resets == s.record.resets
    decreases |acts|
  {
    if acts != [] {
      assert acts[0] in acts;
      QuietStays(Next(s, acts[0]), acts[1..]);
    }
  }

  /** One step that disturbs nothing, and then a reset. */
  lemma StepThenReset(s: State, a: Act)
    requires Enabled(s, a) && Smooth(a)
    requires CanReset(Next(s, a)) && Next(s, a).record.resets == s.record.resets
    ensures CanReset(s)
  {
    hide Enabled, Next, Smooth;
    var more :| Undisturbed(more) && Run(Next(s, a), more).Some? && HasReset(Next(s, a), Run(Next(s, a), more).value);
    assert ([a] + more)[1..] == more;
    assert Run(s, [a] + more) == Run(Next(s, a), more);
  }

  lemma LastReset(s: State, a: Act)
    requires Enabled(s, a) && Smooth(a)
    requires HasReset(s, Next(s, a))
    ensures CanReset(s)
  {
    hide Enabled, Next, Smooth;
    assert [a][1..] == [];
    assert Run(s, [a]) == Some(Next(s, a));
  }

  /** Wherever else than in its wait for a live session the loop is, it goes back to a
      greeter. */
  lemma ElsewhereResets(s: State)
    requires Placed(s) && Running(s.pc) && s.live.strays > 0 && (s.pc == InSession ==> !s.live.owned && !s.teardown)
    ensures CanReset(s)
    decreases match s.pc case Starting => 3 case InSession => 3 case Cleanup => 2 case LoopTop => 1 case _ => 0
  {
    hide CanReset;
    if s.pc == Starting || s.pc == InSession || s.pc == Cleanup || s.pc == LoopTop {
      var a := match s.pc
               case Starting => StartFails(Nothing)
               case InSession => PollExited
               case Cleanup => CleanUp(SeenExited, false)
               case _ => Arm;
      PlaceKept(s, a);
      ElsewhereResets(Next(s, a));
      StepThenReset(s, a);
    } else {
      LastReset(s, Signal);
    }
  }

  /** Exactly when the VT of a live session is at risk: the loop is not in its wait; or the
      session it waited for is over while another is alive, and no teardown is due; or a handler
      that was overtaken by the hand-off has yet to act. While the loop waits on a live session
      otherwise, no interleaving of signals resets it. */
  lemma ResetPossibleIff(acts: seq<Act>)
    requires Run(INIT, acts).Some?
    requires var s := Run(INIT, acts).value; Running(s.pc) && Alive(s)
    ensures var s := Run(INIT, acts).value;
            CanReset(s) <==> s.pc != InSession || s.resetting || (!s.live.owned && !s.teardown)
  {
    RunKeeps(INIT, acts);
    var s := Run(INIT, acts).value;
    if s.pc == InSession && s.resetting {
      LastReset(s, HandlerResets);
    } else if s.pc != InSession || (!s.live.owned && !s.teardown) {
      ElsewhereResets(s);
    } else if CanReset(s) {
      var more :| Undisturbed(more) && Run(s, more).Some? && HasReset(s, Run(s, more).value);
      QuietStays(s, more);
      assert false;
    }
  }

  /** From its cleanup on the loop greets again, and a signal then resets the VT. */
  lemma GreetsOver(acts: seq<Act>, s: State) returns (longer: seq<Act>, t: State)
    requires Run(INIT, acts) == Some(s) && s.pc == Cleanup
    ensures Run(INIT, longer) == Some(t) && t.record.resets == s.record.resets + [Alive(s)]
    ensures t.past == s.past
  {
    hide Run;
    longer, t := Extend(acts, s, CleanUp(SeenExited, false));
    longer, t := Extend(longer, t, Arm);
    longer, t := Extend(longer, t, Signal);
  }

  /** All four exceptions are real, each by itself. A failed session wait makes the loop
      re-greet over a live session, and a signal resets its VT. */
  lemma FailedWaitBreaksExclusivity() returns (acts: seq<Act>, s: State)
    ensures Run(INIT, acts) == Some(s) && s.past == Mishaps(false, true, false, false) && s.record.resets == [true]
  {
    hide Run;
    acts, s := GreeterComesUp();
    acts, s := Extend(acts, s, StartAccepted);
    acts, s := HandsOver(acts, s);
    acts, s := Extend(acts, s, PollFails);
    acts, s := GreetsOver(acts, s);
  }

  /** So does a start that is reported failed although its session runs. */
  lemma OrphanedStartBreaksExclusivity() returns (acts: seq<Act>, s: State)
    ensures Run(INIT, acts) == Some(s) && s.past == Mishaps(false, false, true, false) && s.record.resets == [true]
  {
    hide Run;
    acts, s := GreeterComesUp();
    acts, s := Extend(acts, s, StartAccepted);
    acts, s := Extend(acts, s, Terminate(SeenExited));
    acts, s := Extend(acts, s, ClearGreeting);
    acts, s := Extend(acts, s, StartFails(Runs));
    acts, s := GreetsOver(acts, s);
  }

  /** And a compositor that outlives its session, until the seat is freed under it. */
  lemma OutlivingBreaksExclusivity() returns (acts: seq<Act>, s: State)
    ensures Run(INIT, acts) == Some(s) && s.past == Mishaps(false, false, false, true) && s.record.resets == [true]
  {
    hide Run;
    acts, s := GreeterComesUp();
    acts, s := Extend(acts, s, StartAccepted);
    acts, s := HandsOver(acts, s);
    acts, s := Extend(acts, s, OwnedEnds(true));
    acts, s := Extend(acts, s, PollExited);
    acts, s := GreetsOver(acts, s);
  }

  /** And a handler that read the flag on another thread resets the VT of the session that
      took it meanwhile. */
  lemma OvertakenHandlerBreaksExclusivity() returns (acts: seq<Act>, s: State)
    ensures Run(INIT, acts) == Some(s) && s.past == Mishaps(true, false, false, false) && s.record.resets == [true]
  {
    hide Run;
    acts, s := GreeterComesUp();
    acts, s := Extend(acts, s, StartAccepted);
    acts, s := Extend(acts, s, SignalElsewhere);
    acts, s := HandsOver(acts, s);
    acts, s := Extend(acts, s, HandlerResets);
  }

  /** A session that reaches its next poll is torn down there exactly if some signal, ever,
      found the greeting flag clear, or a handler is still on its way to kill the daemon. */
  lemma SessionDoomedIff(acts: seq<Act>)
    requires Run(INIT, acts).Some? && Run(INIT, acts).value.pc == InSession
    ensures var s := Run(INIT, acts).value;
            Enabled(s, PollTeardown) <==> s.deferred > 0 || s.resetting
  {
    RunKeeps(INIT, acts);
  }

  /** The teardown flag is never cleared, whatever follows. */
  lemma {:induction false} TeardownSticks(s: State, acts: seq<Act>)
    requires s.teardown && Run(s, acts).Some?
    ensures Run(s, acts).value.teardown
    decreases |acts|
  {
    if acts != [] {
      TeardownSticks(Next(s, acts[0]), acts[1..]);
    }
  }

  /** So a signal during a start that then fails is not acted on, and however the daemon goes
      on, every later session it owns is torn down at its first poll: no poll can find such a
      session merely exited. */
  lemma StaleTeardown(s: State, launched: Launched, acts: seq<Act>)
    requires s.pc == Starting && !s.greeting
    ensures Enabled(s, Signal) && Next(s, Signal).pc == Starting
    ensures Run(Next(Next(s, Signal), StartFails(launched)), acts).Some? ==>
              var t := Run(Next(Next(s, Signal), StartFails(launched)), acts).value;
              t.pc == InSession ==> Enabled(t, PollTeardown) && !Enabled(t, PollExited) && !Enabled(t, PollFails)
  {
    hide Run, GreetingNext, SessionNext;
    var failed := Next(Next(s, Signal), StartFails(launched));
    if Run(failed, acts).Some? {
      TeardownSticks(failed, acts);
    }
  }
}
