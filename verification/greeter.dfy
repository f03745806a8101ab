/** The managed greeter process: how the daemon watches it and tears it down at the
    handoff. */
module Greeter {
  datatype Signal = Term | Kill

  /** What has happened between the daemon and one greeter process. */
  datatype Happening = Sent(signal: Signal) | SawExit | WaitFailed

  /** What one look at the process shows: the wait result for a child of the daemon, the
      control socket for a child of the spawner. */
  datatype Look = Exited | Alive | Failed

  /** A look, and how many milliseconds after the previous one it is taken. */
  datatype Sighting = Sighting(look: Look, after: nat)

  datatype Backend = Owned(present: bool) | Spawned(ended: bool)

  const GREETER_TERM_GRACE: nat := 2000

  /** Every life a greeter can have had once the daemon is done with it. */
  predicate WholeLife(h: seq<Happening>) {
    || h == [SawExit]
    || h == [WaitFailed]
    || h == [Sent(Term), SawExit]
    || h == [Sent(Term), WaitFailed]
    || h == [Sent(Term), Sent(Kill)]
    || h == [Sent(Term), Sent(Kill), SawExit]
    || h == [Sent(Term), Sent(Kill), WaitFailed]
  }

  /** What a whole life promises: at most one of each signal and the kill only after the
      request, nothing sent to a process seen exited, and an end that is an observed exit,
      a kill, or a failed wait. */
  lemma WholeLifeMeans(h: seq<Happening>)
    requires WholeLife(h)
    ensures forall i, j :: 0 <= i < j < |h| && h[i].Sent? && h[j].Sent? ==> h[i] == Sent(Term) && h[j] == Sent(Kill)
    ensures forall j :: 0 <= j < |h| && h[j] == Sent(Kill) ==> exists i :: 0 <= i < j && h[i] == Sent(Term)
    ensures forall i, j :: 0 <= i < j < |h| && h[i] == SawExit ==> !h[j].Sent?
    ensures WaitFailed !in h ==> SawExit in h || Sent(Kill) in h
  {
    assert forall j :: 0 <= j < |h| && h[j] == Sent(Kill) ==> 0 <= 0 < j && h[0] == Sent(Term);
    assert h == [SawExit] || h == [Sent(Term), SawExit] || h == [Sent(Term), Sent(Kill), SawExit] ==> h[|h| - 1] in h;
    assert h == [Sent(Term), Sent(Kill)] || h == [Sent(Term), Sent(Kill), WaitFailed] ==> h[1] in h;
    assert WaitFailed !in h ==> h[|h| - 1] != WaitFailed;
  }

  class GreeterHandle {
    var backend: Backend
    var history: seq<Happening>

    constructor (backend: Backend)
      requires if backend.Owned? then backend.present else !backend.ended
      ensures Valid() && !Over() && this.backend == backend
    {
      this.backend, history := backend, [];
    }

    predicate Over()
      reads this
    {
      if backend.Owned? then !backend.present else backend.ended
    }

    /** Nothing has happened to a greeter still tracked; one no longer tracked has had a
        whole life, and the daemon's own child is never left unreaped after a kill. */
    predicate Valid()
      reads this
    {
      if Over() then WholeLife(history) && (backend.Owned? ==> history != [Sent(Term), Sent(Kill)])
      else history == []
    }

    method Finish()
      modifies this`backend
      ensures Over() && backend.Owned? == old(backend.Owned?)
    {
      backend := if backend.Owned? then Owned(false) else Spawned(true);
    }

    /** The non-blocking check: true once the process exited, was already gone, or can no
        longer be waited on. */
    method ReapIfExited(look: Look) returns (gone: bool)
      requires Valid()
      modifies this
      ensures Valid() && gone == Over() && backend.Owned? == old(backend.Owned?)
      ensures gone == (old(Over()) || look != Alive)
      ensures history == if old(Over()) || look == Alive then old(history)
                         else if look == Exited then [SawExit] else [WaitFailed]
    {
      if Over() {
        return true;
      }
      match look {
        case Exited =>
          history := history + [SawExit];
          Finish();
        case Failed =>
          history := history + [WaitFailed];
          Finish();
        case Alive =>
      }
      gone := look != Alive;
    }

    /** Looks at the process until it is gone or `GREETER_TERM_GRACE` is over. Looks run out
        only by time running out. */
    method AwaitExit(looks: seq<Sighting>) returns (last: Look)
      ensures last != Alive ==> exists i :: 0 <= i < |looks| && looks[i].look == last
      ensures last == Alive ==>
                forall i :: 0 <= i < |looks| && TimeOf(looks, i) < 2000 ==> looks[i].look == Alive
    {
      var i, now := 0, 0;
      while i < |looks|
        invariant 0 <= i <= |looks| && (i > 0 ==> now == TimeOf(looks, i - 1)) && (i == 0 ==> now == 0)
        invariant forall j :: 0 <= j < i ==> looks[j].look == Alive
      {
        now := now + looks[i].after;
        if looks[i].look != Alive {
          return looks[i].look;
        }
        if now >= GREETER_TERM_GRACE {
          LaterLooks(looks, i);
          return Alive;
        }
        i := i + 1;
      }
      last := Alive;
    }

    /** Asks the greeter to exit, waits, and kills it if it lingers; returns at once when it
        is no longer tracked. `before` are the looks within the first grace period. After a
        kill, the daemon's own child is waited for without a deadline (`reaped` says whether
        that wait worked), the spawner's child is looked at for another grace period. */
    method Terminate(before: seq<Sighting>, after: seq<Sighting>, reaped: bool)
      requires Valid()
      modifies this
      ensures Valid() && Over() && backend.Owned? == old(backend.Owned?)
      ensures old(Over()) ==> history == old(history)
      ensures !old(Over()) ==> history[0] == Sent(Term)
      ensures !old(Over()) && Sent(Kill) in history ==>
                forall i :: 0 <= i < |before| && TimeOf(before, i) < 2000 ==> before[i].look == Alive
      ensures !old(Over()) && Sent(Kill) !in history ==> exists i :: 0 <= i < |before| && before[i].look != Alive
      ensures WaitFailed !in history ==> SawExit in history || (Sent(Kill) in history && backend.Spawned?)
    {
      if !Over() {
        history := history + [Sent(Term)];
        var last := AwaitExit(before);
        if last == Alive {
          history := history + [Sent(Kill)];
          if backend.Owned? {
            last := if reaped then Exited else Failed;
          } else {
            last := AwaitExit(after);
          }
        }
        if last != Alive {
          history := history + [if last == Exited then SawExit else WaitFailed];
        }
        Finish();
      }
      WholeLifeMeans(history);
    }
  }

  /** When look `i` is taken. */
  function TimeOf(looks: seq<Sighting>, i: nat): nat
    requires i < |looks|
  {
    looks[i].after + if i == 0 then 0 else TimeOf(looks, i - 1)
  }

  lemma LaterLooks(looks: seq<Sighting>, i: nat)
    requires i < |looks|
    ensures forall j :: i <= j < |looks| ==> TimeOf(looks, j) >= TimeOf(looks, i)
  {
    forall j | i <= j < |looks| ensures TimeOf(looks, j) >= TimeOf(looks, i) {
      LaterLook(looks, i, j);
    }
  }

  lemma {:induction false} LaterLook(looks: seq<Sighting>, i: nat, j: nat)
    requires i <= j < |looks|
    ensures TimeOf(looks, j) >= TimeOf(looks, i)
  {
    if i < j {
      LaterLook(looks, i, j - 1);
    }
  }

  // ---- Waiting for the greeter to connect ----

  /** One turn of the accept loop: a connection, nothing yet (and what the greeter looks
      like meanwhile), or a failed accept. */
  datatype Poll = Connected | NothingYet(look: Look) | AcceptFailed

  /** `StillWaiting` is the loop caught before anything has happened. */
  datatype AcceptOutcome = Served | GreeterDied | Broken | StillWaiting

  /** Waits for the greeter to connect while watching its process. */
  method AcceptWithGreeterWatch(greeter: GreeterHandle, polls: seq<Poll>) returns (outcome: AcceptOutcome)
    requires greeter.Valid()
    modifies greeter
    ensures greeter.Valid()
    ensures outcome == GreeterDied ==> greeter.Over()
    ensures !old(greeter.Over()) && outcome != GreeterDied ==> !greeter.Over()
    ensures outcome == GreeterDied <==>
              exists k :: 0 <= k < |polls| && Died(old(greeter.Over()), polls[k])
                       && forall j :: 0 <= j < k ==> polls[j] == NothingYet(Alive)
    ensures outcome == Served ==> Connected in polls
  {
    var i := 0;
    while i < |polls|
      invariant 0 <= i <= |polls| && greeter.Valid()
      invariant forall j :: 0 <= j < i ==> polls[j] == NothingYet(Alive) && !old(greeter.Over())
      invariant greeter.Over() == old(greeter.Over())
    {
      match polls[i] {
        case Connected =>
          return Served;
        case AcceptFailed =>
          return Broken;
        case NothingYet(look) =>
          var gone := greeter.ReapIfExited(look);
          if gone {
            return GreeterDied;
          }
      }
      i := i + 1;
    }
    outcome := StillWaiting;
  }

  predicate Died(already: bool, p: Poll) {
    p.NothingYet? && (already || p.look != Alive)
  }
}
