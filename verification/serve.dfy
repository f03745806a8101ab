/** The managed login loop: its crash-loop counter against a clock. */
module CrashLoop {
  const GREETER_MIN_UPTIME: nat := 3000
  const GREETER_RESPAWN_BACKOFF: nat := 2000
  const GREETER_MAX_RAPID_FAILURES: nat := 3

  /** How a greeter launch went: it failed, or it was over (login and session included)
      this many milliseconds after it came up, having carried a login or not. */
  datatype Fate = LaunchFailed | Ran(uptime: nat, login: bool)

  /** One turn of the loop: how long freeing the seat and launching took, then the fate. */
  datatype Turn = Turn(launchTime: nat, fate: Fate)

  predicate Quick(t: Turn) {
    t.fate.LaunchFailed? || t.fate.uptime < GREETER_MIN_UPTIME
  }

  /** The length of the run of quick failures at the end. */
  function TrailingQuick(turns: seq<Turn>): nat {
    if turns == [] || !Quick(turns[|turns| - 1]) then 0
    else 1 + TrailingQuick(turns[..|turns| - 1])
  }

  /** A trailing run of three is exactly three quick turns in a row at the end. */
  lemma {:induction false} TrailingQuickMeans(turns: seq<Turn>, n: nat)
    ensures TrailingQuick(turns) >= n <==>
              n <= |turns| && forall i :: |turns| - n <= i < |turns| ==> Quick(turns[i])
  {
    if n > 0 && turns != [] {
      TrailingQuickMeans(turns[..|turns| - 1], n - 1);
      if n <= |turns| && Quick(turns[|turns| - 1]) {
        var front := turns[..|turns| - 1];
        assert forall i :: 0 <= i < |front| ==> front[i] == turns[i];
      }
    }
  }

  /** What one more turn does to the streak: a failed launch, or a run of less than three
      seconds whether or not it carried a login, lengthens it by one; a longer run ends it. */
  lemma StreakMoves(turns: seq<Turn>, launchTime: nat, uptime: nat, login: bool)
    ensures TrailingQuick(turns + [Turn(launchTime, LaunchFailed)]) == TrailingQuick(turns) + 1
    ensures uptime < 3000 ==> TrailingQuick(turns + [Turn(launchTime, Ran(uptime, login))]) == TrailingQuick(turns) + 1
    ensures uptime >= 3000 ==> TrailingQuick(turns + [Turn(launchTime, Ran(uptime, login))]) == 0
  {
    assert (turns + [Turn(launchTime, LaunchFailed)])[..|turns|] == turns;
    assert (turns + [Turn(launchTime, Ran(uptime, login))])[..|turns|] == turns;
  }

  /** The streak after the first `n` turns. */
  function StreakAfter(turns: seq<Turn>, n: nat): nat
    requires n <= |turns|
  {
    TrailingQuick(turns[..n])
  }

  /** The last three of the first `k` turns are each a failed launch or a run of less than
      three seconds. */
  predicate Streak(turns: seq<Turn>, k: nat) {
    3 <= k <= |turns| && forall i :: k - 3 <= i < k ==> turns[i].fate.LaunchFailed? || turns[i].fate.uptime < 3000
  }

  lemma StreakIsTrailing(turns: seq<Turn>, k: nat)
    requires k <= |turns|
    ensures TrailingQuick(turns[..k]) >= 3 <==> Streak(turns, k)
  {
    TrailingQuickMeans(turns[..k], 3);
    if Streak(turns, k) {
      assert forall i :: k - 3 <= i < k ==> turns[..k][i] == turns[i];
    } else if k >= 3 {
      assert turns[..k][k - 3] == turns[k - 3] && turns[..k][k - 2] == turns[k - 2];
      assert turns[..k][k - 1] == turns[k - 1];
    }
  }

  /** The loop gives up after these turns and not before. */
  predicate GivesUpAt(turns: seq<Turn>, k: nat) {
    Streak(turns, k) && forall j: nat :: j < k ==> !Streak(turns, j)
  }

  /** So many of the first `n` turns, and no more, are failed launches or runs of less than three
      seconds in a row at the end. */
  ghost predicate InARow(turns: seq<Turn>, n: nat, failures: nat) {
    && failures <= n <= |turns|
    && (forall i :: n - failures <= i < n ==> turns[i].fate.LaunchFailed? || turns[i].fate.uptime < 3000)
    && (failures < n ==> turns[n - 1 - failures].fate.Ran? && turns[n - 1 - failures].fate.uptime >= 3000)
  }

  /** When each of these launches comes: the first at once, and every other one when the turn
      before it is over, two seconds later if that was a failed launch or a run of less than
      three seconds. */
  ghost predicate Timed(turns: seq<Turn>, launches: seq<nat>)
    requires |launches| <= |turns| + 1
  {
    && (launches != [] ==> launches[0] == 0)
    && forall i :: 0 <= i < |launches| - 1 ==>
         var t := turns[i];
         launches[i + 1] == launches[i] + t.launchTime +
           if t.fate.LaunchFailed? then 2000 else if t.fate.uptime < 3000 then t.fate.uptime + 2000 else t.fate.uptime
  }

  /** How the loop served these turns: whether it gave up, with what count, and when it tried
      what. It gives up exactly if three turns in a row are each a failed launch or a run of less
      than three seconds, on the first such three. */
  ghost predicate Served(turns: seq<Turn>, gaveUp: bool, rapidFailures: nat, launches: seq<nat>) {
    && |launches| <= |turns| && Timed(turns, launches) && rapidFailures == StreakAfter(turns, |launches|)
    && if gaveUp then GivesUpAt(turns, |launches|)
       else |launches| == |turns| && forall k: nat :: !GivesUpAt(turns, k)
  }

  /** Two launches are as many backoffs apart as there are turns between them, or more. */
  ghost predicate Paced(launches: seq<nat>) {
    forall i, j :: 0 <= i < j < |launches| ==> launches[j] - launches[i] >= GREETER_RESPAWN_BACKOFF * (j - i)
  }

  lemma {:induction false} Apart(turns: seq<Turn>, launches: seq<nat>, i: nat, j: nat)
    requires |launches| <= |turns| + 1 && Timed(turns, launches) && i < j < |launches|
    ensures launches[j] - launches[i] >= GREETER_RESPAWN_BACKOFF * (j - i)
  {
    if i < j - 1 {
      Apart(turns, launches, i, j - 1);
    }
  }

  lemma CaughtAtLast(turns: seq<Turn>, gaveUp: bool, rapidFailures: nat, launches: seq<nat>)
    requires |launches| <= |turns| && Timed(turns, launches) && rapidFailures == StreakAfter(turns, |launches|)
    requires if gaveUp then Streak(turns, |launches|) && forall k: nat :: k < |launches| ==> !Streak(turns, k)
             else |launches| == |turns| && forall k: nat :: k <= |turns| ==> !Streak(turns, k)
    ensures Served(turns, gaveUp, rapidFailures, launches)
  {
    hide Timed, StreakAfter;
  }

  lemma NoTurnYet(turns: seq<Turn>)
    ensures StreakAfter(turns, 0) == 0 && Timed(turns, [0]) && forall k: nat :: k <= 0 ==> !Streak(turns, k)
  {
  }

  /** One more turn, and whether it completes a streak. */
  lemma OneMoreTurn(turns: seq<Turn>, n: nat)
    requires n < |turns|
    ensures var before, after := StreakAfter(turns, n), StreakAfter(turns, n + 1);
            && after == (if turns[n].fate.LaunchFailed? || turns[n].fate.uptime < 3000 then before + 1 else 0)
            && (Streak(turns, n + 1) <==> after >= 3)
  {
    assert turns[..n + 1][..n] == turns[..n];
    StreakIsTrailing(turns, n + 1);
  }

  lemma TimedSoFar(turns: seq<Turn>, launches: seq<nat>, clock: nat)
    requires |launches| <= |turns| && Timed(turns, launches + [clock])
    ensures Timed(turns, launches)
    ensures |launches| < |turns| ==>
              var t := turns[|launches|];
              var over := clock + t.launchTime + if t.fate.LaunchFailed? then 0 else t.fate.uptime;
              var failed := t.fate.LaunchFailed? || t.fate.uptime < GREETER_MIN_UPTIME;
              Timed(turns, launches + [clock] + [if failed then over + GREETER_RESPAWN_BACKOFF else over])
  {
    var all := launches + [clock];
    assert forall i :: 0 <= i < |launches| ==> all[i] == launches[i];
    assert forall i :: 0 <= i < |launches| ==> all[i + 1] - all[i] == all[i + 1] - launches[i];
  }

  /** What the loop has seen when it is caught after these launches. */
  lemma Caught(turns: seq<Turn>, launches: seq<nat>, rapidFailures: nat)
    requires |launches| <= |turns| && Timed(turns, launches)
    requires rapidFailures == StreakAfter(turns, |launches|)
    ensures InARow(turns, |launches|, rapidFailures)
    ensures Paced(launches)
  {
    var met := turns[..|launches|];
    TrailingQuickMeans(met, rapidFailures);
    TrailingQuickMeans(met, rapidFailures + 1);
    assert forall i :: 0 <= i < |launches| ==> met[i] == turns[i];
    forall i, j | 0 <= i < j < |launches|
      ensures launches[j] - launches[i] >= GREETER_RESPAWN_BACKOFF * (j - i)
    {
      Apart(turns, launches, i, j);
    }
  }

  /** Runs the loop over the turns it will meet. `launches` are the times of the launch
      attempts; when the turns run out the loop is caught at its top. It gives up exactly if
      three turns in a row are each a failed launch or a run of less than three seconds, on the
      first such three; the count it ends with is the streak it is in; and the next launch comes
      when the turn is over, two seconds later after a failure. Logins are of no account. */
  method Serve(turns: seq<Turn>) returns (gaveUp: bool, rapidFailures: nat, launches: seq<nat>)
    ensures Served(turns, gaveUp, rapidFailures, launches)
    ensures InARow(turns, |launches|, rapidFailures) && rapidFailures <= 3 && (gaveUp <==> rapidFailures == 3)
    ensures Paced(launches)
  {
    hide Quick, Streak, StreakAfter, TrailingQuick, Timed, Paced, InARow;
    var clock: nat := 0;
    gaveUp, rapidFailures, launches := false, 0, [];
    NoTurnYet(turns);
    assert launches + [clock] == [0];
    while |launches| < |turns|
      invariant |launches| <= |turns| && !gaveUp
      invariant rapidFailures == StreakAfter(turns, |launches|) < GREETER_MAX_RAPID_FAILURES
      invariant forall k: nat :: k <= |launches| ==> !Streak(turns, k)
      invariant Timed(turns, launches + [clock])
      decreases |turns| - |launches|
    {
      var turn := turns[|launches|];
      OneMoreTurn(turns, |launches|);
      TimedSoFar(turns, launches, clock);
      launches := launches + [clock];
      clock := clock + turn.launchTime;
      match turn.fate {
        case LaunchFailed =>
          rapidFailures := rapidFailures + 1;
          if rapidFailures >= GREETER_MAX_RAPID_FAILURES {
            gaveUp := true;
            break;
          }
          clock := clock + GREETER_RESPAWN_BACKOFF;
        case Ran(uptime, _) =>
          clock := clock + uptime;
          if uptime < GREETER_MIN_UPTIME {
            rapidFailures := rapidFailures + 1;
            if rapidFailures >= GREETER_MAX_RAPID_FAILURES {
              gaveUp := true;
              break;
            }
            clock := clock + GREETER_RESPAWN_BACKOFF;
          } else {
            rapidFailures := 0;
          }
      }
    }
    hide *;
    if !gaveUp {
      TimedSoFar(turns, launches, clock);
    }
    CaughtAtLast(turns, gaveUp, rapidFailures, launches);
    Caught(turns, launches, rapidFailures);
  }

  /** Turns that differ in their logins at most. */
  ghost predicate Alike(turns: seq<Turn>, turned: seq<Turn>) {
    && |turns| == |turned|
    && forall i :: 0 <= i < |turns| ==>
         var s, t := turns[i], turned[i];
         t.launchTime == s.launchTime && t.fate.LaunchFailed? == s.fate.LaunchFailed? &&
         (s.fate.Ran? ==> t.fate.uptime == s.fate.uptime)
  }

  lemma {:induction false} SameTimes(turns: seq<Turn>, turned: seq<Turn>, launches: seq<nat>, launches': seq<nat>)
    requires Alike(turns, turned) && |launches| == |launches'| <= |turns|
    requires Timed(turns, launches) && Timed(turned, launches')
    ensures launches == launches'
  {
    if |launches| > 1 {
      var n := |launches| - 1;
      SameTimes(turns, turned, launches[..n], launches'[..n]);
      assert launches[..n][n - 1] == launches'[..n][n - 1];
      assert launches[n - 1 + 1] == launches'[n - 1 + 1];
      assert launches == launches[..n] + [launches[n]] && launches' == launches'[..n] + [launches'[n]];
    }
  }

  lemma {:induction false} SameStreak(turns: seq<Turn>, turned: seq<Turn>, n: nat)
    requires Alike(turns, turned) && n <= |turns|
    ensures TrailingQuick(turned[..n]) == TrailingQuick(turns[..n]) && (Streak(turned, n) <==> Streak(turns, n))
  {
    StreakIsTrailing(turns, n);
    StreakIsTrailing(turned, n);
    if n > 0 {
      SameStreak(turns, turned, n - 1);
      assert turned[..n][..n - 1] == turned[..n - 1] && turns[..n][..n - 1] == turns[..n - 1];
    }
  }

  /** Whether the turns carried logins makes no difference: the loop gives up over both or over
      neither, with the same count, after the same launches at the same times. */
  lemma LoginMakesNoDifference(turns: seq<Turn>, turned: seq<Turn>, gaveUp: bool, rapidFailures: nat,
                               launches: seq<nat>, gaveUp': bool, rapidFailures': nat, launches': seq<nat>)
    requires Alike(turns, turned)
    requires Served(turns, gaveUp, rapidFailures, launches) && Served(turned, gaveUp', rapidFailures', launches')
    ensures gaveUp' == gaveUp && rapidFailures' == rapidFailures && launches' == launches
  {
    forall n: nat
      ensures Streak(turned, n) <==> Streak(turns, n)
    {
      if n <= |turns| {
        SameStreak(turns, turned, n);
      }
    }
    hide Streak;
    assert forall n: nat :: GivesUpAt(turned, n) <==> GivesUpAt(turns, n);
    assert |launches'| == |launches|;
    SameTimes(turns, turned, launches, launches');
    SameStreak(turns, turned, |launches|);
  }

  /** Three logins in a row, each over within a second: the loop gives up on a greeter that
      never failed. */
  method ThreeQuickLogins() returns (gaveUp: bool, rapidFailures: nat)
    ensures gaveUp && rapidFailures == 3
  {
    var login := Turn(0, Ran(1000, true));
    var turns := [login, login, login];
    assert Streak(turns, 3);
    var launches;
    gaveUp, rapidFailures, launches := Serve(turns);
    if !gaveUp {
      assert GivesUpAt(turns, 3);
    }
  }
}
