/** Freeing the seat: the process groups of whatever holds the graphics card are asked to end,
    and then made to. */
module FreeSeat {

  datatype Signal = Term | Kill

  /** One signal sent to a whole process group. */
  datatype Sent = Sent(group: int, signal: Signal)

  /** One scan for holders of the card: their pids, and the group each is in by the time it
      is asked for; a pid that is gone by then has none. */
  datatype Scan = Scan(holders: seq<int>, groupOf: map<int, int>)

  function GroupOf(scan: Scan, pid: int): int {
    if pid in scan.groupOf then scan.groupOf[pid] else -1
  }

  /** The groups that may be signalled at all: not init's, and not the unknown ones, whose
      negation would mean every process there is. */
  predicate Held(scan: Scan, group: int) {
    group > 1 && exists i :: 0 <= i < |scan.holders| && GroupOf(scan, scan.holders[i]) == group
  }

  /** A group is held exactly if some holder of the card is in it. */
  lemma HeldMeans(scan: Scan)
    ensures forall g :: Held(scan, g) <==>
                        g > 1 && exists pid :: pid in scan.holders && pid in scan.groupOf && scan.groupOf[pid] == g
  {
    forall g | g > 1 && exists pid :: pid in scan.holders && pid in scan.groupOf && scan.groupOf[pid] == g
      ensures Held(scan, g)
    {
      var pid :| pid in scan.holders && pid in scan.groupOf && scan.groupOf[pid] == g;
      var i :| 0 <= i < |scan.holders| && scan.holders[i] == pid;
      assert GroupOf(scan, scan.holders[i]) == g;
    }
  }

  predicate Distinct(groups: seq<int>) {
    forall i, j :: 0 <= i < j < |groups| ==> groups[i] != groups[j]
  }

  method HolderProcessGroups(scan: Scan) returns (groups: seq<int>)
    ensures Distinct(groups) && forall g :: g in groups <==> Held(scan, g)
    ensures forall g :: g in groups <==>
                        g > 1 && exists pid :: pid in scan.holders && pid in scan.groupOf && scan.groupOf[pid] == g
  {
    groups := [];
    for i := 0 to |scan.holders|
      invariant Distinct(groups)
      invariant forall g :: g in groups <==>
                            g > 1 && exists k :: 0 <= k < i && GroupOf(scan, scan.holders[k]) == g
    {
      var group := GroupOf(scan, scan.holders[i]);
      if group > 1 && group !in groups {
        groups := groups + [group];
      }
    }
    HeldMeans(scan);
  }

  /** What signalling each of the groups but the own one comes to. */
  function SentTo(groups: seq<int>, own: int, signal: Signal): seq<Sent> {
    if groups == [] then []
    else SentTo(groups[..|groups| - 1], own, signal) +
         (if groups[|groups| - 1] == own then [] else [Sent(groups[|groups| - 1], signal)])
  }

  class Signals {
    const own: int
    var sent: seq<Sent>

    constructor (own: int)
      ensures this.own == own && sent == []
    {
      this.own, sent := own, [];
    }

    method SignalGroup(group: int, signal: Signal)
      modifies this
      ensures sent == old(sent) + if group == own then [] else [Sent(group, signal)]
    {
      if group == own {
        return;
      }
      sent := sent + [Sent(group, signal)];
    }

    method SignalAll(groups: seq<int>, signal: Signal)
      modifies this
      ensures sent == old(sent) + SentTo(groups, own, signal)
    {
      for i := 0 to |groups|
        invariant sent == old(sent) + SentTo(groups[..i], own, signal)
      {
        SignalGroup(groups[i], signal);
        assert groups[..i + 1][..i] == groups[..i];
      }
      assert groups[..|groups|] == groups;
    }

    /** `after` is what is found once the grace period is over. Every group holding the card
        is asked once to end, every group that holds it after the grace period, whether it
        was there before or not, is killed once, and nothing else is signalled: neither
        init, nor every process, nor the daemon's own group. */
    method FreeSeat(cards: bool, before: Scan, after: Scan)
      requires sent == []
      modifies this
      ensures forall g :: Sent(g, Term) in sent <==> cards && g != own && Held(before, g)
      ensures forall g :: Sent(g, Kill) in sent <==>
                          cards && before.holders != [] && g != own && Held(after, g)
      ensures OncePolitelyFirst(sent)
      ensures forall s :: s in sent ==> s.group > 1 && s.group != own
    {
      hide *;
      NothingSent(own);
      NothingHeld(before);
      NothingHeld(after);
      if !cards || before.holders == [] {
        return;
      }
      var groups := HolderProcessGroups(before);
      SignalAll(groups, Term);
      SentToMeans(groups, own, Term);
      var stragglers: seq<int> := [];
      if after.holders != [] {
        stragglers := HolderProcessGroups(after);
        SignalAll(stragglers, Kill);
      }
      SentToMeans(stragglers, own, Kill);
      assert sent == SentTo(groups, own, Term) + SentTo(stragglers, own, Kill);
      TermThenKill(SentTo(groups, own, Term), SentTo(stragglers, own, Kill));
      forall s | s in sent
        ensures s.group > 1 && s.group != own
      {
        assert s.group in groups || s.group in stragglers;
      }
    }
  }

  /** No signal twice to the same group, and the asking before the killing. */
  predicate OncePolitelyFirst(sent: seq<Sent>) {
    && (forall i, j :: 0 <= i < j < |sent| ==> sent[i] != sent[j])
    && (forall i, j :: 0 <= i < j < |sent| && sent[i].signal.Kill? ==> sent[j].signal.Kill?)
  }

  lemma NothingSent(own: int)
    ensures OncePolitelyFirst([]) && Distinct([]) && SentTo([], own, Kill) == []
  {
  }

  lemma NothingHeld(scan: Scan)
    ensures scan.holders == [] ==> forall g :: !Held(scan, g)
  {
  }

  lemma TermThenKill(terms: seq<Sent>, kills: seq<Sent>)
    requires OncePolitelyFirst(terms) && forall s :: s in terms ==> s.signal == Term
    requires OncePolitelyFirst(kills) && forall s :: s in kills ==> s.signal == Kill
    ensures OncePolitelyFirst(terms + kills)
  {
    var sent := terms + kills;
    assert forall i :: 0 <= i < |terms| ==> sent[i] == terms[i] && terms[i] in terms;
    assert forall i :: |terms| <= i < |sent| ==> sent[i] == kills[i - |terms|] && kills[i - |terms|] in kills;
  }

  /** Each group other than the own one, once. */
  lemma {:induction false} SentToMeans(groups: seq<int>, own: int, signal: Signal)
    requires Distinct(groups)
    ensures forall s :: s in SentTo(groups, own, signal) <==> s.signal == signal && s.group != own && s.group in groups
    ensures OncePolitelyFirst(SentTo(groups, own, signal))
  {
    if groups != [] {
      var front, last := groups[..|groups| - 1], groups[|groups| - 1];
      SentToMeans(front, own, signal);
      assert groups == front + [last];
      assert last !in front;
      var earlier := SentTo(front, own, signal);
      assert forall i :: 0 <= i < |earlier| ==> earlier[i] in earlier;
    }
  }
}
