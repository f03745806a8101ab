/** Shedding root before a session is executed: the kernel's rules for credentials, the drop
    in its one safe order, and why nothing afterwards climbs back. */
module PrivDrop {
  import opened Protocol

  /** As an argument to the set-id calls this value means "leave as it is". */
  const KEEP: nat := 0xFFFF_FFFF

  type Id = n: nat | n <= KEEP

  datatype Ids = Ids(actual: Id, effective: Id, saved: Id)

  datatype Creds = Creds(uid: Ids, gid: Ids, groups: set<Id>, noNewPrivs: bool)

  /** No process has the keep value as an identity. */
  predicate Sane(c: Creds) {
    && c.uid.actual != KEEP && c.uid.effective != KEEP && c.uid.saved != KEEP
    && c.gid.actual != KEEP && c.gid.effective != KEEP && c.gid.saved != KEEP
  }

  predicate Privileged(c: Creds) {
    c.uid.effective == 0
  }

  // ---------- the kernel ----------

  predicate MayBecome(ids: Ids, privileged: bool, n: Id) {
    n == KEEP || privileged || n == ids.actual || n == ids.effective || n == ids.saved
  }

  function Kept(old_: Id, n: Id): Id {
    if n == KEEP then old_ else n
  }

  /** The three identities set as asked; an unprivileged process may only permute its own. */
  function SetIds(ids: Ids, privileged: bool, to: Ids): Option<Ids> {
    if MayBecome(ids, privileged, to.actual) && MayBecome(ids, privileged, to.effective) &&
       MayBecome(ids, privileged, to.saved)
    then Some(Ids(Kept(ids.actual, to.actual), Kept(ids.effective, to.effective), Kept(ids.saved, to.saved)))
    else None
  }

  /** What a process can do about its own credentials. `Execute` runs a file that, if its
      set-id bits are honoured, brings its owner's identities. */
  datatype Call =
    | SetResUid(to: Ids)
    | SetResGid(to: Ids)
    | SetGroups(groups: set<Id>)
    | Execute(setUid: Option<Id>, setGid: Option<Id>)

  function Executed(ids: Ids, owner: Option<Id>): Ids {
    if owner.Some? && owner.value != KEEP then Ids(ids.actual, owner.value, owner.value)
    else ids.(saved := ids.effective)
  }

  /** The credentials after a call, or `None` if the kernel refuses it. */
  function After(c: Creds, call: Call): Option<Creds> {
    match call
    case SetResUid(to) =>
      var ids := SetIds(c.uid, Privileged(c), to);
      if ids.None? then None else Some(c.(uid := ids.value))
    case SetResGid(to) =>
      var ids := SetIds(c.gid, Privileged(c), to);
      if ids.None? then None else Some(c.(gid := ids.value))
    case SetGroups(groups) =>
      if Privileged(c) && KEEP !in groups then Some(c.(groups := groups)) else None
    case Execute(setUid, setGid) =>
      Some(c.(uid := Executed(c.uid, if c.noNewPrivs then None else setUid),
              gid := Executed(c.gid, if c.noNewPrivs then None else setGid)))
  }

  /** What executing a file makes of the identities: where new privileges are barred, or the file
      brings none, the effective ones are saved; else the file's owner's are effective and saved.
      The real ones, the groups and the bar stay. */
  lemma ExecuteTakes(c: Creds, setUid: Option<Id>, setGid: Option<Id>)
    ensures After(c, Execute(setUid, setGid)).Some?
    ensures var d := After(c, Execute(setUid, setGid)).value;
            && d.uid.actual == c.uid.actual && d.gid.actual == c.gid.actual
            && d.groups == c.groups && d.noNewPrivs == c.noNewPrivs
            && (if c.noNewPrivs || setUid == None || setUid == Some(0xFFFF_FFFF)
                then d.uid.effective == d.uid.saved == c.uid.effective
                else Some(d.uid.effective) == Some(d.uid.saved) == setUid)
            && (if c.noNewPrivs || setGid == None || setGid == Some(0xFFFF_FFFF)
                then d.gid.effective == d.gid.saved == c.gid.effective
                else Some(d.gid.effective) == Some(d.gid.saved) == setGid)
  {
  }

  /** The other calls: an identity is set to what is asked, or left if the keep value is; without
      privilege only to one already held, and the groups not at all. */
  lemma SetTakes(c: Creds, to: Ids, groups: set<Id>)
    ensures var d := After(c, SetResUid(to));
            && (d.Some? <==> c.uid.effective == 0 ||
                             {to.actual, to.effective, to.saved} <=
                             {c.uid.actual, c.uid.effective, c.uid.saved, 0xFFFF_FFFF})
            && (d.Some? ==>
                  && d.value == c.(uid := d.value.uid)
                  && d.value.uid.actual == (if to.actual == 0xFFFF_FFFF then c.uid.actual else to.actual)
                  && d.value.uid.effective == (if to.effective == 0xFFFF_FFFF then c.uid.effective else to.effective)
                  && d.value.uid.saved == if to.saved == 0xFFFF_FFFF then c.uid.saved else to.saved)
    ensures var d := After(c, SetResGid(to));
            && (d.Some? <==> c.uid.effective == 0 ||
                             {to.actual, to.effective, to.saved} <=
                             {c.gid.actual, c.gid.effective, c.gid.saved, 0xFFFF_FFFF})
            && (d.Some? ==>
                  && d.value == c.(gid := d.value.gid)
                  && d.value.gid.actual == (if to.actual == 0xFFFF_FFFF then c.gid.actual else to.actual)
                  && d.value.gid.effective == (if to.effective == 0xFFFF_FFFF then c.gid.effective else to.effective)
                  && d.value.gid.saved == if to.saved == 0xFFFF_FFFF then c.gid.saved else to.saved)
    ensures After(c, SetGroups(groups)) ==
            if c.uid.effective == 0 && 0xFFFF_FFFF !in groups then Some(c.(groups := groups)) else None
  {
    var uids := {c.uid.actual, c.uid.effective, c.uid.saved, KEEP};
    var gids := {c.gid.actual, c.gid.effective, c.gid.saved, KEEP};
    var asked := {to.actual, to.effective, to.saved};
    assert asked <= uids <==> to.actual in uids && to.effective in uids && to.saved in uids;
    assert asked <= gids <==> to.actual in gids && to.effective in gids && to.saved in gids;
  }

  /** Any sequence of calls; a refused one changes nothing. */
  function AfterAll(c: Creds, calls: seq<Call>): Creds
    decreases |calls|
  {
    if calls == [] then c
    else
      var next := After(c, calls[0]);
      AfterAll(if next.Some? then next.value else c, calls[1..])
  }

  // ---------- the drop ----------

  datatype Target = Target(name: string, uid: Id, gid: Id)

  predicate Is(c: Creds, t: Target, groups: set<Id>) {
    c.uid == Ids(t.uid, t.uid, t.uid) && c.gid == Ids(t.gid, t.gid, t.gid) && c.groups == groups
  }

  /** Calls that the kernel fails for reasons of its own, such as a resource limit. */
  datatype Failing = Failing(groups: bool, gid: bool, uid: bool)

  class Process {
    var creds: Creds

    constructor (creds: Creds)
      ensures this.creds == creds
    {
      this.creds := creds;
    }

    method Do(call: Call, failing: bool) returns (ok: bool)
      modifies this
      ensures ok <==> !failing && After(old(creds), call).Some?
      ensures creds == if ok then After(old(creds), call).value else old(creds)
    {
      var next := After(creds, call);
      ok := !failing && next.Some?;
      if ok {
        creds := next.value;
      }
    }

    /** Groups, then gid, then uid, then the check that it took. `members` is the group
        database. Success means every identity is the target's, and comes exactly when the
        process was privileged, no call failed, and the target is a real user but not root;
        the check at the end is what rules out the value that means "leave as it is". The
        groups are then the primary one and those the database lists under the target's own
        name: none that root held stays unless it is one of these, and no other entry of the
        database is of any account. */
    method DropTo(t: Target, members: map<string, set<Id>>, failing: Failing) returns (ok: bool)
      requires Sane(creds)
      modifies this
      ensures Sane(creds) && creds.noNewPrivs == old(creds.noNewPrivs)
      ensures ok ==> Is(creds, t, GroupsOf(t, members)) && t.uid != 0
      ensures ok ==> forall g :: g in creds.groups <==>
                       g == t.gid || (t.name in members && g in members[t.name])
      ensures ok ==> forall g :: g in old(creds.groups) && g in creds.groups ==>
                       g == t.gid || (t.name in members && g in members[t.name])
      ensures ok <==>
              && '\0' !in t.name && !failing.groups && !failing.gid && !failing.uid
              && old(creds.uid.effective) == 0 && (t.name in members ==> 0xFFFF_FFFF !in members[t.name])
              && t.uid != 0 && t.uid != 0xFFFF_FFFF && t.gid != 0xFFFF_FFFF
    {
      if '\0' in t.name {
        return false;
      }
      var done := Do(SetGroups(GroupsOf(t, members)), failing.groups);
      if !done {
        return false;
      }
      done := Do(SetResGid(Ids(t.gid, t.gid, t.gid)), failing.gid);
      if !done {
        return false;
      }
      done := Do(SetResUid(Ids(t.uid, t.uid, t.uid)), failing.uid);
      if !done {
        return false;
      }
      ok := VerifyDropped(t);
    }

    /** Reads back the real and effective identities only; the saved ones are not looked
        at. */
    method VerifyDropped(t: Target) returns (ok: bool)
      ensures ok <==>
              && creds.uid.actual == creds.uid.effective == t.uid
              && creds.gid.actual == creds.gid.effective == t.gid
              && t.uid != 0
    {
      if creds.uid.actual != t.uid || creds.uid.effective != t.uid {
        return false;
      }
      if creds.gid.actual != t.gid || creds.gid.effective != t.gid {
        return false;
      }
      ok := t.uid != 0;
    }
  }

  /** The supplementary groups of a user: the database's, and the primary one. */
  function GroupsOf(t: Target, members: map<string, set<Id>>): set<Id> {
    (if t.name in members then members[t.name] else {}) + {t.gid}
  }

  /** A dropped process stays the target for good: whatever set-id, group and execute calls
      follow, no identity and no group changes, if new privileges are barred. */
  lemma {:induction false} DropIsPermanent(c: Creds, t: Target, groups: set<Id>, calls: seq<Call>)
    requires Is(c, t, groups) && t.uid != 0 && t.uid != KEEP && t.gid != KEEP
    requires c.noNewPrivs
    ensures AfterAll(c, calls) == c
  {
    if calls != [] {
      var next := After(c, calls[0]);
      assert next.Some? ==> next.value == c;
      DropIsPermanent(c, t, groups, calls[1..]);
    }
  }

  predicate HoldsRoot(c: Creds) {
    c.uid.actual == 0 || c.uid.effective == 0 || c.uid.saved == 0
  }

  /** Without executing a set-id file the bar is not even needed. */
  lemma {:induction false} DropIsPermanentUntilExecute(c: Creds, t: Target, groups: set<Id>, calls: seq<Call>)
    requires Is(c, t, groups) && t.uid != 0 && t.uid != KEEP && t.gid != KEEP
    requires forall call :: call in calls ==> !call.Execute?
    ensures AfterAll(c, calls) == c
  {
    if calls != [] {
      var next := After(c, calls[0]);
      assert calls[0] in calls;
      assert next.Some? ==> next.value == c;
      DropIsPermanentUntilExecute(c, t, groups, calls[1..]);
    }
  }

  ghost predicate RootReachable(c: Creds) {
    exists calls :: HoldsRoot(AfterAll(c, calls))
  }

  /** Root is out of a dropped process's reach exactly if the baseline's bar on new
      privileges was set. */
  lemma RootUnreachableIff(c: Creds, t: Target, groups: set<Id>)
    requires Is(c, t, groups) && t.uid != 0 && t.uid != KEEP && t.gid != KEEP
    ensures !RootReachable(c) <==> c.noNewPrivs
  {
    if c.noNewPrivs {
      forall calls
        ensures !HoldsRoot(AfterAll(c, calls))
      {
        DropIsPermanent(c, t, groups, calls);
      }
    } else {
      var calls := [Execute(Some(0), None)];
      assert calls[1..] == [];
      assert HoldsRoot(AfterAll(c, calls));
    }
  }

  /** Why the order matters: once the uid has gone, the groups can no longer be changed, nor
      the gid to one not already held. */
  lemma UidLast(c: Creds, t: Target, groups: set<Id>)
    requires Privileged(c) && t.uid != 0 && t.uid != KEEP && t.gid != KEEP
    requires t.gid != c.gid.actual && t.gid != c.gid.effective && t.gid != c.gid.saved
    ensures var d := After(c, SetResUid(Ids(t.uid, t.uid, t.uid)));
            d.Some? && After(d.value, SetGroups(groups)) == None &&
            After(d.value, SetResGid(Ids(t.gid, t.gid, t.gid))) == None
  {
  }
}
