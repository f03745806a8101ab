/** Which desktop sessions can be started: the entries of the session directories, merged. */
module Sessions {
  import opened Protocol
  import opened ExecLine
  import opened DesktopEntry

  datatype SessionKind = Wayland | X11

  /** A session the daemon could start; its command never leaves the daemon. */
  datatype Discovered =
    Discovered(id: string, name: string, comment: Option<string>, exec: seq<string>, kind: SessionKind)

  /** One directory entry. A part of the name that is not text, and a file that cannot be read
      as text, are `None`. */
  datatype DirEntry = DirEntry(stem: Option<string>, extension: Option<string>, text: Option<string>)

  /** A data directory: its two session directories, as far as they can be listed. */
  datatype Root = Root(wayland: Option<seq<DirEntry>>, x11: Option<seq<DirEntry>>)

  const DESKTOP: string := "desktop"
  const TRUE: string := "true"
  const HIDDEN: string := "Hidden"
  const NO_DISPLAY: string := "NoDisplay"
  const NAME: string := "Name"
  const EXEC: string := "Exec"
  const COMMENT: string := "Comment"

  /** The session an entry describes: visible, named, and with something to run. */
  function Accepted(e: DirEntry, kind: SessionKind): Option<Discovered> {
    if e.extension != Some(DESKTOP) || e.stem.None? || e.text.None? then None
    else
      var fields := FieldsOf(FirstGroup(Lines(e.text.value)));
      var name, exec, comment := Value(fields, NAME), Value(fields, EXEC), Value(fields, COMMENT);
      if Value(fields, HIDDEN) == Some(TRUE) || Value(fields, NO_DISPLAY) == Some(TRUE) then None
      else if name.None? || name.value == "" then None
      else if exec.None? || Scan(exec.value, false, "") == [] then None
      else Some(Discovered(e.stem.value, name.value, if comment == Some("") then None else comment,
                           Scan(exec.value, false, ""), kind))
  }

  method ParseEntry(e: DirEntry, kind: SessionKind) returns (session: Option<Discovered>)
    requires e.extension == Some(DESKTOP)
    ensures session == Accepted(e, kind)
  {
    if e.stem.None? || e.text.None? {
      return None;
    }
    var fields := ParseEntryText(e.text.value);
    if Value(fields, HIDDEN) == Some(TRUE) || Value(fields, NO_DISPLAY) == Some(TRUE) {
      return None;
    }
    var name := Value(fields, NAME);
    if name.None? || name.value == "" {
      return None;
    }
    var exec := Value(fields, EXEC);
    if exec.None? {
      return None;
    }
    var argv := TokenizeExec(exec.value);
    if argv == [] {
      return None;
    }
    var comment := Value(fields, COMMENT);
    session := Some(Discovered(e.stem.value, name.value, if comment == Some("") then None else comment, argv, kind));
  }

  /** The session that an entry describes: it takes its id from the file's name, and the rest from
      the first group of the file, which must not be hidden in either way, and must give a name
      and a command with something in it. */
  ghost predicate Describes(e: DirEntry, d: Discovered) {
    && e.extension == Some("desktop") && e.stem == Some(d.id) && e.text.Some?
    && var lines := Lines(e.text.value);
    && !SetTo(lines, "Hidden", "true") && !SetTo(lines, "NoDisplay", "true")
    && d.name != "" && SetTo(lines, "Name", d.name)
    && d.exec != [] && (exists line :: SetTo(lines, "Exec", line) && Scan(line, false, "") == d.exec)
    && d.comment != Some("")
    && (forall text :: text != "" ==> (SetTo(lines, "Comment", text) <==> d.comment == Some(text)))
  }

  /** In the parser's terms. */
  lemma DescribesIff(e: DirEntry, d: Discovered)
    requires e.text.Some?
    ensures var fields := FieldsOf(FirstGroup(Lines(e.text.value)));
            Describes(e, d) <==>
              && e.extension == Some(DESKTOP) && e.stem == Some(d.id)
              && Value(fields, HIDDEN) != Some(TRUE) && Value(fields, NO_DISPLAY) != Some(TRUE)
              && d.name != "" && Value(fields, NAME) == Some(d.name)
              && d.exec != [] && Value(fields, EXEC).Some? && Scan(Value(fields, EXEC).value, false, "") == d.exec
              && d.comment == if Value(fields, COMMENT) == Some("") then None else Value(fields, COMMENT)
  {
    var lines := Lines(e.text.value);
    hide SetTo, Lines, Scan, FirstGroup, FieldsOf, Value;
    ValueIs(lines, HIDDEN, TRUE);
    ValueIs(lines, NO_DISPLAY, TRUE);
    ValueIs(lines, NAME, d.name);
    CommandGiven(lines, d.exec);
    CommentGiven(lines, d.comment);
  }

  lemma CommandGiven(lines: seq<string>, exec: seq<string>)
    ensures var value := Value(FieldsOf(FirstGroup(lines)), EXEC);
            (exists line :: SetTo(lines, "Exec", line) && Scan(line, false, "") == exec) <==>
            value.Some? && Scan(value.value, false, "") == exec
  {
    hide SetTo, Scan, FirstGroup, FieldsOf, Value;
    var value := Value(FieldsOf(FirstGroup(lines)), EXEC);
    if value.Some? {
      ValueIs(lines, EXEC, value.value);
    }
    if line :| SetTo(lines, "Exec", line) && Scan(line, false, "") == exec {
      ValueIs(lines, EXEC, line);
    }
  }

  lemma CommentGiven(lines: seq<string>, comment: Option<string>)
    ensures var value := Value(FieldsOf(FirstGroup(lines)), COMMENT);
            (comment != Some("") &&
             forall text :: text != "" ==> (SetTo(lines, "Comment", text) <==> comment == Some(text))) <==>
            comment == if value == Some("") then None else value
  {
    hide SetTo, FirstGroup, FieldsOf, Value;
    var value := Value(FieldsOf(FirstGroup(lines)), COMMENT);
    forall text
      ensures SetTo(lines, "Comment", text) <==> value == Some(text)
    {
      ValueIs(lines, COMMENT, text);
    }
  }

  /** An entry is accepted exactly if it describes a session, and as that session. */
  lemma AcceptedIff(e: DirEntry, kind: SessionKind, d: Discovered)
    ensures Accepted(e, kind) == Some(d) <==> Describes(e, d) && d.kind == kind
  {
    if e.text.Some? {
      DescribesIff(e, d);
      hide Describes, Lines, Scan, FirstGroup, FieldsOf, Value;
    }
  }

  /** All the sessions described, in the order they are come across. */
  function AllIn(entries: seq<DirEntry>, kind: SessionKind): seq<Discovered> {
    if entries == [] then []
    else
      var a := Accepted(entries[0], kind);
      (if a.Some? then [a.value] else []) + AllIn(entries[1..], kind)
  }

  function Listed(dir: Option<seq<DirEntry>>, kind: SessionKind): seq<Discovered> {
    if dir.None? then [] else AllIn(dir.value, kind)
  }

  function AllUnder(roots: seq<Root>, allowX11: bool): seq<Discovered> {
    if roots == [] then []
    else
      Listed(roots[0].wayland, Wayland) + (if allowX11 then Listed(roots[0].x11, X11) else []) +
      AllUnder(roots[1..], allowX11)
  }

  function Ids(sessions: seq<Discovered>): set<string> {
    set d | d in sessions :: d.id
  }

  /** What to keep of the sessions come across: each whose id has not come before. */
  function Merge(met: seq<Discovered>): seq<Discovered> {
    if met == [] then []
    else
      var kept, last := Merge(met[..|met| - 1]), met[|met| - 1];
      if last.id in Ids(kept) then kept else kept + [last]
  }

  /** One directory's pass of the discovery loop. */
  method ScanDir(entries: seq<DirEntry>, kind: SessionKind, ghost met: seq<Discovered>,
                 found0: seq<Discovered>, seen0: set<string>)
    returns (found: seq<Discovered>, seen: set<string>)
    requires found0 == Merge(met) && seen0 == Ids(found0)
    ensures found == Merge(met + AllIn(entries, kind)) && seen == Ids(found)
  {
    hide *;
    found, seen := found0, seen0;
    var i := 0;
    ghost var now := met;
    assert entries[0..] == entries;
    while i < |entries|
      invariant i <= |entries|
      invariant met + AllIn(entries, kind) == now + AllIn(entries[i..], kind)
      invariant found == Merge(now) && seen == Ids(found)
    {
      var e := entries[i];
      AllInStep(entries, kind, i);
      if e.extension == Some(DESKTOP) {
        var session := ParseEntry(e, kind);
        if session.Some? {
          assert now + ([session.value] + AllIn(entries[i + 1..], kind)) ==
                 now + [session.value] + AllIn(entries[i + 1..], kind);
          MergeStep(now, session.value);
          now := now + [session.value];
          if session.value.id !in seen {
            seen := seen + {session.value.id};
            found := found + [session.value];
          }
        }
      } else {
        NotDesktop(e, kind);
      }
      i := i + 1;
    }
    NoneIn(kind);
    assert entries[i..] == [] && now + [] == now;
  }

  lemma NoneIn(kind: SessionKind)
    ensures AllIn([], kind) == []
  {
  }

  lemma AllInStep(entries: seq<DirEntry>, kind: SessionKind, i: nat)
    requires i < |entries|
    ensures var a, later := Accepted(entries[i], kind), AllIn(entries[i + 1..], kind);
            AllIn(entries[i..], kind) == if a.Some? then [a.value] + later else later
  {
    hide Accepted;
    assert entries[i..][1..] == entries[i + 1..];
    assert [] + AllIn(entries[i + 1..], kind) == AllIn(entries[i + 1..], kind);
  }

  lemma MergeStep(met: seq<Discovered>, d: Discovered)
    ensures Merge(met + [d]) == if d.id in Ids(Merge(met)) then Merge(met) else Merge(met) + [d]
    ensures Ids(Merge(met) + [d]) == Ids(Merge(met)) + {d.id}
  {
    assert (met + [d])[..|met|] == met;
  }

  lemma NotDesktop(e: DirEntry, kind: SessionKind)
    requires e.extension != Some(DESKTOP)
    ensures Accepted(e, kind) == None
  {
  }

  /** The same for a directory that may not be listable. */
  method ScanIfListed(dir: Option<seq<DirEntry>>, kind: SessionKind, ghost met: seq<Discovered>,
                      found0: seq<Discovered>, seen0: set<string>)
    returns (found: seq<Discovered>, seen: set<string>)
    requires found0 == Merge(met) && seen0 == Ids(found0)
    ensures found == Merge(met + Listed(dir, kind)) && seen == Ids(found)
  {
    hide Merge, Ids, AllIn;
    found, seen := found0, seen0;
    if dir.Some? {
      found, seen := ScanDir(dir.value, kind, met, found0, seen0);
    }
    assert met + [] == met;
  }

  lemma Regroup(a: seq<Discovered>, b: seq<Discovered>, c: seq<Discovered>, d: seq<Discovered>)
    ensures a + (b + (c + d)) == (a + b + c) + d && a + b + [] == a + b
  {
  }

  lemma UnderStep(roots: seq<Root>, allowX11: bool, i: nat)
    requires i < |roots|
    ensures AllUnder(roots[i..], allowX11) ==
            Listed(roots[i].wayland, Wayland) +
            ((if allowX11 then Listed(roots[i].x11, X11) else []) + AllUnder(roots[i + 1..], allowX11))
  {
    hide Listed;
    assert roots[i..][1..] == roots[i + 1..];
  }

  /** The nested loops with their set of ids seen compute the merge of everything come
      across. */
  method Discover(roots: seq<Root>, allowX11: bool) returns (found: seq<Discovered>)
    ensures found == Merge(AllUnder(roots, allowX11))
  {
    EmptyMerge();
    assert roots[0..] == roots && AllUnder([], allowX11) == [];
    hide *;
    found := [];
    var seen: set<string>, i := {}, 0;
    ghost var now: seq<Discovered> := [];
    while i < |roots|
      invariant i <= |roots|
      invariant AllUnder(roots, allowX11) == now + AllUnder(roots[i..], allowX11)
      invariant found == Merge(now) && seen == Ids(found)
    {
      UnderStep(roots, allowX11, i);
      ghost var wayland, x11 := Listed(roots[i].wayland, Wayland), if allowX11 then Listed(roots[i].x11, X11) else [];
      Regroup(now, wayland, x11, AllUnder(roots[i + 1..], allowX11));
      found, seen := ScanIfListed(roots[i].wayland, Wayland, now, found, seen);
      if allowX11 {
        found, seen := ScanIfListed(roots[i].x11, X11, now + wayland, found, seen);
      }
      now := now + wayland + x11;
      i := i + 1;
    }
    assert roots[i..] == [] && now + [] == now;
  }

  lemma EmptyMerge()
    ensures Merge([]) == [] && Ids([]) == {}
  {
  }

  lemma IdsSnoc(front: seq<Discovered>, last: Discovered)
    ensures Ids(front + [last]) == Ids(front) + {last.id}
  {
  }

  predicate Distinct(sessions: seq<Discovered>) {
    forall i, j :: 0 <= i < j < |sessions| ==> sessions[i].id != sessions[j].id
  }

  lemma EmptyDistinct()
    ensures Distinct([])
  {
  }

  lemma DistinctWith(kept: seq<Discovered>, last: Discovered)
    requires Distinct(kept) && last.id !in Ids(kept)
    ensures Distinct(kept + [last])
  {
    assert forall i :: 0 <= i < |kept| ==> kept[i].id in Ids(kept);
  }

  lemma {:induction false} MergeUnique(met: seq<Discovered>)
    ensures Ids(Merge(met)) == Ids(met) && Distinct(Merge(met))
  {
    hide Merge, Ids, Distinct;
    EmptyMerge();
    if met != [] {
      var front, last := met[..|met| - 1], met[|met| - 1];
      assert met == front + [last];
      IdsSnoc(front, last);
      MergeUnique(front);
      MergeStep(front, last);
      if last.id !in Ids(Merge(front)) {
        DistinctWith(Merge(front), last);
      }
    } else {
      EmptyDistinct();
    }
  }

  /** The merge holds one session for each id come across, and it is the first with that id. */
  lemma {:induction false} MergeMeans(met: seq<Discovered>)
    ensures Ids(Merge(met)) == Ids(met) && Distinct(Merge(met))
    ensures forall d :: d in Merge(met) <==> FirstOfItsId(met, d)
  {
    MergeUnique(met);
    if met == [] {
      assert forall d :: !FirstOfItsId(met, d);
    } else {
      var front, last := met[..|met| - 1], met[|met| - 1];
      assert met == front + [last];
      hide *;
      MergeMeans(front);
      MergeStep(front, last);
      forall d
        ensures d in Merge(met) <==> FirstOfItsId(met, d)
      {
        FirstOfLonger(front, last, d);
      }
    }
  }

  predicate FirstOfItsId(met: seq<Discovered>, d: Discovered) {
    exists k :: 0 <= k < |met| && met[k] == d && d.id !in Ids(met[..k])
  }

  lemma FirstOfLonger(front: seq<Discovered>, last: Discovered, d: Discovered)
    ensures FirstOfItsId(front + [last], d) <==> FirstOfItsId(front, d) || (d == last && d.id !in Ids(front))
  {
    var met := front + [last];
    forall k | 0 <= k <= |front|
      ensures met[..k] == front[..k]
    {
    }
    assert front[..|front|] == front;
    assert met[|front|] == last;
    if FirstOfItsId(front, d) {
      var k :| 0 <= k < |front| && front[k] == d && d.id !in Ids(front[..k]);
      assert met[k] == d && met[..k] == front[..k];
    }
  }

  /** Coming across more only extends the merge. */
  lemma {:induction false} MergeExtends(met: seq<Discovered>, more: seq<Discovered>)
    ensures Merge(met) <= Merge(met + more)
  {
    if more == [] {
      assert met + more == met;
    } else {
      var front := more[..|more| - 1];
      MergeExtends(met, front);
      assert (met + more)[..|met + more| - 1] == met + front;
    }
  }

  lemma {:induction false} AllUnderAppend(roots: seq<Root>, more: seq<Root>, allowX11: bool)
    ensures AllUnder(roots + more, allowX11) == AllUnder(roots, allowX11) + AllUnder(more, allowX11)
  {
    hide AllIn;
    if roots == [] {
      assert roots + more == more;
    } else {
      assert (roots + more)[1..] == roots[1..] + more;
      AllUnderAppend(roots[1..], more, allowX11);
    }
  }

  lemma {:induction false} KindsIn(entries: seq<DirEntry>, kind: SessionKind)
    ensures forall d :: d in AllIn(entries, kind) ==> d.kind == kind && d.exec != [] && d.name != ""
  {
    if entries != [] {
      KindsIn(entries[1..], kind);
      AcceptedFits(entries[0], kind);
      hide Accepted;
    }
  }

  lemma AcceptedFits(e: DirEntry, kind: SessionKind)
    ensures var a := Accepted(e, kind); a.Some? ==> a.value.kind == kind && a.value.exec != [] && a.value.name != ""
  {
  }

  lemma {:induction false} KindsUnder(roots: seq<Root>, allowX11: bool)
    ensures forall d :: d in AllUnder(roots, allowX11) ==> (d.kind.X11? ==> allowX11) && d.exec != [] && d.name != ""
  {
    if roots != [] {
      KindsUnder(roots[1..], allowX11);
      if roots[0].wayland.Some? {
        KindsIn(roots[0].wayland.value, Wayland);
      }
      if roots[0].x11.Some? {
        KindsIn(roots[0].x11.value, X11);
      }
      hide AllIn;
    }
  }

  /** What discovery offers, whatever the directories hold: one session per id, each with a
      name and something to run, none for X11 unless allowed; and further directories only
      add to the end of the list. */
  lemma DiscoveryMeans(roots: seq<Root>, more: seq<Root>, allowX11: bool)
    ensures var found := Merge(AllUnder(roots, allowX11));
            && Distinct(found)
            && (forall d :: d in found ==> d.exec != [] && d.name != "" && (d.kind.X11? ==> allowX11))
            && Ids(found) == Ids(AllUnder(roots, allowX11))
            && found <= Merge(AllUnder(roots + more, allowX11))
  {
    hide AllUnder, Merge;
    var all := AllUnder(roots, allowX11);
    MergeMeans(all);
    KindsUnder(roots, allowX11);
    forall d | d in Merge(all)
      ensures d in all
    {
      assert FirstOfItsId(all, d);
    }
    AllUnderAppend(roots, more, allowX11);
    MergeExtends(all, AllUnder(more, allowX11));
  }

  /** The entries of one kind that a root lists. */
  function EntriesOf(root: Root, kind: SessionKind): seq<DirEntry> {
    var dir := if kind.Wayland? then root.wayland else root.x11;
    if dir.None? then [] else dir.value
  }

  /** Some directory that is looked at lists an entry that describes the session. */
  ghost predicate Listing(roots: seq<Root>, allowX11: bool, d: Discovered) {
    && (d.kind.X11? ==> allowX11)
    && exists root, e :: root in roots && e in EntriesOf(root, d.kind) && Describes(e, d)
  }

  lemma {:induction false} AllInDescribed(entries: seq<DirEntry>, kind: SessionKind, d: Discovered)
    ensures d in AllIn(entries, kind) <==> d.kind == kind && exists e :: e in entries && Describes(e, d)
  {
    hide Accepted, Describes;
    if entries != [] {
      AllInDescribed(entries[1..], kind, d);
      AcceptedIff(entries[0], kind, d);
      assert forall e :: e in entries <==> e == entries[0] || e in entries[1..];
    }
  }

  lemma {:induction false} AllUnderListed(roots: seq<Root>, allowX11: bool, d: Discovered)
    ensures d in AllUnder(roots, allowX11) <==> Listing(roots, allowX11, d)
  {
    hide AllIn, Describes;
    if roots != [] {
      AllUnderListed(roots[1..], allowX11, d);
      AllInDescribed(EntriesOf(roots[0], Wayland), Wayland, d);
      AllInDescribed(EntriesOf(roots[0], X11), X11, d);
      assert forall root :: root in roots <==> root == roots[0] || root in roots[1..];
    }
  }

  /** Discovery finds no session but those that some visible entry describes, and finds each of
      their ids. */
  lemma FoundAreDescribed(roots: seq<Root>, allowX11: bool, d: Discovered)
    ensures var found := Merge(AllUnder(roots, allowX11));
            && (d in found ==> Listing(roots, allowX11, d))
            && (Listing(roots, allowX11, d) ==> d.id in Ids(found))
  {
    var all := AllUnder(roots, allowX11);
    AllUnderListed(roots, allowX11, d);
    MergeMeans(all);
    hide AllUnder, Merge, Listing;
    if d in Merge(all) {
      assert FirstOfItsId(all, d);
    }
  }

  /** An entry that is not accepted shadows nothing: it might as well not be there. */
  lemma {:induction false} RejectedNeverShadows(entries: seq<DirEntry>, e: DirEntry, more: seq<DirEntry>,
                                                kind: SessionKind)
    requires Accepted(e, kind) == None
    ensures AllIn(entries + [e] + more, kind) == AllIn(entries + more, kind)
  {
    hide Accepted;
    var all := entries + [e] + more;
    if entries == [] {
      assert all[0] == e && all[1..] == more && entries + more == more;
    } else {
      assert all[0] == entries[0] && all[1..] == entries[1..] + [e] + more;
      assert (entries + more)[1..] == entries[1..] + more;
      RejectedNeverShadows(entries[1..], e, more, kind);
    }
  }

  /** Which of two sessions with one id is found: that of the earlier data directory, within one
      that for Wayland before that for X11, and within a listing the earlier entry. */
  lemma EarlierWins(before: seq<Root>, root: Root, after: seq<Root>, allowX11: bool, d: Discovered)
    requires d.id !in Ids(AllUnder(before, allowX11))
    requires || FirstOfItsId(Listed(root.wayland, Wayland), d)
             || (allowX11 && d.id !in Ids(Listed(root.wayland, Wayland)) && FirstOfItsId(Listed(root.x11, X11), d))
    ensures d in Merge(AllUnder(before + [root] + after, allowX11))
  {
    hide Merge, AllUnder, Listed;
    var wayland, x11 := Listed(root.wayland, Wayland), if allowX11 then Listed(root.x11, X11) else [];
    var earlier, later := AllUnder(before, allowX11), AllUnder(after, allowX11);
    AllUnderAppend(before, [root] + after, allowX11);
    assert before + ([root] + after) == before + [root] + after;
    UnderCons(root, after, allowX11);
    if FirstOfItsId(wayland, d) {
      FirstStays(earlier, wayland, x11 + later, d);
      assert earlier + wayland + (x11 + later) == earlier + (wayland + x11 + later);
    } else {
      assert Ids(earlier + wayland) == Ids(earlier) + Ids(wayland);
      FirstStays(earlier + wayland, x11, later, d);
      assert earlier + wayland + x11 + later == earlier + (wayland + x11 + later);
    }
    MergeMeans(AllUnder(before + [root] + after, allowX11));
  }

  lemma UnderCons(root: Root, after: seq<Root>, allowX11: bool)
    ensures AllUnder([root] + after, allowX11) ==
            Listed(root.wayland, Wayland) + (if allowX11 then Listed(root.x11, X11) else []) + AllUnder(after, allowX11)
  {
    hide Listed;
    assert ([root] + after)[1..] == after;
  }

  lemma FirstStays(earlier: seq<Discovered>, here: seq<Discovered>, later: seq<Discovered>, d: Discovered)
    requires d.id !in Ids(earlier) && FirstOfItsId(here, d)
    ensures FirstOfItsId(earlier + here + later, d)
  {
    var k :| 0 <= k < |here| && here[k] == d && d.id !in Ids(here[..k]);
    var all := earlier + here + later;
    assert all[|earlier| + k] == d && all[..|earlier| + k] == earlier + here[..k];
  }
}
