/** Reading one `.desktop` file: its first `[Desktop Entry]` group as key and value pairs. */
module DesktopEntry {
  import opened Protocol
  import opened Text

  const HEADER: string := "[Desktop Entry]"

  /** The text cut at each line feed. A carriage return before one, and the empty line after
      the last, are of no account here: every line is trimmed, and empty ones are skipped. */
  function Lines(text: string): (lines: seq<string>)
    ensures lines != []
  {
    if text == "" then [""]
    else
      var later := Lines(text[1..]);
      if text[0] == '\n' then [""] + later else [[text[0]] + later[0]] + later[1..]
  }

  datatype Field = Field(key: string, value: string)

  predicate Skipped(line: string) {
    line == "" || line[0] == '#'
  }

  predicate IsHeader(line: string) {
    line != "" && line[0] == '['
  }

  /** What one line inside the group contributes: nothing without an equals sign, and nothing
      for a localized key. */
  function FieldOf(line: string): seq<Field> {
    var eq := IndexOf(line, '=');
    if eq == |line| then []
    else
      var key := Trim(line[..eq]);
      if '[' in key then [] else [Field(key, Trim(line[eq + 1..]))]
  }

  /** The lines of the first group headed `[Desktop Entry]`: after its header, up to the next
      header of any kind. */
  function FirstGroup(lines: seq<string>): seq<string> {
    if lines == [] then []
    else if Trim(lines[0]) == HEADER then UpToHeader(lines[1..])
    else FirstGroup(lines[1..])
  }

  function UpToHeader(lines: seq<string>): seq<string> {
    if lines == [] || IsHeader(Trim(lines[0])) then []
    else [Trim(lines[0])] + UpToHeader(lines[1..])
  }

  /** The fields those lines hold, in order. */
  function FieldsOf(lines: seq<string>): seq<Field> {
    if lines == [] then []
    else (if Skipped(lines[0]) then [] else FieldOf(lines[0])) + FieldsOf(lines[1..])
  }

  /** The group flag of the parsing loop picks out exactly the first group. */
  method ParseLines(lines: seq<string>) returns (fields: seq<Field>)
    ensures fields == FieldsOf(FirstGroup(lines))
  {
    hide Trim, FieldOf;
    fields := [];
    var inGroup, i := false, 0;
    assert lines[0..] == lines;
    while i < |lines|
      invariant i <= |lines|
      invariant !inGroup ==> fields == [] && FirstGroup(lines) == FirstGroup(lines[i..])
      invariant inGroup ==> FieldsOf(FirstGroup(lines)) == fields + FieldsOf(UpToHeader(lines[i..]))
    {
      var line := Trim(lines[i]);
      assert lines[i..][1..] == lines[i + 1..];
      i := i + 1;
      if line == "" || line[0] == '#' {
        assert !IsHeader(line) && line != HEADER;
        continue;
      }
      if line[0] == '[' {
        if inGroup {
          return;
        }
        inGroup := line == HEADER;
        continue;
      }
      if inGroup {
        fields := fields + FieldOf(line);
      }
    }
  }

  method ParseEntryText(text: string) returns (fields: seq<Field>)
    ensures fields == FieldsOf(FirstGroup(Lines(text)))
  {
    fields := ParseLines(Lines(text));
  }

  /** The first value for a key. */
  function Value(fields: seq<Field>, key: string): Option<string> {
    if fields == [] then None
    else if fields[0].key == key then Some(fields[0].value)
    else Value(fields[1..], key)
  }

  lemma {:induction false} UpToHeaderStops(lines: seq<string>, header: string, more: seq<string>)
    requires IsHeader(Trim(header))
    ensures UpToHeader(lines + [header] + more) == UpToHeader(lines)
  {
    if lines == [] {
      assert (lines + [header] + more)[0] == header;
    } else {
      assert (lines + [header] + more)[1..] == lines[1..] + [header] + more;
      UpToHeaderStops(lines[1..], header, more);
    }
  }

  predicate HasHeader(lines: seq<string>) {
    exists i :: 0 <= i < |lines| && Trim(lines[i]) == HEADER
  }

  /** Once the first group has begun, nothing after the next header changes a parse. */
  lemma {:induction false} LaterGroupsIgnored(lines: seq<string>, header: string, more: seq<string>)
    requires HasHeader(lines) && IsHeader(Trim(header))
    ensures FirstGroup(lines + [header] + more) == FirstGroup(lines)
  {
    var all := lines + [header] + more;
    assert all[1..] == lines[1..] + [header] + more;
    if Trim(lines[0]) == HEADER {
      UpToHeaderStops(lines[1..], header, more);
    } else {
      var i :| 0 <= i < |lines| && Trim(lines[i]) == HEADER;
      assert Trim(lines[1..][i - 1]) == HEADER;
      LaterGroupsIgnored(lines[1..], header, more);
    }
  }

  /** Cutting into lines distributes over a line feed. */
  lemma {:induction false} LinesAppend(text: string, more: string)
    ensures Lines(text + "\n" + more) == Lines(text) + Lines(more)
  {
    var all := text + "\n" + more;
    if text == "" {
      assert all == "\n" + more && all[1..] == more;
    } else {
      assert all[0] == text[0] && all[1..] == text[1..] + "\n" + more;
      LinesAppend(text[1..], more);
    }
  }

  lemma {:induction false} OneLine(line: string)
    requires '\n' !in line
    ensures Lines(line) == [line]
  {
    if line != "" {
      OneLine(line[1..]);
      assert [line[0]] + line[1..] == line;
    }
  }

  /** In terms of the file: once it holds the header, everything from the next group on is
      without effect, whatever the text. */
  lemma TextAfterGroupIgnored(text: string, header: string, more: string)
    requires HasHeader(Lines(text)) && IsHeader(Trim(header)) && '\n' !in header
    ensures FirstGroup(Lines(text + "\n" + (header + "\n" + more))) == FirstGroup(Lines(text))
  {
    hide FirstGroup, Trim, HasHeader, IsHeader, Lines;
    var lines, later := Lines(text), Lines(more);
    LinesAppend(text, header + "\n" + more);
    LinesAppend(header, more);
    OneLine(header);
    assert lines + ([header] + later) == lines + [header] + later;
    LaterGroupsIgnored(lines, header, later);
  }

  /** A localized key is never seen, whatever the file. */
  lemma {:induction false} LocalizedKeysUnseen(lines: seq<string>, key: string)
    requires '[' in key
    ensures Value(FieldsOf(lines), key) == None
  {
    if lines != [] {
      LocalizedKeysUnseen(lines[1..], key);
      var here, later := if Skipped(lines[0]) then [] else FieldOf(lines[0]), FieldsOf(lines[1..]);
      if here != [] {
        assert (here + later)[1..] == later;
      } else {
        assert here + later == later;
      }
    }
  }

  // ---------- what a file says of a key ----------

  /** A line of a group that gives the key this value: an unlocalized key, then the first equals
      sign, then the value, white space around either being of no account. */
  predicate Gives(line: string, key: string, value: string) {
    var t := Trim(line);
    && t != "" && t[0] != '#' && '[' !in key
    && exists eq :: 0 <= eq < |t| && t[eq] == '=' && '=' !in t[..eq]
                    && Trim(t[..eq]) == key && Trim(t[eq + 1..]) == value
  }

  predicate Opens(line: string) {
    Trim(line) != "" && Trim(line)[0] == '['
  }

  ghost predicate GivesAny(line: string, key: string) {
    exists value :: Gives(line, key, value)
  }

  /** The line `i` gives the key its value, and no line after `h` and before it gives it one, or
      opens another group. */
  ghost predicate GivenAfter(lines: seq<string>, h: int, i: int, key: string, value: string)
    requires -1 <= h
  {
    && h < i < |lines| && !Opens(lines[i]) && Gives(lines[i], key, value)
    && forall j :: h < j < i ==> !Opens(lines[j]) && !GivesAny(lines[j], key)
  }

  predicate HeadsFirst(lines: seq<string>, h: int) {
    && 0 <= h < |lines| && Trim(lines[h]) == "[Desktop Entry]"
    && forall j :: 0 <= j < h ==> Trim(lines[j]) != "[Desktop Entry]"
  }

  /** The file's first group headed `[Desktop Entry]` gives the key this value. */
  ghost predicate SetTo(lines: seq<string>, key: string, value: string) {
    exists h, i :: HeadsFirst(lines, h) && GivenAfter(lines, h, i, key, value)
  }

  lemma GivesIff(line: string, key: string, value: string)
    requires !Opens(line)
    ensures Gives(line, key, value) <==> !Skipped(Trim(line)) && FieldOf(Trim(line)) == [Field(key, value)]
  {
    var t := Trim(line);
    if Gives(line, key, value) {
      var eq :| 0 <= eq < |t| && t[eq] == '=' && '=' !in t[..eq] && Trim(t[..eq]) == key && Trim(t[eq + 1..]) == value;
      FirstAt(t, '=', eq);
    }
  }

  lemma Shifted(lines: seq<string>, k: nat, i: int, key: string, value: string)
    requires k <= |lines|
    ensures GivenAfter(lines[k..], -1, i, key, value) <==> GivenAfter(lines, k - 1, i + k, key, value)
  {
    hide Opens, Gives, GivesAny;
    assert forall j :: 0 <= j < |lines| - k ==> lines[k..][j] == lines[j + k];
    assert forall j :: k <= j < |lines| ==> lines[j] == lines[k..][j - k];
  }

  /** The same with one line more in front. */
  lemma GivenLater(lines: seq<string>, key: string, value: string)
    requires lines != []
    ensures (exists i :: GivenAfter(lines, -1, i, key, value)) <==>
              && !Opens(lines[0])
              && (Gives(lines[0], key, value) ||
                  (!GivesAny(lines[0], key) && exists i :: GivenAfter(lines[1..], -1, i, key, value)))
  {
    hide Opens, Gives;
    assert Gives(lines[0], key, value) ==> GivesAny(lines[0], key);
    if i :| GivenAfter(lines, -1, i, key, value) {
      if i > 0 {
        Shifted(lines, 1, i - 1, key, value);
        assert GivenAfter(lines[1..], -1, i - 1, key, value);
      }
    }
    if !Opens(lines[0]) {
      if Gives(lines[0], key, value) {
        assert GivenAfter(lines, -1, 0, key, value);
      } else if i :| !GivesAny(lines[0], key) && GivenAfter(lines[1..], -1, i, key, value) {
        Shifted(lines, 1, i, key, value);
        assert GivenAfter(lines, -1, i + 1, key, value);
      }
    }
  }

  lemma ValueCons(line: string, more: seq<string>, key: string)
    ensures var here := if Skipped(line) then [] else FieldOf(line);
            Value(FieldsOf([line] + more), key) ==
            if here != [] && here[0].key == key then Some(here[0].value) else Value(FieldsOf(more), key)
  {
    var here := if Skipped(line) then [] else FieldOf(line);
    assert ([line] + more)[1..] == more;
    assert here == [] ==> here + FieldsOf(more) == FieldsOf(more);
    assert here != [] ==> (here + FieldsOf(more))[1..] == FieldsOf(more);
  }

  lemma {:induction false} GroupGives(lines: seq<string>, key: string, value: string)
    ensures Value(FieldsOf(UpToHeader(lines)), key) == Some(value) <==>
            exists i :: GivenAfter(lines, -1, i, key, value)
  {
    if lines != [] {
      GivenLater(lines, key, value);
      GroupGives(lines[1..], key, value);
      if !Opens(lines[0]) {
        LineGives(lines[0], key, value);
        hide Gives, GivesAny, Trim, FieldOf, GivenAfter, Opens;
        ValueCons(Trim(lines[0]), UpToHeader(lines[1..]), key);
      }
    }
  }

  lemma LineGives(line: string, key: string, value: string)
    requires !Opens(line)
    ensures var t := Trim(line);
            var here := if Skipped(t) then [] else FieldOf(t);
            && (GivesAny(line, key) <==> here != [] && here[0].key == key)
            && (Gives(line, key, value) <==> here != [] && here[0].key == key && here[0].value == value)
  {
    GivesIff(line, key, value);
    var t := Trim(line);
    if !Skipped(t) && FieldOf(t) != [] && FieldOf(t)[0].key == key {
      GivesIff(line, key, FieldOf(t)[0].value);
    } else if other :| Gives(line, key, other) {
      GivesIff(line, key, other);
    }
  }

  lemma {:induction false} GroupAt(lines: seq<string>, h: int)
    requires HeadsFirst(lines, h)
    ensures FirstGroup(lines) == UpToHeader(lines[h + 1..])
  {
    hide Trim;
    if h > 0 {
      assert lines[1..][h - 1] == lines[h] && lines[1..][h..] == lines[h + 1..];
      assert forall j :: 0 <= j < h - 1 ==> lines[1..][j] == lines[j + 1];
      GroupAt(lines[1..], h - 1);
    }
  }

  lemma {:induction false} HeadOrNone(lines: seq<string>)
    ensures FirstGroup(lines) == [] || exists h :: HeadsFirst(lines, h)
  {
    hide Trim;
    if lines != [] {
      if Trim(lines[0]) == HEADER {
        assert HeadsFirst(lines, 0);
      } else {
        HeadOrNone(lines[1..]);
        if h :| HeadsFirst(lines[1..], h) {
          assert forall j :: 1 <= j < |lines| ==> lines[j] == lines[1..][j - 1];
          assert HeadsFirst(lines, h + 1);
        }
      }
    }
  }

  /** What the parse makes of a key is what the file's first group gives it, found line by
      line. */
  lemma ValueIs(lines: seq<string>, key: string, value: string)
    ensures Value(FieldsOf(FirstGroup(lines)), key) == Some(value) <==> SetTo(lines, key, value)
  {
    hide Trim, FieldsOf, Value, GivenAfter, UpToHeader;
    HeadOrNone(lines);
    if h :| HeadsFirst(lines, h) {
      var group := lines[h + 1..];
      GroupAt(lines, h);
      GroupGives(group, key, value);
      forall i
        ensures GivenAfter(group, -1, i - h - 1, key, value) <==> GivenAfter(lines, h, i, key, value)
      {
        Shifted(lines, h + 1, i - h - 1, key, value);
      }
      if i :| GivenAfter(group, -1, i, key, value) {
        Shifted(lines, h + 1, i, key, value);
        assert GivenAfter(lines, h, i + h + 1, key, value);
      }
      if SetTo(lines, key, value) {
        var g, i :| HeadsFirst(lines, g) && GivenAfter(lines, g, i, key, value);
        assert g == h;
      }
    } else {
      NothingSet(key);
    }
  }

  lemma NothingSet(key: string)
    ensures Value(FieldsOf([]), key) == None
  {
  }
}
