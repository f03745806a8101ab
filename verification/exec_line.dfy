/** The command line of a session entry, split into arguments. */
module ExecLine {
  import opened Text

  /** The characters a backslash escapes inside double quotes. */
  predicate Reserved(c: char) {
    c == '"' || c == '`' || c == '$' || c == '\\'
  }

  /** A finished token becomes an argument unless it is empty. */
  function Pushed(token: string): seq<string> {
    if token == "" then [] else [token]
  }

  /** What is still to be read as `s`, inside quotes or not, with `token` begun: the arguments
      it yields. */
  function Scan(s: string, quoted: bool, token: string): seq<string>
    decreases |s|
  {
    if s == "" then Pushed(token)
    else if quoted then
      if s[0] == '"' then Scan(s[1..], false, token)
      else if s[0] == '\\' && |s| > 1 && Reserved(s[1]) then Scan(s[2..], true, token + [s[1]])
      else Scan(s[1..], true, token + [s[0]])
    else if IsWhitespace(s[0]) then Pushed(token) + Scan(s[1..], false, "")
    else if s[0] == '"' then Scan(s[1..], true, token)
    else if s[0] == '%' then
      if |s| == 1 then Pushed(token)
      else Scan(s[2..], false, if s[1] == '%' then token + "%" else token)
    else Scan(s[1..], false, token + [s[0]])
  }

  /** One step of the reading, at a place in the line. */
  lemma ScanQuotedAt(exec: string, i: nat, token: string)
    requires i < |exec|
    ensures Scan(exec[i..], true, token) ==
            if exec[i] == '"' then Scan(exec[i + 1..], false, token)
            else if exec[i] == '\\' && i + 1 < |exec| && Reserved(exec[i + 1])
            then Scan(exec[i + 2..], true, token + [exec[i + 1]])
            else Scan(exec[i + 1..], true, token + [exec[i]])
  {
    assert exec[i..][1..] == exec[i + 1..] && (i + 1 < |exec| ==> exec[i..][2..] == exec[i + 2..]);
  }

  lemma ScanAt(exec: string, i: nat, token: string)
    requires i < |exec|
    ensures Scan(exec[i..], false, token) ==
            if IsWhitespace(exec[i]) then Pushed(token) + Scan(exec[i + 1..], false, "")
            else if exec[i] == '"' then Scan(exec[i + 1..], true, token)
            else if exec[i] == '%' then
              if i + 1 == |exec| then Pushed(token)
              else Scan(exec[i + 2..], false, if exec[i + 1] == '%' then token + "%" else token)
            else Scan(exec[i + 1..], false, token + [exec[i]])
  {
    assert exec[i..][1..] == exec[i + 1..] && (i + 1 < |exec| ==> exec[i..][2..] == exec[i + 2..]);
  }

  lemma ScanEnd(exec: string, token: string, quoted: bool)
    ensures exec[0..] == exec && Scan(exec[|exec|..], quoted, token) == Pushed(token) && Pushed("") == []
  {
  }

  /** Reads one double-quoted stretch, from just after its opening quote. */
  method ReadQuoted(exec: string, from: nat, begun: string) returns (i: nat, token: string)
    requires from <= |exec|
    ensures from <= i <= |exec|
    ensures Scan(exec[from..], true, begun) == Scan(exec[i..], false, token)
  {
    hide Scan;
    i, token := from, begun;
    while i < |exec|
      invariant from <= i <= |exec|
      invariant Scan(exec[from..], true, begun) == Scan(exec[i..], true, token)
    {
      var c := exec[i];
      ScanQuotedAt(exec, i, token);
      i := i + 1;
      if c == '"' {
        return;
      }
      if c == '\\' && i < |exec| && Reserved(exec[i]) {
        token := token + [exec[i]];
        i := i + 1;
      } else {
        token := token + [c];
      }
    }
    ScanEnd(exec, token, true);
    ScanEnd(exec, token, false);
  }

  /** The tokenizer loop computes `Scan`. The flag that a token has begun changes nothing: a
      token that is begun and empty is dropped all the same. */
  method TokenizeExec(exec: string) returns (argv: seq<string>)
    ensures argv == Scan(exec, false, "")
  {
    hide Scan, Pushed, IsWhitespace;
    argv := [];
    var token, haveToken, i := "", false, 0;
    ScanEnd(exec, "", false);
    while i < |exec|
      invariant i <= |exec|
      invariant !haveToken ==> token == ""
      invariant Scan(exec, false, "") == argv + Scan(exec[i..], false, token)
      decreases |exec| - i
    {
      var c := exec[i];
      ScanAt(exec, i, token);
      i := i + 1;
      if IsWhitespace(c) {
        if haveToken {
          argv := PushToken(argv, token);
          token, haveToken := "", false;
        }
      } else if c == '"' {
        haveToken := true;
        i, token := ReadQuoted(exec, i, token);
      } else if c == '%' {
        haveToken := true;
        if i < |exec| {
          if exec[i] == '%' {
            token := token + "%";
          }
          i := i + 1;
        } else {
          ScanEnd(exec, token, false);
        }
      } else {
        haveToken := true;
        token := token + [c];
      }
    }
    ScanEnd(exec, token, false);
    if haveToken {
      argv := PushToken(argv, token);
    }
  }

  method PushToken(argv: seq<string>, token: string) returns (pushed: seq<string>)
    ensures pushed == argv + Pushed(token)
  {
    pushed := argv;
    if token != "" {
      pushed := pushed + [token];
    }
  }

  /** All the characters of all the arguments. */
  function Total(argv: seq<string>): nat {
    if argv == [] then 0 else |argv[0]| + Total(argv[1..])
  }

  lemma {:induction false} TotalAppend(xs: seq<string>, ys: seq<string>)
    ensures Total(xs + ys) == Total(xs) + Total(ys)
  {
    if xs == [] {
      assert xs + ys == ys;
    } else {
      assert (xs + ys)[1..] == xs[1..] + ys;
      TotalAppend(xs[1..], ys);
    }
  }

  /** For every input: no argument is empty, and together they are no longer than the line. */
  lemma {:induction false} ScanShrinks(s: string, quoted: bool, token: string)
    ensures "" !in Scan(s, quoted, token)
    ensures Total(Scan(s, quoted, token)) <= |token| + |s|
    decreases |s|
  {
    assert Total(Pushed(token)) == |token|;
    if s == "" {
    } else if quoted {
      if s[0] == '"' {
        ScanShrinks(s[1..], false, token);
      } else if s[0] == '\\' && |s| > 1 && Reserved(s[1]) {
        ScanShrinks(s[2..], true, token + [s[1]]);
      } else {
        ScanShrinks(s[1..], true, token + [s[0]]);
      }
    } else if IsWhitespace(s[0]) {
      ScanShrinks(s[1..], false, "");
      TotalAppend(Pushed(token), Scan(s[1..], false, ""));
    } else if s[0] == '"' {
      ScanShrinks(s[1..], true, token);
    } else if s[0] == '%' {
      if |s| > 1 {
        ScanShrinks(s[2..], false, if s[1] == '%' then token + "%" else token);
      }
    } else {
      ScanShrinks(s[1..], false, token + [s[0]]);
    }
  }

  /** An argument as it may be written: quoted, with the reserved characters escaped, or bare,
      with each percent sign doubled. */
  datatype Form = Quoted | Bare

  function Escaped(arg: string): string {
    if arg == "" then ""
    else (if Reserved(arg[0]) then ['\\', arg[0]] else [arg[0]]) + Escaped(arg[1..])
  }

  function Doubled(arg: string): string {
    if arg == "" then ""
    else (if arg[0] == '%' then "%%" else [arg[0]]) + Doubled(arg[1..])
  }

  predicate Writable(arg: string, form: Form) {
    form.Bare? ==> forall i :: 0 <= i < |arg| ==> !IsWhitespace(arg[i]) && arg[i] != '"'
  }

  function Written(arg: string, form: Form): string {
    match form
    case Quoted => "\"" + Escaped(arg) + "\""
    case Bare => Doubled(arg)
  }

  /** The arguments written one after the other, each with its form and its white space before
      the next. */
  datatype Piece = Piece(arg: string, form: Form, gap: string)

  /** All but the last must be followed by some white space. */
  predicate WellSpaced(pieces: seq<Piece>) {
    forall i :: 0 <= i < |pieces| ==>
      && Writable(pieces[i].arg, pieces[i].form)
      && Blank(pieces[i].gap)
      && (i < |pieces| - 1 ==> pieces[i].gap != "")
  }

  predicate Blank(gap: string) {
    forall i :: 0 <= i < |gap| ==> IsWhitespace(gap[i])
  }

  function Line(pieces: seq<Piece>): string {
    if pieces == [] then "" else Written(pieces[0].arg, pieces[0].form) + pieces[0].gap + Line(pieces[1..])
  }

  function NonEmptyArgs(pieces: seq<Piece>): seq<string> {
    if pieces == [] then [] else Pushed(pieces[0].arg) + NonEmptyArgs(pieces[1..])
  }

  lemma {:induction false} ScanEscaped(arg: string, rest: string, token: string)
    ensures Scan(Escaped(arg) + "\"" + rest, true, token) == Scan(rest, false, token + arg)
  {
    var s := Escaped(arg) + "\"" + rest;
    if arg == "" {
      assert s == "\"" + rest && s[1..] == rest;
      assert token + arg == token;
    } else {
      ScanEscaped(arg[1..], rest, token + [arg[0]]);
      var tail := Escaped(arg[1..]) + "\"" + rest;
      assert token + [arg[0]] + arg[1..] == token + arg;
      if Reserved(arg[0]) {
        assert s == ['\\', arg[0]] + tail && s[2..] == tail;
      } else {
        assert s == [arg[0]] + tail && s[1..] == tail;
      }
    }
  }

  lemma {:induction false} ScanDoubled(arg: string, rest: string, token: string)
    requires Writable(arg, Bare)
    ensures Scan(Doubled(arg) + rest, false, token) == Scan(rest, false, token + arg)
  {
    var s := Doubled(arg) + rest;
    if arg == "" {
      assert s == rest && token + arg == token;
    } else {
      ScanDoubled(arg[1..], rest, token + [arg[0]]);
      var tail := Doubled(arg[1..]) + rest;
      assert token + [arg[0]] + arg[1..] == token + arg;
      if arg[0] == '%' {
        assert s == "%%" + tail && s[2..] == tail;
        assert token + "%" == token + [arg[0]];
      } else {
        assert s == [arg[0]] + tail && s[1..] == tail;
      }
    }
  }

  lemma {:induction false} ScanGap(gap: string, rest: string)
    requires Blank(gap)
    ensures Scan(gap + rest, false, "") == Scan(rest, false, "")
  {
    if gap == "" {
      assert gap + rest == rest;
    } else {
      assert (gap + rest)[1..] == gap[1..] + rest;
      ScanGap(gap[1..], rest);
    }
  }

  lemma PieceReadsBack(p: Piece, more: string)
    requires Writable(p.arg, p.form) && Blank(p.gap) && (p.gap != "" || more == "")
    ensures Scan(Written(p.arg, p.form) + p.gap + more, false, "") == Pushed(p.arg) + Scan(more, false, "")
  {
    hide Scan, Escaped, Doubled;
    var rest := p.gap + more;
    var s := Written(p.arg, p.form) + p.gap + more;
    assert Scan(s, false, "") == Scan(rest, false, p.arg) by {
      assert "" + p.arg == p.arg;
      match p.form {
        case Quoted =>
          ScanEscaped(p.arg, rest, "");
          assert s == "\"" + (Escaped(p.arg) + "\"" + rest);
          ScanOpens(Escaped(p.arg) + "\"" + rest);
        case Bare =>
          ScanDoubled(p.arg, rest, "");
          assert s == Doubled(p.arg) + rest;
      }
    }
    ScanBreaks(p.gap, more, p.arg);
  }

  lemma ScanOpens(rest: string)
    ensures Scan("\"" + rest, false, "") == Scan(rest, true, "")
  {
    assert ("\"" + rest)[1..] == rest;
  }

  /** White space, or the end of the line, ends an argument. */
  lemma ScanBreaks(gap: string, more: string, token: string)
    requires Blank(gap) && (gap != "" || more == "")
    ensures Scan(gap + more, false, token) == Pushed(token) + Scan(more, false, "")
  {
    if gap != "" {
      assert (gap + more)[1..] == gap[1..] + more;
      ScanGap(gap[1..], more);
    } else {
      assert gap + more == "" && Pushed(token) + [] == Pushed(token);
    }
  }

  /** Print, then tokenize: whichever way each argument is written and however they are
      spaced, exactly the non-empty arguments come back, in order. */
  lemma {:induction false} PrintedLineReadsBack(pieces: seq<Piece>)
    requires WellSpaced(pieces)
    ensures Scan(Line(pieces), false, "") == NonEmptyArgs(pieces)
  {
    if pieces != [] {
      PrintedLineReadsBack(pieces[1..]);
      PieceReadsBack(pieces[0], Line(pieces[1..]));
    }
  }

  function Args(pieces: seq<Piece>): seq<string> {
    if pieces == [] then [] else [pieces[0].arg] + Args(pieces[1..])
  }

  /** So the line reads back as what was printed exactly if no argument is empty. */
  lemma {:induction false} RoundTripIff(pieces: seq<Piece>)
    requires WellSpaced(pieces)
    ensures Scan(Line(pieces), false, "") == Args(pieces) <==> "" !in Args(pieces)
  {
    PrintedLineReadsBack(pieces);
    KeptAllIff(pieces);
  }

  lemma {:induction false} KeptAllIff(pieces: seq<Piece>)
    ensures |NonEmptyArgs(pieces)| <= |Args(pieces)|
    ensures NonEmptyArgs(pieces) == Args(pieces) <==> "" !in Args(pieces)
  {
    if pieces != [] {
      KeptAllIff(pieces[1..]);
      if pieces[0].arg != "" {
        assert NonEmptyArgs(pieces)[1..] == NonEmptyArgs(pieces[1..]);
        assert Args(pieces)[1..] == Args(pieces[1..]);
      }
    }
  }

  lemma PercentSpaceGlues()
    ensures Scan("a% b", false, "") == ["ab"]
  {
    assert "a% b"[1..] == ['%', ' '] + "b";
    FieldCodeVanishes(' ', "b", "a");
    assert "" + "a" == "a" && "a" + "b" == "ab" && "b"[1..] == "";
  }

  /** A field code leaves nothing behind. What follows the percent sign goes with it, white
      space too: a sign before a space glues two arguments together. */
  lemma FieldCodeVanishes(code: char, rest: string, token: string)
    requires code != '%'
    ensures Scan(['%', code] + rest, false, token) == Scan(rest, false, token)
  {
    assert (['%', code] + rest)[2..] == rest;
  }

  /** Inside quotes a backslash takes away the meaning of exactly four characters, and stands for
      itself before every other. */
  lemma BackslashQuotesFour(c: char, rest: string, token: string)
    ensures Scan(['\\', c] + rest, true, token) ==
            if c in "\"`$\\" then Scan(rest, true, token + [c]) else Scan([c] + rest, true, token + ['\\'])
  {
    var s := ['\\', c] + rest;
    assert s[1..] == [c] + rest && s[2..] == rest;
  }

  /** A quote that is never closed takes in the rest of the line, and a percent sign at the very
      end of it is dropped. */
  lemma {:induction false} LineEnds(rest: string, token: string)
    requires forall c :: c in rest ==> c != '"' && c != '\\'
    ensures Scan(rest, true, token) == if token + rest == "" then [] else [token + rest]
    ensures Scan("%", false, token) == if token == "" then [] else [token]
    decreases |rest|
  {
    if rest != "" {
      assert rest[0] in rest && forall c :: c in rest[1..] ==> c in rest;
      LineEnds(rest[1..], token + [rest[0]]);
      assert token + [rest[0]] + rest[1..] == token + rest;
    } else {
      assert token + rest == token;
    }
  }
}
