/** Texts in a saved theme file: printed in Rust's debug format, and read as basic strings of
    TOML. */
module TomlText {
  import opened Protocol
  import opened Colors

  /** What is known of the characters the debug format prints as they are: of ASCII exactly the
      visible ones and the space. Of the others it is those that are printable and do not
      combine with the one before. */
  ghost predicate PrintsAscii(plain: char -> bool) {
    forall c: char :: (' ' <= c <= '~' ==> plain(c)) && (c < ' ' || c == '\U{7F}' ==> !plain(c))
  }

  function Hex(n: nat): string {
    (if n < 16 then "" else Hex(n / 16)) + [HexDigit(n % 16)]
  }

  function Printed(plain: char -> bool, c: char): string {
    if c == '\0' then "\\0"
    else if c == '\t' then "\\t"
    else if c == '\r' then "\\r"
    else if c == '\n' then "\\n"
    else if c == '\"' then "\\\""
    else if c == '\\' then "\\\\"
    else if plain(c) then [c]
    else "\\u{" + Hex(c as int) + "}"
  }

  function PrintedAll(plain: char -> bool, s: string): string {
    if s == "" then "" else Printed(plain, s[0]) + PrintedAll(plain, s[1..])
  }

  function Quoted(plain: char -> bool, s: string): string {
    "\"" + PrintedAll(plain, s) + "\""
  }

  /** The number written with these hexadecimal digits. */
  function Number(digits: string): Option<nat> {
    if digits == "" then Some(0)
    else
      var front, last := Number(digits[..|digits| - 1]), DigitValue(digits[|digits| - 1]);
      if front.None? || last.None? then None else Some(16 * front.value + last.value)
  }

  /** The character with this code, if there is one. */
  function Scalar(n: nat): Option<char> {
    if n < 0xD800 || 0xE000 <= n < 0x11_0000 then Some(n as char) else None
  }

  /** The escapes of a basic string: a letter, or a code of four or eight digits. Yields the
      character and how much of the text it took. */
  function Escape(t: string): Option<(char, nat)>
    ensures Escape(t).Some? ==> 0 < Escape(t).value.1 <= |t|
  {
    if t == "" then None
    else if t[0] == 'b' then Some(('\U{8}', 1))
    else if t[0] == 't' then Some(('\t', 1))
    else if t[0] == 'n' then Some(('\n', 1))
    else if t[0] == 'f' then Some(('\U{C}', 1))
    else if t[0] == 'r' then Some(('\r', 1))
    else if t[0] == '\"' then Some(('\"', 1))
    else if t[0] == '\\' then Some(('\\', 1))
    else if t[0] == 'u' && |t| >= 5 then Coded(t[1..5], 5)
    else if t[0] == 'U' && |t| >= 9 then Coded(t[1..9], 9)
    else None
  }

  function Coded(digits: string, taken: nat): Option<(char, nat)>
    ensures Coded(digits, taken).Some? ==> Coded(digits, taken).value.1 == taken
  {
    var n := Number(digits);
    var c := if n.None? then None else Scalar(n.value);
    if c.None? then None else Some((c.value, taken))
  }

  /** Control characters must be escaped, the tab aside. */
  predicate Raw(c: char) {
    (c >= ' ' || c == '\t') && c != '\U{7F}'
  }

  /** The rest of a basic string from here on, and what follows it. */
  function Body(t: string): Option<(string, string)>
    decreases |t|
  {
    if t == "" then None
    else if t[0] == '\"' then Some(("", t[1..]))
    else if t[0] == '\\' then
      var e := Escape(t[1..]);
      if e.None? then None else Put(e.value.0, Body(t[1 + e.value.1..]))
    else if Raw(t[0]) then Put(t[0], Body(t[1..]))
    else None
  }

  function Put(c: char, rest: Option<(string, string)>): Option<(string, string)> {
    if rest.None? then None else Some(([c] + rest.value.0, rest.value.1))
  }

  /** A basic string at the front of a text. Three quotes open another kind, which is never
      written. */
  function ReadString(t: string): Option<(string, string)> {
    if |t| < 2 || t[0] != '\"' || (|t| >= 3 && t[1] == '\"' && t[2] == '\"') then None else Body(t[1..])
  }

  /** The characters that survive: those printed as they are, and those whose escape the two
      formats share. */
  predicate Survives(plain: char -> bool, c: char) {
    c == '\t' || c == '\r' || c == '\n' || plain(c)
  }

  lemma OneReadsBack(plain: char -> bool, c: char, more: string)
    requires PrintsAscii(plain)
    ensures Body(Printed(plain, c) + more) == if Survives(plain, c) then Put(c, Body(more)) else None
  {
    var t := Printed(plain, c) + more;
    if c == '\t' || c == '\r' || c == '\n' || c == '\"' || c == '\\' {
      assert t[1..][0] == t[1] && t[2..] == more;
    } else if c != '\0' && plain(c) {
      assert t[1..] == more;
    } else if c == '\0' {
      assert t[1..][0] == '0';
    } else {
      assert t[1..][0] == 'u' && t[1..][1] == '{';
      if |t[1..]| >= 5 {
        NoNumber(t[1..][1..5]);
      }
    }
  }

  lemma {:induction false} NoNumber(digits: string)
    requires digits != "" && digits[0] == '{'
    ensures Number(digits) == None
  {
    if |digits| > 1 {
      NoNumber(digits[..|digits| - 1]);
    }
  }

  lemma {:induction false} BodyReadsBack(plain: char -> bool, s: string, rest: string)
    requires PrintsAscii(plain)
    ensures Body(PrintedAll(plain, s) + "\"" + rest) ==
            if forall c :: c in s ==> Survives(plain, c) then Some((s, rest)) else None
  {
    hide Printed, Survives, PrintsAscii;
    if s == "" {
      assert (PrintedAll(plain, s) + "\"" + rest)[1..] == rest;
    } else {
      var more := PrintedAll(plain, s[1..]) + "\"" + rest;
      assert PrintedAll(plain, s) + "\"" + rest == Printed(plain, s[0]) + more;
      hide Body, PrintedAll;
      OneReadsBack(plain, s[0], more);
      BodyReadsBack(plain, s[1..], rest);
      assert s == [s[0]] + s[1..];
      assert (forall c :: c in s ==> Survives(plain, c)) <==>
             Survives(plain, s[0]) && forall c :: c in s[1..] ==> Survives(plain, c);
    }
  }

  /** A text that is saved is read back, exactly if all its characters survive: a single one
      that does not makes the file unreadable. */
  lemma TextReadsBackIff(plain: char -> bool, s: string, rest: string)
    requires PrintsAscii(plain) && (rest == "" || rest[0] != '\"')
    ensures ReadString(Quoted(plain, s) + rest) ==
            if forall c :: c in s ==> Survives(plain, c) then Some((s, rest)) else None
  {
    var t := Quoted(plain, s) + rest;
    assert t[1..] == PrintedAll(plain, s) + "\"" + rest;
    BodyReadsBack(plain, s, rest);
    if s != "" {
      NoQuoteFirst(plain, s[0]);
      assert t[1] == Printed(plain, s[0])[0];
    }
  }

  lemma NoQuoteFirst(plain: char -> bool, c: char)
    ensures Printed(plain, c) != "" && Printed(plain, c)[0] != '\"'
  {
  }

  /** So a null character, and a combining one, are saved but not read. */
  lemma ANullIsRefused(plain: char -> bool)
    requires PrintsAscii(plain)
    ensures ReadString(Quoted(plain, "\0") + "\n") == None
  {
    TextReadsBackIff(plain, "\0", "\n");
    assert "\0"[0] == '\0' && '\0' in "\0" && !Survives(plain, '\0');
  }

  // ---------- the escapes of either format ----------

  /** The debug format's code of a character is its number, in hexadecimal. */
  lemma {:induction false} HexReadsBack(n: nat)
    ensures Number(Hex(n)) == Some(n) && Hex(n) != "" && (n > 0 ==> Hex(n)[0] != '0')
    ensures forall k :: 0 <= k < |Hex(n)| ==> Hex(n)[k] in "0123456789abcdef"
  {
    hide HexDigit, DigitValue, Number;
    var d := HexDigit(n % 16);
    LastDigit(n % 16);
    if n < 16 {
      assert Hex(n) == "" + [d];
      EmptyNumber();
      NumberSnoc("", d);
    } else {
      HexReadsBack(n / 16);
      assert Hex(n) == Hex(n / 16) + [d];
      NumberSnoc(Hex(n / 16), d);
    }
  }

  lemma EmptyNumber()
    ensures Number("") == Some(0)
  {
  }

  lemma NumberSnoc(front: string, c: char)
    requires Number(front).Some? && DigitValue(c).Some?
    ensures Number(front + [c]) == Some(16 * Number(front).value + DigitValue(c).value)
  {
    hide DigitValue;
    assert (front + [c])[..|front|] == front;
  }

  lemma LastDigit(n: nat)
    requires n < 16
    ensures HexDigit(n) == "0123456789abcdef"[n] && DigitValue(HexDigit(n)) == Some(n)
    ensures n > 0 ==> HexDigit(n) != '0'
  {
  }

  /** What is not printed as it is and has no letter of its own is printed by its code, which names
      it. */
  lemma CodeNames(plain: char -> bool, c: char)
    requires !plain(c) && c !in "\0\t\r\n\"\\"
    ensures Printed(plain, c) == "\\u{" + Hex(c as int) + "}"
    ensures Number(Hex(c as int)) == Some(c as int) && Scalar(c as int) == Some(c)
  {
    HexReadsBack(c as int);
  }

  /** Of the codes, exactly those outside the surrogates and below 1114112 are characters. */
  lemma ScalarIs(n: nat)
    ensures Scalar(n).Some? <==> (n < 55296 || n > 57343) && n < 1114112
    ensures Scalar(n).Some? ==> Scalar(n).value as int == n
  {
  }

  /** What a backslash followed by a letter stands for in TOML: seven letters stand for one
      character each, two for the code that follows, and no other letter for anything. */
  lemma EscapeMeans(c: char, rest: string)
    ensures var e := Escape([c] + rest);
            if exists k :: 0 <= k < 7 && c == "btnfr\"\\"[k] then
              exists k :: 0 <= k < 7 && c == "btnfr\"\\"[k] && e == Some(("\U{8}\t\n\U{C}\r\"\\"[k], 1))
            else if c == 'u' && |rest| >= 4 then
              var n := Number(rest[..4]);
              e == if n.None? || Scalar(n.value).None? then None else Some((Scalar(n.value).value, 5))
            else if c == 'U' && |rest| >= 8 then
              var n := Number(rest[..8]);
              e == if n.None? || Scalar(n.value).None? then None else Some((Scalar(n.value).value, 9))
            else e == None
  {
    hide Number, Scalar;
    var t := [c] + rest;
    assert |rest| >= 4 ==> t[1..5] == rest[..4];
    assert |rest| >= 8 ==> t[1..9] == rest[..8];
    var letters, stand := "btnfr\"\\", "\U{8}\t\n\U{C}\r\"\\";
    assert letters[0] == 'b' && letters[1] == 't' && letters[2] == 'n' && letters[3] == 'f' && letters[4] == 'r';
    assert letters[5] == '\"' && letters[6] == '\\';
    assert stand[0] == '\U{8}' && stand[1] == '\t' && stand[2] == '\n' && stand[3] == '\U{C}' && stand[4] == '\r';
  }
}
