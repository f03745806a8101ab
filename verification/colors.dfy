/** Eight-bit colours and their hexadecimal text. */
module Colors {
  import opened Protocol

  type Byte = n: nat | n < 0x100

  datatype Color = Color(r: Byte, g: Byte, b: Byte, a: Byte)

  function HexDigit(n: nat): char
    requires n < 16
  {
    if n < 10 then '0' + n as char else 'a' + (n - 10) as char
  }

  function DigitValue(c: char): Option<nat> {
    if '0' <= c <= '9' then Some((c - '0') as nat)
    else if 'a' <= c <= 'f' then Some(10 + (c - 'a') as nat)
    else if 'A' <= c <= 'F' then Some(10 + (c - 'A') as nat)
    else None
  }

  function ByteHex(n: Byte): string {
    [HexDigit(n / 16), HexDigit(n % 16)]
  }

  /** The byte written at `s[i..i + 2]`. A sign and one digit is also taken for a number. */
  function ByteAt(s: string, i: nat): (b: Option<Byte>)
    requires i + 2 <= |s|
  {
    var high, low := DigitValue(s[i]), DigitValue(s[i + 1]);
    if s[i] == '+' && low.Some? && low.value < 16 then Some(low.value)
    else if high.Some? && low.Some? && high.value < 16 && low.value < 16 then Some(16 * high.value + low.value)
    else None
  }

  function Parse(s: string): Option<Color> {
    if s == "" || s[0] != '#' || (|s| != 7 && |s| != 9) then None
    else
      var r, g, b, a := ByteAt(s, 1), ByteAt(s, 3), ByteAt(s, 5), if |s| == 9 then ByteAt(s, 7) else Some(0xff);
      if r.Some? && g.Some? && b.Some? && a.Some? then Some(Color(r.value, g.value, b.value, a.value)) else None
  }

  function ToHex(c: Color): string {
    "#" + ByteHex(c.r) + ByteHex(c.g) + ByteHex(c.b) + (if c.a == 0xff then "" else ByteHex(c.a))
  }

  predicate Lower(c: char) {
    '0' <= c <= '9' || 'a' <= c <= 'f'
  }

  /** The one spelling that is written: lower case digits, with the alpha left out if it is
      opaque. */
  predicate Canonical(s: string) {
    && (|s| == 7 || |s| == 9) && s[0] == '#'
    && (forall i :: 1 <= i < |s| ==> Lower(s[i]))
    && (|s| == 9 ==> s[7] != 'f' || s[8] != 'f')
  }

  /** A digit in either case, by its place in the row of digits. */
  lemma DigitIs(c: char, n: nat)
    ensures DigitValue(c) == Some(n) <==> n < 16 && (c == "0123456789abcdef"[n] || c == "0123456789ABCDEF"[n])
  {
  }

  /** Exactly these two-character texts are taken for a byte: two digits, or a plus sign and
      one. */
  lemma ByteIs(s: string, i: nat, n: Byte)
    requires i + 2 <= |s|
    ensures ByteAt(s, i) == Some(n) <==>
            || (DigitValue(s[i]) == Some(n / 16) && DigitValue(s[i + 1]) == Some(n % 16))
            || (s[i] == '+' && DigitValue(s[i + 1]) == Some(n))
  {
  }

  /** Exactly these texts are taken for a colour. */
  lemma ParseIs(s: string, c: Color)
    ensures Parse(s) == Some(c) <==>
            && (|s| == 7 || |s| == 9) && s[0] == '#'
            && ByteAt(s, 1) == Some(c.r) && ByteAt(s, 3) == Some(c.g) && ByteAt(s, 5) == Some(c.b)
            && if |s| == 9 then ByteAt(s, 7) == Some(c.a) else c.a == 255
  {
  }

  lemma ByteReadsBack(n: Byte, s: string, i: nat)
    requires i + 2 <= |s| && s[i] == ByteHex(n)[0] && s[i + 1] == ByteHex(n)[1]
    ensures ByteAt(s, i) == Some(n) && Lower(s[i]) && Lower(s[i + 1])
    ensures s[i] == 'f' && s[i + 1] == 'f' <==> n == 0xff
  {
  }

  lemma DigitWritesBack(c: char)
    requires Lower(c)
    ensures DigitValue(c).Some? && DigitValue(c).value < 16 && HexDigit(DigitValue(c).value) == c && c != '+'
    ensures DigitValue(c).value == 15 <==> c == 'f'
  {
  }

  lemma ByteWritesBack(s: string, i: nat)
    requires i + 2 <= |s| && Lower(s[i]) && Lower(s[i + 1])
    ensures ByteAt(s, i).Some? && ByteHex(ByteAt(s, i).value) == s[i..i + 2]
    ensures ByteAt(s, i) == Some(0xff) <==> s[i] == 'f' && s[i + 1] == 'f'
  {
    hide Lower, DigitValue, HexDigit;
    DigitWritesBack(s[i]);
    DigitWritesBack(s[i + 1]);
    assert s[i..i + 2] == [s[i], s[i + 1]];
  }

  /** Writing a colour and parsing the text gives the colour back, alpha included, and the
      text is canonical. */
  lemma HexReadsBack(c: Color)
    ensures Parse(ToHex(c)) == Some(c) && Canonical(ToHex(c))
  {
    hide ByteHex, ByteAt;
    var s := ToHex(c);
    assert |ByteHex(c.r)| == |ByteHex(c.g)| == |ByteHex(c.b)| == |ByteHex(c.a)| == 2 by { BytesAreTwo(c); }
    ByteReadsBack(c.r, s, 1);
    ByteReadsBack(c.g, s, 3);
    ByteReadsBack(c.b, s, 5);
    if c.a != 0xff {
      ByteReadsBack(c.a, s, 7);
    }
  }

  lemma BytesAreTwo(c: Color)
    ensures |ByteHex(c.r)| == |ByteHex(c.g)| == |ByteHex(c.b)| == |ByteHex(c.a)| == 2
  {
  }

  /** A text that parses is written back unchanged exactly if it is canonical: upper case, a
      sign, and a spelled-out opaque alpha are normalized away. */
  lemma WritesBackIff(s: string)
    ensures Canonical(s) <==> Parse(s).Some? && ToHex(Parse(s).value) == s
  {
    if Canonical(s) {
      CanonicalWritesBack(s);
    } else if Parse(s).Some? {
      HexReadsBack(Parse(s).value);
    }
  }

  lemma CanonicalWritesBack(s: string)
    requires Canonical(s)
    ensures Parse(s).Some? && ToHex(Parse(s).value) == s
  {
    hide ByteHex, ByteAt, Lower;
    ByteWritesBack(s, 1);
    ByteWritesBack(s, 3);
    ByteWritesBack(s, 5);
    assert s[..1] == "#";
    var front := s[..1] + s[1..3] + s[3..5] + s[5..7];
    if |s| == 9 {
      ByteWritesBack(s, 7);
      assert s == front + s[7..9];
    } else {
      assert s == front;
    }
  }
}
