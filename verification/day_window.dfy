/** The hours of the day variant, as text and in minutes. */
module DayWindow {
  import opened Protocol
  import opened Text

  const MINUTES_PER_DAY: nat := 1440
  const DAY_STARTS: nat := 420
  const DAY_ENDS: nat := 1140

  predicate IsDigit(c: char) {
    '0' <= c <= '9'
  }

  function DigitOf(n: nat): char
    requires n < 10
  {
    '0' + n as char
  }

  function Decimal(n: nat): string {
    if n < 10 then [DigitOf(n)] else Decimal(n / 10) + [DigitOf(n % 10)]
  }

  function Padded(n: nat): string {
    if n < 10 then "0" + Decimal(n) else Decimal(n)
  }

  function MinutesToHhmm(m: nat): string {
    Padded(m / 60) + ":" + Padded(m % 60)
  }

  function NumberOf(digits: string): nat
    requires forall i :: 0 <= i < |digits| ==> IsDigit(digits[i])
  {
    if digits == "" then 0
    else
      var last := digits[|digits| - 1];
      assert IsDigit(last);
      10 * NumberOf(digits[..|digits| - 1]) + (last - '0') as nat
  }

  predicate Numeric(s: string) {
    s != "" && forall i :: 0 <= i < |s| ==> IsDigit(s[i])
  }

  /** A number of 32 bits: digits, after a plus sign perhaps. */
  function U32(s: string): Option<nat> {
    var digits := if |s| > 1 && s[0] == '+' then s[1..] else s;
    if !Numeric(digits) then None
    else if NumberOf(digits) < 0x1_0000_0000 then Some(NumberOf(digits))
    else None
  }

  predicate AllDigits(s: string) {
    s != "" && forall i :: 0 <= i < |s| ==> s[i] in "0123456789"
  }

  /** These digits stand for this number of 32 bits. */
  predicate Decimally(s: string, n: nat)
    requires AllDigits(s)
  {
    DigitsOnly(s);
    NumberOf(s) == n < 0x1_0000_0000
  }

  /** Digits in decimal, with a plus sign or without, and nothing else. */
  lemma U32Is(s: string, n: nat)
    ensures U32(s) == Some(n) <==>
            || (AllDigits(s) && Decimally(s, n))
            || (s != "" && s[0] == '+' && AllDigits(s[1..]) && Decimally(s[1..], n))
  {
    hide NumberOf;
    DigitsOnly(s);
    if s != "" {
      DigitsOnly(s[1..]);
      assert s[0] == '+' ==> !IsDigit(s[0]);
      assert |s| == 1 ==> s[1..] == "";
    }
  }

  lemma DigitListed(c: char)
    ensures IsDigit(c) <==> c in "0123456789"
  {
  }

  lemma DigitsOnly(s: string)
    ensures AllDigits(s) <==> Numeric(s)
  {
    forall i | 0 <= i < |s|
      ensures IsDigit(s[i]) <==> s[i] in "0123456789"
    {
      DigitListed(s[i]);
    }
  }

  /** A time of day is written as an hour below 24 and a minute below 60 with the first colon
      between them, and white space around. */
  lemma ParseHhmmIs(s: string, m: nat)
    ensures ParseHhmm(s) == Some(m) <==>
            exists i :: 0 <= i < |Trim(s)| && Trim(s)[i] == ':' && ':' !in Trim(s)[..i]
                        && U32(Trim(s)[..i]).Some? && U32(Trim(s)[i + 1..]).Some?
                        && U32(Trim(s)[..i]).value < 24 && U32(Trim(s)[i + 1..]).value < 60
                        && m == 60 * U32(Trim(s)[..i]).value + U32(Trim(s)[i + 1..]).value
  {
    hide Trim, U32;
    var t := Trim(s);
    if i :| 0 <= i < |t| && t[i] == ':' && ':' !in t[..i] {
      FirstAt(t, ':', i);
    }
  }

  function ParseHhmm(s: string): (minutes: Option<nat>)
    ensures minutes.Some? ==> minutes.value < MINUTES_PER_DAY
  {
    var t := Trim(s);
    var colon := IndexOf(t, ':');
    if colon == |t| then None
    else
      var h, m := U32(t[..colon]), U32(t[colon + 1..]);
      if h.Some? && m.Some? && h.value < 24 && m.value < 60 then Some(h.value * 60 + m.value) else None
  }

  lemma TwoDigits(n: nat)
    requires n < 100
    ensures Padded(n) == [DigitOf(n / 10), DigitOf(n % 10)]
    ensures U32([DigitOf(n / 10), DigitOf(n % 10)]) == Some(n)
  {
    var s := [DigitOf(n / 10), DigitOf(n % 10)];
    if n >= 10 {
      assert Decimal(n / 10) == [DigitOf(n / 10)];
    }
    assert forall i :: 0 <= i < |s| ==> IsDigit(s[i]);
    assert NumberOf(s[..1][..0]) == 0;
    assert NumberOf(s[..1]) == n / 10;
    assert NumberOf(s) == n;
  }

  /** A time of day survives being written and read, and nothing else does. */
  lemma HhmmReadsBackIff(m: nat)
    ensures ParseHhmm(MinutesToHhmm(m)) == Some(m) <==> m < MINUTES_PER_DAY
  {
    if m < MINUTES_PER_DAY {
      TwoDigits(m / 60);
      TwoDigits(m % 60);
      var s := MinutesToHhmm(m);
      hide Padded, U32, DigitOf, Trim, IndexOf;
      FiveCharacters(m / 60, m % 60);
      assert s == [DigitOf(m / 60 / 10), DigitOf(m / 60 % 10)] + ":" + [DigitOf(m % 60 / 10), DigitOf(m % 60 % 10)];
    }
  }

  lemma FiveCharacters(h: nat, m: nat)
    requires h < 100 && m < 100
    ensures var a, b := [DigitOf(h / 10), DigitOf(h % 10)], [DigitOf(m / 10), DigitOf(m % 10)];
            var s := a + ":" + b;
            Trim(s) == s && IndexOf(s, ':') == 2 && s[..2] == a && s[3..] == b
  {
    var a, b := [DigitOf(h / 10), DigitOf(h % 10)], [DigitOf(m / 10), DigitOf(m % 10)];
    var s := a + ":" + b;
    TrimLeavesAlone(s);
    assert s[2] == ':' && s[0] != ':' && s[1] != ':';
  }

  /** The configured window, with the defaults for what is missing or malformed. */
  function Window(start: Option<string>, end: Option<string>): (nat, nat) {
    var s := if start.None? then None else ParseHhmm(start.value);
    var e := if end.None? then None else ParseHhmm(end.value);
    (if s.None? then DAY_STARTS else s.value, if e.None? then DAY_ENDS else e.value)
  }

  /** Is `now` within the window, which may wrap past midnight? */
  predicate InWindow(now: nat, start: nat, end: nat) {
    if start <= end then start <= now < end else now >= start || now < end
  }

  /** A window and the one from its end to its start split the day between them, unless both
      are empty. */
  lemma WindowsSplitTheDay(now: nat, start: nat, end: nat)
    ensures start != end ==> (InWindow(now, start, end) <==> !InWindow(now, end, start))
    ensures start == end ==> !InWindow(now, start, end)
  {
  }

  /** Membership minute by minute, round the clock: the window takes in its start, leaves out its
      end, and nothing changes at any other minute. */
  lemma WindowEnds(m: nat, start: nat, end: nat)
    requires m < 1440 && start < 1440 && end < 1440 && start != end
    ensures InWindow(start, start, end) && !InWindow(end, start, end)
    ensures var next := (m + 1) % 1440;
            next != start && next != end ==> (InWindow(next, start, end) <==> InWindow(m, start, end))
  {
  }

  /** What is missing or malformed is seven in the morning and seven in the evening. */
  lemma WindowDefaults(start: string, end: string)
    ensures Window(None, None) == Window(Some("07:00"), Some("19:00"))
    ensures ParseHhmm(start) == None ==> Window(Some(start), Some(end)) == Window(Some("07:00"), Some(end))
    ensures ParseHhmm(end) == None ==> Window(Some(start), Some(end)) == Window(Some(start), Some("19:00"))
    ensures ParseHhmm(start).Some? ==> Window(Some(start), None) == (ParseHhmm(start).value, 1140)
    ensures ParseHhmm(end).Some? ==> Window(None, Some(end)) == (420, ParseHhmm(end).value)
  {
    assert Padded(7) == "07" && Padded(0) == "00" && Padded(19) == Decimal(19) == "19";
    assert MinutesToHhmm(420) == "07:00" && MinutesToHhmm(1140) == "19:00";
    HhmmReadsBackIff(420);
    HhmmReadsBackIff(1140);
  }

  /** Writing any configured window and reading it again gives the same window. */
  lemma WindowReadsBack(start: Option<string>, end: Option<string>)
    ensures var w := Window(start, end); Window(Some(MinutesToHhmm(w.0)), Some(MinutesToHhmm(w.1))) == w
  {
    hide MinutesToHhmm, ParseHhmm;
    var w := Window(start, end);
    HhmmReadsBackIff(w.0);
    HhmmReadsBackIff(w.1);
  }
}
