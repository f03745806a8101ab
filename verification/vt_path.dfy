/** The path of a virtual terminal, written in place by a signal handler that may not
    allocate. */
module VtPath {
  type Byte = b: int | 0 <= b < 0x100
  type U32 = n: int | 0 <= n < 0x1_0000_0000

  const ZERO: Byte := 48

  /** `/dev/tty` */
  const PREFIX: seq<Byte> := [47, 100, 101, 118, 47, 116, 116, 121]

  predicate IsDigit(b: Byte) {
    ZERO <= b <= ZERO + 9
  }

  function Digits(n: nat): (digits: seq<Byte>)
    ensures digits != []
  {
    if n < 10 then [ZERO + n] else Digits(n / 10) + [ZERO + n % 10]
  }

  /** The number a digit string denotes. */
  function Number(digits: seq<Byte>): int {
    if digits == [] then 0 else 10 * Number(digits[..|digits| - 1]) + (digits[|digits| - 1] - ZERO)
  }

  /** Digits only, and no leading zero but for zero itself. */
  predicate Canonical(digits: seq<Byte>) {
    && digits != []
    && (forall i :: 0 <= i < |digits| ==> IsDigit(digits[i]))
    && (|digits| > 1 ==> digits[0] != ZERO)
  }

  /** Reading the digits back yields the number, and they are written canonically. */
  lemma {:induction false} DigitsReadBack(n: nat)
    ensures Number(Digits(n)) == n && Canonical(Digits(n)) && (n > 0 ==> Digits(n)[0] != ZERO)
  {
    if n >= 10 {
      DigitsReadBack(n / 10);
      assert Digits(n)[..|Digits(n)| - 1] == Digits(n / 10);
    }
  }

  lemma OneMoreDigit(m: nat, last: Byte)
    requires m > 0 && IsDigit(last)
    ensures Digits(10 * m + (last - ZERO)) == Digits(m) + [last]
  {
    var n := 10 * m + (last - ZERO);
    assert n >= 10 && n / 10 == m && n % 10 == last - ZERO;
  }

  lemma FrontIsCanonical(digits: seq<Byte>)
    requires Canonical(digits)
    ensures IsDigit(digits[|digits| - 1])
    ensures |digits| > 1 ==> Canonical(digits[..|digits| - 1]) && digits[0] != ZERO
  {
    hide IsDigit;
    var front := digits[..|digits| - 1];
    assert forall i :: 0 <= i < |front| ==> front[i] == digits[i];
  }

  /** No other canonical string denotes it. */
  lemma {:induction false} DigitsUnique(digits: seq<Byte>)
    requires Canonical(digits)
    ensures Number(digits) >= 0 && Digits(Number(digits)) == digits
    ensures digits[0] != ZERO ==> Number(digits) > 0
  {
    var front, last := digits[..|digits| - 1], digits[|digits| - 1];
    FrontIsCanonical(digits);
    assert digits == front + [last];
    hide Canonical;
    if front == [] {
      assert digits == [last];
    } else {
      hide Digits;
      DigitsUnique(front);
      OneMoreDigit(Number(front), last);
    }
  }

  function Power10(k: nat): nat {
    if k == 0 then 1 else 10 * Power10(k - 1)
  }

  lemma {:induction false} DigitsFit(n: nat, k: nat)
    requires 1 <= k && n < Power10(k)
    ensures |Digits(n)| <= k
  {
    if n >= 10 {
      DigitsFit(n / 10, k - 1);
    }
  }

  lemma U32Fits(n: U32)
    ensures |Digits(n)| <= 10
  {
    assert Power10(5) == 100_000;
    assert Power10(7) == 10_000_000;
    assert Power10(10) == 10_000_000_000;
    DigitsFit(n, 10);
  }

  /** The first loop: the digits, least significant first, all within their array. */
  method LeastFirst(vtnr: U32) returns (digits: array<Byte>, d: nat)
    ensures fresh(digits) && digits.Length == 10 && d == |Digits(vtnr)| <= 10
    ensures forall j :: 0 <= j < d ==> digits[j] == Digits(vtnr)[d - 1 - j]
  {
    U32Fits(vtnr);
    ghost var all := Digits(vtnr);
    digits := new Byte[10](_ => 0);
    d := 0;
    var n := vtnr;
    while true
      invariant 0 <= d < |all| && n >= 0
      invariant Digits(n) == all[..|all| - d]
      invariant forall j :: 0 <= j < d ==> digits[j] == all[|all| - 1 - j]
      decreases n
    {
      digits[d] := ZERO + n % 10;
      d := d + 1;
      n := n / 10;
      if n == 0 {
        break;
      }
    }
  }

  /** In characters: the path is the prefix and then decimal digits only, which denote the
      number. */
  lemma PathSpells(vtnr: nat)
    ensures |PREFIX| == 8 && forall k :: 0 <= k < 8 ==> PREFIX[k] == "/dev/tty"[k] as int
    ensures forall k :: 0 <= k < |Digits(vtnr)| ==> '0' as int <= Digits(vtnr)[k] <= '9' as int
    ensures vtnr < 10 ==> Digits(vtnr) == ['0' as int + vtnr]
    ensures vtnr >= 10 ==> Digits(vtnr) == Digits(vtnr / 10) + ['0' as int + vtnr % 10]
  {
    DigitsReadBack(vtnr);
  }

  /** For every number the two loops stay inside both arrays, and leave the prefix, the
      number's digits and a NUL at the front of the buffer and the rest of it as it was. */
  method VtPathInto(buf: array<Byte>, vtnr: U32)
    requires buf.Length == 24
    modifies buf
    ensures |Digits(vtnr)| <= 10
    ensures var path := PREFIX + Digits(vtnr) + [0];
            buf[..] == path + old(buf[|path|..])
  {
    hide Digits;
    var i := |PREFIX|;
    forall k | 0 <= k < i {
      buf[k] := PREFIX[k];
    }
    var digits, d := LeastFirst(vtnr);
    i := MostFirst(buf, i, digits, d, Digits(vtnr));
    buf[i] := 0;
  }

  /** The second loop: the digits once more, the most significant first. */
  method MostFirst(buf: array<Byte>, from: nat, digits: array<Byte>, count: nat, ghost all: seq<Byte>) returns (i: nat)
    requires buf != digits && count == |all| <= digits.Length && from + count <= buf.Length
    requires forall j :: 0 <= j < count ==> digits[j] == all[count - 1 - j]
    modifies buf
    ensures i == from + count
    ensures buf[..] == old(buf[..from]) + all + old(buf[i..])
  {
    var d := count;
    i := from;
    while d > 0
      invariant 0 <= d <= count && i == from + count - d
      invariant forall k :: 0 <= k < buf.Length ==>
                  buf[k] == if from <= k < i then all[k - from] else old(buf[k])
    {
      d := d - 1;
      buf[i] := digits[d];
      i := i + 1;
    }
  }
}
