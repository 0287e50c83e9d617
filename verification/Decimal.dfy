/** The three decimal printers of the platform and the names that are composed from them.

    The repository prints event numbers (`itoa`), the receipt service prints provider sequence
    numbers (`formatSeq`) and the security package prints timestamps (`formatInt`).  Each printer
    is a loop that prepends digits to a buffer.  Here each loop is proved against `Digits`, and
    `Digits` is proved to be inverted by a parser, so that names glued together with `-`, `:` and
    `.` can be taken apart again. */
module Decimal {
  import opened Wrappers

  const MIN_INT64: int := -0x8000_0000_0000_0000
  const MAX_INT64: int := 0x7fff_ffff_ffff_ffff

  type Int64 = n: int | MIN_INT64 <= n <= MAX_INT64

  /** Reduction of an integer to the int64 that has the same low 64 bits. */
  function Wrap64(x: int): Int64 {
    if MIN_INT64 <= x <= MAX_INT64 then x
    else (x - MIN_INT64) % 0x1_0000_0000_0000_0000 + MIN_INT64
  }

  /** Wrapping around once or twice makes no difference. */
  lemma WrapTwice(x: int, y: int)
    ensures Wrap64(Wrap64(x) + y) == Wrap64(x + y)
  {
    var m := 0x1_0000_0000_0000_0000;
    assert forall z: int :: Wrap64(z) == (z - MIN_INT64) % m + MIN_INT64;
    assert (((x - MIN_INT64) % m) + y) % m == (x - MIN_INT64 + y) % m;
  }

  /** Two's complement negation: the least int64 is its own negative. */
  function Negate64(n: Int64): Int64 {
    if n == MIN_INT64 then n else -n
  }

  predicate IsDigit(c: char) {
    '0' <= c <= '9'
  }

  function DigitChar(d: nat): (c: char)
    requires d < 10
    ensures IsDigit(c)
  {
    '0' + d as char
  }

  predicate AllDigits(s: string) {
    forall i | 0 <= i < |s| :: IsDigit(s[i])
  }

  /** The digits of a positive number, most significant first; nothing for zero. */
  function Digits(n: nat): (s: string)
    ensures AllDigits(s)
    ensures s == "" <==> n == 0
  {
    if n == 0 then "" else Digits(n / 10) + [DigitChar(n % 10)]
  }

  function DigitsValue(s: string): nat
    requires AllDigits(s)
  {
    if s == "" then 0
    else 10 * DigitsValue(s[..|s| - 1]) + (s[|s| - 1] - '0') as nat
  }

  /** The reader of unsigned decimal text. */
  function ParseNat(s: string): Option<nat> {
    if s == "" || !AllDigits(s) then None else Some(DigitsValue(s))
  }

  /** The reader of signed decimal text. */
  function ParseInt(s: string): Option<int> {
    if s != "" && s[0] == '-' then
      var magnitude := ParseNat(s[1..]);
      if magnitude.None? then None else var v: int := magnitude.value; Some(-v)
    else
      var magnitude := ParseNat(s);
      if magnitude.None? then None else var v: int := magnitude.value; Some(v)
  }

  lemma {:induction false} DigitsValueInverts(n: nat)
    ensures DigitsValue(Digits(n)) == n
  {
    if n != 0 {
      var s := Digits(n);
      assert s[..|s| - 1] == Digits(n / 10);
      DigitsValueInverts(n / 10);
    }
  }

  // ---------- itoa ----------

  /** What `itoa` prints: a negative number falls straight through the loop. */
  function PrintedNat(n: int): string {
    if n == 0 then "0" else if n < 0 then "" else Digits(n)
  }

  method Itoa(n: int) returns (s: string)
    ensures s == PrintedNat(n)
  {
    if n == 0 {
      return "0";
    }
    s := "";
    var rest := n;
    while rest > 0
      invariant n < 0 ==> rest == n && s == ""
      invariant n > 0 ==> rest >= 0 && Digits(n) == Digits(rest) + s
    {
      s := [DigitChar(rest % 10)] + s;
      rest := rest / 10;
    }
  }

  lemma ItoaRoundTrip(n: int)
    ensures ParseNat(PrintedNat(n)) == (if n >= 0 then Some(n) else None)
  {
    if n > 0 {
      DigitsValueInverts(n);
    } else if n == 0 {
      assert "0"[..0] == "";
    }
  }

  // ---------- formatSeq ----------

  /** What `formatSeq` prints: unlike `itoa` it prints nothing for zero. */
  function PrintedSeq(n: int): string {
    if n <= 0 then "" else Digits(n)
  }

  method FormatSeq(n: int) returns (s: string)
    ensures s == PrintedSeq(n)
  {
    s := "";
    var rest := n;
    while rest > 0
      invariant n <= 0 ==> rest == n && s == ""
      invariant n > 0 ==> rest >= 0 && Digits(n) == Digits(rest) + s
    {
      s := [DigitChar(rest % 10)] + s;
      rest := rest / 10;
    }
  }

  lemma FormatSeqRoundTrip(n: int)
    ensures ParseNat(PrintedSeq(n)) == (if n > 0 then Some(n) else None)
  {
    if n > 0 {
      DigitsValueInverts(n);
    }
  }

  // ---------- formatInt ----------

  /** What `formatInt` prints for an int64. The least int64 stays negative when negated, so its
      digit loop never runs and only the sign is printed. */
  function PrintedInt(n: Int64): string {
    if n == 0 then "0"
    else if n == MIN_INT64 then "-"
    else if n < 0 then "-" + Digits(-n)
    else Digits(n)
  }

  method FormatInt(n: Int64) returns (s: string)
    ensures s == PrintedInt(n)
  {
    if n == 0 {
      return "0";
    }
    var neg := n < 0;
    var rest: Int64 := n;
    if neg {
      rest := Negate64(rest);
    }
    ghost var start := rest;
    s := "";
    while rest > 0
      invariant start <= 0 ==> rest == start && s == ""
      invariant start > 0 ==> rest >= 0 && Digits(start) == Digits(rest) + s
    {
      s := [DigitChar(rest % 10)] + s;
      rest := rest / 10;
    }
    if neg {
      s := ['-'] + s;
    }
  }

  lemma ReadsDigits(k: int)
    requires k > 0
    ensures ParseInt(Digits(k)) == Some(k)
    ensures ParseInt("-" + Digits(k)) == Some(-k)
  {
    DigitsValueInverts(k);
    var s := Digits(k);
    assert IsDigit(s[0]);
    assert ("-" + s)[1..] == s;
  }

  lemma ReadsZeroAndSign()
    ensures ParseInt("0") == Some(0)
    ensures ParseInt("-") == None
  {
    assert "0"[..0] == "";
    assert "-"[1..] == "";
  }

  /** Reading back what `formatInt` printed gives the number, except for the one int64 that has
      no positive counterpart. */
  lemma FormatIntRoundTrip(n: Int64)
    ensures ParseInt(PrintedInt(n)) == Some(n) <==> n != MIN_INT64
  {
    ReadsZeroAndSign();
    if n > 0 {
      ReadsDigits(n);
    } else if n < 0 && n != MIN_INT64 {
      ReadsDigits(-n);
    }
  }

  lemma PrintedIntInjective(m: Int64, n: Int64)
    requires PrintedInt(m) == PrintedInt(n)
    ensures m == n
  {
    FormatIntRoundTrip(m);
    FormatIntRoundTrip(n);
  }

  // ---------- Names glued together with a separator ----------

  /** Two joined pairs whose left parts lack the separator are equal only if the pairs are. */
  lemma SplitAtFirst(c: char, a1: string, b1: string, a2: string, b2: string)
    requires c !in a1 && c !in a2
    requires a1 + [c] + b1 == a2 + [c] + b2
    ensures a1 == a2 && b1 == b2
  {
    var s, t := a1 + [c] + b1, a2 + [c] + b2;
    assert |a1| == |a2| by {
      assert s[|a1|] == c && t[|a2|] == c;
      assert forall i | 0 <= i < |a1| :: s[i] == a1[i];
      assert forall i | 0 <= i < |a2| :: t[i] == a2[i];
    }
    assert s[..|a1|] == a1 && t[..|a2|] == a2;
    assert s[|a1| + 1..] == b1 && t[|a2| + 1..] == b2;
  }

  /** The same when it is the right parts that lack the separator. */
  lemma SplitAtLast(c: char, a1: string, b1: string, a2: string, b2: string)
    requires c !in b1 && c !in b2
    requires a1 + [c] + b1 == a2 + [c] + b2
    ensures a1 == a2 && b1 == b2
  {
    var s, t := a1 + [c] + b1, a2 + [c] + b2;
    assert |a1| == |a2| by {
      assert s[|a1|] == c && t[|a2|] == c;
      assert forall i | |a1| < i < |s| :: s[i] == b1[i - |a1| - 1];
      assert forall i | |a2| < i < |t| :: t[i] == b2[i - |a2| - 1];
    }
    assert s[..|a1|] == a1 && t[..|a2|] == a2;
    assert s[|a1| + 1..] == b1 && t[|a2| + 1..] == b2;
  }

  /** A colon-joined pair, the shape of idempotency keys and of receipt keys. */
  function Joined(a: string, b: string): string {
    a + ":" + b
  }

  /** `a1:b1` and `a2:b2` collide by moving the text `middle` across the colon. */
  predicate Shifted(a1: string, b1: string, a2: string, b2: string, middle: string) {
    a2 == Joined(a1, middle) && b1 == Joined(middle, b2)
  }

  /** Exactly which different pairs collide: those where one left part extends the other past a
      colon.  A left part without a colon therefore never collides. */
  lemma JoinedCollision(a1: string, b1: string, a2: string, b2: string)
    ensures Joined(a1, b1) == Joined(a2, b2) <==>
            || (a1 == a2 && b1 == b2)
            || (exists middle :: Shifted(a1, b1, a2, b2, middle))
            || (exists middle :: Shifted(a2, b2, a1, b1, middle))
    ensures ':' !in a1 && ':' !in a2 ==> (Joined(a1, b1) == Joined(a2, b2) <==> a1 == a2 && b1 == b2)
  {
    forall middle | Shifted(a1, b1, a2, b2, middle)
      ensures Joined(a1, b1) == Joined(a2, b2)
      ensures ':' in a2
    {
      assert Joined(a1, b1) == a1 + ":" + middle + ":" + b2;
      assert a2[|a1|] == ':';
    }
    forall middle | Shifted(a2, b2, a1, b1, middle)
      ensures Joined(a1, b1) == Joined(a2, b2)
      ensures ':' in a1
    {
      assert Joined(a2, b2) == a2 + ":" + middle + ":" + b1;
      assert a1[|a2|] == ':';
    }
    if Joined(a1, b1) == Joined(a2, b2) {
      if |a1| < |a2| {
        LongerLeftShifts(a1, b1, a2, b2);
      } else if |a2| < |a1| {
        LongerLeftShifts(a2, b2, a1, b1);
      } else {
        var s := Joined(a1, b1);
        assert s[..|a1|] == a1 && s[..|a2|] == a2;
        assert s[|a1| + 1..] == b1 && s[|a2| + 1..] == b2;
      }
    }
  }

  lemma LongerLeftShifts(a1: string, b1: string, a2: string, b2: string)
    requires Joined(a1, b1) == Joined(a2, b2) && |a1| < |a2|
    ensures exists middle :: Shifted(a1, b1, a2, b2, middle)
  {
    var s := Joined(a1, b1);
    var middle := s[|a1| + 1..|a2|];
    assert s[..|a1|] == a1 && s[|a1|] == ':' && s[|a1| + 1..] == b1;
    assert s[..|a2|] == a2 && s[|a2|] == ':' && s[|a2| + 1..] == b2;
    assert a2 == Joined(a1, middle);
    assert b1 == Joined(middle, b2);
    assert Shifted(a1, b1, a2, b2, middle);
  }

  lemma DigitsInWords()
    ensures PrintedNat(0) == "0" && PrintedNat(1205) == "1205" && PrintedSeq(30) == "30" && PrintedInt(-47) == "-47"
  {
    assert Digits(1) == "1" && Digits(12) == "12" && Digits(120) == "120" && Digits(1205) == "1205";
    assert Digits(3) == "3" && Digits(30) == "30" && Digits(4) == "4" && Digits(47) == "47";
  }

  // ---------- The composed names ----------

  /** The ID that the store gives to its own event number `n` of notification `id`. */
  function EventId(id: string, n: int): string {
    id + "-" + PrintedNat(n)
  }

  lemma EventIdInjective(id1: string, n1: nat, id2: string, n2: nat)
    requires EventId(id1, n1) == EventId(id2, n2)
    ensures id1 == id2 && n1 == n2
  {
    assert AllDigits(PrintedNat(n1)) && AllDigits(PrintedNat(n2));
    SplitAtLast('-', id1, PrintedNat(n1), id2, PrintedNat(n2));
    ItoaRoundTrip(n1);
    ItoaRoundTrip(n2);
  }

  /** The key under which a provider receipt is de-duplicated. */
  function ReceiptKey(provider: string, externalId: string, sequence: int): string {
    provider + ":" + externalId + ":" + PrintedSeq(sequence)
  }

  /** Receipt keys of accepted receipts (positive sequence) agree exactly when the sequences
      agree and the provider and external ID parts collide; for provider names without a colon
      that means the three parts agree. */
  lemma ReceiptKeyCollision(p1: string, x1: string, q1: int, p2: string, x2: string, q2: int)
    requires q1 > 0 && q2 > 0
    ensures ReceiptKey(p1, x1, q1) == ReceiptKey(p2, x2, q2) <==> q1 == q2 && Joined(p1, x1) == Joined(p2, x2)
    ensures ':' !in p1 && ':' !in p2 ==>
              (ReceiptKey(p1, x1, q1) == ReceiptKey(p2, x2, q2) <==> p1 == p2 && x1 == x2 && q1 == q2)
  {
    var d1, d2 := PrintedSeq(q1), PrintedSeq(q2);
    assert AllDigits(d1) && AllDigits(d2);
    assert ReceiptKey(p1, x1, q1) == Joined(p1, x1) + [':'] + d1;
    assert ReceiptKey(p2, x2, q2) == Joined(p2, x2) + [':'] + d2;
    if ReceiptKey(p1, x1, q1) == ReceiptKey(p2, x2, q2) {
      SplitAtLast(':', Joined(p1, x1), d1, Joined(p2, x2), d2);
      FormatSeqRoundTrip(q1);
      FormatSeqRoundTrip(q2);
    }
    JoinedCollision(p1, x1, p2, x2);
  }

  /** The text whose keyed hash signs a webhook body. */
  function SignedText(timestamp: Int64, body: string): string {
    PrintedInt(timestamp) + "." + body
  }

  lemma SignedTextInjective(t1: Int64, b1: string, t2: Int64, b2: string)
    requires SignedText(t1, b1) == SignedText(t2, b2)
    ensures t1 == t2 && b1 == b2
  {
    assert '.' !in PrintedInt(t1) && '.' !in PrintedInt(t2) by {
      NoDot(t1);
      NoDot(t2);
    }
    SplitAtFirst('.', PrintedInt(t1), b1, PrintedInt(t2), b2);
    PrintedIntInjective(t1, t2);
  }

  lemma NoDot(n: Int64)
    ensures '.' !in PrintedInt(n)
  {
    if n < 0 && n != MIN_INT64 {
      assert AllDigits(Digits(-n));
    } else if n > 0 {
      assert AllDigits(Digits(n));
    }
  }
}
