/** Splitting text on dots, and decimal numerals, over octets. */
module Text {
  import opened Bytes

  const DOT: byte := 46
  const DIGIT_0: byte := 48

  predicate IsDigit(c: byte) {
    DIGIT_0 <= c <= DIGIT_0 + 9
  }

  // ---------------------------------------------------------------- dots

  /** Position of the first dot, or the length when there is none. */
  function DotIndex(s: seq<byte>): (d: nat)
    ensures d <= |s|
    ensures forall k :: 0 <= k < d ==> s[k] != DOT
    ensures d < |s| ==> s[d] == DOT
  {
    if s == [] || s[0] == DOT then 0 else 1 + DotIndex(s[1..])
  }

  predicate NoDot(s: seq<byte>) {
    forall k :: 0 <= k < |s| ==> s[k] != DOT
  }

  /** The parts between dots; a text without dots is one part. */
  function Split(s: seq<byte>): (parts: seq<seq<byte>>)
    ensures |parts| > 0
  {
    var d := DotIndex(s);
    if d == |s| then [s] else [s[..d]] + Split(s[d + 1..])
  }

  function Join(parts: seq<seq<byte>>): seq<byte>
    requires |parts| > 0
  {
    if |parts| == 1 then parts[0] else parts[0] + [DOT] + Join(parts[1..])
  }

  lemma JoinFirst(a: seq<byte>, parts: seq<seq<byte>>)
    requires |parts| > 0
    ensures Join([a] + parts) == a + [DOT] + Join(parts)
  {
    assert ([a] + parts)[1..] == parts;
  }

  /** A text with a dot is its first part, the dot, and the text of the others. */
  lemma JoinStep(s: seq<byte>, d: nat)
    requires d == DotIndex(s) < |s| && Join(Split(s[d + 1..])) == s[d + 1..]
    ensures Join(Split(s)) == s
  {
    JoinFirst(s[..d], Split(s[d + 1..]));
    CutAt(s, d);
  }

  lemma CutAt(s: seq<byte>, d: nat)
    requires d < |s| && s[d] == DOT
    ensures s[..d] + [DOT] + s[d + 1..] == s
  {
  }

  lemma {:induction false} JoinSplit(s: seq<byte>)
    ensures Join(Split(s)) == s
    decreases |s|
  {
    var d := DotIndex(s);
    if d < |s| {
      JoinSplit(s[d + 1..]);
      JoinStep(s, d);
    }
  }

  lemma {:induction false} DotIndexIs(a: seq<byte>, b: seq<byte>)
    requires NoDot(a)
    ensures DotIndex(a + [DOT] + b) == |a|
    ensures DotIndex(a) == |a|
    decreases |a|
  {
    if a == [] {
    } else {
      DotIndexIs(a[1..], b);
      assert (a + [DOT] + b)[1..] == a[1..] + [DOT] + b;
    }
  }

  lemma SplitFirst(a: seq<byte>, b: seq<byte>)
    requires NoDot(a)
    ensures Split(a + [DOT] + b) == [a] + Split(b)
    ensures Split(a) == [a]
  {
    DotIndexIs(a, b);
    var s := a + [DOT] + b;
    assert s[..|a|] == a && s[|a| + 1..] == b;
  }

  lemma {:induction false} SplitJoin(parts: seq<seq<byte>>)
    requires |parts| > 0 && forall k :: 0 <= k < |parts| ==> NoDot(parts[k])
    ensures Split(Join(parts)) == parts
  {
    if |parts| == 1 {
      SplitFirst(parts[0], []);
    } else {
      SplitJoin(parts[1..]);
      SplitFirst(parts[0], Join(parts[1..]));
    }
  }

  // ---------------------------------------------------------------- decimal

  predicate AllDigits(s: seq<byte>) {
    forall k :: 0 <= k < |s| ==> IsDigit(s[k])
  }

  /** Canonical decimal numeral. */
  function Decimal(n: nat): (s: seq<byte>)
    ensures |s| > 0
    ensures AllDigits(s)
  {
    if n < 10 then [DIGIT_0 + n] else Decimal(n / 10) + [DIGIT_0 + n % 10]
  }

  function Value(s: seq<byte>): nat
    requires AllDigits(s)
  {
    if s == [] then 0
    else
      var last := s[|s| - 1];
      10 * Value(s[..|s| - 1]) + (last - DIGIT_0)
  }

  lemma {:induction false} ValueOfDecimal(n: nat)
    ensures Value(Decimal(n)) == n
  {
    if n >= 10 {
      ValueOfDecimal(n / 10);
      assert Decimal(n)[..|Decimal(n)| - 1] == Decimal(n / 10);
    }
  }

  /** No superfluous leading zero. */
  predicate Canonical(s: seq<byte>) {
    AllDigits(s) && s != [] && (s[0] == DIGIT_0 ==> |s| == 1)
  }

  lemma DecimalAppend(m: nat, d: nat)
    requires m > 0 && d < 10
    ensures Decimal(10 * m + d) == Decimal(m) + [DIGIT_0 + d]
  {
    assert (10 * m + d) / 10 == m && (10 * m + d) % 10 == d;
  }

  lemma ValueAppend(s: seq<byte>, c: byte)
    requires AllDigits(s) && IsDigit(c)
    ensures AllDigits(s + [c]) && Value(s + [c]) == 10 * Value(s) + (c - DIGIT_0)
  {
    assert (s + [c])[..|s|] == s;
  }

  lemma {:induction false} DecimalOfValue(s: seq<byte>)
    requires Canonical(s)
    ensures Decimal(Value(s)) == s
    ensures s != [DIGIT_0] ==> Value(s) > 0
    decreases |s|
  {
    var front, last := s[..|s| - 1], s[|s| - 1];
    assert s == front + [last];
    ValueAppend(front, last);
    if front != [] {
      assert front[0] == s[0];
      DecimalOfValue(front);
      DecimalAppend(Value(front), last - DIGIT_0);
    }
  }

  lemma {:induction false} DecimalIsCanonical(n: nat)
    ensures Canonical(Decimal(n))
    ensures n > 0 ==> Decimal(n)[0] != DIGIT_0
  {
    if n >= 10 {
      DecimalIsCanonical(n / 10);
    }
  }

  lemma DecimalOfOctet(n: byte)
    ensures |Decimal(n)| <= 3
  {
    assert n >= 10 ==> |Decimal(n)| == 1 + |Decimal(n / 10)|;
    assert n / 10 >= 10 ==> |Decimal(n / 10)| == 1 + |Decimal(n / 10 / 10)|;
  }
}
