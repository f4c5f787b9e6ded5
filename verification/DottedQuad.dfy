/**
 Dotted quads: how the DNS parser prints four octets into a zero-filled buffer,
 and which strings the socket layer takes for an address.
 */
module DottedQuad {
  import opened Bytes
  import opened Text

  type Octets = o: seq<byte> | |o| == 4 witness [0, 0, 0, 0]

  /** The numerals of `parts`, each followed by a dot. */
  function Dotted(parts: seq<byte>): (s: seq<byte>)
    decreases |parts|
  {
    if parts == [] then []
    else Dotted(parts[..|parts| - 1]) + Decimal(parts[|parts| - 1]) + [DOT]
  }

  function Numerals(o: Octets): seq<seq<byte>> {
    [Decimal(o[0]), Decimal(o[1]), Decimal(o[2]), Decimal(o[3])]
  }

  function Quad(o: Octets): seq<byte> {
    Join(Numerals(o))
  }

  lemma DottedLength(parts: seq<byte>)
    ensures |Dotted(parts)| <= 4 * |parts|
  {
    if parts != [] {
      DottedLength(parts[..|parts| - 1]);
      DecimalOfOctet(parts[|parts| - 1]);
    }
  }

  lemma {:induction false} DottedNoZero(parts: seq<byte>)
    ensures NoZero(Dotted(parts))
    decreases |parts|
  {
    if parts != [] {
      DottedNoZero(parts[..|parts| - 1]);
    }
  }

  lemma JoinFour(parts: seq<seq<byte>>)
    requires |parts| == 4
    ensures Join(parts) == parts[0] + [DOT] + parts[1] + [DOT] + parts[2] + [DOT] + parts[3]
  {
    assert parts[1..][1..] == parts[2..] && parts[2..][1..] == [parts[3]];
    assert Join(parts[2..]) == parts[2] + [DOT] + parts[3];
    assert Join(parts[1..]) == parts[1] + [DOT] + Join(parts[2..]);
  }

  lemma DottedIsQuad(o: Octets)
    ensures Dotted(o) == Quad(o) + [DOT]
  {
    JoinFour(Numerals(o));
    assert o[..4] == o && o[..3][..2] == o[..2] && o[..2][..1] == o[..1] && o[..1][..0] == [];
    assert Dotted(o[..1]) == Decimal(o[0]) + [DOT];
    assert Dotted(o[..2]) == Dotted(o[..1]) + Decimal(o[1]) + [DOT];
    assert Dotted(o[..3]) == Dotted(o[..2]) + Decimal(o[2]) + [DOT];
    assert Dotted(o) == Dotted(o[..3]) + Decimal(o[3]) + [DOT];
  }

  // ---------------------------------------------------------------- printing

  predicate NoZero(s: seq<byte>) {
    forall k :: 0 <= k < |s| ==> s[k] != 0
  }

  /** C `strlen` of a buffer that holds a terminator. */
  function StrLen(s: seq<byte>): (n: nat)
    requires 0 in s
    ensures n < |s| && s[n] == 0 && forall k :: 0 <= k < n ==> s[k] != 0
  {
    if s[0] == 0 then 0 else 1 + StrLen(s[1..])
  }

  lemma StrLenIs(s: seq<byte>, n: nat)
    requires n < |s| && s[n] == 0 && forall k :: 0 <= k < n ==> s[k] != 0
    ensures 0 in s && StrLen(s) == n
  {
  }

  /** The buffer holds the string `text` and zeros after it. */
  ghost predicate Holds(buffer: seq<byte>, text: seq<byte>) {
    && |text| < |buffer|
    && text == buffer[..|text|]
    && forall k :: |text| <= k < |buffer| ==> buffer[k] == 0
  }

  /** The digits of an octet as divisions yield them, the last digit first. */
  method DigitsBackwards(octet: byte) returns (temp: array<byte>, i: nat)
    ensures fresh(temp) && i == |Decimal(octet)| <= 3 <= temp.Length
    ensures forall k :: 0 <= k < i ==> temp[k] == Decimal(octet)[i - 1 - k]
  {
    ghost var digits := Decimal(octet);
    DecimalOfOctet(octet);
    temp := new byte[10](_ => 0);
    i := 0;
    var pos: byte := octet;
    while true
      invariant 0 <= i < |digits| && |digits| == |Decimal(pos)| + i
      invariant Decimal(pos) <= digits
      invariant forall k :: 0 <= k < i ==> temp[k] == digits[|digits| - 1 - k]
      decreases pos
    {
      temp[i] := pos % 10 + DIGIT_0;
      i := i + 1;
      if pos / 10 == 0 {
        break;
      }
      assert Decimal(pos) == Decimal(pos / 10) + [DIGIT_0 + pos % 10];
      pos := pos / 10;
    }
  }

  /**
   Print one octet and a dot at the end of the string in `output`. The digits
   are written backwards; `strlen` does not see them until the leading digit
   lands.
   */
  method AppendOctet(octet: byte, output: array<byte>, ghost text: seq<byte>)
    requires Holds(output[..], text) && NoZero(text) && |text| + 4 < output.Length
    modifies output
    ensures Holds(output[..], text + Decimal(octet) + [DOT])
  {
    var temp, i := DigitsBackwards(octet);
    ghost var digits := Decimal(octet);
    var j := 0;
    while true
      invariant 0 < i <= |digits| && i + j == |digits| && 0 <= j
      invariant forall k :: 0 <= k < |text| ==> output[k] == text[k]
      invariant forall k :: i <= k < |digits| ==> output[|text| + k] == digits[k]
      invariant forall k :: |text| <= k < output.Length && !(|text| + i <= k < |text| + |digits|) ==> output[k] == 0
      invariant forall k :: 0 <= k < |digits| ==> temp[k] == digits[|digits| - 1 - k]
      decreases i
    {
      StrLenIs(output[..], |text|);
      i := i - 1;
      output[i + StrLen(output[..])] := temp[j];
      j := j + 1;
      if !(i > 0) {
        break;
      }
    }
    AppendDot(output, text + digits);
  }

  method AppendDot(output: array<byte>, ghost text: seq<byte>)
    requires Holds(output[..], text) && NoZero(text) && |text| + 1 < output.Length
    modifies output
    ensures Holds(output[..], text + [DOT])
  {
    StrLenIs(output[..], |text|);
    output[StrLen(output[..])] := DOT;
  }

  /** Print four octets as a dotted quad into a zero-filled buffer. */
  method IntToStr(input: Octets, output: array<byte>)
    requires output.Length == 32 && forall k :: 0 <= k < 32 ==> output[k] == 0
    modifies output
    ensures Holds(output[..], Quad(input))
    ensures 0 in output[..] && StrLen(output[..]) == |Quad(input)| <= 15
  {
    assert Dotted(input[..0]) == [];
    for idx := 0 to 4
      invariant Holds(output[..], Dotted(input[..idx]))
    {
      DottedLength(input[..idx]);
      DottedNoZero(input[..idx]);
      AppendOctet(input[idx], output, Dotted(input[..idx]));
      assert input[..idx + 1][..idx] == input[..idx];
    }
    assert input[..4] == input;
    DottedIsQuad(input);
    DottedLength(input);
    DottedNoZero(input);
    StrLenIs(output[..], |Dotted(input)|);
    output[StrLen(output[..]) - 1] := 0;
    assert Quad(input) == Dotted(input)[..|Quad(input)|];
    StrLenIs(output[..], |Quad(input)|);
  }

  // ---------------------------------------------------------------- reading

  /** Length of the run of digits at the front. */
  function DigitRun(s: seq<byte>): (d: nat)
    ensures d <= |s| && forall k :: 0 <= k < d ==> IsDigit(s[k])
    ensures d < |s| ==> !IsDigit(s[d])
  {
    if s == [] || !IsDigit(s[0]) then 0
    else 1 + DigitRun(s[1..])
  }

  /**
   The numerals C's `sscanf` converts for the format of `fields` times `%d` with
   dots between, each read greedily. Signs and leading blanks are not read
   here: a text that holds one is refused by the character loop in any case.
   */
  function ScanFields(s: seq<byte>, fields: nat): (numerals: seq<seq<byte>>)
    requires fields > 0
    ensures |numerals| <= fields
    ensures forall k :: 0 <= k < |numerals| ==> AllDigits(numerals[k]) && numerals[k] != []
    decreases fields
  {
    var d := DigitRun(s);
    if d == 0 then []
    else if fields == 1 || d == |s| || s[d] != DOT then [s[..d]]
    else [s[..d]] + ScanFields(s[d + 1..], fields - 1)
  }

  predicate DigitsAndDots(s: seq<byte>) {
    forall k :: 0 <= k < |s| ==> s[k] == DOT || IsDigit(s[k])
  }

  predicate SmallNumber(part: seq<byte>) {
    AllDigits(part) && part != [] && Value(part) <= 255
  }

  predicate SmallNumbers(parts: seq<seq<byte>>, n: nat) {
    |parts| >= n && forall k :: 0 <= k < n ==> SmallNumber(parts[k])
  }

  /** What passes for an address: digits and dots whose first four parts are numbers up to 255. */
  predicate AddressLike(s: seq<byte>) {
    DigitsAndDots(s) && SmallNumbers(Split(s), 4)
  }

  lemma DigitRunIsFirstPart(s: seq<byte>)
    requires DigitsAndDots(s)
    ensures DigitRun(s) == DotIndex(s)
  {
  }

  ghost predicate NonEmptyFirst(parts: seq<seq<byte>>, n: nat) {
    n <= |parts| && forall k :: 0 <= k < n ==> parts[k] != []
  }

  /** `fields` are the first parts, up to `n` of them or the first empty one. */
  ghost predicate FirstFields(fields: seq<seq<byte>>, parts: seq<seq<byte>>, n: nat) {
    && fields <= parts
    && |fields| <= n
    && (|fields| == n <==> NonEmptyFirst(parts, n))
  }

  lemma FirstFieldsStep(part: seq<byte>, fields: seq<seq<byte>>, parts: seq<seq<byte>>, n: nat)
    requires part != [] && FirstFields(fields, parts, n)
    ensures FirstFields([part] + fields, [part] + parts, n + 1)
  {
    assert ([part] + parts)[0] == part;
    assert forall k :: 0 <= k < |parts| ==> parts[k] == ([part] + parts)[k + 1];
  }

  lemma FirstField(part: seq<byte>, parts: seq<seq<byte>>, n: nat)
    requires n > 0
    ensures part == [] ==> FirstFields([], [part] + parts, n)
    ensures part != [] ==> FirstFields([part], [part] + parts, 1)
    ensures part != [] && n > 1 ==> FirstFields([part], [part], n)
  {
    assert ([part] + parts)[0] == part;
  }

  /** On digits and dots, scanning fields is splitting on dots up to the first empty part. */
  lemma {:induction false} ScanIsSplit(s: seq<byte>, n: nat)
    requires DigitsAndDots(s) && n > 0
    ensures FirstFields(ScanFields(s, n), Split(s), n)
    decreases n
  {
    DigitRunIsFirstPart(s);
    var d := DotIndex(s);
    var part := s[..d];
    if d == |s| {
      assert part == s && [part] + [] == [part];
      FirstField(part, [], n);
    } else {
      var tail := s[d + 1..];
      FirstField(part, Split(tail), n);
      if d > 0 && n > 1 {
        ScanIsSplit(tail, n - 1);
        FirstFieldsStep(part, ScanFields(tail, n - 1), Split(tail), n - 1);
      }
    }
  }

  predicate SmallFields(numerals: seq<seq<byte>>, n: nat) {
    |numerals| == n && forall k :: 0 <= k < n ==> SmallNumber(numerals[k])
  }

  /** The scanned fields pass exactly when the first `n` parts are small numbers. */
  lemma ScannedAddress(s: seq<byte>, n: nat)
    requires DigitsAndDots(s) && n > 0
    ensures SmallFields(ScanFields(s, n), n) <==> SmallNumbers(Split(s), n)
  {
    ScanIsSplit(s, n);
  }

  /** The checks on what was scanned: how many, and how large. */
  method PartsInRange(parts: seq<seq<byte>>) returns (ok: bool)
    requires forall k :: 0 <= k < |parts| ==> AllDigits(parts[k]) && parts[k] != []
    ensures ok <==> SmallFields(parts, 4)
  {
    if |parts| != 4 {
      return false;
    }
    if Value(parts[0]) > 255 || Value(parts[1]) > 255 || Value(parts[2]) > 255 || Value(parts[3]) > 255 {
      return false;
    }
    return true;
  }

  /** The address check, for every string. */
  method IpValid(ip: seq<byte>) returns (ok: bool)
    ensures ok <==> AddressLike(ip)
  {
    if DigitsAndDots(ip) {
      ScannedAddress(ip, 4);
    }
    var inRange := PartsInRange(ScanFields(ip, 4));
    if !inRange {
      return false;
    }
    for i := 0 to |ip|
      invariant forall k :: 0 <= k < i ==> ip[k] == DOT || IsDigit(ip[k])
    {
      if ip[i] != DOT && (ip[i] < DIGIT_0 || ip[i] > DIGIT_0 + 9) {
        return false;
      }
    }
    return true;
  }

  // ---------------------------------------------------------------- both together

  lemma QuadParts(o: Octets)
    ensures Split(Quad(o)) == Numerals(o)
  {
    SplitJoin(Numerals(o));
  }

  lemma QuadIsDigitsAndDots(o: Octets)
    ensures DigitsAndDots(Quad(o))
  {
    JoinFour(Numerals(o));
  }

  lemma Numeral(n: byte)
    ensures SmallNumber(Decimal(n)) && Value(Decimal(n)) == n && Canonical(Decimal(n))
  {
    ValueOfDecimal(n);
    DecimalIsCanonical(n);
  }

  ghost predicate Spells(parts: seq<seq<byte>>, o: Octets) {
    |parts| == 4 && forall k :: 0 <= k < 4 ==> SmallNumber(parts[k]) && Canonical(parts[k]) && Value(parts[k]) == o[k]
  }

  lemma NumeralsSpell(o: Octets)
    ensures Spells(Numerals(o), o)
  {
    forall k | 0 <= k < 4
      ensures Numerals(o)[k] == Decimal(o[k])
      ensures SmallNumber(Decimal(o[k])) && Value(Decimal(o[k])) == o[k] && Canonical(Decimal(o[k]))
    {
      Numeral(o[k]);
    }
  }

  lemma SpellingIsUnique(parts: seq<seq<byte>>, o: Octets)
    requires Spells(parts, o)
    ensures parts == Numerals(o)
  {
    forall k | 0 <= k < 4 ensures parts[k] == Decimal(o[k]) {
      DecimalOfValue(parts[k]);
    }
  }

  /** A printed address is accepted, and scanning it gives the octets back. */
  lemma QuadReadsBack(o: Octets)
    ensures AddressLike(Quad(o))
    ensures Spells(ScanFields(Quad(o), 4), o)
  {
    QuadParts(o);
    QuadIsDigitsAndDots(o);
    NumeralsSpell(o);
    ScannedParts(Quad(o), Numerals(o), 4);
  }

  lemma ScannedParts(s: seq<byte>, parts: seq<seq<byte>>, n: nat)
    requires DigitsAndDots(s) && n > 0 && Split(s) == parts && |parts| == n && SmallNumbers(parts, n)
    ensures ScanFields(s, n) == parts
  {
    ScanIsSplit(s, n);
  }

  lemma QuadIsInjective(a: Octets, b: Octets)
    requires Quad(a) == Quad(b)
    ensures a == b
  {
    QuadReadsBack(a);
    QuadReadsBack(b);
  }

  /**
   Accepted strings are dotted quads exactly when they have four parts and no
   part has a superfluous leading zero.
   */
  lemma AcceptedQuads(s: seq<byte>)
    requires AddressLike(s)
    ensures (exists o: Octets :: s == Quad(o))
       <==> |Split(s)| == 4 && forall k :: 0 <= k < 4 ==> Canonical(Split(s)[k])
  {
    if o: Octets :| s == Quad(o) {
      QuadParts(o);
      NumeralsSpell(o);
    }
    if |Split(s)| == 4 && forall k :: 0 <= k < 4 ==> Canonical(Split(s)[k]) {
      FourCanonicalParts(s, Split(s));
    }
  }

  lemma FourCanonicalParts(s: seq<byte>, parts: seq<seq<byte>>)
    requires Split(s) == parts && SmallNumbers(parts, 4)
    requires |parts| == 4 && forall k :: 0 <= k < 4 ==> Canonical(parts[k])
    ensures exists o: Octets :: s == Quad(o)
  {
    var o: Octets := seq(4, k requires 0 <= k < 4 => Value(parts[k]));
    SpellingIsUnique(parts, o);
    QuadParts(o);
    JoinSplit(s);
    JoinSplit(Quad(o));
    assert s == Quad(o);
  }

  lemma SingleDigit(c: byte)
    requires IsDigit(c)
    ensures SmallNumber([c])
  {
    ValueAppend([], c);
    assert [] + [c] == [c];
  }

  const FIVE_PARTS: seq<seq<byte>> := [[49], [50], [51], [52], [53]]

  lemma FivePartsAreDigitsAndDots()
    ensures DigitsAndDots(Join(FIVE_PARTS))
  {
    JoinFour(FIVE_PARTS[1..]);
  }

  /** In ASCII: "192.0.2.1". */
  lemma QuadInAscii()
    ensures Quad([192, 0, 2, 1]) == [49, 57, 50, 46, 48, 46, 50, 46, 49]
  {
    var o: Octets := [192, 0, 2, 1];
    JoinFour(Numerals(o));
    assert Decimal(192) == Decimal(19) + [50] && Decimal(19) == Decimal(1) + [57];
    assert Decimal(1) == [49] && Decimal(0) == [48] && Decimal(2) == [50];
  }

  lemma FivePartsInAscii()
    ensures Join(FIVE_PARTS) == [49, 46, 50, 46, 51, 46, 52, 46, 53]
  {
    var parts := FIVE_PARTS;
    assert parts[1..][1..] == parts[2..] && parts[2..][1..] == parts[3..] && parts[3..][1..] == [parts[4]];
    assert Join(parts[3..]) == [52, 46, 53];
    assert Join(parts[2..]) == [51, 46] + Join(parts[3..]);
    assert Join(parts[1..]) == [50, 46] + Join(parts[2..]);
  }

  /** "1.2.3.4.5" is accepted and is no dotted quad. */
  lemma AcceptsFiveParts()
    ensures AddressLike([49, 46, 50, 46, 51, 46, 52, 46, 53])
    ensures Join(FIVE_PARTS) == [49, 46, 50, 46, 51, 46, 52, 46, 53]
    ensures !exists o: Octets :: Join(FIVE_PARTS) == Quad(o)
  {
    FivePartsInAscii();
    SplitJoin(FIVE_PARTS);
    FivePartsAreDigitsAndDots();
    forall k | 0 <= k < 4 ensures SmallNumber(FIVE_PARTS[k]) {
      SingleDigit(FIVE_PARTS[k][0]);
    }
    assert SmallNumbers(FIVE_PARTS, 4);
    AcceptedQuads(Join(FIVE_PARTS));
  }
}
