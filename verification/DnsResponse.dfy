/**
 The response parser: skip the echoed question, walk the resource records,
 print the first RDATA of length four (RFC 1035, sections 3.4.1, 4.1.1 to 4.1.4).
 */
module DnsResponse {
  import opened Bytes
  import opened Text
  import opened DottedQuad
  import opened DnsRequest

  /** Modulus of the `uint32_t` arithmetic on positions. */
  const WORD: nat := 0x1_0000_0000

  /** NAME, TYPE, CLASS and TTL when the name is compressed to two octets. */
  const RECORD_META: nat := 10

  const QUESTION_END: nat := 5  // terminator, QTYPE and QCLASS

  datatype Record = Record(meta: seq<byte>, rdata: seq<byte>)

  ghost predicate ValidRecord(r: Record) {
    |r.meta| == RECORD_META && |r.rdata| < 0x1_0000
  }

  ghost predicate ValidRecords(records: seq<Record>) {
    forall k :: 0 <= k < |records| ==> ValidRecord(records[k])
  }

  ghost function EncodeRecord(r: Record): (b: seq<byte>)
    requires ValidRecord(r)
    ensures |b| == RECORD_META + 2 + |r.rdata|
  {
    r.meta + [|r.rdata| / 256, |r.rdata| % 256] + r.rdata
  }

  ghost function EncodeRecords(records: seq<Record>): (b: seq<byte>)
    requires ValidRecords(records)
    ensures b == [] <==> records == []
  {
    if records == [] then [] else EncodeRecord(records[0]) + EncodeRecords(records[1..])
  }

  /** The first RDATA of four octets, whatever the record's type. */
  function FirstAddress(records: seq<Record>): Option<Octets> {
    if records == [] then None
    else if |records[0].rdata| == 4 then Some(records[0].rdata)
    else FirstAddress(records[1..])
  }

  // ---------------------------------------------------------------- record length

  /**
   RDLENGTH as the parser assembles it: both octets are read as signed `char`,
   so an octet of 128 or more fills every higher bit with ones.
   */
  function RdLen(hi: byte, lo: byte): (n: nat)
    ensures n < WORD
  {
    if lo >= 128 then WORD - 256 + lo
    else if hi >= 128 then WORD - 65536 + 256 * hi + lo
    else 256 * hi + lo
  }

  /**
   In 32-bit arithmetic: the low octet as a signed number when it is negative,
   since its sign covers every bit of the high one; else both as signed numbers.
   */
  lemma RdLenIsSigned(hi: byte, lo: byte)
    ensures RdLen(hi, lo) ==
      (if lo >= 128 then lo - 256 else if hi >= 128 then 256 * (hi - 256) + lo else 256 * hi + lo) % 0x1_0000_0000
  {
    var negative := 256 * (hi - 256) + lo;
    assert hi >= 128 && lo < 128 ==> negative % WORD == negative + WORD;
    assert lo >= 128 ==> (lo - 256) % WORD == lo - 256 + WORD;
  }

  /** The sum lands behind the RDATA exactly when both octets are below 128, and on the record exactly at 244. */
  lemma RdLenSum(at: nat, rdata: seq<byte>)
    requires |rdata| < 0x1_0000 && RECORD_META + 2 <= at && at + |rdata| < WORD
    ensures var hi, lo := |rdata| / 256, |rdata| % 256;
      && ((at + RdLen(hi, lo)) % WORD == at + |rdata| <==> hi < 128 && lo < 128)
      && ((at + RdLen(hi, lo)) % WORD == at - (RECORD_META + 2) <==> lo == 244)
      && (RdLen(hi, lo) == 4 <==> |rdata| == 4)
      && (hi >= 128 || lo >= 128 ==> RdLen(hi, lo) >= WORD - 0x8000)
  {
    var hi, lo := |rdata| / 256, |rdata| % 256;
    assert |rdata| == 256 * hi + lo;
    var sum := at + RdLen(hi, lo);
    assert sum % WORD == if sum < WORD then sum else sum - WORD;
  }

  ghost predicate PlainLength(r: Record)
  {
    ValidRecord(r) && |r.rdata| / 256 < 128 && |r.rdata| % 256 < 128
  }

  /** The records the walk visits have lengths it reads correctly. */
  ghost predicate Walkable(records: seq<Record>) {
    records == [] ||
    (PlainLength(records[0]) && (|records[0].rdata| == 4 || Walkable(records[1..])))
  }

  // ---------------------------------------------------------------- question name

  /**
   The zero octet the skip loop stops at when it starts at `i`. None when it
   would read past the end, or meet an octet that is negative as a signed
   `char`.
   */
  function SkipName(buffer: seq<byte>, i: nat): (end: Option<nat>)
    ensures end.Some? ==> i <= end.value < |buffer| && buffer[end.value] == 0
    decreases if i < |buffer| then |buffer| - i else 0
  {
    if i >= |buffer| then None
    else if buffer[i] == 0 then Some(i)
    else if buffer[i] >= 128 then None
    else SkipName(buffer, i + 1 + buffer[i])
  }

  /** The length octet of the first label, and what follows the label. */
  lemma LabelAt(buffer: seq<byte>, i: nat, labels: seq<Label>, rest: seq<byte>)
    requires labels != [] && |labels[0]| <= 127
    requires i <= |buffer| && buffer[i..] == EncodeLabels(labels) + rest
    ensures var l := labels[0];
      && |EncodeLabels(labels)| == 1 + |l| + |EncodeLabels(labels[1..])|
      && i + 1 + |l| <= |buffer| && buffer[i] == |l|
      && buffer[i + 1 + |l|..] == EncodeLabels(labels[1..]) + rest
  {
    Associative(EncodeLabel(labels[0]), EncodeLabels(labels[1..]), rest);
    assert buffer[i] == buffer[i..][0];
    assert buffer[i + 1 + |labels[0]|..] == buffer[i..][1 + |labels[0]|..];
  }

  /** Labels behind their lengths from position `i` up to the zero octet at `end`. */
  ghost predicate LabelsAt(buffer: seq<byte>, i: nat, labels: seq<Label>, end: nat)
    decreases |labels|
  {
    if labels == [] then i == end < |buffer| && buffer[end] == 0
    else i < |buffer| && buffer[i] == |labels[0]| && LabelsAt(buffer, i + 1 + |labels[0]|, labels[1..], end)
  }

  lemma {:induction false} EncodedLabelsAt(buffer: seq<byte>, i: nat, labels: seq<Label>, rest: seq<byte>)
    requires forall k :: 0 <= k < |labels| ==> |labels[k]| <= 127
    requires i <= |buffer| && buffer[i..] == EncodeLabels(labels) + rest
    requires rest != [] && rest[0] == 0
    ensures LabelsAt(buffer, i, labels, i + |EncodeLabels(labels)|)
    decreases |labels|
  {
    if labels == [] {
      assert buffer[i] == buffer[i..][0];
    } else {
      LabelAt(buffer, i, labels, rest);
      EncodedLabelsAt(buffer, i + 1 + |labels[0]|, labels[1..], rest);
    }
  }

  /** On labels of at most 127 octets the skip finds the terminator exactly when no label is empty. */
  lemma {:induction false} SkipLabels(buffer: seq<byte>, i: nat, labels: seq<Label>, end: nat)
    requires LabelsAt(buffer, i, labels, end)
    requires forall k :: 0 <= k < |labels| ==> |labels[k]| <= 127
    ensures i <= end && SkipName(buffer, i).Some? && SkipName(buffer, i).value <= end
    ensures SkipName(buffer, i).value == end <==> LabelsWithin(labels, 127)
    decreases |labels|
  {
    if labels != [] {
      SkipLabels(buffer, i + 1 + |labels[0]|, labels[1..], end);
      WithinStep(labels[0], labels[1..]);
      assert labels == [labels[0]] + labels[1..];
    }
  }

  lemma WithinStep(l: Label, labels: seq<Label>)
    ensures LabelsWithin([l] + labels, 127) <==> 0 < |l| <= 127 && LabelsWithin(labels, 127)
  {
    assert ([l] + labels)[0] == l;
    assert forall k :: 0 <= k < |labels| ==> labels[k] == ([l] + labels)[k + 1];
  }

  /**
   On a request whose labels have at most 127 octets, the skip stops on the
   terminator, and five octets further is the end of the request, exactly when
   no label is empty.
   */
  lemma SkipFindsQuestionEnd(domain: seq<byte>)
    requires forall k :: 0 <= k < |Split(domain)| ==> |Split(domain)[k]| <= 127
    ensures var end := SkipName(Request(domain), HEADER_LENGTH);
      && end.Some?
      && (end.value + QUESTION_END == |Request(domain)| <==> LabelsWithin(Split(domain), 127))
  {
    RequestLength(domain);
    EncodedLength(domain);
    assert Request(domain)[HEADER_LENGTH..] == EncodeLabels(Split(domain)) + ([0] + QUESTION_TAIL);
    EncodedLabelsAt(Request(domain), HEADER_LENGTH, Split(domain), [0] + QUESTION_TAIL);
    SkipLabels(Request(domain), HEADER_LENGTH, Split(domain), HEADER_LENGTH + |domain| + 1);
  }

  // ---------------------------------------------------------------- the parser, on any bytes

  /** How the parser ends: an address, no address, a read outside the message, or not at all. */
  datatype Outcome = Address(octets: Octets) | NoAddress | Astray | Endless

  /** Where the parser is: in the loop over the question's name, or in the loop over records. */
  datatype Place = Name(i: nat) | Records(i: nat)

  /** One turn of either loop: on to another place, or the end. */
  datatype Turn = Goes(next: Place) | Ends(outcome: Outcome)

  /** The loop over the name jumps by a signed `char`; behind the terminator it skips the question's end. */
  function Hop(buffer: seq<byte>, i: nat): Turn {
    if i >= |buffer| then Ends(Astray)
    else if buffer[i] == 0 then Goes(Records(i + QUESTION_END))
    else Goes(Name((i + SignedChar(buffer[i]) + 1) % WORD))
  }

  function Iterate(buffer: seq<byte>, i: nat): Turn {
    var at := i + RECORD_META + 2;
    if i >= |buffer| then Ends(NoAddress)
    else if at > |buffer| then Ends(Astray)
    else if at == |buffer| then Ends(NoAddress)
    else
      var n := RdLen(buffer[at - 2], buffer[at - 1]);
      if n == 4 then Ends(if at + 4 <= |buffer| then Address(buffer[at..at + 4]) else Astray)
      else Goes(Records((at + n) % WORD))
  }

  function TurnAt(buffer: seq<byte>, p: Place): Turn {
    match p
    case Name(i) => Hop(buffer, i)
    case Records(i) => Iterate(buffer, i)
  }

  /** Where the parser is after `turns` turns from `p`; a turn may go back as well as on. */
  function After(buffer: seq<byte>, p: Place, turns: nat): Turn {
    if turns == 0 then Goes(p)
    else
      match After(buffer, p, turns - 1)
      case Ends(outcome) => Ends(outcome)
      case Goes(next) => TurnAt(buffer, next)
  }

  /** A number of turns after which the parser has ended, if it ever does. */
  ghost function End(buffer: seq<byte>, p: Place): (turns: Option<nat>)
    ensures turns.Some? ==> After(buffer, p, turns.value).Ends?
  {
    if exists n: nat :: After(buffer, p, n).Ends? then
      var n: nat :| After(buffer, p, n).Ends?;
      Some(n)
    else None
  }

  /** How the parser ends from `p`. */
  ghost function OutcomeFrom(buffer: seq<byte>, p: Place): Outcome {
    if End(buffer, p).Some? then After(buffer, p, End(buffer, p).value).outcome else Endless
  }

  /** What the parser makes of a message. */
  ghost function Parse(buffer: seq<byte>): Outcome {
    OutcomeFrom(buffer, Name(HEADER_LENGTH))
  }

  /** What the caller of the parser gets: an address as text, or nothing. */
  ghost function Parsed(buffer: seq<byte>): Option<seq<byte>> {
    match Parse(buffer)
    case Address(octets) => Some(Quad(octets))
    case _ => None
  }

  /** What follows a stay at `q` is what follows from `q`. */
  lemma {:induction false} AfterBoth(buffer: seq<byte>, p: Place, m: nat, q: Place, n: nat)
    requires After(buffer, p, m) == Goes(q)
    ensures After(buffer, p, m + n) == After(buffer, q, n)
  {
    if n > 0 {
      AfterBoth(buffer, p, m, q, n - 1);
    }
  }

  lemma {:induction false} EndsOnce(buffer: seq<byte>, p: Place, m: nat, n: nat)
    requires m <= n && After(buffer, p, m).Ends?
    ensures After(buffer, p, n) == After(buffer, p, m)
  {
    if m < n {
      EndsOnce(buffer, p, m, n - 1);
    }
  }

  /** The end does not depend on how it is looked for. */
  lemma OutcomeIs(buffer: seq<byte>, p: Place, turns: nat)
    requires After(buffer, p, turns).Ends?
    ensures OutcomeFrom(buffer, p) == After(buffer, p, turns).outcome
  {
    var n := End(buffer, p).value;
    if n <= turns {
      EndsOnce(buffer, p, n, turns);
    } else {
      EndsOnce(buffer, p, turns, n);
    }
  }

  /** From a place on the way the parser ends as it does from the start. */
  lemma OutcomeAhead(buffer: seq<byte>, p: Place, m: nat, q: Place)
    requires After(buffer, p, m) == Goes(q)
    ensures OutcomeFrom(buffer, p) == OutcomeFrom(buffer, q)
  {
    if End(buffer, q).Some? {
      var n := End(buffer, q).value;
      AfterBoth(buffer, p, m, q, n);
      OutcomeIs(buffer, q, n);
      OutcomeIs(buffer, p, m + n);
    } else if End(buffer, p).Some? {
      var n := End(buffer, p).value;
      if n <= m {
        EndsOnce(buffer, p, n, m);
      } else {
        AfterBoth(buffer, p, m, q, n - m);
      }
      assert false;
    }
  }

  lemma OneTurn(buffer: seq<byte>, p: Place)
    ensures After(buffer, p, 1) == TurnAt(buffer, p)
    ensures match TurnAt(buffer, p)
      case Goes(q) => OutcomeFrom(buffer, p) == OutcomeFrom(buffer, q)
      case Ends(outcome) => OutcomeFrom(buffer, p) == outcome
  {
    assert After(buffer, p, 0) == Goes(p);
    match TurnAt(buffer, p) {
      case Goes(q) => OutcomeAhead(buffer, p, 1, q);
      case Ends(_) => OutcomeIs(buffer, p, 1);
    }
  }

  /** A turn that leads back to its own place is the last thing that ever happens. */
  lemma Stays(buffer: seq<byte>, p: Place)
    requires TurnAt(buffer, p) == Goes(p)
    ensures forall turns: nat :: After(buffer, p, turns) == Goes(p)
    ensures OutcomeFrom(buffer, p) == Endless
  {
    forall turns: nat ensures After(buffer, p, turns) == Goes(p) {
      TurnsStay(buffer, p, turns);
    }
  }

  lemma {:induction false} TurnsStay(buffer: seq<byte>, p: Place, turns: nat)
    requires TurnAt(buffer, p) == Goes(p)
    ensures After(buffer, p, turns) == Goes(p)
  {
    if turns > 0 {
      TurnsStay(buffer, p, turns - 1);
    }
  }

  /** The parser reads inside the message only, and ends. */
  ghost predicate Behaves(o: Outcome) {
    o != Astray && o != Endless
  }

  /** Whatever behaves ends after some number of turns. */
  lemma BehavesEnds(buffer: seq<byte>, p: Place) returns (turns: nat)
    requires Behaves(OutcomeFrom(buffer, p))
    ensures After(buffer, p, turns) == Ends(OutcomeFrom(buffer, p))
  {
    turns := End(buffer, p).value;
    OutcomeIs(buffer, p, turns);
  }

  /** The next turn uses up one of those left. */
  lemma OneLess(buffer: seq<byte>, p: Place, turns: nat)
    requires After(buffer, p, turns).Ends? && TurnAt(buffer, p).Goes?
    ensures turns > 0 && After(buffer, TurnAt(buffer, p).next, turns - 1) == After(buffer, p, turns)
  {
    OneTurn(buffer, p);
    AfterBoth(buffer, p, 1, TurnAt(buffer, p).next, turns - 1);
  }

  /** The loop over the name, forwards and backwards, to the terminator. */
  method SkipQuestionName(buffer: seq<byte>, start: nat) returns (i: nat)
    requires |buffer| < WORD && Behaves(OutcomeFrom(buffer, Name(start)))
    ensures i < |buffer| && buffer[i] == 0
    ensures OutcomeFrom(buffer, Name(start)) == OutcomeFrom(buffer, Records(i + QUESTION_END))
    ensures forall end :: SkipName(buffer, start) == Some(end) ==> i == end
  {
    i := start;
    ghost var left := BehavesEnds(buffer, Name(start));
    OneTurn(buffer, Name(i));
    while buffer[i] != 0x00
      invariant OutcomeFrom(buffer, Name(i)) == OutcomeFrom(buffer, Name(start))
      invariant After(buffer, Name(i), left).Ends? && i < |buffer|
      invariant SkipName(buffer, start).Some? ==> SkipName(buffer, i) == SkipName(buffer, start)
      decreases left
    {
      OneTurn(buffer, Name(i));
      OneLess(buffer, Name(i), left);
      i, left := (i + SignedChar(buffer[i]) + 1) % WORD, left - 1;
      OneTurn(buffer, Name(i));
    }
    OneTurn(buffer, Name(i));
  }

  /** The string built from four octets in a zeroed stack buffer. */
  method AddressString(octets: Octets) returns (ip: seq<byte>)
    ensures ip == Quad(octets)
  {
    var dns := new byte[32](_ => 0);
    IntToStr(octets, dns);
    ip := dns[..StrLen(dns[..])];
  }

  /** The loop over records, forwards and backwards: whether it stops at four octets, and where. */
  method FindAddress(buffer: seq<byte>, start: nat) returns (dnsCount: nat, i: nat)
    requires |buffer| <= 0x7FFF_FFFF && Behaves(OutcomeFrom(buffer, Records(start)))
    ensures match OutcomeFrom(buffer, Records(start))
      case Address(octets) => dnsCount == 1 && i + 4 <= |buffer| && buffer[i..i + 4] == octets
      case _ => dnsCount == 0
  {
    i := start;
    dnsCount := 0;
    ghost var left := BehavesEnds(buffer, Records(start));
    while i < |buffer|
      invariant dnsCount == 0 && OutcomeFrom(buffer, Records(i)) == OutcomeFrom(buffer, Records(start))
      invariant After(buffer, Records(i), left).Ends?
      decreases left
    {
      OneTurn(buffer, Records(i));
      ghost var turn := Iterate(buffer, i);
      if turn.Goes? {
        OneLess(buffer, Records(i), left);
      }
      i := i + (2 + 2 + 2 + 4);
      var rdLen := RdLen(buffer[i], buffer[i + 1]);
      i := i + 2;
      if i >= |buffer| {
        return;
      }
      if rdLen == 4 {
        dnsCount := dnsCount + 1;
        return;
      }
      i, left := (i + rdLen) % WORD, left - 1;
    }
    OneTurn(buffer, Records(i));
  }

  /**
   Parse a message on which the code reads inside the message and ends: the
   result is the address it stops at, or -1.
   */
  method ResponseParse(buffer: seq<byte>) returns (ret: int, ip: seq<byte>)
    requires |buffer| <= 0x7FFF_FFFF && Behaves(Parse(buffer))
    ensures match Parse(buffer)
      case Address(octets) => ret == 0 && ip == Quad(octets)
      case _ => ret == -1
  {
    ip := [];
    var i := SkipQuestionName(buffer, 12);
    if i >= |buffer| {
      return -1, ip;
    }
    i := i + (1 + 4);
    var dnsCount, at := FindAddress(buffer, i);
    if dnsCount == 0 {
      return -1, ip;
    }
    ip := AddressString(buffer[at..at + 4]);
    return 0, ip;
  }

  // ---------------------------------------------------------------- the parser, on responses

  /** A response: any header, the echoed question, any records. */
  ghost predicate IsResponse(buffer: seq<byte>, domain: seq<byte>, records: seq<Record>) {
    && ValidRecords(records)
    && HEADER_LENGTH <= |buffer| <= 0x7FFF_FFFF
    && buffer[HEADER_LENGTH..] == Question(domain) + EncodeRecords(records)
  }

  lemma RecordAt(buffer: seq<byte>, i: nat, records: seq<Record>)
    requires ValidRecords(records)
    requires records != [] && i <= |buffer| && buffer[i..] == EncodeRecords(records)
    ensures var n := |records[0].rdata|;
      && i + RECORD_META + 2 + n <= |buffer|
      && buffer[i + RECORD_META] == n / 256
      && buffer[i + RECORD_META + 1] == n % 256
      && buffer[i + RECORD_META + 2..][..n] == records[0].rdata
      && buffer[i + RECORD_META + 2 + n..] == EncodeRecords(records[1..])
  {
    var r, rest, b := records[0], EncodeRecords(records[1..]), buffer[i..];
    assert b[RECORD_META] == buffer[i + RECORD_META] == |r.rdata| / 256;
    assert b[RECORD_META + 1] == buffer[i + RECORD_META + 1] == |r.rdata| % 256;
    assert b[RECORD_META + 2..][..|r.rdata|] == r.rdata;
    assert b[RECORD_META + 2 + |r.rdata|..] == rest;
  }

  function OutcomeOf(answer: Option<Octets>): Outcome {
    match answer
    case Some(octets) => Address(octets)
    case None => NoAddress
  }

  /** Record `r` lies at position `i`: its length octets and its data. */
  ghost predicate LiesAt(buffer: seq<byte>, i: nat, r: Record) {
    var at, n := i + RECORD_META + 2, |r.rdata|;
    && at + n <= |buffer| && n < 0x1_0000
    && buffer[at - 2] == n / 256 && buffer[at - 1] == n % 256
    && buffer[at..at + n] == r.rdata
  }

  /** The position after record `r` at `i`. */
  function Behind(i: nat, r: Record): nat {
    i + RECORD_META + 2 + |r.rdata|
  }

  /** The records fill the buffer from position `i` to its end. */
  ghost predicate RecordsAt(buffer: seq<byte>, i: nat, records: seq<Record>)
    decreases |records|
  {
    if records == [] then i == |buffer|
    else LiesAt(buffer, i, records[0]) && RecordsAt(buffer, Behind(i, records[0]), records[1..])
  }

  lemma {:induction false} EncodedRecordsAt(buffer: seq<byte>, i: nat, records: seq<Record>)
    requires ValidRecords(records)
    requires i <= |buffer| && buffer[i..] == EncodeRecords(records)
    ensures RecordsAt(buffer, i, records)
    decreases |records|
  {
    if records != [] {
      RecordAt(buffer, i, records);
      var at, n := i + RECORD_META + 2, |records[0].rdata|;
      assert buffer[at..at + n] == buffer[at..][..n];
      EncodedRecordsAt(buffer, Behind(i, records[0]), records[1..]);
    }
  }

  /** The turn at a record: its address, the end, or wherever its length as read leads. */
  lemma TurnAtRecord(buffer: seq<byte>, i: nat, r: Record)
    requires LiesAt(buffer, i, r)
    ensures var at, n := i + RECORD_META + 2, |r.rdata|;
      Iterate(buffer, i) ==
        if at == |buffer| then Ends(NoAddress)
        else if RdLen(n / 256, n % 256) == 4 then
          Ends(if at + 4 <= |buffer| then Address(buffer[at..at + 4]) else Astray)
        else Goes(Records((at + RdLen(n / 256, n % 256)) % WORD))
  {
  }

  /**
   In a message the turn at a record with data, not an address, goes to the
   next position exactly when both RDLENGTH octets are below 128, and back to
   the record itself exactly when the low octet is 244.
   */
  lemma RecordLeadsOn(buffer: seq<byte>, i: nat, r: Record)
    requires LiesAt(buffer, i, r) && |buffer| < WORD && |r.meta| == RECORD_META
    requires r.rdata != [] && |r.rdata| != 4
    ensures Iterate(buffer, i) == Goes(Records(Behind(i, r))) <==> PlainLength(r)
    ensures Iterate(buffer, i) == Goes(Records(i)) <==> |r.rdata| % 256 == 244
  {
    TurnAtRecord(buffer, i, r);
    RdLenSum(i + RECORD_META + 2, r.rdata);
  }

  // ---------------------------------------------------------------- which way the loop goes

  /** What reading one record should do: end at its address, end behind the last one, or go on behind it. */
  ghost predicate ReadsRecord(buffer: seq<byte>, i: nat, r: Record) {
    if |r.rdata| == 4 then Iterate(buffer, i) == Ends(Address(r.rdata))
    else if i + RECORD_META + 2 == |buffer| then Iterate(buffer, i) == Ends(NoAddress)
    else Iterate(buffer, i) == Goes(Records(Behind(i, r)))
  }

  /** From position `i` the loop reads record after record, up to the first address. */
  ghost predicate Straight(buffer: seq<byte>, i: nat, records: seq<Record>)
    decreases |records|
  {
    records == [] ||
    (ReadsRecord(buffer, i, records[0])
     && (|records[0].rdata| == 4 || Straight(buffer, Behind(i, records[0]), records[1..])))
  }

  lemma PlainIsRead(buffer: seq<byte>, i: nat, r: Record)
    requires LiesAt(buffer, i, r) && |buffer| < WORD && ValidRecord(r)
    ensures ReadsRecord(buffer, i, r) <==> PlainLength(r)
  {
    TurnAtRecord(buffer, i, r);
    RdLenSum(i + RECORD_META + 2, r.rdata);
  }

  /** The loop goes straight through the records exactly when the lengths up to the first address are plain. */
  lemma {:induction false} StraightIffWalkable(buffer: seq<byte>, i: nat, records: seq<Record>)
    requires ValidRecords(records) && |buffer| < WORD && RecordsAt(buffer, i, records)
    ensures Straight(buffer, i, records) <==> Walkable(records)
    decreases |records|
  {
    if records != [] {
      PlainIsRead(buffer, i, records[0]);
      StraightIffWalkable(buffer, Behind(i, records[0]), records[1..]);
    }
  }

  // ---------------------------------------------------------------- when the answer is right

  /** Every length up to the first address is plain; without an address, up to one that overshoots. */
  ghost predicate Readable(i: nat, records: seq<Record>)
    requires ValidRecords(records)
    decreases |records|
  {
    records == [] ||
    (if PlainLength(records[0]) then
       |records[0].rdata| == 4 || Readable(Behind(i, records[0]), records[1..])
     else
       FirstAddress(records) == None && Overshoots(i, records[0]))
  }

  /** The length as read leads past the end of every message. */
  predicate Overshoots(i: nat, r: Record)
    requires |r.rdata| < 0x1_0000
  {
    i + RECORD_META + 2 + RdLen(|r.rdata| / 256, |r.rdata| % 256) < WORD
  }

  /** A misread length that overshoots ends the loop without an address. */
  lemma OvershootEnds(buffer: seq<byte>, i: nat, r: Record)
    requires LiesAt(buffer, i, r) && |buffer| <= 0x7FFF_FFFF
    requires ValidRecord(r) && !PlainLength(r) && Overshoots(i, r)
    ensures OutcomeFrom(buffer, Records(i)) == NoAddress
  {
    var n, at := |r.rdata|, i + RECORD_META + 2;
    TurnAtRecord(buffer, i, r);
    RdLenSum(at, r.rdata);
    OneTurn(buffer, Records(i));
    OneTurn(buffer, Records(at + RdLen(n / 256, n % 256)));
  }

  lemma PlainRecord(buffer: seq<byte>, i: nat, r: Record)
    requires LiesAt(buffer, i, r) && |buffer| < WORD && PlainLength(r)
    ensures OutcomeFrom(buffer, Records(i)) ==
      if |r.rdata| == 4 then Address(r.rdata) else OutcomeFrom(buffer, Records(Behind(i, r)))
  {
    PlainIsRead(buffer, i, r);
    OneTurn(buffer, Records(i));
    OneTurn(buffer, Records(Behind(i, r)));
  }

  /** From the start of a readable list of records the loop ends with the first address, or without one. */
  lemma {:induction false} ReadableIsRight(buffer: seq<byte>, i: nat, records: seq<Record>)
    requires ValidRecords(records) && |buffer| <= 0x7FFF_FFFF && RecordsAt(buffer, i, records)
    requires Readable(i, records)
    ensures OutcomeFrom(buffer, Records(i)) == OutcomeOf(FirstAddress(records))
    decreases |records|
  {
    if records == [] {
      OneTurn(buffer, Records(i));
    } else if PlainLength(records[0]) {
      PlainRecord(buffer, i, records[0]);
      if |records[0].rdata| != 4 {
        ReadableIsRight(buffer, Behind(i, records[0]), records[1..]);
      }
    } else {
      OvershootEnds(buffer, i, records[0]);
    }
  }

  lemma {:induction false} WalkableIsReadable(i: nat, records: seq<Record>)
    requires ValidRecords(records) && Walkable(records)
    ensures Readable(i, records)
    decreases |records|
  {
    if records != [] && |records[0].rdata| != 4 {
      WalkableIsReadable(Behind(i, records[0]), records[1..]);
    }
  }

  lemma DropFront(buffer: seq<byte>, i: nat, front: seq<byte>, rest: seq<byte>)
    requires i <= |buffer| && buffer[i..] == front + rest
    ensures i + |front| <= |buffer| && buffer[i + |front|..] == rest
  {
    assert buffer[i + |front|..] == buffer[i..][|front|..];
  }

  /** Where the first record of a response to a question for `domain` starts. */
  function RecordsStart(domain: seq<byte>): nat {
    HEADER_LENGTH + |Question(domain)|
  }

  lemma QuestionAt(buffer: seq<byte>, domain: seq<byte>, rest: seq<byte>)
    requires HEADER_LENGTH <= |buffer| && buffer[HEADER_LENGTH..] == Question(domain) + rest
    requires LabelsWithin(Split(domain), 127)
    ensures SkipName(buffer, HEADER_LENGTH) == Some(RecordsStart(domain) - QUESTION_END)
  {
    var labels, tail := EncodeLabels(Split(domain)), [0] + QUESTION_TAIL;
    Associative(labels, [0], QUESTION_TAIL);
    Associative(labels, tail, rest);
    EncodedLabelsAt(buffer, HEADER_LENGTH, Split(domain), tail + rest);
    SkipLabels(buffer, HEADER_LENGTH, Split(domain), HEADER_LENGTH + |labels|);
  }

  /** A forward hop, and what the skip says of it. */
  lemma HopForward(buffer: seq<byte>, i: nat)
    requires |buffer| < WORD && SkipName(buffer, i).Some? && buffer[i] != 0
    ensures After(buffer, Name(i), 1) == Goes(Name(i + 1 + buffer[i]))
    ensures i + 1 + buffer[i] < |buffer| && SkipName(buffer, i + 1 + buffer[i]) == SkipName(buffer, i)
  {
    OneTurn(buffer, Name(i));
  }

  /** Where the skip finds a terminator, the loop over the name gets behind it. */
  lemma {:induction false} SkipNameTurns(buffer: seq<byte>, i: nat, end: nat) returns (turns: nat)
    requires |buffer| < WORD && SkipName(buffer, i) == Some(end)
    ensures After(buffer, Name(i), turns) == Goes(Records(end + QUESTION_END))
    decreases |buffer| - i
  {
    if buffer[i] == 0 {
      OneTurn(buffer, Name(i));
      return 1;
    }
    HopForward(buffer, i);
    var rest := SkipNameTurns(buffer, i + 1 + buffer[i], end);
    AfterBoth(buffer, Name(i), 1, Name(i + 1 + buffer[i]), rest);
    turns := 1 + rest;
  }

  /** The parser of a response gets to the first record. */
  lemma ParseStarts(buffer: seq<byte>, domain: seq<byte>, records: seq<Record>) returns (turns: nat)
    requires IsResponse(buffer, domain, records) && LabelsWithin(Split(domain), 127)
    ensures var i := RecordsStart(domain);
      && RecordsAt(buffer, i, records)
      && After(buffer, Name(HEADER_LENGTH), turns) == Goes(Records(i))
      && Parse(buffer) == OutcomeFrom(buffer, Records(i))
  {
    var i := RecordsStart(domain);
    QuestionAt(buffer, domain, EncodeRecords(records));
    DropFront(buffer, HEADER_LENGTH, Question(domain), EncodeRecords(records));
    EncodedRecordsAt(buffer, i, records);
    turns := SkipNameTurns(buffer, HEADER_LENGTH, i - QUESTION_END);
    OutcomeAhead(buffer, Name(HEADER_LENGTH), turns, Records(i));
  }

  /**
   On a response to a question for `domain` the loop goes straight through the
   records to the first four-octet RDATA exactly when every RDLENGTH up to it
   has both octets below 128.
   */
  lemma ResponseReadStraight(buffer: seq<byte>, domain: seq<byte>, records: seq<Record>)
    requires IsResponse(buffer, domain, records) && LabelsWithin(Split(domain), 127)
    ensures Straight(buffer, RecordsStart(domain), records) <==> Walkable(records)
  {
    var _ := ParseStarts(buffer, domain, records);
    StraightIffWalkable(buffer, RecordsStart(domain), records);
  }

  /** Then, and more generally from readable records, the parser yields the first four-octet RDATA, or nothing. */
  lemma ResponseYieldsFirstAddress(buffer: seq<byte>, domain: seq<byte>, records: seq<Record>)
    requires IsResponse(buffer, domain, records) && LabelsWithin(Split(domain), 127)
    ensures Readable(RecordsStart(domain), records) ==> Parse(buffer) == OutcomeOf(FirstAddress(records))
    ensures Walkable(records) ==> Parse(buffer) == OutcomeOf(FirstAddress(records))
  {
    var _ := ParseStarts(buffer, domain, records);
    if Walkable(records) {
      WalkableIsReadable(RecordsStart(domain), records);
    }
    if Readable(RecordsStart(domain), records) {
      ReadableIsRight(buffer, RecordsStart(domain), records);
    }
  }

  /**
   In the question's name an octet of 128 or more jumps back, 255 to itself: a
   message whose name comes to it keeps the parser for ever.
   */
  lemma NameJumpsBack(buffer: seq<byte>, i: nat)
    requires |buffer| <= 0x7FFF_FFFF && i < |buffer| && buffer[i] >= 128
    ensures TurnAt(buffer, Name(i)).Goes? && TurnAt(buffer, Name(i)).next.Name?
    ensures i >= 127 ==> TurnAt(buffer, Name(i)).next.i == i - (255 - buffer[i])
    ensures buffer[i] == 255 <==> TurnAt(buffer, Name(i)) == Goes(Name(i))
    ensures buffer[i] == 255 ==> OutcomeFrom(buffer, Name(i)) == Endless
  {
    var octet: int := buffer[i];
    var jump := i + (octet - 256) + 1;
    assert jump % WORD == if jump < 0 then jump + WORD else jump;
    if buffer[i] == 255 {
      Stays(buffer, Name(i));
    }
  }

  // ---------------------------------------------------------------- a record that traps the loop

  /** Where record number `k` of a list at `i` starts. */
  function PositionOf(i: nat, records: seq<Record>, k: nat): nat
    requires k <= |records|
    decreases k
  {
    if k == 0 then i else PositionOf(Behind(i, records[0]), records[1..], k - 1)
  }

  /** The first `k` records have plain lengths, and none of them is an address. */
  ghost predicate PlainUpTo(records: seq<Record>, k: nat)
    requires k <= |records|
    decreases k
  {
    k == 0 || (PlainLength(records[0]) && |records[0].rdata| != 4 && PlainUpTo(records[1..], k - 1))
  }

  lemma PlainGoesOn(buffer: seq<byte>, i: nat, records: seq<Record>)
    requires |buffer| < WORD && RecordsAt(buffer, i, records)
    requires |records| > 1 && PlainLength(records[0]) && |records[0].rdata| != 4
    ensures RecordsAt(buffer, Behind(i, records[0]), records[1..])
    ensures After(buffer, Records(i), 1) == Goes(Records(Behind(i, records[0])))
  {
    assert LiesAt(buffer, Behind(i, records[0]), records[1..][0]);
    PlainIsRead(buffer, i, records[0]);
    OneTurn(buffer, Records(i));
  }

  lemma {:induction false} LiesAtPosition(buffer: seq<byte>, i: nat, records: seq<Record>, k: nat)
    requires RecordsAt(buffer, i, records) && k < |records|
    ensures LiesAt(buffer, PositionOf(i, records, k), records[k])
    decreases k
  {
    if k > 0 {
      LiesAtPosition(buffer, Behind(i, records[0]), records[1..], k - 1);
    }
  }

  lemma {:induction false} LoopReaches(buffer: seq<byte>, i: nat, records: seq<Record>, k: nat, p: nat)
    requires |buffer| < WORD && RecordsAt(buffer, i, records)
    requires k < |records| && PlainUpTo(records, k) && p == PositionOf(i, records, k)
    ensures After(buffer, Records(i), k) == Goes(Records(p))
    decreases k
  {
    if k > 0 {
      var next := Behind(i, records[0]);
      PlainGoesOn(buffer, i, records);
      LoopReaches(buffer, next, records[1..], k - 1, p);
      AfterBoth(buffer, Records(i), 1, Records(next), k - 1);
    }
  }

  /** From turn `k` on the parser is always at `p`. */
  ghost predicate StaysFrom(buffer: seq<byte>, start: Place, k: nat, p: Place) {
    forall turns: nat :: turns >= k ==> After(buffer, start, turns) == Goes(p)
  }

  lemma TrappedIff244(buffer: seq<byte>, at: nat, r: Record)
    requires LiesAt(buffer, at, r) && |buffer| < WORD && ValidRecord(r)
    requires r.rdata != [] && |r.rdata| != 4
    ensures StaysFrom(buffer, Records(at), 0, Records(at)) <==> |r.rdata| % 256 == 244
    ensures |r.rdata| % 256 == 244 ==> OutcomeFrom(buffer, Records(at)) == Endless
  {
    RecordLeadsOn(buffer, at, r);
    if Iterate(buffer, at) == Goes(Records(at)) {
      Stays(buffer, Records(at));
    } else {
      OneTurn(buffer, Records(at));
    }
  }

  lemma StayFromThere(buffer: seq<byte>, start: Place, k: nat, p: Place)
    requires After(buffer, start, k) == Goes(p)
    ensures StaysFrom(buffer, start, k, p) <==> StaysFrom(buffer, p, 0, p)
  {
    forall turns: nat ensures After(buffer, start, k + turns) == After(buffer, p, turns) {
      AfterBoth(buffer, start, k, p, turns);
    }
    if StaysFrom(buffer, p, 0, p) {
      forall turns: nat | turns >= k ensures After(buffer, start, turns) == Goes(p) {
        assert After(buffer, start, k + (turns - k)) == After(buffer, p, turns - k);
      }
    }
    if StaysFrom(buffer, start, k, p) {
      forall turns: nat ensures After(buffer, p, turns) == Goes(p) {
        assert After(buffer, start, k + turns) == After(buffer, p, turns);
      }
    }
  }

  /**
   On a response the loop comes through plain records, none an address, to any
   record behind them. If that one has data and is no address, the loop stays
   there for ever exactly when its low RDLENGTH octet is 244; then the parser
   never ends.
   */
  lemma LoopNeverEnds(buffer: seq<byte>, domain: seq<byte>, records: seq<Record>, k: nat)
    requires IsResponse(buffer, domain, records) && LabelsWithin(Split(domain), 127)
    requires k < |records| && PlainUpTo(records, k)
    requires records[k].rdata != [] && |records[k].rdata| != 4
    ensures var i := RecordsStart(domain); var p := Records(PositionOf(i, records, k));
      && After(buffer, Records(i), k) == Goes(p)
      && (StaysFrom(buffer, Records(i), k, p) <==> |records[k].rdata| % 256 == 244)
      && (|records[k].rdata| % 256 == 244 ==> Parse(buffer) == Endless)
  {
    var i := RecordsStart(domain);
    var at := PositionOf(i, records, k);
    var _ := ParseStarts(buffer, domain, records);
    LoopReaches(buffer, i, records, k, at);
    LiesAtPosition(buffer, i, records, k);
    TrappedIff244(buffer, at, records[k]);
    StayFromThere(buffer, Records(i), k, Records(at));
    OutcomeAhead(buffer, Records(i), k, Records(at));
  }

  // ---------------------------------------------------------------- lengths alone do not decide

  const META: seq<byte> := [0, 0, 0, 0, 0, 0, 0, 0, 0, 0]

  const LAST: Record := Record(META, [1, 2, 3, 4])

  /** 249 octets, as the loop reads them from within. */
  function DetourData(x: byte): (data: seq<byte>)
    ensures |data| == 249
  {
    seq(249, k => if k == 4 then x else if k == 132 then 116 else 0)
  }

  /** A record whose low RDLENGTH octet, 249, leads the loop back into its own data. */
  function Detour(x: byte): Record {
    Record(META, DetourData(x))
  }

  lemma DetourOctets(buffer: seq<byte>, i: nat, x: byte)
    requires LiesAt(buffer, i, Detour(x))
    ensures buffer[i + 15] == 0 && buffer[i + 16] == x && buffer[i + 143] == 0 && buffer[i + 144] == 116
    ensures i + 12 + 249 <= |buffer| && buffer[i + 10] == 0 && buffer[i + 11] == 249
  {
    var data := buffer[i + 12..i + 261];
    assert data[3] == DetourData(x)[3] && data[4] == DetourData(x)[4];
    assert data[131] == DetourData(x)[131] && data[132] == DetourData(x)[132];
  }

  /** The loop jumps back by seven, and from there the data decides. */
  lemma DetourTurns(buffer: seq<byte>, i: nat, x: byte)
    requires LiesAt(buffer, i, Detour(x)) && |buffer| < WORD
    ensures TurnAt(buffer, Records(i)) == Goes(Records(i + 5))
    ensures x == 244 ==> TurnAt(buffer, Records(i + 5)) == Goes(Records(i + 5))
    ensures x == 116 ==> TurnAt(buffer, Records(i + 5)) == Goes(Records(i + 133))
    ensures TurnAt(buffer, Records(i + 133)) == Goes(Records(Behind(i, Detour(x))))
  {
    DetourOctets(buffer, i, x);
    assert (i + 12 + (WORD - 7)) % WORD == i + 5;
    assert (i + 17 + (WORD - 12)) % WORD == i + 5;
  }

  lemma DetourLeads(buffer: seq<byte>, i: nat, x: byte)
    requires LiesAt(buffer, i, Detour(x)) && |buffer| < WORD
    ensures x == 116 ==> OutcomeFrom(buffer, Records(i)) == OutcomeFrom(buffer, Records(Behind(i, Detour(x))))
    ensures x == 244 ==> OutcomeFrom(buffer, Records(i)) == Endless
  {
    DetourTurns(buffer, i, x);
    OneTurn(buffer, Records(i));
    OneTurn(buffer, Records(i + 5));
    OneTurn(buffer, Records(i + 133));
    if x == 244 {
      Stays(buffer, Records(i + 5));
    }
  }

  /**
   Two responses with the same record lengths, the first RDLENGTH misread in
   both: one is answered rightly although the loop jumps back, the other keeps
   the parser for ever.
   */
  lemma LengthsDoNotDecide(buffer: seq<byte>, domain: seq<byte>, x: byte)
    requires IsResponse(buffer, domain, [Detour(x), LAST]) && LabelsWithin(Split(domain), 127)
    ensures !Walkable([Detour(x), LAST]) && FirstAddress([Detour(x), LAST]) == Some([1, 2, 3, 4])
    ensures x == 116 ==> Parse(buffer) == Address([1, 2, 3, 4])
    ensures x == 244 ==> Parse(buffer) == Endless
  {
    var i, records := RecordsStart(domain), [Detour(x), LAST];
    assert records[1..] == [LAST];
    assert FirstAddress(records) == FirstAddress([LAST]);
    var _ := ParseStarts(buffer, domain, records);
    DetourLeads(buffer, i, x);
    assert LiesAt(buffer, Behind(i, Detour(x)), [LAST][0]);
    PlainRecord(buffer, Behind(i, Detour(x)), LAST);
  }

  /** Such responses exist. */
  function DetourResponse(domain: seq<byte>, x: byte): seq<byte> {
    [0, 0, 0, 0, 0, 0, 0, 0, 0, 0, 0, 0] + (Question(domain) + DetourRecords(x))
  }

  function DetourRecords(x: byte): seq<byte> {
    META + [0, 249] + DetourData(x) + (META + [0, 4] + [1, 2, 3, 4])
  }

  lemma DetourIsResponse(domain: seq<byte>, x: byte)
    requires |domain| <= 0xFFFF
    ensures IsResponse(DetourResponse(domain, x), domain, [Detour(x), LAST])
  {
    var records := [Detour(x), LAST];
    assert records[1..] == [LAST] && [LAST][1..] == [];
    assert EncodeRecords([LAST]) == EncodeRecord(LAST) + [];
    assert EncodeRecords(records) == DetourRecords(x);
    EncodedLength(domain);
  }

  /** Every address the parser yields, whatever way its loops have gone, passes the address check. */
  lemma ParsedAddressIsAccepted(buffer: seq<byte>, turns: nat, octets: Octets)
    requires After(buffer, Name(HEADER_LENGTH), turns) == Ends(Address(octets))
    ensures Parsed(buffer) == Some(Quad(octets)) && AddressLike(Quad(octets))
  {
    OutcomeIs(buffer, Name(HEADER_LENGTH), turns);
    QuadReadsBack(octets);
  }
}
