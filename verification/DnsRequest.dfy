/** The query encoder: header, QNAME, QTYPE and QCLASS (RFC 1035, sections 3.1, 4.1.1 and 4.1.2). */
module DnsRequest {
  import opened Bytes
  import opened Text

  type Label = seq<byte>

  const HEADER_LENGTH: nat := 12

  /** Id 0x6666, recursion desired, one question, no other records. */
  const REQUEST_HEADER: seq<byte> := [0x66, 0x66, 0x01, 0x00, 0, 1, 0, 0, 0, 0, 0, 0]

  /** Type A, class IN. */
  const QUESTION_TAIL: seq<byte> := [0, 1, 0, 1]

  /** A label behind its length; the length is stored in one `char`. */
  function EncodeLabel(l: Label): seq<byte> {
    [|l| % 256] + l
  }

  function EncodeLabels(labels: seq<Label>): seq<byte> {
    if labels == [] then [] else EncodeLabel(labels[0]) + EncodeLabels(labels[1..])
  }

  /** The question section for a domain. */
  function Question(domain: seq<byte>): seq<byte> {
    EncodeLabels(Split(domain)) + [0] + QUESTION_TAIL
  }

  function Request(domain: seq<byte>): seq<byte> {
    REQUEST_HEADER + Question(domain)
  }

  /** A label's length is kept in one octet, so a label of 256 octets or more is announced too short. */
  lemma LengthOctet(l: Label)
    ensures |EncodeLabel(l)| == 1 + |l| && EncodeLabel(l)[1..] == l
    ensures |l| < 256 ==> EncodeLabel(l)[0] == |l|
    ensures |l| >= 256 ==> EncodeLabel(l)[0] == |l| - 256 * (|l| / 256)
  {
  }

  lemma {:induction false} EncodeLabelsAppend(a: seq<Label>, l: Label)
    ensures EncodeLabels(a + [l]) == EncodeLabels(a) + EncodeLabel(l)
    decreases |a|
  {
    if a == [] {
      assert a + [l] == [l];
      assert EncodeLabels([l]) == EncodeLabel(l) + EncodeLabels([]);
    } else {
      EncodeLabelsAppend(a[1..], l);
      assert (a + [l])[1..] == a[1..] + [l];
      Associative(EncodeLabel(a[0]), EncodeLabels(a[1..]), EncodeLabel(l));
    }
  }

  lemma Associative(a: seq<byte>, b: seq<byte>, c: seq<byte>)
    ensures (a + b) + c == a + (b + c)
  {
  }

  lemma {:induction false} EncodedLength(domain: seq<byte>)
    ensures |EncodeLabels(Split(domain))| == |domain| + 1
    decreases |domain|
  {
    var d := DotIndex(domain);
    var l := domain[..d];
    if d < |domain| {
      EncodedLength(domain[d + 1..]);
      FrontLength(l, Split(domain[d + 1..]));
    } else {
      FrontLength(l, []);
      assert l == domain && [l] + [] == Split(domain);
    }
  }

  lemma FrontLength(l: Label, labels: seq<Label>)
    ensures |EncodeLabels([l] + labels)| == 1 + |l| + |EncodeLabels(labels)|
  {
    assert ([l] + labels)[1..] == labels;
  }

  /** A request is 18 bytes longer than its domain, wherever the dots are. */
  lemma RequestLength(domain: seq<byte>)
    ensures |Request(domain)| == |domain| + 18
  {
    EncodedLength(domain);
  }

  /** After `prefix` the labels `done` are written; the text from `start` on is still to be split. */
  ghost predicate Done(domain: seq<byte>, start: nat, prefix: seq<byte>, content: seq<byte>, done: seq<Label>) {
    && start <= |domain|
    && done + Split(domain[start..]) == Split(domain)
    && content == prefix + EncodeLabels(done)
  }

  /** Where the scan is. */
  ghost predicate Scanned(domain: seq<byte>, start: nat, prefix: seq<byte>, content: seq<byte>) {
    exists done: seq<Label> :: Done(domain, start, prefix, content, done)
  }

  lemma NothingScanned(domain: seq<byte>, prefix: seq<byte>)
    ensures Scanned(domain, 0, prefix, prefix)
  {
    assert domain[0..] == domain && prefix + [] == prefix;
    assert Done(domain, 0, prefix, prefix, []);
  }

  lemma SplitAtDot(domain: seq<byte>, start: nat, dot: nat)
    requires start <= dot < |domain| && domain[dot] == DOT
    requires forall k :: start <= k < dot ==> domain[k] != DOT
    ensures Split(domain[start..]) == [domain[start..dot]] + Split(domain[dot + 1..])
  {
    var l, rest := domain[start..dot], domain[dot + 1..];
    assert domain[start..] == l + [DOT] + rest;
    SplitFirst(l, rest);
  }

  lemma DoneGrows(domain: seq<byte>, start: nat, prefix: seq<byte>, content: seq<byte>, done: seq<Label>,
                  next: nat, l: Label)
    requires Done(domain, start, prefix, content, done) && next <= |domain|
    requires Split(domain[start..]) == [l] + Split(domain[next..])
    ensures Done(domain, next, prefix, content + EncodeLabel(l), done + [l])
  {
    AppendOne(done, l, Split(domain[next..]));
    EncodeLabelsAppend(done, l);
    Associative(prefix, EncodeLabels(done), EncodeLabel(l));
  }

  lemma ScannedAtDot(domain: seq<byte>, start: nat, prefix: seq<byte>, content: seq<byte>, dot: nat)
    requires Scanned(domain, start, prefix, content)
    requires start <= dot < |domain| && domain[dot] == DOT
    requires forall k :: start <= k < dot ==> domain[k] != DOT
    ensures Scanned(domain, dot + 1, prefix, content + EncodeLabel(domain[start..dot]))
  {
    var done: seq<Label> :| Done(domain, start, prefix, content, done);
    SplitAtDot(domain, start, dot);
    DoneGrows(domain, start, prefix, content, done, dot + 1, domain[start..dot]);
  }

  lemma AppendOne(done: seq<Label>, l: Label, rest: seq<Label>)
    ensures done + ([l] + rest) == (done + [l]) + rest
  {
  }

  lemma ScannedAtEnd(domain: seq<byte>, start: nat, prefix: seq<byte>, content: seq<byte>)
    requires Scanned(domain, start, prefix, content) && start <= |domain|
    requires forall k :: start <= k < |domain| ==> domain[k] != DOT
    ensures content + EncodeLabel(domain[start..]) == prefix + EncodeLabels(Split(domain))
  {
    var done: seq<Label> :| Done(domain, start, prefix, content, done);
    SplitFirst(domain[start..], []);
    EncodeLabelsAppend(done, domain[start..]);
    Associative(prefix, EncodeLabels(done), EncodeLabel(domain[start..]));
  }

  /** Store `data` at `at`. */
  method Store(buffer: array<byte>, at: nat, data: seq<byte>) returns (next: nat)
    requires at + |data| <= buffer.Length
    modifies buffer
    ensures next == at + |data|
    ensures buffer[..next] == old(buffer[..at]) + data
    ensures forall k :: next <= k < buffer.Length ==> buffer[k] == old(buffer[k])
  {
    forall k | 0 <= k < |data| {
      buffer[at + k] := data[k];
    }
    next := at + |data|;
  }

  /**
   Write the request for `domain`, the characters before the terminator of the
   C string. The caller provides room.
   */
  method RequestConstruct(domain: seq<byte>, buffer: array<byte>) returns (index: nat)
    requires |domain| + 18 <= buffer.Length
    modifies buffer
    ensures index == |domain| + 18
    ensures buffer[..index] == Request(domain)
    ensures forall k :: index <= k < buffer.Length ==> buffer[k] == old(buffer[k])
  {
    EncodedLength(domain);
    var i := Store(buffer, 0, REQUEST_HEADER);
    i := WriteLabels(buffer, i, domain);
    i := Store(buffer, i, [0x00]);
    index := Store(buffer, i, QUESTION_TAIL);
    Associative(REQUEST_HEADER, EncodeLabels(Split(domain)), [0]);
    Associative(REQUEST_HEADER, EncodeLabels(Split(domain)) + [0], QUESTION_TAIL);
  }

  /** The scan over the domain: write a label at each dot and at the end. */
  method WriteLabels(buffer: array<byte>, at: nat, domain: seq<byte>) returns (i: nat)
    requires at + |domain| + 1 <= buffer.Length
    modifies buffer
    ensures i == at + |domain| + 1
    ensures buffer[..i] == old(buffer[..at]) + EncodeLabels(Split(domain))
    ensures forall k :: i <= k < buffer.Length ==> buffer[k] == old(buffer[k])
  {
    ghost var prefix := buffer[..at];
    i := at;
    var sectionStart := 0;
    var qnameIndex := 0;
    NothingScanned(domain, prefix);
    while true
      invariant sectionStart <= qnameIndex <= |domain|
      invariant forall k :: sectionStart <= k < qnameIndex ==> domain[k] != DOT
      invariant i == at + sectionStart
      invariant Scanned(domain, sectionStart, prefix, buffer[..i])
      invariant forall k :: at + |domain| + 1 <= k < buffer.Length ==> buffer[k] == old(buffer[k])
      decreases |domain| - qnameIndex
    {
      if qnameIndex == |domain| || domain[qnameIndex] == DOT {
        ghost var before := buffer[..i];
        i := WriteLabel(buffer, i, domain, sectionStart, qnameIndex);
        if qnameIndex == |domain| {
          assert domain[sectionStart..qnameIndex] == domain[sectionStart..];
          ScannedAtEnd(domain, sectionStart, prefix, before);
          break;
        }
        ScannedAtDot(domain, sectionStart, prefix, before, qnameIndex);
        sectionStart := qnameIndex + 1;
      }
      qnameIndex := qnameIndex + 1;
    }
  }

  /** Write the label `domain[start..end]` behind its length. */
  method WriteLabel(buffer: array<byte>, at: nat, domain: seq<byte>, start: nat, end: nat) returns (next: nat)
    requires start <= end <= |domain| && at + 1 + (end - start) <= buffer.Length
    modifies buffer
    ensures next == at + 1 + (end - start)
    ensures buffer[..next] == old(buffer[..at]) + EncodeLabel(domain[start..end])
    ensures forall k :: next <= k < buffer.Length ==> buffer[k] == old(buffer[k])
  {
    next := Store(buffer, at, [(end - start) % 256]);
    next := Store(buffer, next, domain[start..end]);
  }

  /** Two octets of a message, the first one higher. */
  function Field(message: seq<byte>, at: nat): nat
    requires at + 2 <= |message|
  {
    var high: nat, low: nat := message[at], message[at + 1];
    256 * high + low
  }

  /**
   By sections 4.1.1 and 4.1.2 of RFC 1035: a standard query with recursion
   desired, one question and nothing else, for a host address in the Internet
   class, whatever the domain.
   */
  lemma RequestFields(domain: seq<byte>)
    ensures var r := Request(domain);
      && |r| >= 18
      && Field(r, 0) == 0x6666 && Field(r, 2) == 0x0100
      && Field(r, 4) == 1 && Field(r, 6) == 0 && Field(r, 8) == 0 && Field(r, 10) == 0
      && r[|r| - 5] == 0 && Field(r, |r| - 4) == 1 && Field(r, |r| - 2) == 1
  {
    RequestLength(domain);
    var r, front := Request(domain), REQUEST_HEADER + EncodeLabels(Split(domain));
    assert r == front + ([0] + QUESTION_TAIL);
    assert forall k :: 0 <= k < 5 ==> r[|front| + k] == ([0] + QUESTION_TAIL)[k];
    assert forall k :: 0 <= k < 12 ==> r[k] == REQUEST_HEADER[k];
  }

  // ---------------------------------------------------------------- decoding

  datatype Decoded = Decoded(labels: seq<Label>, rest: seq<byte>) | Malformed

  /** Read an uncompressed name: labels of 1 to 63 octets, ended by a zero octet. */
  function DecodeName(b: seq<byte>): Decoded {
    if b == [] then Malformed
    else if b[0] == 0 then Decoded([], b[1..])
    else if b[0] > 63 || |b| < 1 + b[0] then Malformed
    else
      match DecodeName(b[1 + b[0]..])
      case Malformed => Malformed
      case Decoded(labels, rest) => Decoded([b[1..1 + b[0]]] + labels, rest)
  }

  predicate LabelsWithin(labels: seq<Label>, limit: nat) {
    forall k :: 0 <= k < |labels| ==> 0 < |labels[k]| <= limit
  }

  /** Every label has one to 63 octets. */
  predicate ValidDomain(domain: seq<byte>) {
    LabelsWithin(Split(domain), 63)
  }

  lemma {:induction false} DecodedLabelsAreShort(b: seq<byte>)
    ensures DecodeName(b).Decoded? ==> LabelsWithin(DecodeName(b).labels, 63)
    decreases |b|
  {
    if b != [] && 0 < b[0] <= 63 && |b| >= 1 + b[0] {
      DecodedLabelsAreShort(b[1 + b[0]..]);
    }
  }

  lemma {:induction false} DecodeEncoded(labels: seq<Label>, rest: seq<byte>)
    requires LabelsWithin(labels, 63)
    ensures DecodeName(EncodeLabels(labels) + ([0] + rest)) == Decoded(labels, rest)
    decreases |labels|
  {
    if labels == [] {
      assert EncodeLabels(labels) + ([0] + rest) == [0] + rest;
    } else {
      var tail := EncodeLabels(labels[1..]) + ([0] + rest);
      DecodeEncoded(labels[1..], rest);
      Associative(EncodeLabel(labels[0]), EncodeLabels(labels[1..]), [0] + rest);
      DecodeFront(labels[0], tail, EncodeLabels(labels) + ([0] + rest));
      assert labels == [labels[0]] + labels[1..];
    }
  }

  lemma DecodeFront(l: Label, tail: seq<byte>, b: seq<byte>)
    requires 0 < |l| <= 63 && b == EncodeLabel(l) + tail
    ensures var d := DecodeName(tail);
      d.Decoded? ==> DecodeName(b) == Decoded([l] + d.labels, d.rest)
  {
    assert b[0] == |l| && b[1..1 + |l|] == l && b[1 + |l|..] == tail;
  }

  /** The QNAME of a request decodes to the domain's labels exactly when each has 1 to 63 octets. */
  lemma QnameDecodes(domain: seq<byte>)
    ensures DecodeName(Request(domain)[HEADER_LENGTH..]) == Decoded(Split(domain), QUESTION_TAIL)
       <==> ValidDomain(domain)
  {
    assert Request(domain)[HEADER_LENGTH..] == EncodeLabels(Split(domain)) + ([0] + QUESTION_TAIL);
    DecodedLabelsAreShort(Request(domain)[HEADER_LENGTH..]);
    if ValidDomain(domain) {
      DecodeEncoded(Split(domain), QUESTION_TAIL);
    }
  }

  /** Different valid domains make different requests. */
  lemma RequestIsInjective(a: seq<byte>, b: seq<byte>)
    requires ValidDomain(a) && ValidDomain(b) && Request(a) == Request(b)
    ensures a == b
  {
    QnameDecodes(a);
    QnameDecodes(b);
    JoinSplit(a);
    JoinSplit(b);
  }
}
