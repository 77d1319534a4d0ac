/**
The streaming WAT reader. It looks for the JSON content-type line, reads headers to the
blank line, and takes the payload by byte length, counting whatever it cannot use.
*/
module WatStream {
  import opened Wrappers
  import opened Collections
  import opened WatText

  const MARKER: Bytes := "content-type: application/json"
  const LENGTH_PREFIX: Bytes := "content-length:"

  /** A payload decoded as UTF-8 and parsed as JSON; the decoder itself is opaque. */
  datatype Decoded<V> = BadJson | NotObject | Object(value: V)

  predicate IsMarker(line: Bytes) {
    Lower(Strip(line)) == MARKER
  }

  predicate IsBlank(header: Bytes) {
    header == ['\n'] || header == ['\r', '\n']
  }

  predicate IsLength(header: Bytes) {
    LENGTH_PREFIX <= Lower(header)
  }

  // ---------------------------------------------------------------- what a byte stream means

  /** The four counters the reader keeps. */
  datatype Counts = Counts(seen: nat, badJson: nat, notObject: nat, badWarc: nat)

  /** The records of a stream and its counts. */
  datatype Reading<V> = Reading(values: seq<V>, counts: Counts)

  function Nothing<V>(): Reading<V> {
    Warc(0)
  }

  function Plus(a: Counts, b: Counts): Counts {
    Counts(a.seen + b.seen, a.badJson + b.badJson, a.notObject + b.notObject, a.badWarc + b.badWarc)
  }

  function Then<V>(a: Reading<V>, b: Reading<V>): Reading<V> {
    Reading(a.values + b.values, Plus(a.counts, b.counts))
  }

  function Warc<V>(n: nat): Reading<V> {
    Reading([], Counts(0, 0, 0, n))
  }

  function Payload<V>(decoded: Decoded<V>): Reading<V> {
    match decoded
    case BadJson => Reading([], Counts(1, 1, 0, 0))
    case NotObject => Reading([], Counts(1, 0, 1, 0))
    case Object(value) => Reading([value], Counts(1, 0, 0, 0))
  }

  /** Headers up to the blank line: the last usable length, the unusable ones, and what follows. */
  datatype Headers = EndOfStream(bad: nat) | Headers(length: Option<int>, bad: nat, rest: Bytes)

  function ReadHeaders(s: Bytes, length: Option<int>, bad: nat): (h: Headers)
    ensures h.Headers? ==> |h.rest| < |s|
    decreases |s|
  {
    if s == [] then EndOfStream(bad)
    else
      var header, rest := s[..LineLen(s)], s[LineLen(s)..];
      if IsBlank(header) then Headers(length, bad, rest)
      else if IsLength(header) then
        match ParseInt(Strip(AfterColon(header)))
        case None => ReadHeaders(rest, length, bad + 1)
        case Some(n) => ReadHeaders(rest, Some(n), bad)
      else ReadHeaders(rest, length, bad)
  }

  /** What one marker line leads to: the end of the reading, or a place to go on from. */
  datatype Step<V> = Stop(reading: Reading<V>) | Go(reading: Reading<V>, rest: Bytes)

  /** The record after a marker line. */
  function Record<V>(decode: Bytes -> Decoded<V>, s: Bytes): (r: Step<V>)
    ensures r.Go? ==> |r.rest| <= |s|
  {
    match ReadHeaders(s, None, 0)
    case EndOfStream(bad) => Stop(Warc(bad + 1))
    case Headers(length, bad, after) =>
      if length.None? || length.value < 0 then Go(Warc(bad + 1), after)
      else if |after| < length.value then Stop(Warc(bad + 1))
      else Go(Then(Warc(bad), Payload(decode(after[..length.value]))), after[length.value..])
  }

  function Meaning<V>(decode: Bytes -> Decoded<V>, s: Bytes): Reading<V>
    decreases |s|
  {
    if s == [] then Nothing()
    else
      var line, rest := s[..LineLen(s)], s[LineLen(s)..];
      if !IsMarker(line) then Meaning(decode, rest)
      else
        match Record(decode, rest)
        case Stop(reading) => reading
        case Go(reading, after) => Then(reading, Meaning(decode, after))
  }

  lemma ThenAssociates<V>(a: Reading<V>, b: Reading<V>, c: Reading<V>)
    ensures Then(Then(a, b), c) == Then(a, Then(b, c))
  {
    Associate(a.values, b.values, c.values);
  }

  /** On every byte stream: records seen are yields, JSON failures and non-objects, nothing else. */
  lemma {:induction false} EveryRecordCounted<V>(decode: Bytes -> Decoded<V>, s: Bytes)
    ensures var m := Meaning(decode, s);
            m.counts.seen == |m.values| + m.counts.badJson + m.counts.notObject
    decreases |s|
  {
    if s != [] {
      var line, rest := s[..LineLen(s)], s[LineLen(s)..];
      if !IsMarker(line) {
        EveryRecordCounted(decode, rest);
      } else {
        match Record(decode, rest)
        case Stop(_) =>
        case Go(_, after) => EveryRecordCounted(decode, after);
      }
    }
  }

  // ---------------------------------------------------------------- the reader

  /** A binary stream and how far it has been read. */
  class Stream {
    const data: Bytes
    var at: nat

    constructor (data: Bytes)
      ensures this.data == data && at == 0 && Valid()
    {
      this.data, at := data, 0;
    }

    predicate Valid()
      reads this
    {
      at <= |data|
    }

    function Rest(): Bytes
      requires Valid()
      reads this
    {
      data[at..]
    }

    method ReadLine() returns (line: Bytes)
      requires Valid()
      modifies this
      ensures Valid() && line == old(Rest())[..LineLen(old(Rest()))] && Rest() == old(Rest())[LineLen(old(Rest()))..]
    {
      var n := 0;
      while at + n < |data| && (n == 0 || data[at + n - 1] != '\n')
        invariant at + n <= |data|
        invariant LineLen(Rest()) == if n > 0 && data[at + n - 1] == '\n' then n else n + LineLen(data[at + n..])
      {
        assert data[at + n..][1..] == data[at + n + 1..];
        n := n + 1;
      }
      line := data[at..at + n];
      at := at + n;
    }

    method Read(count: nat) returns (bytes: Bytes)
      requires Valid()
      modifies this
      ensures Valid()
      ensures bytes == if count <= |old(Rest())| then old(Rest())[..count] else old(Rest())
      ensures Rest() == old(Rest())[|bytes|..]
    {
      var n := if count <= |data| - at then count else |data| - at;
      bytes := data[at..at + n];
      at := at + n;
    }
  }

  /** The counters `iter_wat_json` touches. */
  class Metrics {
    var recordsSeen: nat
    var malformedRecords: nat
    var malformedJson: nat
    var malformedWarc: nat

    constructor ()
      ensures recordsSeen == malformedRecords == malformedJson == malformedWarc == 0
    {
      recordsSeen, malformedRecords, malformedJson, malformedWarc := 0, 0, 0, 0;
    }
  }

  /** The counters moved on by a reading. */
  twostate predicate Counted(m: Metrics, r: Counts)
    reads m
  {
    && m.recordsSeen == old(m.recordsSeen) + r.seen
    && m.malformedJson == old(m.malformedJson) + r.badJson
    && m.malformedRecords == old(m.malformedRecords) + r.notObject
    && m.malformedWarc == old(m.malformedWarc) + r.badWarc
  }

  /** The header loop; None when the stream ends inside the headers. */
  method ReadHeaderBlock(stream: Stream, metrics: Metrics) returns (r: Option<Option<int>>)
    requires stream.Valid()
    modifies stream, metrics
    ensures stream.Valid() && |stream.Rest()| <= |old(stream.Rest())|
    ensures match ReadHeaders(old(stream.Rest()), None, 0)
            case EndOfStream(bad) => r == None && Counted(metrics, Counts(0, 0, 0, bad + 1))
            case Headers(length, bad, rest) => r == Some(length) && stream.Rest() == rest && Counted(metrics, Counts(0, 0, 0, bad))
  {
    var length: Option<int> := None;
    ghost var bad := 0;
    while true
      invariant stream.Valid() && |stream.Rest()| <= |old(stream.Rest())|
      invariant ReadHeaders(old(stream.Rest()), None, 0) == ReadHeaders(stream.Rest(), length, bad)
      invariant Counted(metrics, Counts(0, 0, 0, bad))
      decreases |stream.Rest()|
    {
      var header := stream.ReadLine();
      if header == [] {
        metrics.malformedWarc := metrics.malformedWarc + 1;
        return None;
      }
      if IsBlank(header) {
        break;
      }
      if IsLength(header) {
        var parsed := ParseInt(Strip(AfterColon(header)));
        if parsed.Some? {
          length := parsed;
        } else {
          metrics.malformedWarc := metrics.malformedWarc + 1;
          bad := bad + 1;
        }
      }
    }
    r := Some(length);
  }

  /** The record after a marker line: false when the reader returns. */
  method ReadRecord<V>(stream: Stream, metrics: Metrics, decode: Bytes -> Decoded<V>) returns (more: bool, values: seq<V>)
    requires stream.Valid()
    modifies stream, metrics
    ensures stream.Valid() && |stream.Rest()| <= |old(stream.Rest())|
    ensures match Record(decode, old(stream.Rest()))
            case Stop(reading) => !more && values == reading.values && Counted(metrics, reading.counts)
            case Go(reading, rest) => more && stream.Rest() == rest && values == reading.values && Counted(metrics, reading.counts)
  {
    ghost var record, headers := Record(decode, stream.Rest()), ReadHeaders(stream.Rest(), None, 0);
    var length := ReadHeaderBlock(stream, metrics);
    if length.None? {
      assert record == Stop(Warc(headers.bad + 1));
      return false, [];
    }
    if length.value.None? || length.value.value < 0 {
      assert record == Go(Warc(headers.bad + 1), headers.rest);
      metrics.malformedWarc := metrics.malformedWarc + 1;
      return true, [];
    }
    var payload := stream.Read(length.value.value);
    if |payload| != length.value.value {
      assert record == Stop(Warc(headers.bad + 1));
      metrics.malformedWarc := metrics.malformedWarc + 1;
      return false, [];
    }
    metrics.recordsSeen := metrics.recordsSeen + 1;
    assert record == Go(Then(Warc(headers.bad), Payload(decode(payload))), stream.Rest());
    match decode(payload)
    case BadJson =>
      metrics.malformedJson := metrics.malformedJson + 1;
      return true, [];
    case NotObject =>
      metrics.malformedRecords := metrics.malformedRecords + 1;
      return true, [];
    case Object(value) =>
      return true, [value];
  }

  /**
   * `iter_wat_json`, run to its end: the yielded values and the counters are exactly what the
   * stream means, and the loop ends on every byte stream.
   */
  method IterWatJson<V>(stream: Stream, metrics: Metrics, decode: Bytes -> Decoded<V>) returns (values: seq<V>)
    requires stream.Valid()
    modifies stream, metrics
    ensures values == Meaning(decode, old(stream.Rest())).values
    ensures Counted(metrics, Meaning(decode, old(stream.Rest())).counts)
  {
    values := [];
    ghost var done: Reading<V>, whole := Nothing(), Meaning(decode, stream.Rest());
    ThenNothing(decode, stream.Rest());
    while true
      invariant stream.Valid()
      invariant whole == Then(done, Meaning(decode, stream.Rest()))
      invariant values == done.values && Counted(metrics, done.counts)
      decreases |stream.Rest()|
    {
      ghost var rest := stream.Rest();
      var line := stream.ReadLine();
      if line == [] {
        AtTheEnd(decode, done, rest);
        return;
      }
      if !IsMarker(line) {
        PastLine(decode, done, rest);
        continue;
      }
      PastRecord(decode, done, rest);
      ghost var record := Record(decode, stream.Rest());
      var more, found := ReadRecord(stream, metrics, decode);
      values := values + found;
      done := Then(done, record.reading);
      if !more {
        return;
      }
    }
  }

  lemma MeaningOf<V>(decode: Bytes -> Decoded<V>, s: Bytes)
    ensures s == [] ==> Meaning(decode, s) == Nothing()
    ensures s != [] ==>
              var line, rest := s[..LineLen(s)], s[LineLen(s)..];
              Meaning(decode, s) == if !IsMarker(line) then Meaning(decode, rest)
                                    else match Record(decode, rest)
                                         case Stop(reading) => reading
                                         case Go(reading, after) => Then(reading, Meaning(decode, after))
  {
  }

  lemma AtTheEnd<V>(decode: Bytes -> Decoded<V>, done: Reading<V>, rest: Bytes)
    requires rest == []
    ensures Then(done, Meaning(decode, rest)) == done
  {
  }

  lemma PastLine<V>(decode: Bytes -> Decoded<V>, done: Reading<V>, rest: Bytes)
    requires rest != [] && !IsMarker(rest[..LineLen(rest)])
    ensures Then(done, Meaning(decode, rest)) == Then(done, Meaning(decode, rest[LineLen(rest)..]))
  {
    MeaningOf(decode, rest);
  }

  lemma PastRecord<V>(decode: Bytes -> Decoded<V>, done: Reading<V>, rest: Bytes)
    requires rest != [] && IsMarker(rest[..LineLen(rest)])
    ensures Then(done, Meaning(decode, rest))
            == match Record(decode, rest[LineLen(rest)..])
               case Stop(reading) => Then(done, reading)
               case Go(reading, after) => Then(Then(done, reading), Meaning(decode, after))
  {
    MeaningOf(decode, rest);
    match Record(decode, rest[LineLen(rest)..])
    case Stop(_) =>
    case Go(reading, after) => ThenAssociates(done, reading, Meaning(decode, after));
  }

  lemma ThenNothing<V>(decode: Bytes -> Decoded<V>, s: Bytes)
    ensures Then(Nothing(), Meaning(decode, s)) == Meaning(decode, s)
  {
  }

  // ---------------------------------------------------------------- round trip

  /** A record as it is printed: header lines around the two that matter, a payload, separators. */
  datatype Printed = Printed(before: seq<Bytes>, between: seq<Bytes>, payload: Bytes, eol: Bytes)

  /** The blank line that ends the headers, with or without a carriage return. */
  predicate IsEol(eol: Bytes) {
    eol == "\n" || eol == "\r\n"
  }

  predicate MarksJson(line: Bytes) {
    Lower(Strip(line)) == "content-type: application/json"
  }

  predicate TellsLength(header: Bytes) {
    "content-length:" <= Lower(header)
  }

  /** Lines that are not the marker, then lines that are neither blank nor a length. */
  ghost predicate WellFormed(r: Printed) {
    && IsEol(r.eol)
    && (forall line | line in r.before :: IsLine(line) && !MarksJson(line))
    && (forall line | line in r.between :: IsLine(line) && !IsEol(line) && !TellsLength(line))
  }

  function Lines(lines: seq<Bytes>): Bytes {
    if lines == [] then [] else lines[0] + Lines(lines[1..])
  }

  const MARKER_TEXT: Bytes := "Content-Type: application/json"
  const LENGTH_TEXT: Bytes := "Content-Length"

  function MarkerLine(eol: Bytes): Bytes {
    MARKER_TEXT + eol
  }

  function LengthLine(n: nat, eol: Bytes): Bytes {
    LENGTH_TEXT + [':'] + ([' '] + Decimal(n) + eol)
  }

  function Print(r: Printed): Bytes {
    Lines(r.before)
    + (MarkerLine(r.eol) + (Lines(r.between) + (LengthLine(|r.payload|, r.eol) + (r.eol + (r.payload + (r.eol + r.eol))))))
  }

  function PrintAll(rs: seq<Printed>): Bytes {
    if rs == [] then [] else Print(rs[0]) + PrintAll(rs[1..])
  }

  lemma EolFacts(eol: Bytes)
    requires IsEol(eol)
    ensures IsLine(eol) && AllSpace(eol) && !IsMarker(eol)
  {
    StripOfSpace(eol);
  }

  lemma {:induction false} StripOfSpace(s: Bytes)
    requires AllSpace(s)
    ensures Strip(s) == []
  {
    if s != [] {
      assert s[0] in s;
      StripOfSpace(s[1..]);
    }
  }

  lemma MarkerText()
    ensures Lower(MARKER_TEXT) == MARKER && Tight(MARKER_TEXT) && '\n' !in MARKER_TEXT
  {
  }

  lemma TextLine(text: Bytes, eol: Bytes)
    requires IsEol(eol) && '\n' !in text
    ensures IsLine(text + eol)
  {
  }

  lemma MarkerLineIs(eol: Bytes)
    requires IsEol(eol)
    ensures IsLine(MarkerLine(eol)) && IsMarker(MarkerLine(eol))
  {
    EolFacts(eol);
    MarkerText();
    MarkedLine(MARKER_TEXT, eol);
  }

  lemma MarkedLine(text: Bytes, eol: Bytes)
    requires IsEol(eol) && AllSpace(eol) && Tight(text) && '\n' !in text
    ensures IsLine(text + eol) && Strip(text + eol) == text
  {
    TextLine(text, eol);
    StripPadded([], text, eol);
    assert [] + text + eol == text + eol;
  }

  lemma LengthLineEnds(n: nat, eol: Bytes)
    requires IsEol(eol)
    ensures IsLine(LengthLine(n, eol))
  {
    EolFacts(eol);
    IntOfDecimal(n);
    var line := LengthLine(n, eol);
    forall i: nat | i < |line| - 1
      ensures line[i] != '\n'
    {
      var head := LENGTH_TEXT + [':'] + [' '];
      if |head| <= i < |head| + |Decimal(n)| {
        assert line[i] == Decimal(n)[i - |head|];
        assert Decimal(n)[i - |head|] in Decimal(n);
      }
    }
  }

  lemma LengthLineIs(n: nat, eol: Bytes)
    requires IsEol(eol)
    ensures var line := LengthLine(n, eol);
            IsLine(line) && !IsBlank(line) && IsLength(line) && ParseInt(Strip(AfterColon(line))) == Some(n)
  {
    LengthLineParses(n, eol);
    var line := LengthLine(n, eol);
    assert Lower(line)[..|LENGTH_PREFIX|] == LENGTH_PREFIX;
    LengthLineEnds(n, eol);
  }

  lemma LengthLineParses(n: nat, eol: Bytes)
    requires IsEol(eol)
    ensures ParseInt(Strip(AfterColon(LengthLine(n, eol)))) == Some(n)
  {
    EolFacts(eol);
    IntOfDecimal(n);
    AfterFirstColon(LENGTH_TEXT, [' '] + Decimal(n) + eol);
    StripPadded([' '], Decimal(n), eol);
  }

  // ---------------------------------------------------------------- framing

  /** A header that tells the length `n`, in the sense of Python's `int`. */
  predicate Tells(header: Bytes, n: int) {
    TellsLength(header) && ParseInt(Strip(AfterColon(header))) == Some(n)
  }

  /** A length header whose number cannot be read. */
  predicate Garbled(header: Bytes) {
    TellsLength(header) && ParseInt(Strip(AfterColon(header))) == None
  }

  /** The length that holds behind these headers: what the last header that tells one told. */
  ghost predicate Holds(headers: seq<Bytes>, length: Option<int>) {
    match length
    case None => forall h, n | h in headers :: !Tells(h, n)
    case Some(n) => exists i: nat :: i < |headers| && Tells(headers[i], n) && forall j: nat, m | i < j < |headers| :: !Tells(headers[j], m)
  }

  /** The same with a length told before these headers. */
  ghost predicate After(headers: seq<Bytes>, before: Option<int>, length: Option<int>) {
    if forall h, n | h in headers :: !Tells(h, n) then length == before else length.Some? && Holds(headers, length)
  }

  function Told(header: Bytes): Option<int> {
    if TellsLength(header) then ParseInt(Strip(AfterColon(header))) else None
  }

  lemma HeaderStep(h: Bytes, tail: Bytes, length: Option<int>, bad: nat)
    requires IsLine(h) && !IsEol(h)
    ensures ReadHeaders(h + tail, length, bad)
            == ReadHeaders(tail, if Told(h).Some? then Told(h) else length, if Garbled(h) then bad + 1 else bad)
  {
    LineThen(h, tail);
  }

  lemma BlockEnds(eol: Bytes, rest: Bytes, length: Option<int>, bad: nat)
    requires IsEol(eol)
    ensures ReadHeaders(eol + rest, length, bad) == Headers(length, bad, rest)
  {
    EolFacts(eol);
    LineThen(eol, rest);
  }

  lemma {:induction false} HeaderBlock(headers: seq<Bytes>, eol: Bytes, rest: Bytes, length: Option<int>, bad: nat)
    requires IsEol(eol) && forall h | h in headers :: IsLine(h) && !IsEol(h)
    ensures var end := ReadHeaders(Lines(headers) + (eol + rest), length, bad);
            && end.Headers? && end.rest == rest && end.bad == bad + Count(headers, Garbled)
            && After(headers, length, end.length)
  {
    if headers == [] {
      BlockEnds(eol, rest, length, bad);
      assert Lines(headers) + (eol + rest) == eol + rest;
    } else {
      var h, tail := headers[0], Lines(headers[1..]) + (eol + rest);
      assert h in headers;
      Associate(h, Lines(headers[1..]), eol + rest);
      HeaderStep(h, tail, length, bad);
      var next, garbled := if Told(h).Some? then Told(h) else length, if Garbled(h) then bad + 1 else bad;
      HeaderBlock(headers[1..], eol, rest, next, garbled);
      CountFirst(headers, Garbled);
      HoldsFirst(headers, length, ReadHeaders(tail, next, garbled).length);
    }
  }

  lemma HoldsFirst(headers: seq<Bytes>, length: Option<int>, end: Option<int>)
    requires headers != []
    requires After(headers[1..], if Told(headers[0]).Some? then Told(headers[0]) else length, end)
    ensures After(headers, length, end)
  {
    if exists h, n :: h in headers[1..] && Tells(h, n) {
      var i: nat :| i < |headers| - 1 && Tells(headers[1..][i], end.value)
                    && forall j: nat, m | i < j < |headers| - 1 :: !Tells(headers[1..][j], m);
      assert Tells(headers[i + 1], end.value);
      forall j: nat, m | i + 1 < j < |headers|
        ensures !Tells(headers[j], m)
      {
        assert headers[j] == headers[1..][j - 1];
      }
    } else if Told(headers[0]).Some? {
      assert Tells(headers[0], end.value);
      forall j: nat, m | 0 < j < |headers|
        ensures !Tells(headers[j], m)
      {
        assert headers[j] in headers[1..];
      }
    } else {
      forall h, n | h in headers
        ensures !Tells(h, n)
      {
        if h != headers[0] {
          assert h in headers[1..];
        }
      }
    }
  }

  /**
   * What one block of headers does to the reading, whatever its headers. A length that is
   * missing or negative costs one error and only this block; a length past the end of the stream
   * ends the reading; any other takes just that many bytes, whatever is in them.
   */
  lemma BlockMeans<V>(decode: Bytes -> Decoded<V>, before: seq<Bytes>, marker: Bytes, headers: seq<Bytes>, eol: Bytes, rest: Bytes,
                      length: Option<int>)
    requires forall line | line in before :: IsLine(line) && !MarksJson(line)
    requires IsLine(marker) && MarksJson(marker) && IsEol(eol)
    requires forall h | h in headers :: IsLine(h) && !IsEol(h)
    requires Holds(headers, length)
    ensures var garbled := Count(headers, Garbled);
            Meaning(decode, Lines(before) + (marker + (Lines(headers) + (eol + rest))))
            == if length.None? || length.value < 0 then Then(Warc(garbled + 1), Meaning(decode, rest))
               else if length.value > |rest| then Warc(garbled + 1)
               else Then(Then(Warc(garbled), Payload(decode(rest[..length.value]))), Meaning(decode, rest[length.value..]))
  {
    SkipLines(decode, before, marker + (Lines(headers) + (eol + rest)));
    BlockIs(decode, marker, headers, eol, rest, length);
  }

  lemma WarcThen<V>(n: nat, r: Reading<V>)
    ensures Then(Warc(n), r) == Reading(r.values, Plus(Counts(0, 0, 0, n), r.counts))
  {
  }

  lemma BlockIs<V>(decode: Bytes -> Decoded<V>, marker: Bytes, headers: seq<Bytes>, eol: Bytes, rest: Bytes, length: Option<int>)
    requires IsLine(marker) && MarksJson(marker) && IsEol(eol)
    requires forall h | h in headers :: IsLine(h) && !IsEol(h)
    requires Holds(headers, length)
    ensures var garbled := Count(headers, Garbled);
            Meaning(decode, marker + (Lines(headers) + (eol + rest)))
            == if length.None? || length.value < 0 then Then(Warc(garbled + 1), Meaning(decode, rest))
               else if length.value > |rest| then Warc(garbled + 1)
               else Then(Then(Warc(garbled), Payload(decode(rest[..length.value]))), Meaning(decode, rest[length.value..]))
  {
    MarkerThen(decode, marker, Lines(headers) + (eol + rest));
    BlockRecord(decode, headers, eol, rest, length);
  }

  lemma MarkerThen<V>(decode: Bytes -> Decoded<V>, marker: Bytes, tail: Bytes)
    requires IsLine(marker) && MarksJson(marker)
    ensures Meaning(decode, marker + tail)
            == match Record(decode, tail)
               case Stop(reading) => reading
               case Go(reading, after) => Then(reading, Meaning(decode, after))
  {
    LineThen(marker, tail);
    MeaningOf(decode, marker + tail);
  }

  lemma BlockRecord<V>(decode: Bytes -> Decoded<V>, headers: seq<Bytes>, eol: Bytes, rest: Bytes, length: Option<int>)
    requires IsEol(eol) && forall h | h in headers :: IsLine(h) && !IsEol(h)
    requires Holds(headers, length)
    ensures var garbled := Count(headers, Garbled);
            Record(decode, Lines(headers) + (eol + rest))
            == if length.None? || length.value < 0 then Go(Warc(garbled + 1), rest)
               else if length.value > |rest| then Stop(Warc(garbled + 1))
               else Go(Then(Warc(garbled), Payload(decode(rest[..length.value]))), rest[length.value..])
  {
    BlockHeaders(headers, eol, rest, length);
    RecordOf(decode, Lines(headers) + (eol + rest), length, Count(headers, Garbled), rest);
  }

  lemma BlockHeaders(headers: seq<Bytes>, eol: Bytes, rest: Bytes, length: Option<int>)
    requires IsEol(eol) && forall h | h in headers :: IsLine(h) && !IsEol(h)
    requires Holds(headers, length)
    ensures ReadHeaders(Lines(headers) + (eol + rest), None, 0) == Headers(length, Count(headers, Garbled), rest)
  {
    HeaderBlock(headers, eol, rest, None, 0);
    SameLength(headers, length, ReadHeaders(Lines(headers) + (eol + rest), None, 0).length);
  }

  lemma RecordOf<V>(decode: Bytes -> Decoded<V>, tail: Bytes, length: Option<int>, bad: nat, rest: Bytes)
    requires ReadHeaders(tail, None, 0) == Headers(length, bad, rest)
    ensures Record(decode, tail)
            == if length.None? || length.value < 0 then Go(Warc(bad + 1), rest)
               else if length.value > |rest| then Stop(Warc(bad + 1))
               else Go(Then(Warc(bad), Payload(decode(rest[..length.value]))), rest[length.value..])
  {
  }

  lemma SameLength(headers: seq<Bytes>, a: Option<int>, b: Option<int>)
    requires Holds(headers, a) && Holds(headers, b)
    ensures a == b
  {
    if a.Some? && b.Some? {
      var i: nat :| i < |headers| && Tells(headers[i], a.value) && forall j: nat, m | i < j < |headers| :: !Tells(headers[j], m);
      var k: nat :| k < |headers| && Tells(headers[k], b.value) && forall j: nat, m | k < j < |headers| :: !Tells(headers[j], m);
      assert i == k;
    }
  }

  lemma {:induction false} NoEol(piece: Bytes)
    requires '\n' !in piece
    ensures LineLen(piece) == |piece|
  {
    if piece != [] {
      NoEol(piece[1..]);
    }
  }

  /** What is left of a line that the stream breaks off in. */
  lemma BrokenOff(piece: Bytes, length: Option<int>, bad: nat)
    requires '\n' !in piece && piece != []
    ensures ReadHeaders(piece, length, bad) == EndOfStream(if Garbled(piece) then bad + 1 else bad)
  {
    NoEol(piece);
    assert piece[..LineLen(piece)] == piece;
  }

  lemma {:induction false} CutHeaders(headers: seq<Bytes>, piece: Bytes, length: Option<int>, bad: nat)
    requires (forall h | h in headers :: IsLine(h) && !IsEol(h)) && '\n' !in piece
    ensures ReadHeaders(Lines(headers) + piece, length, bad)
            == EndOfStream(bad + Count(headers, Garbled) + if Garbled(piece) then 1 else 0)
  {
    if headers != [] {
      var h := headers[0];
      assert h in headers;
      assert Lines(headers) + piece == h + (Lines(headers[1..]) + piece);
      HeaderStep(h, Lines(headers[1..]) + piece, length, bad);
      CutHeaders(headers[1..], piece, if Told(h).Some? then Told(h) else length, if Garbled(h) then bad + 1 else bad);
      CountFirst(headers, Garbled);
    } else if piece != [] {
      assert Lines(headers) + piece == piece;
      BrokenOff(piece, length, bad);
    }
  }

  /** A stream cut inside the headers, or inside one of them, costs one error and yields nothing more. */
  lemma CutBlockMeans<V>(decode: Bytes -> Decoded<V>, before: seq<Bytes>, marker: Bytes, headers: seq<Bytes>, piece: Bytes)
    requires forall line | line in before :: IsLine(line) && !MarksJson(line)
    requires IsLine(marker) && MarksJson(marker) && (forall h | h in headers :: IsLine(h) && !IsEol(h)) && '\n' !in piece
    ensures Meaning(decode, Lines(before) + (marker + (Lines(headers) + piece)))
            == Warc(Count(headers, Garbled) + (if Garbled(piece) then 1 else 0) + 1)
  {
    SkipLines(decode, before, marker + (Lines(headers) + piece));
    MarkerThen(decode, marker, Lines(headers) + piece);
    CutHeaders(headers, piece, None, 0);
  }

  lemma LengthOf(headers: seq<Bytes>, eol: Bytes) returns (length: Option<int>)
    requires IsEol(eol) && forall h | h in headers :: IsLine(h) && !IsEol(h)
    ensures Holds(headers, length) && (length.Some? ==> exists h :: h in headers && Tells(h, length.value))
  {
    HeaderBlock(headers, eol, [], None, 0);
    length := ReadHeaders(Lines(headers) + (eol + []), None, 0).length;
  }

  lemma BadBlock<V>(decode: Bytes -> Decoded<V>, before: seq<Bytes>, marker: Bytes, headers: seq<Bytes>, eol: Bytes, rest: Bytes)
    requires forall line | line in before :: IsLine(line) && !MarksJson(line)
    requires IsLine(marker) && MarksJson(marker) && IsEol(eol)
    requires forall h | h in headers :: IsLine(h) && !IsEol(h) && forall n :: Tells(h, n) ==> n < 0
    ensures var whole := Meaning(decode, Lines(before) + (marker + (Lines(headers) + (eol + rest))));
            && whole.values == Meaning(decode, rest).values
            && whole.counts == Plus(Counts(0, 0, 0, Count(headers, Garbled) + 1), Meaning(decode, rest).counts)
  {
    var length := LengthOf(headers, eol);
    BlockMeans(decode, before, marker, headers, eol, rest, length);
    WarcThen(Count(headers, Garbled) + 1, Meaning(decode, rest));
  }

  /** A block without a usable length costs one error, and every record behind it is still read. */
  lemma BadBlockKeepsRecords<V>(decode: Bytes -> Decoded<V>, before: seq<Bytes>, marker: Bytes, headers: seq<Bytes>, eol: Bytes,
                                rs: seq<Printed>)
    requires forall line | line in before :: IsLine(line) && !MarksJson(line)
    requires IsLine(marker) && MarksJson(marker) && IsEol(eol)
    requires forall h | h in headers :: IsLine(h) && !IsEol(h) && forall n :: Tells(h, n) ==> n < 0
    requires forall r | r in rs :: WellFormed(r)
    ensures var whole := Meaning(decode, Lines(before) + (marker + (Lines(headers) + (eol + PrintAll(rs)))));
            && whole.values == Contents(decode, rs).values
            && whole.counts == Plus(Counts(0, 0, 0, Count(headers, Garbled) + 1), Contents(decode, rs).counts)
  {
    PrintedReads(decode, rs);
    BadBlock(decode, before, marker, headers, eol, PrintAll(rs));
  }

  // ---------------------------------------------------------------- printed records

  /** Lines that are not the marker are passed over. */
  lemma {:induction false} SkipLines<V>(decode: Bytes -> Decoded<V>, lines: seq<Bytes>, rest: Bytes)
    requires forall line | line in lines :: IsLine(line) && !IsMarker(line)
    ensures Meaning(decode, Lines(lines) + rest) == Meaning(decode, rest)
  {
    if lines == [] {
      assert Lines(lines) + rest == rest;
    } else {
      assert lines[0] in lines;
      assert Lines(lines) + rest == lines[0] + (Lines(lines[1..]) + rest);
      LineThen(lines[0], Lines(lines[1..]) + rest);
      SkipLines(decode, lines[1..], rest);
    }
  }

  /** Headers that are neither blank nor a length are passed over. */
  lemma {:induction false} SkipHeaders(lines: seq<Bytes>, rest: Bytes)
    requires forall line | line in lines :: IsLine(line) && !IsBlank(line) && !IsLength(line)
    ensures ReadHeaders(Lines(lines) + rest, None, 0) == ReadHeaders(rest, None, 0)
  {
    if lines == [] {
      assert Lines(lines) + rest == rest;
    } else {
      assert lines[0] in lines;
      assert Lines(lines) + rest == lines[0] + (Lines(lines[1..]) + rest);
      LineThen(lines[0], Lines(lines[1..]) + rest);
      SkipHeaders(lines[1..], rest);
    }
  }

  lemma HeadersOf(r: Printed, rest: Bytes)
    requires WellFormed(r)
    ensures ReadHeaders(Lines(r.between) + (LengthLine(|r.payload|, r.eol) + (r.eol + rest)), None, 0)
            == Headers(Some(|r.payload|), 0, rest)
  {
    EolFacts(r.eol);
    LengthLineIs(|r.payload|, r.eol);
    SkipHeaders(r.between, LengthLine(|r.payload|, r.eol) + (r.eol + rest));
    LineThen(LengthLine(|r.payload|, r.eol), r.eol + rest);
    LineThen(r.eol, rest);
  }

  lemma AfterMarker<V>(decode: Bytes -> Decoded<V>, line: Bytes, headers: Bytes, n: nat, tail: Bytes)
    requires IsLine(line) && IsMarker(line) && n <= |tail|
    requires ReadHeaders(headers, None, 0) == Headers(Some(n), 0, tail)
    ensures Meaning(decode, line + headers) == Then(Payload(decode(tail[..n])), Meaning(decode, tail[n..]))
  {
    LineThen(line, headers);
    MeaningOf(decode, line + headers);
    assert Record(decode, headers) == Go(Then(Warc(0), Payload(decode(tail[..n]))), tail[n..]);
    WarcNothing(Payload(decode(tail[..n])));
  }

  lemma WarcNothing<V>(r: Reading<V>)
    ensures Then(Warc(0), r) == r
  {
  }

  /** One printed record reads back as its payload, whatever bytes the payload holds. */
  lemma OneRoundTrip<V>(decode: Bytes -> Decoded<V>, r: Printed, rest: Bytes)
    requires WellFormed(r)
    ensures Meaning(decode, Print(r) + rest) == Then(Payload(decode(r.payload)), Meaning(decode, rest))
  {
    var tail := r.payload + (r.eol + r.eol) + rest;
    var headers := Lines(r.between) + (LengthLine(|r.payload|, r.eol) + (r.eol + tail));
    EolFacts(r.eol);
    MarkerLineIs(r.eol);
    Regroup(Lines(r.before), MarkerLine(r.eol), Lines(r.between), LengthLine(|r.payload|, r.eol), r.eol, r.payload, r.eol + r.eol, rest);
    SkipLines(decode, r.before, MarkerLine(r.eol) + headers);
    HeadersOf(r, tail);
    AfterMarker(decode, MarkerLine(r.eol), headers, |r.payload|, tail);
    TailOf(r.payload, r.eol, rest);
    SkipLines(decode, [r.eol, r.eol], rest);
  }

  lemma Regroup(a: Bytes, b: Bytes, c: Bytes, d: Bytes, e: Bytes, f: Bytes, g: Bytes, rest: Bytes)
    ensures a + (b + (c + (d + (e + (f + g))))) + rest == a + (b + (c + (d + (e + (f + g + rest)))))
  {
  }

  lemma TailOf(payload: Bytes, eol: Bytes, rest: Bytes)
    ensures (payload + (eol + eol) + rest)[..|payload|] == payload
    ensures (payload + (eol + eol) + rest)[|payload|..] == Lines([eol, eol]) + rest
  {
    assert Lines([eol, eol]) == eol + Lines([eol]) && Lines([eol]) == eol + Lines([]);
  }

  function Contents<V>(decode: Bytes -> Decoded<V>, rs: seq<Printed>): Reading<V> {
    if rs == [] then Nothing() else Then(Payload(decode(rs[0].payload)), Contents(decode, rs[1..]))
  }

  lemma {:induction false} ContentsOf<V>(decode: Bytes -> Decoded<V>, rs: seq<Printed>)
    ensures Contents(decode, rs).counts.badWarc == 0 && Contents(decode, rs).counts.seen == |rs|
    ensures Contents(decode, rs).counts.badJson == Count(rs, (r: Printed) => decode(r.payload).BadJson?)
    ensures Contents(decode, rs).counts.notObject == Count(rs, (r: Printed) => decode(r.payload).NotObject?)
    ensures (forall r | r in rs :: decode(r.payload).Object?) ==>
              |Contents(decode, rs).values| == |rs|
              && forall i: nat | i < |rs| :: decode(rs[i].payload) == Object(Contents(decode, rs).values[i])
  {
    if rs != [] {
      ContentsOf(decode, rs[1..]);
      CountFirst(rs, (r: Printed) => decode(r.payload).BadJson?);
      CountFirst(rs, (r: Printed) => decode(r.payload).NotObject?);
      if forall r | r in rs :: decode(r.payload).Object? {
        assert rs[0] in rs && forall r | r in rs[1..] :: r in rs;
        var rest := Contents(decode, rs[1..]).values;
        assert Contents(decode, rs).values == [decode(rs[0].payload).value] + rest;
        forall i: nat | i < |rs|
          ensures decode(rs[i].payload) == Object(([decode(rs[0].payload).value] + rest)[i])
        {
          if i > 0 {
            assert rs[1..][i - 1] == rs[i];
          }
        }
      }
    }
  }

  lemma {:induction false} PrintedReads<V>(decode: Bytes -> Decoded<V>, rs: seq<Printed>)
    requires forall r | r in rs :: WellFormed(r)
    ensures Meaning(decode, PrintAll(rs)) == Contents(decode, rs)
  {
    if rs != [] {
      assert rs[0] in rs;
      OneRoundTrip(decode, rs[0], PrintAll(rs[1..]));
      PrintedReads(decode, rs[1..]);
    }
  }

  /** Printing any list of JSON records and reading it gives those records, in order, and no framing error. */
  lemma RoundTrip<V>(decode: Bytes -> Decoded<V>, rs: seq<Printed>)
    requires forall r | r in rs :: WellFormed(r)
    ensures Meaning(decode, PrintAll(rs)).counts.badWarc == 0 && Meaning(decode, PrintAll(rs)).counts.seen == |rs|
    ensures Meaning(decode, PrintAll(rs)).counts.badJson == Count(rs, (r: Printed) => decode(r.payload).BadJson?)
    ensures Meaning(decode, PrintAll(rs)).counts.notObject == Count(rs, (r: Printed) => decode(r.payload).NotObject?)
    ensures (forall r | r in rs :: decode(r.payload).Object?) ==>
              var values := Meaning(decode, PrintAll(rs)).values;
              |values| == |rs| && forall i: nat | i < |rs| :: decode(rs[i].payload) == Object(values[i])
  {
    PrintedReads(decode, rs);
    ContentsOf(decode, rs);
  }
}
