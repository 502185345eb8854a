/**
 The encrypted backup stream of internal/backup/stream.go: a header, then sealed
 records numbered from zero, then one sealed empty record as the end marker.
 The cipher and the 32-bit wire encoding are parameters; what is asked of them is
 stated in Framed and OpensFrom, and a codec that meets every hypothesis is given.
 */
module BackupStream {

  type byte = b: int | 0 <= b < 256

  type bytes = seq<byte>

  import opened Durable

  datatype Result<+T> = Ok(value: T) | TooLarge | ShortRead | NotABackup | BadRecord | BadTag | TrailingData

  const MAGIC: bytes := [86, 112, 115, 67, 84, 45, 98, 97, 99, 107, 117, 112, 45, 118, 49, 0] // "VpsCT-backup-v1\0"
  const CHUNK: nat := 1048576
  const PREFIX: nat := 8
  const MAX_SEQ: nat := 0xFFFF_FFFF

  /**
   An authenticated cipher with fixed key and additional data (what it seals under
   a nonce, what it accepts) and the encoding of 32-bit numbers.
   */
  datatype Codec = Codec(
    seal: (bytes, bytes) -> bytes, open: (bytes, bytes) -> Option<bytes>, overhead: nat,
    put: nat -> bytes, get: bytes -> nat)

  /** Four bytes for every 32-bit number and back. */
  ghost predicate Encodes32(put: nat -> bytes, get: bytes -> nat) {
    && (forall v: nat :: |put(v)| == 4)
    && (forall v: nat :: v <= MAX_SEQ ==> get(put(v)) == v)
    && (forall b :: |b| == 4 ==> put(get(b)) == b)
  }

  /** Sealing adds a fixed overhead, and a record's length fits its field. */
  ghost predicate Framed(a: Codec) {
    && a.overhead + CHUNK <= MAX_SEQ
    && (forall n, p :: |a.seal(n, p)| == |p| + a.overhead)
    && Encodes32(a.put, a.get)
  }

  /** Opening undoes sealing. */
  predicate Opens(a: Codec, n: bytes, p: bytes) { a.open(n, a.seal(n, p)) == Some(p) }

  /** The cipher opens the records of these chunks, numbered from `seqNo`, and their end marker. */
  ghost predicate OpensFrom(a: Codec, prefix: bytes, seqNo: nat, cs: seq<bytes>)
    decreases |cs|
  {
    && Opens(a, Nonce(a, prefix, seqNo), Plain(cs, 0))
    && (cs != [] ==> OpensFrom(a, prefix, seqNo + 1, cs[1..]))
  }

  /** The cipher opens what it sealed for this stream; nothing is asked of it elsewhere. */
  ghost predicate OpensStream(a: Codec, prefix: bytes, data: bytes) {
    Framed(a) && |prefix| == PREFIX && OpensFrom(a, prefix, 0, Chunks(data))
  }

  /** An ideal cipher, which opens whatever it seals, opens every stream. */
  lemma {:induction false} IdealOpens(a: Codec, prefix: bytes, seqNo: nat, cs: seq<bytes>)
    requires forall n, p :: Opens(a, n, p)
    ensures OpensFrom(a, prefix, seqNo, cs)
    decreases |cs|
  {
    if cs != [] {
      IdealOpens(a, prefix, seqNo + 1, cs[1..]);
    }
  }

  /** encoding/binary.BigEndian.PutUint32, which keeps the low 32 bits. */
  function BigEndian(v: nat): bytes {
    [v / 0x100_0000 % 0x100, v / 0x1_0000 % 0x100, v / 0x100 % 0x100, v % 0x100]
  }

  function FromBigEndian(b: bytes): nat {
    if |b| != 4 then 0
    else b[0] as int * 0x100_0000 + b[1] as int * 0x1_0000 + b[2] as int * 0x100 + b[3] as int
  }

  lemma BigEndianRoundTrip(v: nat)
    requires v <= MAX_SEQ
    ensures FromBigEndian(BigEndian(v)) == v
  {
    assert v / 0x100 == v / 0x1_0000 * 0x100 + v / 0x100 % 0x100;
    assert v / 0x1_0000 == v / 0x100_0000 * 0x100 + v / 0x1_0000 % 0x100;
  }

  lemma BigEndianOnto(b: bytes)
    requires |b| == 4
    ensures BigEndian(FromBigEndian(b)) == b
  {
    var v := FromBigEndian(b);
    var b0: int, b1: int, b2: int := b[0], b[1], b[2];
    assert v / 0x100_0000 == b0 && v / 0x1_0000 == b0 * 0x100 + b1 && v / 0x100 == b0 * 0x1_0000 + b1 * 0x100 + b2;
  }

  /** The most significant byte comes first: dropping the last byte divides by 256. */
  lemma BigEndianOrder(v: nat)
    requires v <= MAX_SEQ
    ensures BigEndian(v)[3] == v % 256 && BigEndian(v)[..3] == BigEndian(v / 256)[1..]
    ensures v < 256 ==> BigEndian(v) == [0, 0, 0, v]
  {
    assert v / 0x100 / 0x100 == v / 0x1_0000 && v / 0x100 / 0x1_0000 == v / 0x100_0000;
    assert BigEndian(v / 256)[1..] == [v / 0x100 / 0x1_0000 % 0x100, v / 0x100 / 0x100 % 0x100, v / 0x100 % 0x100];
    assert v < 0x1_0000_0000 && v / 0x100_0000 < 0x100;
  }

  /** The wire encoding of the source is a correct one. */
  lemma BigEndianEncodes()
    ensures Encodes32(BigEndian, FromBigEndian)
  {
    forall v: nat | v <= MAX_SEQ
      ensures FromBigEndian(BigEndian(v)) == v
    {
      BigEndianRoundTrip(v);
    }
    forall b: bytes | |b| == 4
      ensures BigEndian(FromBigEndian(b)) == b
    {
      BigEndianOnto(b);
    }
  }

  function Nonce(a: Codec, prefix: bytes, seqNo: nat): bytes {
    prefix + a.put(seqNo)
  }

  /** No nonce is used twice within a stream, nor across streams with different prefixes. */
  lemma NonceUnique(a: Codec, p: bytes, i: nat, q: bytes, j: nat)
    requires Framed(a) && |p| == |q| == PREFIX && i <= MAX_SEQ && j <= MAX_SEQ
    requires Nonce(a, p, i) == Nonce(a, q, j)
    ensures p == q && i == j
  {
    assert p == Nonce(a, p, i)[..PREFIX] && q == Nonce(a, q, j)[..PREFIX];
    assert a.put(i) == Nonce(a, p, i)[PREFIX..] && a.put(j) == Nonce(a, q, j)[PREFIX..];
  }

  /** The input as the read buffer cuts it. */
  function Chunks(data: bytes): (cs: seq<bytes>)
    ensures forall i :: 0 <= i < |cs| ==> 0 < |cs[i]| <= CHUNK
    decreases |data|
  {
    if data == [] then []
    else if |data| <= CHUNK then [data]
    else [data[..CHUNK]] + Chunks(data[CHUNK..])
  }

  function Concat(cs: seq<bytes>): bytes {
    if cs == [] then [] else cs[0] + Concat(cs[1..])
  }

  lemma {:induction false} ChunksJoin(data: bytes)
    ensures Concat(Chunks(data)) == data
    decreases |data|
  {
    if data != [] && |data| > CHUNK {
      ChunksJoin(data[CHUNK..]);
      assert Chunks(data)[1..] == Chunks(data[CHUNK..]);
    } else if data != [] {
      assert [data][1..] == [] && data + [] == data;
    }
  }

  function Record(a: Codec, prefix: bytes, seqNo: nat, plain: bytes): bytes {
    var sealed := a.seal(Nonce(a, prefix, seqNo), plain);
    a.put(|sealed|) + sealed
  }

  /** The records of these chunks, the end marker last. */
  function Body(a: Codec, prefix: bytes, seqNo: nat, cs: seq<bytes>): bytes
    decreases |cs|
  {
    if cs == [] then Record(a, prefix, seqNo, [])
    else Record(a, prefix, seqNo, cs[0]) + Body(a, prefix, seqNo + 1, cs[1..])
  }

  function Sealed(a: Codec, prefix: bytes, data: bytes): bytes {
    MAGIC + prefix + Body(a, prefix, 0, Chunks(data))
  }

  /** Writes the stream; input that needs more records than fit 32 bits is refused. */
  method Seal(a: Codec, prefix: bytes, data: bytes) returns (r: Result<bytes>)
    ensures r == if |Chunks(data)| < MAX_SEQ then Ok(Sealed(a, prefix, data)) else TooLarge
  {
    var w := MAGIC + prefix;
    var rest := data;
    var seqNo: nat := 0;
    while true
      invariant seqNo <= MAX_SEQ && seqNo + |Chunks(rest)| == |Chunks(data)|
      invariant w + Body(a, prefix, seqNo, Chunks(rest)) == Sealed(a, prefix, data)
      decreases MAX_SEQ - seqNo
    {
      if seqNo == MAX_SEQ {
        return TooLarge;
      }
      var n := if |rest| <= CHUNK then rest else rest[..CHUNK]; // io.ReadFull
      rest := rest[|n|..];
      ghost var later := Body(a, prefix, seqNo + 1, Chunks(rest));
      Written(w, Record(a, prefix, seqNo, n), later);
      var sealed := a.seal(Nonce(a, prefix, seqNo), n);
      w := w + (a.put(|sealed|) + sealed);
      if n == [] {
        return Ok(w);
      }
      seqNo := seqNo + 1;
    }
  }

  lemma Written(w: bytes, rec: bytes, later: bytes)
    ensures w + (rec + later) == (w + rec) + later
  {
  }

  /** Prepends one opened record to the outcome of the rest. */
  function Then(p: bytes, rest: Result<bytes>): Result<bytes> {
    if rest.Ok? then Ok(p + rest.value) else rest
  }

  /** Reads records until the end marker. */
  function Unframe(a: Codec, prefix: bytes, seqNo: nat, s: bytes): Result<bytes>
    decreases |s|
  {
    if seqNo == MAX_SEQ then TooLarge
    else if |s| < 4 then ShortRead
    else
      var n := a.get(s[..4]);
      if n < a.overhead || n > CHUNK + a.overhead then BadRecord
      else if |s| < 4 + n then ShortRead
      else
        match a.open(Nonce(a, prefix, seqNo), s[4..4 + n])
        case None => BadTag
        case Some(p) =>
          if p == [] then (if |s| == 4 + n then Ok([]) else TrailingData)
          else Then(p, Unframe(a, prefix, seqNo + 1, s[4 + n..]))
  }

  function Opened(a: Codec, s: bytes): Result<bytes> {
    var h := |MAGIC| + PREFIX;
    if |s| < h then ShortRead
    else if s[..|MAGIC|] != MAGIC then NotABackup
    else Unframe(a, s[|MAGIC|..h], 0, s[h..])
  }

  /**
   The length of a record is checked before anything of it is read or deciphered: behind a
   header, one that no sealed chunk can have is refused whatever follows.
   */
  lemma BadLengthRefused(a: Codec, s: bytes)
    requires |s| >= |MAGIC| + PREFIX + 4 && s[..|MAGIC|] == MAGIC
    requires var n := a.get(s[|MAGIC| + PREFIX..][..4]); n < a.overhead || n > 0x10_0000 + a.overhead
    ensures Opened(a, s) == BadRecord
  {
  }

  /** Reads a stream; the caller publishes the output only when the whole stream verifies. */
  method Open(a: Codec, s: bytes) returns (r: Result<bytes>)
    ensures r == Opened(a, s)
  {
    var h := |MAGIC| + PREFIX;
    if |s| < h {
      return ShortRead;
    }
    if s[..|MAGIC|] != MAGIC {
      return NotABackup;
    }
    var prefix := s[|MAGIC|..h];
    var rest := s[h..];
    var w: bytes := [];
    var seqNo: nat := 0;
    assert forall v: bytes :: w + v == v;
    while true
      invariant Opened(a, s) == Then(w, Unframe(a, prefix, seqNo, rest))
      decreases |rest|
    {
      if seqNo == MAX_SEQ {
        return TooLarge;
      }
      if |rest| < 4 {
        return ShortRead;
      }
      var n := a.get(rest[..4]);
      if n < a.overhead || n > CHUNK + a.overhead {
        return BadRecord;
      }
      if |rest| < 4 + n {
        return ShortRead;
      }
      var got := a.open(Nonce(a, prefix, seqNo), rest[4..4 + n]);
      if got.None? {
        return BadTag;
      }
      if got.value == [] {
        if |rest| != 4 + n {
          return TrailingData;
        }
        assert w + [] == w;
        return Ok(w);
      }
      ghost var later := Unframe(a, prefix, seqNo + 1, rest[4 + n..]);
      assert later.Ok? ==> w + (got.value + later.value) == (w + got.value) + later.value;
      w := w + got.value;
      rest := rest[4 + n..];
      seqNo := seqNo + 1;
    }
  }

  /** The parts of a record followed by anything. */
  lemma RecordParts(a: Codec, prefix: bytes, seqNo: nat, plain: bytes, s: bytes)
    requires Framed(a) && Opens(a, Nonce(a, prefix, seqNo), plain) && |plain| <= CHUNK
    ensures var t := Record(a, prefix, seqNo, plain) + s;
            var n := |plain| + a.overhead;
            && |t| == 4 + n + |s| && a.get(t[..4]) == n && t[4 + n..] == s
            && a.open(Nonce(a, prefix, seqNo), t[4..4 + n]) == Some(plain)
  {
    var sealed := a.seal(Nonce(a, prefix, seqNo), plain);
    var t := Record(a, prefix, seqNo, plain) + s;
    assert t[..4] == a.put(|sealed|) && t[4..4 + |sealed|] == sealed && t[4 + |sealed|..] == s;
  }

  /** Reading one intact data record. */
  lemma ReadRecord(a: Codec, prefix: bytes, seqNo: nat, plain: bytes, s: bytes)
    requires Framed(a) && Opens(a, Nonce(a, prefix, seqNo), plain) && seqNo < MAX_SEQ && 0 < |plain| <= CHUNK
    ensures Unframe(a, prefix, seqNo, Record(a, prefix, seqNo, plain) + s) == Then(plain, Unframe(a, prefix, seqNo + 1, s))
  {
    RecordParts(a, prefix, seqNo, plain, s);
  }

  /** Reading the end marker. */
  lemma ReadEnd(a: Codec, prefix: bytes, seqNo: nat, s: bytes)
    requires Framed(a) && Opens(a, Nonce(a, prefix, seqNo), []) && seqNo < MAX_SEQ
    ensures Unframe(a, prefix, seqNo, Record(a, prefix, seqNo, []) + s) == if s == [] then Ok([]) else TrailingData
  {
    RecordParts(a, prefix, seqNo, [], s);
  }

  /** Reading a record that is cut off fails. */
  lemma ReadCutRecord(a: Codec, prefix: bytes, seqNo: nat, plain: bytes, k: nat)
    requires Framed(a) && seqNo < MAX_SEQ && |plain| <= CHUNK
    requires k < |Record(a, prefix, seqNo, plain)|
    ensures Unframe(a, prefix, seqNo, Record(a, prefix, seqNo, plain)[..k]) == ShortRead
  {
    if k >= 4 {
      assert Record(a, prefix, seqNo, plain)[..k][..4] == a.put(|a.seal(Nonce(a, prefix, seqNo), plain)|);
    }
  }

  /** Chunks as the writer produces them. */
  ghost predicate Readable(cs: seq<bytes>) {
    forall i :: 0 <= i < |cs| ==> 0 < |cs[i]| <= CHUNK
  }

  lemma UnframeEnd(a: Codec, prefix: bytes, seqNo: nat)
    requires Framed(a) && Opens(a, Nonce(a, prefix, seqNo), []) && seqNo < MAX_SEQ
    ensures Unframe(a, prefix, seqNo, Record(a, prefix, seqNo, [])) == Ok([])
  {
    ReadEnd(a, prefix, seqNo, []);
    assert Record(a, prefix, seqNo, []) + [] == Record(a, prefix, seqNo, []);
  }

  lemma {:induction false} UnframeBody(a: Codec, prefix: bytes, seqNo: nat, cs: seq<bytes>)
    requires Framed(a) && OpensFrom(a, prefix, seqNo, cs) && seqNo + |cs| < MAX_SEQ && Readable(cs)
    ensures Unframe(a, prefix, seqNo, Body(a, prefix, seqNo, cs)) == Ok(Concat(cs))
    decreases |cs|
  {
    if cs == [] {
      UnframeEnd(a, prefix, seqNo);
    } else {
      UnframeBody(a, prefix, seqNo + 1, cs[1..]);
      ReadRecord(a, prefix, seqNo, cs[0], Body(a, prefix, seqNo + 1, cs[1..]));
    }
  }

  lemma HeaderSplit(a: Codec, prefix: bytes, body: bytes)
    requires |prefix| == PREFIX
    ensures Opened(a, MAGIC + prefix + body) == Unframe(a, prefix, 0, body)
  {
    var s := MAGIC + prefix + body;
    assert s[..|MAGIC|] == MAGIC && s[|MAGIC|..|MAGIC| + PREFIX] == prefix && s[|MAGIC| + PREFIX..] == body;
  }

  /** Everything Seal accepts comes back unchanged. */
  lemma RoundTrip(a: Codec, prefix: bytes, data: bytes)
    requires OpensStream(a, prefix, data) && |Chunks(data)| < MAX_SEQ
    ensures Opened(a, Sealed(a, prefix, data)) == Ok(data)
  {
    HeaderSplit(a, prefix, Body(a, prefix, 0, Chunks(data)));
    UnframeBody(a, prefix, 0, Chunks(data));
    ChunksJoin(data);
  }

  /** The layout of a stream, on input of one chunk: header, then length, cipher text, and the sealed end. */
  lemma StreamLayout(a: Codec, prefix: bytes, data: bytes)
    requires 0 < |data| <= CHUNK
    ensures var first, last := a.seal(prefix + a.put(0), data), a.seal(prefix + a.put(1), []);
            Sealed(a, prefix, data) == MAGIC + prefix + (a.put(|first|) + first + (a.put(|last|) + last))
    ensures Sealed(a, prefix, []) == MAGIC + prefix + (a.put(|a.seal(prefix + a.put(0), [])|) + a.seal(prefix + a.put(0), []))
  {
    assert Chunks(data) == [data] && [data][1..] == [];
    assert Body(a, prefix, 0, [data]) == Record(a, prefix, 0, data) + Body(a, prefix, 1, []);
  }

  /** The plain text of record i: a chunk, or the empty end marker. */
  function Plain(cs: seq<bytes>, i: nat): bytes {
    if i < |cs| then cs[i] else []
  }

  lemma CutBehind(a: Codec, prefix: bytes, seqNo: nat, plain: bytes, rest: bytes, k: nat)
    requires Framed(a) && Opens(a, Nonce(a, prefix, seqNo), plain) && seqNo < MAX_SEQ && 0 < |plain| <= CHUNK
    requires |Record(a, prefix, seqNo, plain)| <= k <= |Record(a, prefix, seqNo, plain) + rest|
    requires Unframe(a, prefix, seqNo + 1, rest[..k - |Record(a, prefix, seqNo, plain)|]) == ShortRead
    ensures Unframe(a, prefix, seqNo, (Record(a, prefix, seqNo, plain) + rest)[..k]) == ShortRead
  {
    var rec := Record(a, prefix, seqNo, plain);
    CutLater(rec, rest, k);
    ReadRecord(a, prefix, seqNo, plain, rest[..k - |rec|]);
  }

  lemma {:induction false} BodyCut(a: Codec, prefix: bytes, seqNo: nat, cs: seq<bytes>, k: nat)
    requires Framed(a) && OpensFrom(a, prefix, seqNo, cs) && seqNo + |cs| < MAX_SEQ && Readable(cs) && k < |Body(a, prefix, seqNo, cs)|
    ensures Unframe(a, prefix, seqNo, Body(a, prefix, seqNo, cs)[..k]) == ShortRead
    decreases |cs|
  {
    var plain := Plain(cs, 0);
    var rec := Record(a, prefix, seqNo, plain);
    if k < |rec| {
      assert Body(a, prefix, seqNo, cs)[..k] == rec[..k];
      ReadCutRecord(a, prefix, seqNo, plain, k);
    } else {
      BodyCut(a, prefix, seqNo + 1, cs[1..], k - |rec|);
      CutBehind(a, prefix, seqNo, plain, Body(a, prefix, seqNo + 1, cs[1..]), k);
    }
  }

  lemma CutLater(rec: bytes, rest: bytes, k: nat)
    requires |rec| <= k <= |rec + rest|
    ensures (rec + rest)[..k] == rec + rest[..k - |rec|]
  {
  }

  /** Every strict prefix of a stream is refused, whatever the cipher does on other input. */
  lemma TruncationRefused(a: Codec, prefix: bytes, data: bytes, k: nat)
    requires OpensStream(a, prefix, data) && |Chunks(data)| < MAX_SEQ && k < |Sealed(a, prefix, data)|
    ensures Opened(a, Sealed(a, prefix, data)[..k]) == ShortRead
  {
    var h := |MAGIC| + PREFIX;
    var body := Body(a, prefix, 0, Chunks(data));
    if k >= h {
      assert Sealed(a, prefix, data)[..k] == MAGIC + prefix + body[..k - h];
      HeaderSplit(a, prefix, body[..k - h]);
      BodyCut(a, prefix, 0, Chunks(data), k - h);
    }
  }

  lemma ExtendedBehind(a: Codec, prefix: bytes, seqNo: nat, plain: bytes, rest: bytes, x: bytes)
    requires Framed(a) && Opens(a, Nonce(a, prefix, seqNo), plain) && seqNo < MAX_SEQ && 0 < |plain| <= CHUNK
    requires Unframe(a, prefix, seqNo + 1, rest + x) == TrailingData
    ensures Unframe(a, prefix, seqNo, Record(a, prefix, seqNo, plain) + rest + x) == TrailingData
  {
    ReadRecord(a, prefix, seqNo, plain, rest + x);
    Written(Record(a, prefix, seqNo, plain), rest, x);
  }

  lemma {:induction false} BodyExtended(a: Codec, prefix: bytes, seqNo: nat, cs: seq<bytes>, x: bytes)
    requires Framed(a) && OpensFrom(a, prefix, seqNo, cs) && seqNo + |cs| < MAX_SEQ && Readable(cs) && x != []
    ensures Unframe(a, prefix, seqNo, Body(a, prefix, seqNo, cs) + x) == TrailingData
    decreases |cs|
  {
    if cs == [] {
      ReadEnd(a, prefix, seqNo, x);
    } else {
      BodyExtended(a, prefix, seqNo + 1, cs[1..], x);
      ExtendedBehind(a, prefix, seqNo, cs[0], Body(a, prefix, seqNo + 1, cs[1..]), x);
    }
  }

  /** Every extension of a stream is refused. */
  lemma ExtensionRefused(a: Codec, prefix: bytes, data: bytes, x: bytes)
    requires OpensStream(a, prefix, data) && |Chunks(data)| < MAX_SEQ && x != []
    ensures Opened(a, Sealed(a, prefix, data) + x) == TrailingData
  {
    var body := Body(a, prefix, 0, Chunks(data));
    Written(MAGIC + prefix, body, x);
    HeaderSplit(a, prefix, body + x);
    BodyExtended(a, prefix, 0, Chunks(data), x);
  }

  /** The streams written under one key, by prefix: each fits its numbering and is opened again. */
  ghost predicate Writes(a: Codec, written: map<bytes, bytes>) {
    forall p :: p in written ==> OpensStream(a, p, written[p]) && |Chunks(written[p])| < MAX_SEQ
  }

  /** An unforgeable cipher accepts, under this key, only what sealing these streams produced. */
  ghost predicate Unforgeable(a: Codec, written: map<bytes, bytes>) {
    forall n, c :: a.open(n, c).Some? ==> ProducedBy(a, written, n, c)
  }

  ghost predicate ProducedBy(a: Codec, written: map<bytes, bytes>, n: bytes, c: bytes) {
    exists p :: p in written && Produced(a, p, Chunks(written[p]), n, c)
  }

  ghost predicate Produced(a: Codec, prefix: bytes, cs: seq<bytes>, n: bytes, c: bytes) {
    exists i: nat :: i <= |cs| && n == Nonce(a, prefix, i) && c == a.seal(n, Plain(cs, i))
  }

  ghost predicate Sealable(written: map<bytes, bytes>) {
    forall p :: p in written ==> |p| == PREFIX && |Chunks(written[p])| < MAX_SEQ
  }

  const OVERHEAD: nat := 16
  const TAG: bytes := [0, 0, 0, 0, 0, 0, 0, 0, 0, 0, 0, 0, 0, 0, 0, 0]

  ghost function Blind(): Codec {
    Codec((n: bytes, p: bytes) => TAG + p, (n: bytes, c: bytes) => None, OVERHEAD, BigEndian, FromBigEndian)
  }

  /** A codec that remembers what it sealed; the tag itself says nothing. */
  ghost function Remembering(written: map<bytes, bytes>): Codec {
    Blind().(open := (n: bytes, c: bytes) => if |c| >= OVERHEAD && ProducedBy(Blind(), written, n, c) then Some(c[OVERHEAD..]) else None)
  }

  lemma {:induction false} RemembersFrom(written: map<bytes, bytes>, prefix: bytes, seqNo: nat, cs: seq<bytes>)
    requires prefix in written && seqNo <= |Chunks(written[prefix])| && cs == Chunks(written[prefix])[seqNo..]
    ensures OpensFrom(Remembering(written), prefix, seqNo, cs)
    decreases |cs|
  {
    var a := Remembering(written);
    var all := Chunks(written[prefix]);
    var n, c := Nonce(a, prefix, seqNo), TAG + Plain(all, seqNo);
    assert Produced(Blind(), prefix, all, n, c);
    assert c[OVERHEAD..] == Plain(all, seqNo) && Plain(cs, 0) == Plain(all, seqNo);
    if cs != [] {
      assert cs[1..] == all[seqNo + 1..];
      RemembersFrom(written, prefix, seqNo + 1, cs[1..]);
    }
  }

  /** The hypotheses of OnlyGenuineAccepted hold together, for every set of streams. */
  lemma UnforgeableExists(written: map<bytes, bytes>) returns (a: Codec)
    requires Sealable(written)
    ensures Framed(a) && Writes(a, written) && Unforgeable(a, written)
  {
    a := Remembering(written);
    BigEndianEncodes();
    forall p | p in written
      ensures OpensStream(a, p, written[p])
    {
      assert Chunks(written[p])[0..] == Chunks(written[p]);
      RemembersFrom(written, p, 0, Chunks(written[p]));
    }
    forall n, c | a.open(n, c).Some?
      ensures ProducedBy(a, written, n, c)
    {
    }
  }

  /** What acceptance says about the first record. */
  lemma AcceptedParts(a: Codec, q: bytes, i: nat, s: bytes)
    requires Unframe(a, q, i, s).Ok?
    ensures i != MAX_SEQ && 4 <= |s| && 4 + a.get(s[..4]) <= |s|
    ensures var c := s[4..4 + a.get(s[..4])];
            var rest := s[4 + |c|..];
            var got := a.open(Nonce(a, q, i), c);
            && s == s[..4] + c + rest && got.Some?
            && if got.value == [] then rest == [] else Unframe(a, q, i + 1, rest).Ok?
  {
  }

  /** A cipher text accepted under a nonce is the one sealed under it: the nonce names stream and place. */
  lemma ProducedHere(a: Codec, written: map<bytes, bytes>, q: bytes, i: nat, c: bytes)
    requires Writes(a, written) && Framed(a) && |q| == PREFIX && i < MAX_SEQ && ProducedBy(a, written, Nonce(a, q, i), c)
    ensures q in written && i <= |Chunks(written[q])| && c == a.seal(Nonce(a, q, i), Plain(Chunks(written[q]), i))
  {
    var n := Nonce(a, q, i);
    var p :| p in written && Produced(a, p, Chunks(written[p]), n, c);
    assert OpensStream(a, p, written[p]);
    var j: nat :| j <= |Chunks(written[p])| && n == Nonce(a, p, j) && c == a.seal(n, Plain(Chunks(written[p]), j));
    NonceUnique(a, q, i, p, j);
  }

  /** What acceptance of a stream's own sealed text says about the record and what follows. */
  lemma GenuineRecord(a: Codec, q: bytes, i: nat, s: bytes, plain: bytes) returns (rest: bytes)
    requires Framed(a) && Opens(a, Nonce(a, q, i), plain) && Unframe(a, q, i, s).Ok?
    requires 4 <= |s| && 4 + a.get(s[..4]) <= |s| && s[4..4 + a.get(s[..4])] == a.seal(Nonce(a, q, i), plain)
    ensures s == Record(a, q, i, plain) + rest && |rest| < |s|
    ensures if plain == [] then rest == [] else Unframe(a, q, i + 1, rest).Ok?
  {
    AcceptedParts(a, q, i, s);
    var c := s[4..4 + a.get(s[..4])];
    rest := s[4 + |c|..];
    assert s[..4] == a.put(|c|);
  }

  lemma OpensHead(a: Codec, q: bytes, i: nat, cs: seq<bytes>)
    requires i <= |cs| && OpensFrom(a, q, i, cs[i..])
    ensures Opens(a, Nonce(a, q, i), Plain(cs, i))
    ensures i < |cs| ==> OpensFrom(a, q, i + 1, cs[i + 1..])
  {
    assert Plain(cs[i..], 0) == Plain(cs, i);
    if i < |cs| {
      assert cs[i..][1..] == cs[i + 1..];
    }
  }

  /** The rest of an accepted stream, as long as the records so far were those of stream `q`. */
  ghost predicate AtRecord(a: Codec, written: map<bytes, bytes>, q: bytes, i: nat) {
    q in written ==> i <= |Chunks(written[q])| && OpensFrom(a, q, i, Chunks(written[q])[i..])
  }

  /** An accepted record is the one the writer put at this place of the stream with this prefix. */
  lemma GenuineStep(a: Codec, written: map<bytes, bytes>, q: bytes, i: nat, s: bytes) returns (rest: bytes)
    requires Writes(a, written) && Unforgeable(a, written) && Framed(a) && |q| == PREFIX
    requires i <= MAX_SEQ && AtRecord(a, written, q, i) && Unframe(a, q, i, s).Ok?
    ensures q in written && i <= |Chunks(written[q])| && |rest| < |s|
    ensures s == Record(a, q, i, Plain(Chunks(written[q]), i)) + rest
    ensures if i < |Chunks(written[q])| then Unframe(a, q, i + 1, rest).Ok? && AtRecord(a, written, q, i + 1) else rest == []
  {
    AcceptedParts(a, q, i, s);
    var c := s[4..4 + a.get(s[..4])];
    Unforged(a, written, Nonce(a, q, i), c);
    ProducedHere(a, written, q, i, c);
    OpensHead(a, q, i, Chunks(written[q]));
    rest := GenuineRecord(a, q, i, s, Plain(Chunks(written[q]), i));
  }

  lemma Unforged(a: Codec, written: map<bytes, bytes>, n: bytes, c: bytes)
    requires Unforgeable(a, written) && a.open(n, c).Some?
    ensures ProducedBy(a, written, n, c)
  {
  }

  lemma {:induction false} OnlyGenuineBody(a: Codec, written: map<bytes, bytes>, q: bytes, i: nat, s: bytes)
    requires Writes(a, written) && Unforgeable(a, written) && Framed(a) && |q| == PREFIX
    requires i <= MAX_SEQ && AtRecord(a, written, q, i) && Unframe(a, q, i, s).Ok?
    ensures q in written && i <= |Chunks(written[q])| && s == Body(a, q, i, Chunks(written[q])[i..])
    decreases |s|
  {
    var rest := GenuineStep(a, written, q, i, s);
    var cs := Chunks(written[q]);
    if i < |cs| {
      OnlyGenuineBody(a, written, q, i + 1, rest);
    }
    BodyHead(a, q, i, cs, rest);
  }

  lemma BodyHead(a: Codec, q: bytes, i: nat, cs: seq<bytes>, rest: bytes)
    requires i <= |cs| && rest == if i < |cs| then Body(a, q, i + 1, cs[i + 1..]) else []
    ensures Body(a, q, i, cs[i..]) == Record(a, q, i, Plain(cs, i)) + rest
  {
    if i < |cs| {
      assert cs[i..][1..] == cs[i + 1..];
    } else {
      assert Record(a, q, i, []) + [] == Record(a, q, i, []);
    }
  }

  lemma AtStart(a: Codec, written: map<bytes, bytes>, q: bytes)
    requires Writes(a, written)
    ensures AtRecord(a, written, q, 0)
  {
    if q in written {
      assert OpensStream(a, q, written[q]);
      assert Chunks(written[q])[0..] == Chunks(written[q]);
    }
  }

  lemma OpenedParts(a: Codec, s: bytes) returns (p: bytes, body: bytes)
    requires Opened(a, s).Ok?
    ensures |p| == PREFIX && s == MAGIC + p + body && Unframe(a, p, 0, body).Ok?
  {
    var h := |MAGIC| + PREFIX;
    p, body := s[|MAGIC|..h], s[h..];
    assert s == s[..|MAGIC|] + p + body;
  }

  /** What is accepted is the stream written with the prefix in its header. */
  lemma AcceptedIsWritten(a: Codec, written: map<bytes, bytes>, s: bytes) returns (p: bytes)
    requires Framed(a) && Writes(a, written) && Unforgeable(a, written) && Opened(a, s).Ok?
    ensures p in written && s == Sealed(a, p, written[p])
  {
    var body;
    p, body := OpenedParts(a, s);
    AtStart(a, written, p);
    OnlyGenuineBody(a, written, p, 0, body);
    assert Chunks(written[p])[0..] == Chunks(written[p]);
  }

  /**
   With an unforgeable cipher a stream is all or nothing: what Open accepts is one of
   the streams that Seal wrote under this key, byte for byte, and opens to its own
   data. Reordered, repeated, dropped or altered records, records of another stream,
   and an altered header are all refused.
   */
  lemma OnlyGenuineAccepted(a: Codec, written: map<bytes, bytes>, s: bytes)
    requires Framed(a) && Writes(a, written) && Unforgeable(a, written)
    ensures Opened(a, s).Ok? <==> exists p :: p in written && s == Sealed(a, p, written[p])
    ensures forall p :: p in written && s == Sealed(a, p, written[p]) ==> Opened(a, s) == Ok(written[p])
  {
    if Opened(a, s).Ok? {
      var p := AcceptedIsWritten(a, written, s);
    }
    forall p | p in written && s == Sealed(a, p, written[p])
      ensures Opened(a, s) == Ok(written[p])
    {
      RoundTrip(a, p, written[p]);
    }
  }
}
