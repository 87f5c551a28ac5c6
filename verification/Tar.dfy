/** The tar format as flowdocs/core/custody_audit.py reads it, and the serialisation of the
    'ustar Interchange Format' of the pax utility (IEEE Std 1003.1). */
module Tar {
  import opened Common
  import opened Text

  const BLOCK: nat := 512

  datatype Reason =
    | HeaderTruncated | HeaderInvalid | ChecksumInvalid | ExtendedHeader | PathInvalid | SizeInvalid
    | MemberTruncated | EndMarkerInvalid | TrailingData
    | TimeLimit | ReadLimit | TotalReadLimit | RatioExceeded | StreamBroken
    | MemberLimit | LogicalLimit | PathDuplicate | CaseCollision
    | DuplicateIdentity | TotalPhysicalLimit | PhysicalLimit | Unsupported | Changed | Unavailable

  function Zeros(n: nat): (r: Bytes)
    ensures |r| == n && forall i :: 0 <= i < n ==> r[i] == 0
  {
    seq(n, i => 0)
  }

  predicate AllZero(b: Bytes) { forall i :: 0 <= i < |b| ==> b[i] == 0 }

  // ---------------------------------------------------------------- octal fields

  predicate IsFill(b: Byte) { b == 0 || b == 32 }

  predicate IsOctal(b: Byte) { 48 <= b <= 55 }

  function DropFill(field: Bytes): (r: Bytes)
    ensures r <= field && (r != [] ==> !IsFill(r[|r| - 1]))
  {
    if field != [] && IsFill(field[|field| - 1]) then DropFill(field[..|field| - 1]) else field
  }

  function DropBlanks(field: Bytes): Bytes {
    if field != [] && field[0] == 32 then DropBlanks(field[1..]) else field
  }

  function OctalValue(digits: Bytes): (n: int)
    ensures (forall i :: 0 <= i < |digits| ==> IsOctal(digits[i])) ==> n >= 0
  {
    if digits == [] then 0 else 8 * OctalValue(digits[..|digits| - 1]) + digits[|digits| - 1] as int - 48
  }

  /** _tar_octal. */
  function ReadOctal(field: Bytes, reason: Reason): (r: Result<nat, Reason>)
    ensures r.Failure? ==> r.error == reason
  {
    if field != [] && field[0] >= 128 then Failure(reason)
    else
      var value := DropBlanks(DropFill(field));
      if forall i :: 0 <= i < |value| ==> IsOctal(value[i]) then Success(OctalValue(value)) else Failure(reason)
  }

  function Power8(w: nat): nat { if w == 0 then 1 else 8 * Power8(w - 1) }

  /** n in w octal digits. */
  function OctalDigits(n: nat, w: nat): (r: Bytes)
    ensures |r| == w && forall i :: 0 <= i < w ==> IsOctal(r[i])
  {
    if w == 0 then [] else OctalDigits(n / 8, w - 1) + [48 + n % 8]
  }

  lemma {:induction false} DigitsRead(n: nat, w: nat)
    requires n < Power8(w)
    ensures OctalValue(OctalDigits(n, w)) == n
  {
    if w > 0 {
      DigitsRead(n / 8, w - 1);
      assert OctalDigits(n, w)[..w - 1] == OctalDigits(n / 8, w - 1);
    }
  }

  lemma {:induction false} DropFillDrops(digits: Bytes, fill: Bytes)
    requires digits != [] && !IsFill(digits[|digits| - 1])
    requires forall i :: 0 <= i < |fill| ==> IsFill(fill[i])
    ensures DropFill(digits + fill) == digits
    decreases |fill|
  {
    var field := digits + fill;
    if fill == [] {
      assert field == digits;
    } else {
      assert field[..|field| - 1] == digits + fill[..|fill| - 1];
      DropFillDrops(digits, fill[..|fill| - 1]);
    }
  }

  /** A number field: w digits and the terminators. */
  lemma OctalRoundTrip(n: nat, w: nat, fill: Bytes, reason: Reason)
    requires w > 0 && n < Power8(w) && forall i :: 0 <= i < |fill| ==> IsFill(fill[i])
    ensures ReadOctal(OctalDigits(n, w) + fill, reason) == Success(n)
  {
    var digits := OctalDigits(n, w);
    DropFillDrops(digits, fill);
    DigitsRead(n, w);
    assert (digits + fill)[0] == digits[0];
  }

  // ---------------------------------------------------------------- headers

  function Sum(b: Bytes): nat { if b == [] then 0 else Sum(b[..|b| - 1]) + b[|b| - 1] }

  lemma {:induction false} SumSplits(a: Bytes, b: Bytes)
    ensures Sum(a + b) == Sum(a) + Sum(b)
    decreases |b|
  {
    if b == [] {
      assert a + b == a;
    } else {
      assert (a + b)[..|a + b| - 1] == a + b[..|b| - 1];
      SumSplits(a, b[..|b| - 1]);
    }
  }

  lemma {:induction false} SumBound(b: Bytes)
    ensures Sum(b) <= 255 * |b|
    decreases |b|
  {
    if b != [] { SumBound(b[..|b| - 1]); }
  }

  /** bytes.split(b"\\0", 1)[0]. */
  function UpToNul(b: Bytes): Bytes { if b == [] || b[0] == 0 then [] else [b[0]] + UpToNul(b[1..]) }

  datatype Header = Header(name: string, size: nat, typeflag: Byte)

  const SPACES: Bytes := [32, 32, 32, 32, 32, 32, 32, 32]

  /** The types x, g, X, L, K and S. */
  predicate IsExtended(typeflag: Byte) {
    typeflag == 120 || typeflag == 103 || typeflag == 88 || typeflag == 76 || typeflag == 75 || typeflag == 83
  }

  function FullName(decode: Bytes -> Option<string>, name: Bytes, prefix: Bytes): Option<string> {
    var n, p := decode(name), decode(prefix);
    if n.None? || p.None? then None
    else if p.value != "" then Some(p.value + "/" + n.value)
    else n
  }

  /** _tar_header. */
  function ReadHeader(decode: Bytes -> Option<string>, header: Bytes): Result<Option<Header>, Reason> {
    if |header| != BLOCK then Failure(HeaderTruncated)
    else if AllZero(header) then Success(None)
    else
      var stored := ReadOctal(header[148..156], HeaderInvalid);
      if stored.Failure? then Failure(stored.error)
      else if Sum(header[..148] + SPACES + header[156..]) != stored.value then Failure(ChecksumInvalid)
      else if IsExtended(header[156]) then Failure(ExtendedHeader)
      else
        var name := FullName(decode, UpToNul(header[0..100]), UpToNul(header[345..500]));
        if name.None? then Failure(PathInvalid)
        else
          var size := ReadOctal(header[124..136], SizeInvalid);
          if size.Failure? then Failure(size.error) else Success(Some(Header(name.value, size.value, header[156])))
  }

  // ---------------------------------------------------------------- archives

  datatype Member = Member(name: string, typeflag: Byte, data: Bytes)

  function Padding(size: nat): (p: nat)
    ensures p < BLOCK && (size + p) % BLOCK == 0
  {
    (BLOCK - size % BLOCK) % BLOCK
  }

  function Prepend(m: Member, rest: Result<seq<Member>, Reason>): Result<seq<Member>, Reason> {
    if rest.Success? then Success([m] + rest.value) else rest
  }

  /** The end of the archive: a second zero block and nothing but zeros after it. */
  predicate EndsAt(content: Bytes, at: nat) { at + BLOCK <= |content| && AllZero(content[at..]) }

  datatype Visit = End | Seen(member: Member, next: nat)

  /** What a header at a position leads to. */
  function Take(header: Result<Option<Header>, Reason>, content: Bytes, at: nat): (r: Result<Visit, Reason>)
    requires at + BLOCK <= |content|
    ensures r.Success? && r.value.Seen? ==> at + BLOCK <= r.value.next <= |content|
  {
    if header.Failure? then Failure(header.error)
    else if header.value.None? then
      if EndsAt(content, at + BLOCK) then Success(End) else Failure(EndMarkerInvalid)
    else
      var h := header.value.value;
      var from := at + BLOCK;
      var next := from + h.size + Padding(h.size);
      if next > |content| then Failure(MemberTruncated)
      else Success(Seen(Member(h.name, h.typeflag, content[from..from + h.size]), next))
  }

  type HeaderReader = Bytes -> Result<Option<Header>, Reason>

  function Reader(decode: Bytes -> Option<string>): HeaderReader { (block: Bytes) => ReadHeader(decode, block) }

  function Look(read: HeaderReader, content: Bytes, at: nat): (r: Result<Visit, Reason>)
    ensures r.Success? && r.value.Seen? ==> at + BLOCK <= r.value.next <= |content|
  {
    if at + BLOCK > |content| then Failure(MemberTruncated)
    else Take(read(content[at..at + BLOCK]), content, at)
  }

  /** The archive from a position on, read at one go. */
  function Parse(read: HeaderReader, content: Bytes, at: nat): Result<seq<Member>, Reason>
    decreases |content| - at
  {
    var visit := Look(read, content, at);
    if visit.Failure? then Failure(visit.error)
    else if visit.value.End? then Success([])
    else Prepend(visit.value.member, Parse(read, content, visit.value.next))
  }

  // ---------------------------------------------------------------- serialisation

  /** A member to be written.  Of the fields that a reader of names and contents passes
      over, owner stands for mode, uid and gid, and rest for linkname to devminor. */
  datatype Raw = Raw(name: Bytes, prefix: Bytes, typeflag: Byte, owner: Bytes, mtime: Bytes, rest: Bytes, tail: Bytes,
                     data: Bytes)

  predicate NoNul(b: Bytes) { forall i :: 0 <= i < |b| ==> b[i] != 0 }

  predicate Writable(decode: Bytes -> Option<string>, m: Raw) {
    && |m.name| <= 100 && |m.prefix| <= 155 && NoNul(m.name) && NoNul(m.prefix)
    && FullName(decode, m.name, m.prefix).Some?
    && !IsExtended(m.typeflag)
    && |m.owner| == 24 && |m.mtime| == 12 && |m.rest| == 188 && |m.tail| == 12
    && |m.data| < Power8(11)
  }

  function Fill(b: Bytes, n: nat): (r: Bytes)
    requires |b| <= n
    ensures |r| == n
  {
    b + Zeros(n - |b|)
  }

  function Front(m: Raw): (r: Bytes)
    requires |m.name| <= 100 && |m.owner| == 24 && |m.mtime| == 12
    ensures |r| == 148
  {
    Fill(m.name, 100) + m.owner + (OctalDigits(|m.data|, 11) + [0]) + m.mtime
  }

  function Back(m: Raw): (r: Bytes)
    requires |m.prefix| <= 155 && |m.rest| == 188 && |m.tail| == 12
    ensures |r| == 356
  {
    [m.typeflag] + m.rest + Fill(m.prefix, 155) + m.tail
  }

  function Checksum(m: Raw): nat
    requires |m.name| <= 100 && |m.owner| == 24 && |m.mtime| == 12
    requires |m.prefix| <= 155 && |m.rest| == 188 && |m.tail| == 12
  {
    Sum(Front(m) + SPACES + Back(m))
  }

  function WriteHeader(m: Raw): (r: Bytes)
    requires |m.name| <= 100 && |m.owner| == 24 && |m.mtime| == 12
    requires |m.prefix| <= 155 && |m.rest| == 188 && |m.tail| == 12
    ensures |r| == BLOCK
  {
    Front(m) + (OctalDigits(Checksum(m), 6) + [0, 32]) + Back(m)
  }

  lemma {:induction false} UpToNulFill(b: Bytes, n: nat)
    requires NoNul(b) && |b| <= n
    ensures UpToNul(Fill(b, n)) == b
    decreases |b|
  {
    var f := Fill(b, n);
    if b != [] {
      assert f[1..] == Fill(b[1..], n - 1);
      UpToNulFill(b[1..], n - 1);
    }
  }

  lemma HeaderFields(m: Raw)
    requires |m.name| <= 100 && |m.owner| == 24 && |m.mtime| == 12
    requires |m.prefix| <= 155 && |m.rest| == 188 && |m.tail| == 12
    ensures var h := WriteHeader(m);
            && h[..148] == Front(m) && h[156..] == Back(m)
            && h[148..156] == OctalDigits(Checksum(m), 6) + [0, 32]
            && h[156] == m.typeflag
  {
  }

  lemma FrontFields(m: Raw)
    requires |m.name| <= 100 && |m.owner| == 24 && |m.mtime| == 12
    ensures Front(m)[0..100] == Fill(m.name, 100)
    ensures Front(m)[124..136] == OctalDigits(|m.data|, 11) + [0]
    ensures Front(m)[124] != 0
  {
    var size := OctalDigits(|m.data|, 11) + [0];
    assert Front(m)[124] == size[0];
  }

  lemma BackFields(m: Raw)
    requires |m.prefix| <= 155 && |m.rest| == 188 && |m.tail| == 12
    ensures Back(m)[189..344] == Fill(m.prefix, 155)
  {
  }

  lemma ChecksumFits(m: Raw)
    requires |m.name| <= 100 && |m.owner| == 24 && |m.mtime| == 12
    requires |m.prefix| <= 155 && |m.rest| == 188 && |m.tail| == 12
    ensures Checksum(m) < Power8(6)
  {
    SumBound(Front(m) + SPACES + Back(m));
    assert Power8(6) == 262144 by { assert Power8(3) == 512; }
  }

  lemma HeaderRoundTrip(decode: Bytes -> Option<string>, m: Raw)
    requires Writable(decode, m)
    ensures ReadHeader(decode, WriteHeader(m))
              == Success(Some(Header(FullName(decode, m.name, m.prefix).value, |m.data|, m.typeflag)))
  {
    var h := WriteHeader(m);
    HeaderFields(m);
    FrontFields(m);
    BackFields(m);
    ChecksumFits(m);
    assert h[0..100] == Front(m)[0..100];
    assert h[124..136] == Front(m)[124..136] && h[124] == Front(m)[124];
    assert h[345..500] == Back(m)[189..344];
    UpToNulFill(m.name, 100);
    UpToNulFill(m.prefix, 155);
    OctalRoundTrip(Checksum(m), 6, [0, 32], HeaderInvalid);
    OctalRoundTrip(|m.data|, 11, [0], SizeInvalid);
  }

  function Write(m: Raw): (r: Bytes)
    requires |m.name| <= 100 && |m.owner| == 24 && |m.mtime| == 12
    requires |m.prefix| <= 155 && |m.rest| == 188 && |m.tail| == 12
    ensures |r| == BLOCK + |m.data| + Padding(|m.data|)
  {
    WriteHeader(m) + m.data + Zeros(Padding(|m.data|))
  }

  predicate AllWritable(decode: Bytes -> Option<string>, ms: seq<Raw>) {
    forall i :: 0 <= i < |ms| ==> Writable(decode, ms[i])
  }

  /** An archive: the members, two zero blocks, and zeros up to the record size. */
  function Serialise(decode: Bytes -> Option<string>, ms: seq<Raw>, fill: nat): (r: Bytes)
    requires AllWritable(decode, ms)
    ensures |r| >= 2 * BLOCK
  {
    if ms == [] then Zeros(2 * BLOCK + fill) else Write(ms[0]) + Serialise(decode, ms[1..], fill)
  }

  function Reading(decode: Bytes -> Option<string>, m: Raw): Member
    requires Writable(decode, m)
  {
    Member(FullName(decode, m.name, m.prefix).value, m.typeflag, m.data)
  }

  function Readings(decode: Bytes -> Option<string>, ms: seq<Raw>): seq<Member>
    requires AllWritable(decode, ms)
  {
    seq(|ms|, i requires 0 <= i < |ms| => Reading(decode, ms[i]))
  }

  function Shifted(v: Result<Visit, Reason>, k: nat): Result<Visit, Reason> {
    if v.Success? && v.value.Seen? then Success(Seen(v.value.member, k + v.value.next)) else v
  }

  lemma TakeShift(header: Result<Option<Header>, Reason>, before: Bytes, content: Bytes, at: nat)
    requires at + BLOCK <= |content|
    ensures Take(header, before + content, |before| + at) == Shifted(Take(header, content, at), |before|)
  {
    var whole, k := before + content, |before|;
    if header.Success? && header.value.None? {
      assert whole[k + at + BLOCK..] == content[at + BLOCK..];
    } else if header.Success? {
      var size, from := header.value.value.size, at + BLOCK;
      if from + size <= |content| { assert whole[k + from..k + from + size] == content[from..from + size]; }
    }
  }

  lemma LookShift(read: HeaderReader, before: Bytes, content: Bytes, at: nat)
    ensures Look(read, before + content, |before| + at) == Shifted(Look(read, content, at), |before|)
  {
    if at + BLOCK <= |content| {
      var block := content[at..at + BLOCK];
      assert (before + content)[|before| + at..|before| + at + BLOCK] == block;
      TakeShift(read(block), before, content, at);
    }
  }

  /** Whatever comes before a position does not matter. */
  lemma {:induction false} ParseShift(read: HeaderReader, before: Bytes, content: Bytes, at: nat)
    ensures Parse(read, before + content, |before| + at) == Parse(read, content, at)
    decreases |content| - at
  {
    LookShift(read, before, content, at);
    var visit := Look(read, content, at);
    if visit.Success? && visit.value.Seen? { ParseShift(read, before, content, visit.value.next); }
  }

  lemma EndLooked(read: HeaderReader, content: Bytes)
    requires |content| >= 2 * BLOCK && AllZero(content) && read(content[0..BLOCK]) == Success(None)
    ensures Parse(read, content, 0) == Success([])
  {
    assert AllZero(content[BLOCK..]);
  }

  lemma MemberLooked(read: HeaderReader, h: Header, m: Raw, rest: Bytes)
    requires |m.name| <= 100 && |m.owner| == 24 && |m.mtime| == 12
    requires |m.prefix| <= 155 && |m.rest| == 188 && |m.tail| == 12
    requires read(WriteHeader(m)) == Success(Some(h)) && h.size == |m.data|
    ensures Parse(read, Write(m) + rest, 0) == Prepend(Member(h.name, h.typeflag, m.data), Parse(read, rest, 0))
  {
    var content := Write(m) + rest;
    assert content[0..BLOCK] == WriteHeader(m);
    assert content[BLOCK..BLOCK + |m.data|] == m.data;
    ParseShift(read, Write(m), rest, 0);
  }

  lemma ZerosRead(decode: Bytes -> Option<string>, content: Bytes)
    requires |content| >= BLOCK && AllZero(content)
    ensures Reader(decode)(content[0..BLOCK]) == Success(None)
  {
    assert AllZero(content[0..BLOCK]);
  }

  /** Reading an archive gives back exactly its members, in order, and ends at the two zero
      blocks. */
  lemma {:induction false} ArchiveRoundTrip(decode: Bytes -> Option<string>, ms: seq<Raw>, fill: nat)
    requires AllWritable(decode, ms)
    ensures Parse(Reader(decode), Serialise(decode, ms, fill), 0) == Success(Readings(decode, ms))
    decreases |ms|
  {
    if ms == [] {
      ZerosRead(decode, Serialise(decode, ms, fill));
      EndLooked(Reader(decode), Serialise(decode, ms, fill));
    } else {
      ArchiveRoundTrip(decode, ms[1..], fill);
      HeaderRoundTrip(decode, ms[0]);
      MemberLooked(Reader(decode), Header(Reading(decode, ms[0]).name, |ms[0].data|, ms[0].typeflag), ms[0],
                   Serialise(decode, ms[1..], fill));
      assert Readings(decode, ms) == [Reading(decode, ms[0])] + Readings(decode, ms[1..]);
    }
  }

  lemma BlocksAdd(a: nat, b: nat)
    requires a % BLOCK == 0
    ensures (a + b) % BLOCK == b % BLOCK
  {
  }

  lemma SerialisedSplits(decode: Bytes -> Option<string>, ms: seq<Raw>, fill: nat)
    requires AllWritable(decode, ms) && ms != []
    ensures |Serialise(decode, ms, fill)| == |Write(ms[0])| + |Serialise(decode, ms[1..], fill)|
  {
  }

  lemma {:induction false} SerialisedInBlocks(decode: Bytes -> Option<string>, ms: seq<Raw>, fill: nat)
    requires AllWritable(decode, ms)
    ensures |Serialise(decode, ms, fill)| % BLOCK == fill % BLOCK
    decreases |ms|
  {
    if ms == [] {
      BlocksAdd(2 * BLOCK, fill);
    } else {
      SerialisedInBlocks(decode, ms[1..], fill);
      WrittenInBlocks(ms[0]);
      SerialisedSplits(decode, ms, fill);
      BlocksAdd(|Write(ms[0])|, |Serialise(decode, ms[1..], fill)|);
    }
  }

  lemma WrittenInBlocks(m: Raw)
    requires |m.name| <= 100 && |m.owner| == 24 && |m.mtime| == 12
    requires |m.prefix| <= 155 && |m.rest| == 188 && |m.tail| == 12
    ensures |Write(m)| % BLOCK == 0
  {
    BlocksAdd(BLOCK, |m.data| + Padding(|m.data|));
  }
}
