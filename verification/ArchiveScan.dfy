/** One archive of the custody audit, flowdocs/core/custody_audit.py: the streaming scan
    against the archive read at one go. */
module ArchiveScan {
  import opened Common
  import opened Text
  import opened Tar
  import opened ArchiveReader
  import opened Evidence

  /** The reading of a header, str.casefold and SHA-256, of which nothing is assumed here. */
  datatype Tools = Tools(read: HeaderReader, casefold: string -> string, sha256: Bytes -> string)

  datatype Reference = Reference(row: int, token: string)

  type Expected = map<string, set<(string, nat)>>

  /** What the scan of an archive is given besides the stream. */
  datatype Brief = Brief(
    tools: Tools, references: map<string, Reference>, expected: Expected, source: string,
    maxMembers: nat, maxCandidateBytes: nat, maxLogicalBytes: nat)

  // ---------------------------------------------------------------- names

  /** _safe_relative_path.  The forms that plain components rule out are not modelled apart. */
  predicate SafeName(name: string) { name != "" && '\0' !in name && PlainPath(name) }

  const MARKER: string := "/media/"

  predicate MarkedAt(path: string, i: nat) { i + |MARKER| <= |path| && path[i..i + |MARKER|] == MARKER }

  /** str.rfind from n downwards. */
  function LastMark(path: string, n: nat): (r: Option<nat>)
    ensures r.Some? ==>
              && r.value <= n && MarkedAt(path, r.value)
              && forall i: nat :: r.value < i <= n ==> !MarkedAt(path, i)
    ensures r.None? ==> forall i: nat :: i <= n ==> !MarkedAt(path, i)
  {
    if MarkedAt(path, n) then Some(n) else if n == 0 then None else LastMark(path, n - 1)
  }

  /** What follows the slash of the last marker. */
  predicate CutAt(path: string, r: string, i: nat) {
    MarkedAt(path, i) && r == path[i + 1..] && forall k: nat :: i < k <= |path| ==> !MarkedAt(path, k)
  }

  /** _member_lookup_path. */
  function Lookup(path: string): (r: string)
    ensures "media/" <= path ==> r == path
    ensures !("media/" <= path) && (exists i: nat :: i <= |path| && MarkedAt(path, i)) ==>
              "media/" <= r && exists i: nat :: i <= |path| && CutAt(path, r, i)
    ensures !("media/" <= path) && (forall i: nat :: i <= |path| ==> !MarkedAt(path, i)) ==> r == path
  {
    if "media/" <= path then path
    else
      var mark := LastMark(path, |path|);
      if mark.Some? then
        var r := FromMark(path, mark.value);
        assert CutAt(path, r, mark.value);
        r
      else path
  }

  function FromMark(path: string, i: nat): (r: string)
    requires MarkedAt(path, i)
    ensures "media/" <= r && r == path[i + 1..]
  {
    assert path[i + 1..][..6] == MARKER[1..] == "media/" by { assert path[i..i + 7][1..] == path[i + 1..i + 7]; }
    path[i + 1..]
  }

  // ---------------------------------------------------------------- which archives are accepted

  function Sizes(ms: seq<Member>): nat { if ms == [] then 0 else Sizes(ms[..|ms| - 1]) + |ms[|ms| - 1].data| }

  /** No two members are looked up under the same path, or under paths equal but for case. */
  predicate Apart(tools: Tools, ms: seq<Member>) {
    forall i, j :: 0 <= i < j < |ms| ==>
      Lookup(ms[i].name) != "" && Lookup(ms[j].name) != "" ==>
        tools.casefold(Lookup(ms[i].name)) != tools.casefold(Lookup(ms[j].name))
  }

  predicate SafeNames(ms: seq<Member>) { forall i :: 0 <= i < |ms| ==> SafeName(ms[i].name) }

  predicate Admissible(b: Brief, ms: seq<Member>) {
    |ms| <= b.maxMembers && Sizes(ms) <= b.maxLogicalBytes && SafeNames(ms) && Apart(b.tools, ms)
  }

  // ---------------------------------------------------------------- what a member has to say

  predicate IsRegular(typeflag: Byte) { typeflag == 0 || typeflag == 48 || typeflag == 55 }

  predicate IsExpected(b: Brief, r: Reference, digest: string, size: nat) {
    r.token in b.expected && (digest, size) in b.expected[r.token]
  }

  function TooBig(b: Brief, size: nat): Record {
    Record(PathOnlyCandidate, b.source, None, size, NotChecked, SizeLimitExceeded)
  }

  function Hashed(b: Brief, r: Reference, digest: string, size: nat, pdf: bool): Record {
    var exact := IsExpected(b, r, digest, size);
    Record(if exact then ExactManifestArchive else PathOnlyCandidate, b.source, Some(digest), size,
           if pdf then ValidPdf else InvalidPdf, if exact && pdf then Verified else Unverified)
  }

  function Finding(b: Brief, m: Member, r: Reference): Option<Record> {
    if !IsRegular(m.typeflag) then None
    else if |m.data| > b.maxCandidateBytes then Some(TooBig(b, |m.data|))
    else Some(Hashed(b, r, b.tools.sha256(m.data), |m.data|, IsPdf(m.data)))
  }

  function ReferenceOf(b: Brief, name: string): Option<Reference> {
    if Lookup(name) in b.references then Some(b.references[Lookup(name)]) else None
  }

  function HitOf(b: Brief, m: Member): seq<Hit> {
    var r := ReferenceOf(b, m.name);
    if r.Some? then [Hit(r.value.row, Finding(b, m, r.value))] else []
  }

  function Hits(b: Brief, ms: seq<Member>): seq<Hit> {
    if ms == [] then [] else Hits(b, ms[..|ms| - 1]) + HitOf(b, ms[|ms| - 1])
  }

  // ---------------------------------------------------------------- the paths seen so far

  predicate Looked(ms: seq<Member>, p: string) { exists i :: 0 <= i < |ms| && Lookup(ms[i].name) == p }

  ghost predicate Tracks(tools: Tools, ms: seq<Member>, paths: set<string>, cases: map<string, string>) {
    && (forall p :: p in paths <==> p != "" && Looked(ms, p))
    && (forall p :: p in paths ==> tools.casefold(p) in cases)
    && (forall k :: k in cases ==> cases[k] in paths && tools.casefold(cases[k]) == k)
  }

  predicate FitsIn(tools: Tools, path: string, paths: set<string>, cases: map<string, string>) {
    path != "" ==> path !in paths && tools.casefold(path) !in cases
  }

  lemma FitsDecides(tools: Tools, ms: seq<Member>, m: Member, paths: set<string>, cases: map<string, string>)
    requires Tracks(tools, ms, paths, cases) && Apart(tools, ms)
    ensures FitsIn(tools, Lookup(m.name), paths, cases) <==> Apart(tools, ms + [m])
  {
    var all, path := ms + [m], Lookup(m.name);
    assert all[|ms|] == m && forall i :: 0 <= i < |ms| ==> all[i] == ms[i];
    if path != "" && tools.casefold(path) in cases {
      var p := cases[tools.casefold(path)];
      var i :| 0 <= i < |ms| && Lookup(ms[i].name) == p;
      assert tools.casefold(Lookup(all[i].name)) == tools.casefold(Lookup(all[|ms|].name));
    }
    if FitsIn(tools, path, paths, cases) {
      forall i | 0 <= i < |ms| && Lookup(ms[i].name) != "" && path != ""
        ensures tools.casefold(Lookup(ms[i].name)) != tools.casefold(path)
      {
        assert Looked(ms, Lookup(ms[i].name));
      }
    }
  }

  lemma LookedOne(ms: seq<Member>, m: Member, p: string)
    ensures Looked(ms + [m], p) <==> Looked(ms, p) || p == Lookup(m.name)
  {
    var all := ms + [m];
    if Looked(ms, p) {
      var i :| 0 <= i < |ms| && Lookup(ms[i].name) == p;
      assert all[i] == ms[i];
    }
    assert all[|ms|] == m;
  }

  lemma TracksMore(tools: Tools, ms: seq<Member>, all: seq<Member>, path: string, paths: set<string>,
                   cases: map<string, string>)
    requires Tracks(tools, ms, paths, cases) && forall p :: Looked(all, p) <==> Looked(ms, p) || p == path
    ensures path == "" ==> Tracks(tools, all, paths, cases)
    ensures path != "" && FitsIn(tools, path, paths, cases) ==>
              Tracks(tools, all, paths + {path}, cases[tools.casefold(path) := path])
  {
  }

  lemma TracksOne(tools: Tools, ms: seq<Member>, m: Member, paths: set<string>, cases: map<string, string>)
    requires Tracks(tools, ms, paths, cases)
    ensures Lookup(m.name) == "" ==> Tracks(tools, ms + [m], paths, cases)
    ensures Lookup(m.name) != "" && FitsIn(tools, Lookup(m.name), paths, cases) ==>
              Tracks(tools, ms + [m], paths + {Lookup(m.name)}, cases[tools.casefold(Lookup(m.name)) := Lookup(m.name)])
  {
    forall p ensures Looked(ms + [m], p) <==> Looked(ms, p) || p == Lookup(m.name) {
      LookedOne(ms, m, p);
    }
    TracksMore(tools, ms, ms + [m], Lookup(m.name), paths, cases);
  }

  lemma AdmissiblePrefix(b: Brief, ms: seq<Member>, more: seq<Member>)
    requires Admissible(b, ms + more)
    ensures Admissible(b, ms)
  {
    var all := ms + more;
    assert forall i :: 0 <= i < |ms| ==> all[i] == ms[i];
    SizesGrow(ms, more);
  }

  lemma {:induction false} SizesGrow(ms: seq<Member>, more: seq<Member>)
    ensures Sizes(ms) <= Sizes(ms + more)
    decreases |more|
  {
    if more == [] {
      assert ms + more == ms;
    } else {
      assert (ms + more)[..|ms + more| - 1] == ms + more[..|more| - 1];
      SizesGrow(ms, more[..|more| - 1]);
    }
  }

  /** The checks on a header before its data are read.  The member m stands for what the
      header announces. */
  method Admit(b: Brief, h: Header, scanned: nat, logical: nat, paths: set<string>, cases: map<string, string>,
               ghost ms: seq<Member>, ghost m: Member)
    returns (refused: Option<Reason>, newPaths: set<string>, newCases: map<string, string>)
    requires Admissible(b, ms) && Tracks(b.tools, ms, paths, cases)
    requires scanned == |ms| + 1 && logical == Sizes(ms) + h.size
    requires m.name == h.name && |m.data| == h.size
    ensures refused.None? <==> Admissible(b, ms + [m])
    ensures refused.None? ==> Tracks(b.tools, ms + [m], newPaths, newCases)
    ensures refused != Some(TimeLimit)
  {
    newPaths, newCases := paths, cases;
    assert (ms + [m])[..|ms|] == ms && (ms + [m])[|ms|] == m;
    FitsDecides(b.tools, ms, m, paths, cases);
    TracksOne(b.tools, ms, m, paths, cases);
    if scanned > b.maxMembers { return Some(MemberLimit), newPaths, newCases; }
    if logical > b.maxLogicalBytes { return Some(LogicalLimit), newPaths, newCases; }
    if !SafeName(h.name) { return Some(PathInvalid), newPaths, newCases; }
    var path := Lookup(h.name);
    if path != "" {
      if path in paths { return Some(PathDuplicate), newPaths, newCases; }
      newPaths := paths + {path};
      var key := b.tools.casefold(path);
      if key in cases && cases[key] != path { return Some(CaseCollision), newPaths, newCases; }
      newCases := cases[key := path];
    }
    refused := None;
  }

  /** The data of a member and their padding: read, hashed or passed over. */
  method ReadData(reader: BoundedArchiveReader, b: Brief, h: Header, reference: Option<Reference>)
    returns (r: Result<Option<Record>, Reason>)
    requires reader.Valid() && reader.Fits(reader.readBytes)
    modifies reader
    ensures reader.Valid() && old(reader.readBytes) <= reader.readBytes
    ensures r.Success? ==>
              && reader.readBytes == old(reader.readBytes) + h.size + Padding(h.size) && reader.Fits(reader.readBytes)
              && r.value == if reference.None? then None else
                   var data := reader.content[old(reader.readBytes)..old(reader.readBytes) + h.size];
                   Finding(b, Member(h.name, h.typeflag, data), reference.value)
    ensures r.Failure? && reader.CanReach(old(reader.readBytes) + h.size + Padding(h.size)) ==> r.error == TimeLimit
    ensures reader.readBytes <= reader.maxReadBytes + READ_CHUNK
  {
    var finding: Option<Record> := None;
    if reference.None? || !IsRegular(h.typeflag) {
      var skipped := reader.Discard(h.size);
      if skipped.Failure? { return Failure(skipped.error); }
    } else if h.size > b.maxCandidateBytes {
      var skipped := reader.Discard(h.size);
      if skipped.Failure? { return Failure(skipped.error); }
      finding := Some(TooBig(b, h.size));
    } else {
      var hashed := reader.HashMember(h.size);
      if hashed.Failure? { return Failure(hashed.error); }
      finding := Some(Hashed(b, reference.value, b.tools.sha256(hashed.value.0), h.size, hashed.value.1));
    }
    var padding := Padding(h.size);
    if padding > 0 {
      var skipped := reader.Discard(padding);
      if skipped.Failure? { return Failure(skipped.error); }
    }
    r := Success(finding);
  }

  // ---------------------------------------------------------------- the scan

  /** The members read so far and what is left come to the whole archive. */
  function Joined(ms: seq<Member>, rest: Result<seq<Member>, Reason>): Result<seq<Member>, Reason> {
    if rest.Success? then Success(ms + rest.value) else rest
  }

  lemma JoinedOne(read: HeaderReader, content: Bytes, at: nat, ms: seq<Member>, m: Member, next: nat)
    requires Look(read, content, at) == Success(Seen(m, next))
    ensures Joined(ms, Parse(read, content, at)) == Joined(ms + [m], Parse(read, content, next))
  {
    var rest := Parse(read, content, next);
    if rest.Success? { assert ms + ([m] + rest.value) == ms + [m] + rest.value; }
  }

  /** What the header at a position announces, as far as the content goes. */
  ghost function Announced(h: Header, content: Bytes, at: nat): (m: Member)
    ensures m.name == h.name && |m.data| == h.size
  {
    var from := at + BLOCK;
    Member(h.name, h.typeflag, if from + h.size <= |content| then content[from..from + h.size] else Zeros(h.size))
  }

  lemma AnnouncedIsSeen(read: HeaderReader, content: Bytes, at: nat, h: Header)
    requires at + BLOCK <= |content| && read(content[at..at + BLOCK]) == Success(Some(h))
    ensures var next := at + BLOCK + h.size + Padding(h.size);
            && (next > |content| ==> Parse(read, content, at).Failure?)
            && (next <= |content| ==> Look(read, content, at) == Success(Seen(Announced(h, content, at), next)))
  {
  }

  lemma JoinedNext(read: HeaderReader, content: Bytes, at: nat, ms: seq<Member>, h: Header)
    requires at + BLOCK <= |content| && read(content[at..at + BLOCK]) == Success(Some(h))
    requires at + BLOCK + h.size + Padding(h.size) <= |content|
    ensures Joined(ms, Parse(read, content, at))
              == Joined(ms + [Announced(h, content, at)], Parse(read, content, at + BLOCK + h.size + Padding(h.size)))
  {
    AnnouncedIsSeen(read, content, at, h);
    JoinedOne(read, content, at, ms, Announced(h, content, at), at + BLOCK + h.size + Padding(h.size));
  }

  lemma TooFewLeft(read: HeaderReader, content: Bytes, at: nat)
    requires at + BLOCK > |content| || read(content[at..at + BLOCK]).Failure?
             || (read(content[at..at + BLOCK]) == Success(None) && !EndsAt(content, at + BLOCK))
    ensures Parse(read, content, at).Failure?
  {
  }

  /** The archive, read at one go, is one that the scan goes through to its end. */
  predicate Acceptable(b: Brief, content: Bytes) {
    var whole := Parse(b.tools.read, content, 0);
    whole.Success? && Admissible(b, whole.value)
  }

  /** The two blocks at the end and what may follow them. */
  method ReadEnd(reader: BoundedArchiveReader) returns (failed: Option<Reason>)
    requires reader.Valid() && reader.Fits(reader.readBytes)
    modifies reader
    ensures reader.Valid()
    ensures failed.None? ==>
              EndsAt(reader.content, old(reader.readBytes)) && reader.Fits(|reader.content|) && !reader.broken
    ensures failed.Some? && EndsAt(reader.content, old(reader.readBytes)) && reader.Fits(|reader.content|)
            && !reader.broken ==>
              failed == Some(TimeLimit)
    ensures reader.readBytes <= reader.maxReadBytes + READ_CHUNK
  {
    ghost var at, content := reader.readBytes, reader.content;
    var second := reader.ReadExact(BLOCK);
    if second.Failure? { return Some(second.error); }
    assert content[at..][..BLOCK] == second.value;
    if !AllZero(second.value) {
      return Some(EndMarkerInvalid);
    }
    var ended := false;
    while !ended
      invariant reader.Valid() && at + BLOCK <= reader.readBytes && reader.Fits(reader.readBytes)
      invariant forall i :: at <= i < reader.readBytes ==> content[i] == 0
      invariant ended ==> reader.readBytes == |content| && !reader.broken
      decreases |content| - reader.readBytes, !ended
    {
      ghost var n := reader.readBytes;
      var trailing := reader.Read(READ_CHUNK);
      if trailing.Failure? { return Some(trailing.error); }
      ended := trailing.value == [];
      assert forall i :: n <= i < reader.readBytes ==> content[i] == trailing.value[i - n];
      if !AllZero(trailing.value) {
        var i :| 0 <= i < |trailing.value| && trailing.value[i] != 0;
        assert content[at..][n - at + i] != 0;
        return Some(TrailingData);
      }
    }
    failed := None;
  }

  lemma HitsOne(b: Brief, caps: Caps, before: seq<Item>, ms: seq<Member>, m: Member)
    ensures var l := Collect(caps, before, Hits(b, ms));
            var r := ReferenceOf(b, m.name);
            Collect(caps, before, Hits(b, ms + [m]))
              == if r.None? then l else Enter(caps, before, l, Hit(r.value.row, Finding(b, m, r.value)))
  {
    assert (ms + [m])[..|ms|] == ms && (ms + [m])[|ms|] == m;
    var hits := Hits(b, ms);
    var more := hits + HitOf(b, m);
    if ReferenceOf(b, m.name).Some? {
      assert more[..|more| - 1] == hits;
    } else {
      assert more == hits;
    }
  }

  /** The variables of the scan loop. */
  datatype Counters = Counters(
    scanned: nat, logical: nat, paths: set<string>, cases: map<string, string>, ledger: Ledger)

  /** They agree with the members that it has passed. */
  ghost predicate Passed(b: Brief, caps: Caps, before: seq<Item>, ms: seq<Member>, s: Counters) {
    && Admissible(b, ms) && s.scanned == |ms| && s.logical == Sizes(ms)
    && Tracks(b.tools, ms, s.paths, s.cases)
    && s.ledger == Collect(caps, before, Hits(b, ms))
  }

  /** Where the scan stands in the archive. */
  ghost predicate Stands(reader: BoundedArchiveReader, b: Brief, ms: seq<Member>)
    reads reader
  {
    && reader.Valid() && reader.readBytes % BLOCK == 0
    && (reader.readBytes == 0 || reader.Fits(reader.readBytes))
    && Joined(ms, Parse(b.tools.read, reader.content, reader.readBytes))
         == Parse(b.tools.read, reader.content, 0)
  }

  /** Nothing but the clock can have stopped the scan of such an archive. */
  ghost predicate MustPass(reader: BoundedArchiveReader, b: Brief) {
    Acceptable(b, reader.content) && reader.Fits(|reader.content|) && !reader.broken
  }

  /** One block: a header, or else the end of the archive. */
  method ReadBlock(reader: BoundedArchiveReader, b: Brief, ghost ms: seq<Member>)
    returns (r: Result<Option<Header>, Reason>)
    requires Stands(reader, b, ms)
    modifies reader
    ensures reader.Valid()
    ensures r.Success? && r.value.Some? ==>
              && reader.readBytes == old(reader.readBytes) + BLOCK && reader.Fits(reader.readBytes)
              && b.tools.read(reader.content[old(reader.readBytes)..reader.readBytes]) == Success(r.value)
    ensures r.Success? && r.value.None? ==>
              Parse(b.tools.read, reader.content, 0) == Success(ms) && reader.Fits(|reader.content|) && !reader.broken
    ensures r.Failure? && MustPass(reader, b) ==> r.error == TimeLimit
    ensures reader.readBytes <= if reader.maxReadBytes < 0 then BLOCK else reader.maxReadBytes + READ_CHUNK
  {
    var read := b.tools.read;
    ghost var at, content := reader.readBytes, reader.content;
    if at + BLOCK > |content| { TooFewLeft(read, content, at); }
    var block := reader.ReadExact(BLOCK);
    if block.Failure? { return Failure(block.error); }
    r := read(block.value);
    if r.Failure? { TooFewLeft(read, content, at); }
    if r.Success? && r.value.None? {
      if !EndsAt(content, at + BLOCK) { TooFewLeft(read, content, at); }
      var failed := ReadEnd(reader);
      if failed.Some? { return Failure(failed.value); }
      assert ms + [] == ms;
    }
  }

  function Entered(b: Brief, caps: Caps, before: seq<Item>, l: Ledger, r: Option<Reference>,
                   finding: Option<Record>): Ledger
  {
    if r.None? then l else Enter(caps, before, l, Hit(r.value.row, finding))
  }

  lemma PassOne(b: Brief, caps: Caps, before: seq<Item>, ms: seq<Member>, m: Member, s: Counters,
                paths: set<string>, cases: map<string, string>, r: Option<Reference>, finding: Option<Record>)
    requires r == ReferenceOf(b, m.name) && finding == if r.None? then None else Finding(b, m, r.value)
    ensures Passed(b, caps, before, ms, s) && Admissible(b, ms + [m]) && Tracks(b.tools, ms + [m], paths, cases) ==>
              Passed(b, caps, before, ms + [m],
                     Counters(s.scanned + 1, s.logical + |m.data|, paths, cases,
                              Entered(b, caps, before, s.ledger, r, finding)))
  {
    assert (ms + [m])[..|ms|] == ms && (ms + [m])[|ms|] == m;
    HitsOne(b, caps, before, ms, m);
  }

  lemma MustPassAdmits(b: Brief, content: Bytes, ms: seq<Member>, at: nat, h: Header)
    requires Acceptable(b, content) && at + BLOCK <= |content|
    requires Joined(ms, Parse(b.tools.read, content, at)) == Parse(b.tools.read, content, 0)
    requires b.tools.read(content[at..at + BLOCK]) == Success(Some(h))
    ensures var next := at + BLOCK + h.size + Padding(h.size);
            next <= |content| && Admissible(b, ms + [Announced(h, content, at)])
  {
    var m := Announced(h, content, at);
    var next := at + BLOCK + h.size + Padding(h.size);
    AnnouncedIsSeen(b.tools.read, content, at, h);
    if next <= |content| {
      JoinedOne(b.tools.read, content, at, ms, m, next);
      AdmissiblePrefix(b, ms + [m], Parse(b.tools.read, content, next).value);
    }
  }

  lemma NextAligned(at: nat, size: nat)
    requires at % BLOCK == 0
    ensures (at + BLOCK + size + Padding(size)) % BLOCK == 0
  {
    BlocksAdd(at, BLOCK);
    BlocksAdd(at + BLOCK, size + Padding(size));
  }

  lemma StandsOn(reader: BoundedArchiveReader, b: Brief, ms: seq<Member>, at: nat, h: Header)
    requires reader.Valid() && reader.Fits(reader.readBytes) && at % BLOCK == 0 && at + BLOCK <= |reader.content|
    requires Joined(ms, Parse(b.tools.read, reader.content, at)) == Parse(b.tools.read, reader.content, 0)
    requires b.tools.read(reader.content[at..at + BLOCK]) == Success(Some(h))
    requires reader.readBytes == at + BLOCK + h.size + Padding(h.size)
    ensures Stands(reader, b, ms + [Announced(h, reader.content, at)])
  {
    JoinedNext(b.tools.read, reader.content, at, ms, h);
    NextAligned(at, h.size);
  }

  /** An admitted member: its data, and what is entered of it. */
  method ReadMember(reader: BoundedArchiveReader, b: Brief, caps: Caps, before: seq<Item>, s: Counters, h: Header,
                    paths: set<string>, cases: map<string, string>, ghost ms: seq<Member>, ghost m: Member)
    returns (r: Result<Counters, (Reason, bool)>)
    requires reader.Valid() && reader.Fits(reader.readBytes)
    requires m.name == h.name && m.typeflag == h.typeflag && |m.data| == h.size
    requires reader.readBytes + h.size <= |reader.content| ==>
               m.data == reader.content[reader.readBytes..reader.readBytes + h.size]
    modifies reader
    ensures reader.Valid()
    ensures r.Success? ==>
              && (Passed(b, caps, before, ms, s) && Admissible(b, ms + [m])
                  && Tracks(b.tools, ms + [m], paths, cases) ==>
                    Passed(b, caps, before, ms + [m], r.value))
              && reader.readBytes == old(reader.readBytes) + h.size + Padding(h.size) && reader.Fits(reader.readBytes)
    ensures r.Failure? && reader.CanReach(old(reader.readBytes) + h.size + Padding(h.size)) ==> r.error.0 == TimeLimit
    ensures reader.readBytes <= reader.maxReadBytes + READ_CHUNK
  {
    var reference := ReferenceOf(b, h.name);
    var limited := s.ledger.limited
      || (reference.Some? && !HasRoom(caps, before + s.ledger.items, reference.value.row));
    var finding := ReadData(reader, b, h, reference);
    if finding.Failure? { return Failure((finding.error, limited)); }
    PassOne(b, caps, before, ms, m, s, paths, cases, reference, finding.value);
    r := Success(Counters(s.scanned + 1, s.logical + h.size, paths, cases,
                          Entered(b, caps, before, s.ledger, reference, finding.value)));
  }

  method AdmitNext(b: Brief, h: Header, s: Counters, ghost caps: Caps, ghost before: seq<Item>, ghost ms: seq<Member>,
                   ghost m: Member)
    returns (refused: Option<Reason>, paths: set<string>, cases: map<string, string>)
    requires Passed(b, caps, before, ms, s) && m.name == h.name && |m.data| == h.size
    ensures refused.None? <==> Admissible(b, ms + [m])
    ensures refused.None? ==> Tracks(b.tools, ms + [m], paths, cases)
    ensures refused != Some(TimeLimit)
  {
    refused, paths, cases := Admit(b, h, s.scanned + 1, s.logical + h.size, s.paths, s.cases, ms, m);
  }

  /** The rest of an iteration, after the block with the header h. */
  method ScanMember(reader: BoundedArchiveReader, b: Brief, caps: Caps, before: seq<Item>, s: Counters, h: Header,
                    ghost ms: seq<Member>, ghost m: Member)
    returns (r: Result<Counters, (Reason, bool)>)
    requires reader.Valid() && reader.Fits(reader.readBytes) && Passed(b, caps, before, ms, s)
    requires m.name == h.name && m.typeflag == h.typeflag && |m.data| == h.size
    requires reader.readBytes + h.size <= |reader.content| ==>
               m.data == reader.content[reader.readBytes..reader.readBytes + h.size]
    modifies reader
    ensures reader.Valid()
    ensures r.Success? ==>
              && Passed(b, caps, before, ms + [m], r.value)
              && reader.readBytes == old(reader.readBytes) + h.size + Padding(h.size) && reader.Fits(reader.readBytes)
    ensures r.Failure? && Admissible(b, ms + [m])
            && reader.CanReach(old(reader.readBytes) + h.size + Padding(h.size)) ==>
              r.error.0 == TimeLimit
    ensures reader.readBytes <= reader.maxReadBytes + READ_CHUNK
  {
    var refused, paths, cases := AdmitNext(b, h, s, caps, before, ms, m);
    if refused.Some? { return Failure((refused.value, s.ledger.limited)); }
    r := ReadMember(reader, b, caps, before, s, h, paths, cases, ms, m);
  }

  datatype Turn = Ended | Stopped(reason: Reason, limited: bool) | Going(counters: Counters)

  /** Between the header h of the block at a position and its data. */
  ghost predicate AtData(b: Brief, content: Bytes, ms: seq<Member>, at: nat, h: Header) {
    && at % BLOCK == 0 && at + BLOCK <= |content|
    && Joined(ms, Parse(b.tools.read, content, at)) == Parse(b.tools.read, content, 0)
    && b.tools.read(content[at..at + BLOCK]) == Success(Some(h))
  }

  /** The member that the header stands for, and whether it has to be admitted. */
  lemma NextMember(reader: BoundedArchiveReader, b: Brief, ms: seq<Member>, at: nat, h: Header) returns (m: Member)
    requires reader.readBytes == at + BLOCK && AtData(b, reader.content, ms, at, h)
    ensures m == Announced(h, reader.content, at)
    ensures m.name == h.name && m.typeflag == h.typeflag && |m.data| == h.size
    ensures reader.readBytes + h.size <= |reader.content| ==>
              m.data == reader.content[reader.readBytes..reader.readBytes + h.size]
    ensures MustPass(reader, b) ==>
              reader.readBytes + h.size + Padding(h.size) <= |reader.content| && Admissible(b, ms + [m])
  {
    m := Announced(h, reader.content, at);
    if MustPass(reader, b) { MustPassAdmits(b, reader.content, ms, at, h); }
  }

  method ScanData(reader: BoundedArchiveReader, b: Brief, caps: Caps, before: seq<Item>, s: Counters, h: Header,
                  ghost ms: seq<Member>, ghost at: nat)
    returns (turn: Turn, ghost seen: seq<Member>)
    requires reader.Valid() && reader.Fits(reader.readBytes) && reader.readBytes == at + BLOCK
    requires AtData(b, reader.content, ms, at, h) && Passed(b, caps, before, ms, s)
    modifies reader
    ensures reader.Valid() && !turn.Ended?
    ensures turn.Stopped? && MustPass(reader, b) ==> turn.reason == TimeLimit
    ensures turn.Going? ==>
              && Stands(reader, b, seen) && Passed(b, caps, before, seen, turn.counters)
              && old(reader.readBytes) <= reader.readBytes
    ensures reader.readBytes <= reader.maxReadBytes + READ_CHUNK
  {
    ghost var m := NextMember(reader, b, ms, at, h);
    seen := ms;
    var next := ScanMember(reader, b, caps, before, s, h, ms, m);
    if next.Failure? { return Stopped(next.error.0, next.error.1), seen; }
    StandsOn(reader, b, ms, at, h);
    turn, seen := Going(next.value), ms + [m];
  }

  /** One iteration. */
  method ScanNext(reader: BoundedArchiveReader, b: Brief, caps: Caps, before: seq<Item>, s: Counters,
                  ghost ms: seq<Member>)
    returns (turn: Turn, ghost seen: seq<Member>)
    requires Stands(reader, b, ms) && Passed(b, caps, before, ms, s)
    modifies reader
    ensures reader.Valid()
    ensures turn.Ended? ==>
              Parse(b.tools.read, reader.content, 0) == Success(ms) && reader.Fits(|reader.content|) && !reader.broken
    ensures turn.Stopped? && MustPass(reader, b) ==> turn.reason == TimeLimit
    ensures turn.Going? ==>
              && Stands(reader, b, seen) && Passed(b, caps, before, seen, turn.counters)
              && old(reader.readBytes) < reader.readBytes
    ensures reader.readBytes <= if reader.maxReadBytes < 0 then BLOCK else reader.maxReadBytes + READ_CHUNK
  {
    seen := ms;
    ghost var at := reader.readBytes;
    var block := ReadBlock(reader, b, ms);
    if block.Failure? { return Stopped(block.error, s.ledger.limited), seen; }
    if block.value.None? { return Ended, seen; }
    turn, seen := ScanData(reader, b, caps, before, s, block.value.value, ms, at);
  }

  /** The loop of _scan_archives over the blocks of one archive. */
  method ScanStream(reader: BoundedArchiveReader, b: Brief, caps: Caps, before: seq<Item>)
    returns (failed: Option<Reason>, ledger: Ledger, scanned: nat)
    requires reader.Valid() && reader.readBytes == 0
    modifies reader
    ensures reader.Valid()
    ensures failed.None? ==>
              && MustPass(reader, b)
              && var ms := Parse(b.tools.read, reader.content, 0).value;
                 ledger == Collect(caps, before, Hits(b, ms)) && scanned == |ms|
    ensures failed.Some? && MustPass(reader, b) ==> failed == Some(TimeLimit)
    ensures reader.readBytes <= if reader.maxReadBytes < 0 then BLOCK else reader.maxReadBytes + READ_CHUNK
  {
    var s := Counters(0, 0, {}, map[], Ledger([], false));
    ghost var ms: seq<Member> := [];
    JoinedNone(Parse(b.tools.read, reader.content, 0));
    while true
      invariant Stands(reader, b, ms) && Passed(b, caps, before, ms, s)
      decreases |reader.content| - reader.readBytes
    {
      var turn, seen := ScanNext(reader, b, caps, before, s, ms);
      match turn
      case Ended => return None, s.ledger, s.scanned;
      case Stopped(reason, limited) => return Some(reason), Ledger(s.ledger.items, limited), s.scanned;
      case Going(counters) => s, ms := counters, seen;
    }
  }

  lemma JoinedNone(whole: Result<seq<Member>, Reason>)
    ensures Joined([], whole) == whole
  {
    if whole.Success? { assert [] + whole.value == whole.value; }
  }

  /** An archive as it is written is scanned to its end exactly when its members pass the
      checks, and the members that the scan goes by are the ones that were written. */
  lemma SerialisedScanned(b: Brief, decode: Bytes -> Option<string>, ms: seq<Raw>, fill: nat)
    requires b.tools.read == Reader(decode) && AllWritable(decode, ms)
    ensures var content := Serialise(decode, ms, fill);
            && Parse(b.tools.read, content, 0) == Success(Readings(decode, ms))
            && (Acceptable(b, content) <==> Admissible(b, Readings(decode, ms)))
  {
    ArchiveRoundTrip(decode, ms, fill);
  }
}
