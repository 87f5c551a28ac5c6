/** The attestations of flowdocs/core/media_quarantine.py: a digest over a list of records,
    fed piece by piece, beside a count and the first few identifiers. */
module Attestation {
  import opened Common
  import J = Json
  import S = Text
  import opened CanonicalRows

  const MAX_DOCUMENTS: nat := 10_000_000
  const MAX_SIZE: nat := 0x7fff_ffff_ffff_ffff

  /** An integer that is no bool. */
  predicate IsLimit(v: J.Json) { v.Int? && 0 <= v.number <= 100 }

  datatype Invalid = Invalid

  // ---------------------------------------------------------------- what an attestation says

  function Identifiers(ids: seq<int>): J.Json { J.List(seq(|ids|, i requires 0 <= i < |ids| => J.Int(ids[i]))) }

  function Summary(count: nat, ids: seq<int>, limit: int, digest: string): J.Fields {
    map["count" := J.Int(count), "ids" := Identifiers(ids), "truncated" := J.Bool(count > limit),
        "preview_limit" := J.Int(limit), "set_sha256" := J.String(digest)]
  }

  /** A positive Python int, which True is too. */
  predicate IsPositive(v: J.Json) { (v.Int? || v.Bool?) && J.Value(v) > 0.0 }

  predicate IsPreview(items: seq<J.Json>) {
    && (forall i :: 0 <= i < |items| ==> IsPositive(items[i]))
    && (forall i, j :: 0 <= i < j < |items| ==> J.Value(items[i]) < J.Value(items[j]))
  }

  predicate IsAttestation(f: J.Fields) {
    var count, ids, limit := J.Get(f, "count"), J.Get(f, "ids"), J.Get(f, "preview_limit");
    && count.Int? && count.number >= 0 && ids.List? && |ids.items| <= 100
    && IsLimit(limit) && IsPreview(ids.items)
    && J.Get(f, "truncated") == J.Bool(count.number > limit.number)
    && |ids.items| == Min(count.number, limit.number)
    && J.Get(f, "set_sha256").String? && S.IsSha256(J.Get(f, "set_sha256").text)
  }

  /** validate_unavailable_attestation. */
  function Validate(v: J.Json): Result<J.Fields, Invalid> {
    if v.Object? && IsAttestation(v.fields) then
      Success(map["count" := J.Get(v.fields, "count"), "ids" := J.Get(v.fields, "ids"),
                  "truncated" := J.Get(v.fields, "truncated"), "preview_limit" := J.Get(v.fields, "preview_limit"),
                  "set_sha256" := J.Get(v.fields, "set_sha256")])
    else Failure(Invalid)
  }

  predicate Rising(ids: seq<int>) {
    (forall i :: 0 <= i < |ids| ==> ids[i] > 0) && forall i, j :: 0 <= i < j < |ids| ==> ids[i] < ids[j]
  }

  /** The first identifiers, as many as the limit allows. */
  function Preview(ids: seq<int>, limit: nat): seq<int> { ids[..Min(|ids|, limit)] }

  /** A built attestation is accepted and comes back unchanged. */
  lemma SummaryAccepted(ids: seq<int>, limit: nat, digest: string)
    requires Rising(ids) && limit <= 100 && S.IsSha256(digest)
    ensures var s := Summary(|ids|, Preview(ids, limit), limit, digest);
            Validate(J.Object(s)) == Success(s)
  {
    var s := Summary(|ids|, Preview(ids, limit), limit, digest);
    SummaryFields(|ids|, Preview(ids, limit), limit, digest);
    PreviewAccepted(Preview(ids, limit));
  }

  lemma SummaryFields(count: nat, ids: seq<int>, limit: int, digest: string)
    ensures var s := Summary(count, ids, limit, digest);
            && J.Get(s, "count") == J.Int(count) && J.Get(s, "ids") == Identifiers(ids)
            && J.Get(s, "truncated") == J.Bool(count > limit) && J.Get(s, "preview_limit") == J.Int(limit)
            && J.Get(s, "set_sha256") == J.String(digest)
  {
  }

  lemma PreviewAccepted(ids: seq<int>)
    requires Rising(ids)
    ensures IsPreview(Identifiers(ids).items)
  {
  }

  // ---------------------------------------------------------------- lists of records

  function All<T, U>(rs: seq<T>, f: T -> U): (r: seq<U>)
    ensures |r| == |rs| && forall i :: 0 <= i < |rs| ==> r[i] == f(rs[i])
  {
    seq(|rs|, i requires 0 <= i < |rs| => f(rs[i]))
  }

  // ---------------------------------------------------------------- unavailable documents

  /** A text of 64 lower-case hexadecimal digits. */
  predicate IsHexText(t: Text) {
    |t| == 64 && forall i :: 0 <= i < |t| ==> '0' as int <= t[i] <= '9' as int || 'a' as int <= t[i] <= 'f' as int
  }

  /** A record after str(... or "") of its texts. */
  datatype Unavailable = Unavailable(
    id: J.Json, lifecycle: Text, status: Text, token: Text, expectedSha: Text, expectedSize: J.Json, prior: Text)

  predicate Is(t: Text, name: string) { t == Codes(name) }

  predicate IsPrior(t: Text) {
    Is(t, "uploaded") || Is(t, "processing") || Is(t, "ready") || Is(t, "deprecated") || Is(t, "archived")
  }

  predicate FullyExpected(r: Unavailable) {
    r.expectedSha != [] && r.expectedSize.Int? && 0 <= r.expectedSize.number <= MAX_SIZE && IsPrior(r.prior)
  }

  predicate NothingExpected(r: Unavailable) {
    r.expectedSha == [] && r.expectedSize == J.Null && (r.prior == [] || IsPrior(r.prior))
  }

  /** All that is asked of a record but for its identifier. */
  predicate IsUnavailable(r: Unavailable) {
    && Is(r.lifecycle, "unavailable")
    && (Is(r.status, "blank") || Is(r.status, "present") || Is(r.status, "unsafe"))
    && IsHexText(r.token) && (r.expectedSha != [] ==> IsHexText(r.expectedSha))
    && (FullyExpected(r) || NothingExpected(r))
  }

  predicate Follows(id: J.Json, previous: int) { id.Int? && id.number > previous }

  /** What the identifier at i must exceed. */
  function Before(ids: seq<J.Json>, i: nat): int
    requires i <= |ids|
  {
    if i == 0 then 0 else IdOf(ids[i - 1])
  }

  /** Identifiers rise from record to record. */
  predicate Climbs(ids: seq<J.Json>) { ClimbsTo(ids, |ids|) }

  predicate ClimbsTo(ids: seq<J.Json>, n: nat)
    requires n <= |ids|
  {
    forall i :: 0 <= i < n ==> Follows(ids[i], Before(ids, i))
  }

  predicate PassTo<T>(rs: seq<T>, check: T -> bool, n: nat)
    requires n <= |rs|
  {
    forall i :: 0 <= i < n ==> check(rs[i])
  }

  lemma PassOne<T>(rs: seq<T>, check: T -> bool, n: nat)
    requires n < |rs| && PassTo(rs, check, n)
    ensures PassTo(rs, check, n + 1) <==> check(rs[n])
    ensures PassTo(rs, check, |rs|) ==> check(rs[n])
  {
  }

  function SizeCell(v: J.Json): Cell { if v.Int? && v.number >= 0 then Number(v.number) else Null }

  function IdCell(v: J.Json): Cell { SizeCell(v) }

  function TextCell(t: Text): Cell { Str(Units(t)) }

  function RowOf(r: Unavailable): Row {
    [IdCell(r.id), TextCell(r.lifecycle), TextCell(r.status), TextCell(r.token), TextCell(r.expectedSha),
     SizeCell(r.expectedSize), TextCell(r.prior)]
  }

  function IdOf(v: J.Json): int { if v.Int? then v.number else 0 }

  function UnavailableId(r: Unavailable): J.Json { r.id }

  function IdsIn(rs: seq<Unavailable>): (r: seq<J.Json>)
    ensures |r| == |rs|
  {
    All(rs, UnavailableId)
  }

  predicate AllUnavailable(rs: seq<Unavailable>) {
    Climbs(IdsIn(rs)) && forall i :: 0 <= i < |rs| ==> IsUnavailable(rs[i])
  }

  function Rows(rs: seq<Unavailable>): (r: seq<Row>)
    ensures |r| == |rs|
  {
    All(rs, RowOf)
  }

  function Numbers(ids: seq<J.Json>): (r: seq<int>)
    ensures |r| == |ids|
  {
    seq(|ids|, i requires 0 <= i < |ids| => IdOf(ids[i]))
  }

  /** The text hashed so far and what is still to come make up the whole. */
  predicate Hashing(rows: seq<Row>, i: nat, hashed: string)
    requires i <= |rows|
  {
    hashed + Rest(rows[i..], i > 0) == Stream(rows)
  }

  lemma RestSplits(rows: seq<Row>, i: nat)
    requires i < |rows|
    ensures Rest(rows[i..], i > 0) == (if i > 0 then "," else "") + (WriteRow(rows[i]) + Rest(rows[i + 1..], true))
  {
    assert rows[i..][1..] == rows[i + 1..];
  }

  lemma Regroup(hashed: string, sep: string, row: string, rest: string)
    ensures hashed + (sep + (row + rest)) == hashed + sep + row + rest
  {
  }

  lemma HashOne(rows: seq<Row>, i: nat, hashed: string)
    requires i < |rows| && Hashing(rows, i, hashed)
    ensures Hashing(rows, i + 1, (if i > 0 then hashed + "," else hashed) + WriteRow(rows[i]))
  {
    RestSplits(rows, i);
    Regroup(hashed, if i > 0 then "," else "", WriteRow(rows[i]), Rest(rows[i + 1..], true));
    assert hashed + "" == hashed;
  }

  lemma HashEnds(rows: seq<Row>, hashed: string)
    requires Hashing(rows, |rows|, hashed)
    ensures hashed + "]" == Stream(rows)
  {
    assert rows[|rows|..] == [];
  }

  lemma PreviewOne(ids: seq<int>, limit: nat, i: nat)
    requires i < |ids|
    ensures Preview(ids[..i + 1], limit)
              == if |Preview(ids[..i], limit)| < limit then Preview(ids[..i], limit) + [ids[i]]
                 else Preview(ids[..i], limit)
  {
  }

  /** Rising is to be positive at first and to go up from each to the next. */
  lemma {:induction false} RisesFrom(a: seq<int>, i: nat)
    requires i < |a| && a[0] > 0 && forall k :: 0 < k < |a| ==> a[k] > a[k - 1]
    ensures a[i] > 0 && forall k :: 0 <= k < i ==> a[k] < a[i]
  {
    if i > 0 { RisesFrom(a, i - 1); }
  }

  lemma ClimbRises(ids: seq<J.Json>)
    requires Climbs(ids)
    ensures Rising(Numbers(ids)) && forall i :: 0 <= i < |ids| ==> ids[i].Int?
  {
    var a := Numbers(ids);
    forall k | 0 <= k < |ids| ensures ids[k].Int? && a[k] > if k == 0 then 0 else a[k - 1] {
      assert Follows(ids[k], Before(ids, k));
    }
    forall i | 0 <= i < |ids| ensures a[i] > 0 && forall k :: 0 <= k < i ==> a[k] < a[i] {
      RisesFrom(a, i);
    }
  }

  function NextText(hashed: string, row: Row, started: bool): string {
    (if started then hashed + "," else hashed) + WriteRow(row)
  }

  function NextPreview(preview: seq<int>, limit: nat, id: int): seq<int> {
    if |preview| < limit then preview + [id] else preview
  }

  /** What the loop has made of the first records. */
  predicate Hashed(rows: seq<Row>, ids: seq<J.Json>, limit: nat, i: nat, hashed: string, preview: seq<int>,
                   previous: int)
    requires i <= |rows| == |ids|
  {
    && Hashing(rows, i, hashed) && preview == Preview(Numbers(ids)[..i], limit)
    && ClimbsTo(ids, i) && previous == Before(ids, i)
  }

  lemma NothingHashed(rows: seq<Row>, ids: seq<J.Json>, limit: nat)
    requires |rows| == |ids|
    ensures Hashed(rows, ids, limit, 0, "[", [], 0)
  {
    assert rows[0..] == rows;
  }

  lemma HashedOne(rows: seq<Row>, ids: seq<J.Json>, limit: nat, i: nat, hashed: string, preview: seq<int>,
                  previous: int)
    requires i < |rows| == |ids| && Hashed(rows, ids, limit, i, hashed, preview, previous)
    ensures Climbs(ids) ==> Follows(ids[i], previous)
    ensures Follows(ids[i], previous) ==>
              Hashed(rows, ids, limit, i + 1, NextText(hashed, rows[i], i > 0),
                     NextPreview(preview, limit, IdOf(ids[i])), IdOf(ids[i]))
  {
    HashOne(rows, i, hashed);
    PreviewOne(Numbers(ids), limit, i);
  }

  lemma HashedAll(rows: seq<Row>, ids: seq<J.Json>, limit: nat, hashed: string, preview: seq<int>, previous: int)
    requires |rows| == |ids| && Hashed(rows, ids, limit, |ids|, hashed, preview, previous)
    ensures Climbs(ids) && (hashed + "]", preview) == (Stream(rows), Preview(Numbers(ids), limit))
  {
    HashEnds(rows, hashed);
    assert Numbers(ids)[..|ids|] == Numbers(ids);
  }

  /** The loop that both builders run, each with its own check and canonical row: the text
      that the digest has taken in is the text of the records themselves. */
  method HashRecords<T>(rs: seq<T>, limit: nat, bound: Option<nat>, idOf: T -> J.Json, check: T -> bool,
                        rowOf: T -> Row)
    returns (r: Result<(string, seq<int>), Invalid>)
    ensures r.Success? <==>
              && Climbs(All(rs, idOf)) && PassTo(rs, check, |rs|)
              && (bound.Some? ==> |rs| <= bound.value)
    ensures r.Success? ==> r.value == (Stream(All(rs, rowOf)), Preview(Numbers(All(rs, idOf)), limit))
  {
    var hashed, identifiers: seq<int>, count, previous := "[", [], 0, 0;
    ghost var rows, ids := All(rs, rowOf), All(rs, idOf);
    NothingHashed(rows, ids, limit);
    for i := 0 to |rs|
      invariant count == i && (bound.Some? ==> count <= bound.value)
      invariant PassTo(rs, check, i) && Hashed(rows, ids, limit, i, hashed, identifiers, previous)
    {
      var id := idOf(rs[i]);
      HashedOne(rows, ids, limit, i, hashed, identifiers, previous);
      PassOne(rs, check, i);
      assert ids[i] == id && rows[i] == rowOf(rs[i]);
      if !Follows(id, previous) || !check(rs[i]) { return Failure(Invalid); }
      if count > 0 { hashed := hashed + ","; }
      hashed := hashed + WriteRow(rowOf(rs[i]));
      if |identifiers| < limit { identifiers := identifiers + [id.number]; }
      count := count + 1;
      if bound.Some? && count > bound.value { return Failure(Invalid); }
      previous := id.number;
    }
    HashedAll(rows, ids, limit, hashed, identifiers, previous);
    r := Success((hashed + "]", identifiers));
  }

  /** build_unavailable_attestation. */
  method BuildUnavailable(rs: seq<Unavailable>, idLimit: J.Json, sha256: string -> string)
    returns (r: Result<J.Fields, Invalid>)
    ensures r.Success? <==> IsLimit(idLimit) && AllUnavailable(rs) && |rs| <= MAX_DOCUMENTS
    ensures r.Success? ==>
              r.value == Summary(|rs|, Preview(Numbers(IdsIn(rs)), idLimit.number), idLimit.number,
                                 sha256(Stream(Rows(rs))))
  {
    if !IsLimit(idLimit) { return Failure(Invalid); }
    var hashed := HashRecords(rs, idLimit.number, Some(MAX_DOCUMENTS), UnavailableId, IsUnavailable, RowOf);
    if hashed.Failure? { return Failure(Invalid); }
    r := Success(Summary(|rs|, hashed.value.1, idLimit.number, sha256(hashed.value.0)));
  }

  /** The hashed text determines the records, all seven fields of each. */
  lemma UnavailableTextTells(a: seq<Unavailable>, b: seq<Unavailable>)
    requires AllUnavailable(a) && AllUnavailable(b) && Stream(Rows(a)) == Stream(Rows(b))
    ensures a == b
  {
    StreamTells(Rows(a), Rows(b));
    ClimbRises(IdsIn(a));
    ClimbRises(IdsIn(b));
    assert |a| == |Rows(a)| == |Rows(b)| == |b|;
    forall i | 0 <= i < |a| ensures a[i] == b[i] {
      assert Rows(a)[i] == Rows(b)[i];
      assert IdsIn(a)[i] == a[i].id && IdsIn(b)[i] == b[i].id;
      assert Numbers(IdsIn(a))[i] > 0 && Numbers(IdsIn(b))[i] > 0;
      RowTells(a[i], b[i]);
    }
  }

  lemma RowTells(r: Unavailable, q: Unavailable)
    requires RowOf(r) == RowOf(q) && IsUnavailable(r) && IsUnavailable(q)
    requires r.id.Int? && r.id.number > 0 && q.id.Int? && q.id.number > 0
    ensures r == q
  {
    var a, b := RowOf(r), RowOf(q);
    assert a[0] == b[0] && a[1] == b[1] && a[2] == b[2] && a[3] == b[3] && a[4] == b[4] && a[5] == b[5] && a[6] == b[6];
    UnavailablePlain(r);
    UnavailablePlain(q);
    UnitsTell(r.lifecycle, q.lifecycle);
    UnitsTell(r.status, q.status);
    UnitsTell(r.token, q.token);
    UnitsTell(r.expectedSha, q.expectedSha);
    UnitsTell(r.prior, q.prior);
  }

  lemma IsNoPairs(t: Text, name: string)
    requires Is(t, name)
    ensures NoPairs(t)
  {
    CodesNoPairs(name);
  }

  lemma PriorNoPairs(t: Text)
    requires IsPrior(t)
    ensures NoPairs(t)
  {
    if Is(t, "uploaded") { IsNoPairs(t, "uploaded"); }
    if Is(t, "processing") { IsNoPairs(t, "processing"); }
    if Is(t, "ready") { IsNoPairs(t, "ready"); }
    if Is(t, "deprecated") { IsNoPairs(t, "deprecated"); }
    if Is(t, "archived") { IsNoPairs(t, "archived"); }
  }

  lemma HexNoPairs(t: Text)
    requires IsHexText(t)
    ensures NoPairs(t)
  {
  }

  /** No text of a valid record holds a surrogate pair. */
  lemma UnavailablePlain(r: Unavailable)
    requires IsUnavailable(r)
    ensures NoPairs(r.lifecycle) && NoPairs(r.status) && NoPairs(r.token) && NoPairs(r.expectedSha) && NoPairs(r.prior)
    ensures r.expectedSize == J.Null || (r.expectedSize.Int? && r.expectedSize.number >= 0)
  {
    IsNoPairs(r.lifecycle, "unavailable");
    if Is(r.status, "blank") { IsNoPairs(r.status, "blank"); }
    if Is(r.status, "present") { IsNoPairs(r.status, "present"); }
    if Is(r.status, "unsafe") { IsNoPairs(r.status, "unsafe"); }
    HexNoPairs(r.token);
    if r.expectedSha != [] { HexNoPairs(r.expectedSha); }
    if r.prior != [] { PriorNoPairs(r.prior); }
  }

  /** Every attestation that is built is one that validates, and validating changes nothing. */
  lemma UnavailableAccepted(rs: seq<Unavailable>, limit: nat, digest: string)
    requires AllUnavailable(rs) && limit <= 100 && S.IsSha256(digest)
    ensures var s := Summary(|rs|, Preview(Numbers(IdsIn(rs)), limit), limit, digest);
            Validate(J.Object(s)) == Success(s)
  {
    ClimbRises(IdsIn(rs));
    SummaryAccepted(Numbers(IdsIn(rs)), limit, digest);
  }

  // ---------------------------------------------------------------- missing, but not unavailable

  /** None stands for a value that is no str. */
  datatype Missing = Missing(id: J.Json, lifecycle: Option<Text>, fileStatus: Option<Text>, token: Option<Text>)

  predicate IsFileStatus(t: Text) { Is(t, "missing") || Is(t, "missing-path") || Is(t, "unsafe-path") }

  predicate IsMissing(r: Missing) {
    && r.lifecycle.Some? && r.lifecycle.value != [] && !Is(r.lifecycle.value, "unavailable")
    && r.fileStatus.Some? && IsFileStatus(r.fileStatus.value)
    && r.token.Some? && IsHexText(r.token.value)
  }

  function OptionCell(t: Option<Text>): Cell { if t.Some? then TextCell(t.value) else Null }

  function MissingRow(r: Missing): Row {
    [IdCell(r.id), OptionCell(r.lifecycle), OptionCell(r.fileStatus), OptionCell(r.token)]
  }

  function MissingId(r: Missing): J.Json { r.id }

  function MissingIds(rs: seq<Missing>): (r: seq<J.Json>)
    ensures |r| == |rs|
  {
    All(rs, MissingId)
  }

  predicate AllMissing(rs: seq<Missing>) {
    Climbs(MissingIds(rs)) && forall i :: 0 <= i < |rs| ==> IsMissing(rs[i])
  }

  function MissingRows(rs: seq<Missing>): (r: seq<Row>)
    ensures |r| == |rs|
  {
    All(rs, MissingRow)
  }

  /** build_unauthorized_missing_attestation, which has no bound on the number of records. */
  method BuildMissing(rs: seq<Missing>, idLimit: J.Json, sha256: string -> string)
    returns (r: Result<J.Fields, Invalid>)
    ensures r.Success? <==> IsLimit(idLimit) && AllMissing(rs)
    ensures r.Success? ==>
              r.value == Summary(|rs|, Preview(Numbers(MissingIds(rs)), idLimit.number), idLimit.number,
                                 sha256(Stream(MissingRows(rs))))
  {
    if !IsLimit(idLimit) { return Failure(Invalid); }
    var hashed := HashRecords(rs, idLimit.number, None, MissingId, IsMissing, MissingRow);
    if hashed.Failure? { return Failure(Invalid); }
    r := Success(Summary(|rs|, hashed.value.1, idLimit.number, sha256(hashed.value.0)));
  }

  /** Two records that differ at most in surrogate pairs of their lifecycles. */
  predicate Alike(r: Missing, q: Missing)
    requires r.lifecycle.Some? && q.lifecycle.Some?
  {
    && r.id == q.id && r.fileStatus == q.fileStatus && r.token == q.token
    && Joined(r.lifecycle.value) == Joined(q.lifecycle.value)
  }

  predicate AllAlike(a: seq<Missing>, b: seq<Missing>)
    requires AllMissing(a) && AllMissing(b)
  {
    |a| == |b| && forall i :: 0 <= i < |a| ==> Alike(a[i], b[i])
  }

  /** The hashed text determines the records, all four fields of each, up to how astral code
      points of a lifecycle are spelled, and no further. */
  lemma MissingTextTells(a: seq<Missing>, b: seq<Missing>)
    requires AllMissing(a) && AllMissing(b)
    ensures Stream(MissingRows(a)) == Stream(MissingRows(b)) <==> AllAlike(a, b)
  {
    if |a| == |b| {
      forall i | 0 <= i < |a| ensures MissingRows(a)[i] == MissingRows(b)[i] <==> Alike(a[i], b[i]) {
        MissingIdNumbers(a, i);
        MissingIdNumbers(b, i);
        MissingRowTells(a[i], b[i]);
      }
      if AllAlike(a, b) { assert MissingRows(a) == MissingRows(b); }
    }
    if Stream(MissingRows(a)) == Stream(MissingRows(b)) {
      StreamTells(MissingRows(a), MissingRows(b));
      assert |a| == |MissingRows(a)| == |MissingRows(b)| == |b|;
    }
  }

  lemma MissingIdNumbers(a: seq<Missing>, i: nat)
    requires AllMissing(a) && i < |a|
    ensures a[i].id.Int? && a[i].id.number > 0
  {
    ClimbRises(MissingIds(a));
    assert MissingIds(a)[i] == a[i].id && Numbers(MissingIds(a))[i] > 0;
  }

  lemma FileStatusNoPairs(t: Text)
    requires IsFileStatus(t)
    ensures NoPairs(t)
  {
    if Is(t, "missing") { IsNoPairs(t, "missing"); }
    if Is(t, "missing-path") { IsNoPairs(t, "missing-path"); }
    if Is(t, "unsafe-path") { IsNoPairs(t, "unsafe-path"); }
  }

  lemma MissingRowTells(r: Missing, q: Missing)
    requires IsMissing(r) && IsMissing(q)
    requires r.id.Int? && r.id.number >= 0 && q.id.Int? && q.id.number >= 0
    ensures MissingRow(r) == MissingRow(q) <==> Alike(r, q)
  {
    var a, b := MissingRow(r), MissingRow(q);
    SameUnits(r.lifecycle.value, q.lifecycle.value);
    FileStatusNoPairs(r.fileStatus.value);
    FileStatusNoPairs(q.fileStatus.value);
    HexNoPairs(r.token.value);
    HexNoPairs(q.token.value);
    if a == b {
      assert a[0] == b[0] && a[1] == b[1] && a[2] == b[2] && a[3] == b[3];
      UnitsTell(r.fileStatus.value, q.fileStatus.value);
      UnitsTell(r.token.value, q.token.value);
    }
  }

  /** Without a high surrogate directly before a low one it determines them entirely. */
  lemma PlainMissingTold(a: seq<Missing>, b: seq<Missing>)
    requires AllMissing(a) && AllMissing(b) && Stream(MissingRows(a)) == Stream(MissingRows(b))
    requires forall r :: r in a + b && r.lifecycle.Some? ==> NoPairs(r.lifecycle.value)
    ensures a == b
  {
    MissingTextTells(a, b);
    forall i | 0 <= i < |a| ensures a[i] == b[i] {
      assert Alike(a[i], b[i]) && a[i] in a + b && b[i] in a + b;
      JoinedFixes(a[i].lifecycle.value);
      JoinedFixes(b[i].lifecycle.value);
    }
  }

  /** The one record for a document whose lifecycle is t. */
  function Sample(t: Text, token: Text): seq<Missing> {
    [Missing(J.Int(1), Some(t), Some(Codes("missing")), Some(token))]
  }

  /** Two lists that the builder accepts and hashes alike: of the two lifecycles one is U+1F600
      and the other its two surrogates. */
  lemma LifecyclesCollide(token: Text)
    requires IsHexText(token)
    ensures var a, b := Sample([0xD83D, 0xDE00], token), Sample([0x1_F600], token);
            AllMissing(a) && AllMissing(b) && a != b && Stream(MissingRows(a)) == Stream(MissingRows(b))
  {
    var a, b := Sample([0xD83D, 0xDE00], token), Sample([0x1_F600], token);
    assert |Codes("unavailable")| == 11;
    assert a[0] != b[0] && Climbs(MissingIds(a)) && Climbs(MissingIds(b));
    SurrogatesCollide();
    SameUnits([0xD83D, 0xDE00], [0x1_F600]);
    assert AllAlike(a, b);
    MissingTextTells(a, b);
  }

  lemma MissingAccepted(rs: seq<Missing>, limit: nat, digest: string)
    requires AllMissing(rs) && limit <= 100 && S.IsSha256(digest)
    ensures var s := Summary(|rs|, Preview(Numbers(MissingIds(rs)), limit), limit, digest);
            Validate(J.Object(s)) == Success(s)
  {
    ClimbRises(MissingIds(rs));
    SummaryAccepted(Numbers(MissingIds(rs)), limit, digest);
  }
}
