/** The rebinding of a manifest in flowdocs/dataops/clone.py, and exactly when the rebound
    manifest validates for the destination. */
module Rebind {
  import opened Common
  import opened Json
  import opened Text
  import opened Manifest

  datatype Profile = Profile(key: string, dataset: string, bucket: string, sourceId: string)

  datatype Request = Request(
    source: Profile, destination: Profile, sourceGeneration: string, destinationGeneration: string, reason: string)
  {
    function From(): string { Prefix(source.dataset) }
    function To(): string { Prefix(destination.dataset) }
  }

  /** The destination entry of a validated one, whose key has the source prefix. */
  function Rebound(e: Fields, from: string, to: string): Fields {
    var key := Get(e, "object_key");
    var target := String(if key.String? then RewriteText(key.text, from, to) else "");
    if "key" in e then e["object_key" := target]["key" := target] else e["object_key" := target]
  }

  function Rebounds(es: seq<Fields>, from: string, to: string): (r: seq<Fields>)
    ensures |r| == |es|
  {
    seq(|es|, i requires 0 <= i < |es| => Rebound(es[i], from, to))
  }

  function Lineage(q: Request, digest: string): Fields {
    map["parent_dataset_id" := String(q.source.dataset), "parent_generation_id" := String(q.sourceGeneration),
        "parent_manifest_sha256" := String(digest), "clone_reason" := String(q.reason)]
  }

  function Origin(q: Request): Fields {
    map["profile" := String(q.source.key), "source_id" := String(q.source.sourceId),
        "cloned_from_profile" := String(q.source.key), "cloned_from_bucket" := String(q.source.bucket)]
  }

  function CloneInfo(q: Request, digest: string): Fields {
    map["operation" := String("clone/rebind"), "source_profile" := String(q.source.key),
        "destination_profile" := String(q.destination.key), "destination_bucket" := String(q.destination.bucket)]
    + Lineage(q, digest)
  }

  function Rewritten(q: Request, payload: Fields): Fields {
    map k | k in payload :: Rewrite(payload[k], q.From(), q.To())
  }

  /** The source section must be a mapping or empty: Python's dict refuses anything else. */
  predicate HasOrigin(payload: Fields) { Get(payload, "source").Object? || Falsy(Get(payload, "source")) }

  /** The fields that the rebinding sets anew. */
  function Overrides(q: Request, origin: Fields, es: seq<Fields>, digest: string): Fields {
    map["dataset_id" := String(q.destination.dataset), "release_id" := String(q.destinationGeneration),
        "files" := AsList(Rebounds(es, q.From(), q.To())), "source" := Object(origin + Origin(q)),
        "repacked_from_generation_id" := String(q.sourceGeneration), "clone" := Object(CloneInfo(q, digest))]
    + Lineage(q, digest)
  }

  function Rebase(q: Request, payload: Fields, es: seq<Fields>, digest: string): Fields {
    var rewritten := Rewritten(q, payload);
    rewritten + Overrides(q, FieldsOf(Get(rewritten, "source")), es, digest)
  }

  lemma PrefixTells(a: string, b: string)
    ensures Prefix(a) == Prefix(b) <==> a == b
  {
    assert Prefix(a)[9..|Prefix(a)| - 1] == a && Prefix(b)[9..|Prefix(b)| - 1] == b;
  }

  /** The prefixes of different datasets never extend one another, as long as the names have
      no slash. */
  lemma PrefixesApart(a: string, b: string)
    requires a != b && '/' !in a && '/' !in b
    ensures Apart(Prefix(a), Prefix(b))
  {
    if Prefix(a) <= Prefix(b) { PrefixExtends(a, b); }
    if Prefix(b) <= Prefix(a) { PrefixExtends(b, a); }
  }

  lemma PrefixExtends(a: string, b: string)
    requires Prefix(a) <= Prefix(b) && '/' !in b
    ensures a == b
  {
    var x, y := Prefix(a), Prefix(b);
    assert y[9..|y| - 1] == b && x[9..|x| - 1] == a && x == y[..|x|];
    assert x[|x| - 1] == '/' == y[|x| - 1];
    assert forall i :: 9 <= i < |y| - 1 ==> y[i] == b[i - 9];
    assert forall i :: 0 <= i < |b| ==> b[i] in b;
    assert |x| == |y|;
  }

  /** A value rewritten for another dataset has no string with the source prefix left. */
  lemma NothingOfTheSource(v: Json, a: string, b: string)
    requires a != b && '/' !in a && '/' !in b
    ensures Everywhere(Rewrite(v, Prefix(a), Prefix(b)), x => !(Prefix(a) <= x))
  {
    PrefixesApart(a, b);
    forall x ensures LosesPrefix(x, Prefix(a), Prefix(b)) { ApartLoses(x, Prefix(a), Prefix(b)); }
    EverywhereAll(v, x => LosesPrefix(x, Prefix(a), Prefix(b)));
    RewriteLeavesNone(v, Prefix(a), Prefix(b));
  }

  lemma {:induction false} EverywhereAll(v: Json, p: string -> bool)
    requires forall x :: p(x)
    ensures Everywhere(v, p)
  {
    match v
    case List(items) => forall i | 0 <= i < |items| ensures Everywhere(items[i], p) { EverywhereAll(items[i], p); }
    case Object(fields) => forall k | k in fields ensures Everywhere(fields[k], p) { EverywhereAll(fields[k], p); }
    case _ =>
  }

  // ---------------------------------------------------------------- one entry

  /** No string of the entry but its keys has the source prefix, and a field "key" beside
      "object_key" is rewritten to the same destination key. */
  predicate BindsOnlyKeys(e: Fields, from: string, to: string) {
    && (forall k :: k in e && k != "object_key" && k != "key" ==> Everywhere(e[k], x => !(from <= x)))
    && ("key" in e ==> Rewrite(e["key"], from, to) == Rebound(e, from, to)["key"])
  }

  /** Rewriting an entry and rebinding it give the same entry exactly then. */
  lemma RewrittenIsRebound(e: Fields, from: string, to: string)
    requires from != to && Get(e, "object_key").String?
    ensures Same(Rewrite(Object(e), from, to), Object(Rebound(e, from, to))) <==> BindsOnlyKeys(e, from, to)
  {
    var w := Rewrite(Object(e), from, to).fields;
    var r := Rebound(e, from, to);
    assert "object_key" in e;
    assert w.Keys == e.Keys && r.Keys == e.Keys;
    forall k | k in e && k != "object_key" && k != "key"
      ensures Same(w[k], r[k]) <==> Everywhere(e[k], x => !(from <= x))
    {
      RewriteFixes(e[k], from, to);
    }
    var key := e["object_key"];
    assert w["object_key"] == Rewrite(key, from, to) == String(RewriteText(key.text, from, to)) == r["object_key"];
    if "key" in e {
      assert w["key"] == Rewrite(e["key"], from, to) && r["key"].String?;
    }
  }

  /** What a safe text is like. */
  predicate IsSafe(p: string) { p != "" && PlainPath(p) && p[0] != '/' && !IsSpace(p[|p| - 1]) }

  lemma SafeTextIsSafe(s: string, p: string)
    requires SafeText(s) == Some(p)
    ensures IsSafe(p)
  {
    TrimmedEnds(s);
  }

  lemma SafeAgain(p: string)
    requires IsSafe(p)
    ensures SafeText(p) == Some(p) <==> !IsSpace(p[0])
  {
    TrimmedFixes(p);
  }

  lemma SafeTextAgain(s: string, p: string)
    requires SafeText(s) == Some(p)
    ensures IsSafe(p) && (SafeText(p) == Some(p) <==> !IsSpace(p[0]))
  {
    SafeTextIsSafe(s, p);
    SafeAgain(p);
  }

  lemma KeySplits(key: string, a: string)
    requires Prefix(a) + "blobs/" <= key
    ensures Prefix(a) <= key && key == Prefix(a) + key[|Prefix(a)|..] && "blobs/" <= key[|Prefix(a)|..]
  {
    var head := Prefix(a) + "blobs/";
    assert head[..|Prefix(a)|] == Prefix(a) && head[|Prefix(a)|..] == "blobs/";
    assert key[..|head|] == head;
    assert key[|Prefix(a)|..][..6] == key[|Prefix(a)|..|head|];
  }

  /** The ends of a moved key: a new first letter, the old last one. */
  lemma MovedKeyEnds(key: string, a: string, b: string)
    requires Prefix(a) + "blobs/" <= key
    ensures var target := RewriteText(key, Prefix(a), Prefix(b));
            key != "" && target != "" && key[|key| - 1] == target[|target| - 1] && target[0] == 'd'
  {
    KeySplits(key, a);
    var rest := key[|Prefix(a)|..];
    assert rest != "" && (Prefix(b) + rest)[0] == Prefix(b)[0] == 'd';
  }

  lemma MovedKeyTrimmed(key: string, a: string, b: string)
    requires Prefix(a) + "blobs/" <= key && key != "" && !IsSpace(key[|key| - 1])
    ensures var target := RewriteText(key, Prefix(a), Prefix(b)); target != "" && Trimmed(target) == target
  {
    MovedKeyEnds(key, a, b);
    TrimmedFixes(RewriteText(key, Prefix(a), Prefix(b)));
  }

  lemma MovedKeyPlain(key: string, a: string, b: string)
    requires PlainPath(key) && Prefix(a) + "blobs/" <= key
    ensures var target := RewriteText(key, Prefix(a), Prefix(b));
            && Prefix(b) + "blobs/" <= target && Basename(target) == Basename(key)
            && (PlainPath(target) <==> PlainPath(b))
  {
    var rest := key[|Prefix(a)|..];
    KeySplits(key, a);
    assert Prefix(b) + "blobs/" <= Prefix(b) + rest;
    PrefixPlain(a, rest);
    PrefixPlain(b, rest);
  }

  lemma TrimmedSafe(t: string)
    requires t != "" && Trimmed(t) == t
    ensures SafeText(t) == (if PlainPath(t) then Some(t) else None)
  {
  }

  lemma SafeTextMeans(s: string, p: string)
    requires SafeText(s) == Some(p)
    ensures PlainPath(p) && p != "" && !IsSpace(p[|p| - 1])
  {
    TrimmedEnds(s);
  }

  lemma TrimmedSafeIf(t: string, plain: bool)
    requires t != "" && Trimmed(t) == t && (PlainPath(t) <==> plain)
    ensures (SafeText(t) == Some(t) <==> plain) && (SafeText(t).Some? ==> SafeText(t) == Some(t))
  {
    TrimmedSafe(t);
  }

  /** A key moved to another dataset is still safe exactly when that dataset's name is. */
  lemma SafeKeyMoves(s: string, key: string, a: string, b: string)
    requires SafeText(s) == Some(key) && Prefix(a) + "blobs/" <= key
    ensures var target := RewriteText(key, Prefix(a), Prefix(b));
            && Prefix(b) + "blobs/" <= target && Basename(target) == Basename(key)
            && (SafeText(target) == Some(target) <==> PlainPath(b))
            && (SafeText(target).Some? ==> SafeText(target) == Some(target))
  {
    SafeTextMeans(s, key);
    MovedKeyTrimmed(key, a, b);
    MovedKeyPlain(key, a, b);
    TrimmedSafeIf(RewriteText(key, Prefix(a), Prefix(b)), PlainPath(b));
  }

  lemma PrefixPlain(a: string, rest: string)
    ensures PlainPath(Prefix(a) + rest) <==> PlainPath(a) && PlainPath(rest)
    ensures Basename(Prefix(a) + rest) == Basename(rest)
  {
    var d := "datasets";
    assert Prefix(a) + rest == d + "/" + (a + "/" + rest);
    PlainJoined(d, a + "/" + rest);
    PlainJoined(a, rest);
    DatasetsIsPlain();
  }

  lemma DatasetsIsPlain()
    ensures PlainPath("datasets")
  {
    var d := "datasets";
    NoSlash("", d);
    assert "" + d == d && Split(d) == [d];
  }

  // ---------------------------------------------------------------- all entries

  function Moved(f: Facts, from: string, to: string): Facts { f.(key := RewriteText(f.key, from, to)) }

  /** What a success of Judge has established. */
  predicate Stands(f: Facts, dataset: string) {
    && IsSha256(f.sha256) && f.size >= 0
    && Prefix(dataset) + "blobs/" <= f.key && WithoutSuffix(Basename(f.key), ".pdf") == f.sha256
  }

  lemma JudgeStands(l: Look, dataset: string, f: Facts)
    ensures Judge(l, dataset) == Success(f) <==>
              l == Look(Some(f.path), f.sha256, Int(f.size), Some(f.key)) && Stands(f, dataset)
  {
  }

  lemma ReboundFields(raw: Fields, f: Facts, from: string, to: string)
    ensures var r := Rebound(Normal(raw, f), from, to);
            && Get(r, "path") == String(f.path) && Get(r, "sha256") == String(f.sha256)
            && Get(r, "bytes") == Int(f.size) && Get(r, "object_key") == String(Moved(f, from, to).key)
            && ("key" in r ==> r["key"] == Get(r, "object_key"))
  {
    assert "path" != "key" && "sha256" != "key" && "bytes" != "key" && "object_key" != "key";
  }

  lemma ReboundTexts(c: Codec, r: Fields, f: Facts)
    requires Get(r, "path") == String(f.path) && Get(r, "sha256") == String(f.sha256)
    requires Get(r, "bytes") == Int(f.size) && Get(r, "object_key") == String(f.key)
    requires "key" in r ==> r["key"] == Get(r, "object_key")
    ensures TextsOf(c, r) == Texts(f.path, f.sha256, Int(f.size), f.key)
  {
  }

  /** No blank in front, so that trimming a second time leaves it alone. */
  predicate Flush(path: string) { path == "" || !IsSpace(path[0]) }

  lemma SafeTextsMove(s: string, t: string, f: Facts, a: string, b: string)
    requires SafeText(s) == Some(f.path) && SafeText(t) == Some(f.key) && Stands(f, a)
    ensures var g := Moved(f, Prefix(a), Prefix(b));
            && (SafeText(g.path) == Some(g.path) <==> Flush(f.path))
            && (SafeText(g.key) == Some(g.key) <==> PlainPath(b))
            && Stands(g, b)
  {
    SafeTextAgain(s, f.path);
    SafeKeyMoves(t, f.key, a, b);
  }

  lemma ReboundReads(c: Codec, raw: Fields, f: Facts, from: string, to: string, b: string)
    ensures var g := Moved(f, from, to);
            FactsOf(c, Object(Rebound(Normal(raw, f), from, to)), b)
              == Judge(LookAt(Texts(g.path, g.sha256, Int(g.size), g.key)), b)
  {
    ReboundFields(raw, f, from, to);
    ReboundTexts(c, Rebound(Normal(raw, f), from, to), Moved(f, from, to));
  }

  lemma TextsMove(c: Codec, raw: Fields, f: Facts, a: string, b: string)
    requires FactsOf(c, Object(raw), a) == Success(f)
    ensures var g := Moved(f, Prefix(a), Prefix(b));
            && (SafeText(g.path) == Some(g.path) <==> Flush(f.path))
            && (SafeText(g.key) == Some(g.key) <==> PlainPath(b))
            && Stands(g, b) && Lower(Strip(g.sha256)) == g.sha256
  {
    var t := TextsOf(c, raw);
    JudgeStands(LookAt(t), a, f);
    SafeTextsMove(t.path, t.key, f, a, b);
    DigestFixes(f.sha256);
  }

  /** The moved texts are read back as they stand. */
  predicate ReadBack(g: Facts) { SafeText(g.path) == Some(g.path) && SafeText(g.key) == Some(g.key) }

  lemma ReadsItself(g: Facts, b: string)
    ensures Stands(g, b) && Lower(Strip(g.sha256)) == g.sha256 ==>
              (Judge(LookAt(Texts(g.path, g.sha256, Int(g.size), g.key)), b) == Success(g)
               <==> ReadBack(g))
  {
    JudgeStands(LookAt(Texts(g.path, g.sha256, Int(g.size), g.key)), b, g);
  }

  lemma MovedFacts(c: Codec, raw: Fields, f: Facts, a: string, b: string) returns (g: Facts)
    requires FactsOf(c, Object(raw), a) == Success(f)
    ensures g == Moved(f, Prefix(a), Prefix(b)) && Stands(g, b) && Lower(Strip(g.sha256)) == g.sha256
    ensures ReadBack(g) <==> Flush(f.path) && PlainPath(b)
  {
    g := Moved(f, Prefix(a), Prefix(b));
    TextsMove(c, raw, f, a, b);
  }

  lemma MovedReads(c: Codec, raw: Fields, f: Facts, a: string, b: string)
    requires FactsOf(c, Object(raw), a) == Success(f)
    ensures var g := Moved(f, Prefix(a), Prefix(b));
            Judge(LookAt(Texts(g.path, g.sha256, Int(g.size), g.key)), b) == Success(g)
            <==> Flush(f.path) && PlainPath(b)
  {
    var g := MovedFacts(c, raw, f, a, b);
    ReadsItself(g, b);
  }

  /** A source entry reads at the destination as the same path, size and digest, and the
      moved key, exactly when its path has no blank in front and the destination is named
      by a plain path. */
  lemma EntryMoves(c: Codec, raw: Fields, f: Facts, a: string, b: string)
    requires FactsOf(c, Object(raw), a) == Success(f)
    ensures var from, to := Prefix(a), Prefix(b);
            FactsOf(c, Object(Rebound(Normal(raw, f), from, to)), b) == Success(Moved(f, from, to))
            <==> Flush(f.path) && PlainPath(b)
  {
    MovedReads(c, raw, f, a, b);
    ReboundReads(c, raw, f, Prefix(a), Prefix(b), b);
  }

  function Moves(fs: seq<Facts>, from: string, to: string): (r: seq<Facts>)
    ensures |r| == |fs|
  {
    seq(|fs|, i requires 0 <= i < |fs| => Moved(fs[i], from, to))
  }

  /** Distinct source keys stay distinct, so the check of a destination key against another
      object of the same key never fails. */
  lemma NoKeyCollision(fs: seq<Facts>, from: string, to: string)
    requires AgreeingKeys(fs) && forall f :: f in fs ==> from <= f.key
    ensures AgreeingKeys(Moves(fs, from, to))
  {
    forall i, j | 0 <= i < j < |fs| ensures Agree(Moved(fs[i], from, to), Moved(fs[j], from, to)) {
      assert Agree(fs[i], fs[j]) && fs[i] in fs && fs[j] in fs;
      var x, y := fs[i].key, fs[j].key;
      if RewriteText(x, from, to) == RewriteText(y, from, to) {
        assert (to + x[|from|..])[|to|..] == x[|from|..] && (to + y[|from|..])[|to|..] == y[|from|..];
        assert x == from + x[|from|..] && y == from + y[|from|..];
      }
    }
  }

  lemma NormalTells(r: Fields, f: Facts, g: Facts)
    requires Get(r, "path") == String(g.path) && Get(r, "sha256") == String(g.sha256)
    requires Get(r, "bytes") == Int(g.size) && Get(r, "object_key") == String(g.key)
    requires "path" in r && "sha256" in r && "bytes" in r && "object_key" in r
    ensures Normal(r, f) == r <==> f == g
  {
    var n := Normal(r, f);
    assert n["path"] == String(f.path) && n["sha256"] == String(f.sha256);
    assert n["bytes"] == Int(f.size) && n["object_key"] == String(f.key);
    if f == g {
      assert n == r;
    }
  }

  /** The entries of the rebased manifest are read as they stand. */
  predicate ReadAsTheyStand(c: Codec, ds: seq<Fields>, dataset: string) {
    Acceptable(Readings(c, AsList(ds).items, dataset)) && Entries(c, AsList(ds).items, dataset) == ds
  }

  predicate FlushPaths(fs: seq<Facts>) { forall i :: 0 <= i < |fs| ==> Flush(fs[i].path) }

  predicate Unchanged(d: Fields, reading: Result<Facts, Error>) { reading.Success? && Normal(d, reading.value) == d }

  /** What reading the moved entries must come to. */
  predicate Follows(d: Fields, reading: Result<Facts, Error>, f: Facts, from: string, to: string, plain: bool) {
    && (Unchanged(d, reading) <==> Flush(f.path) && plain)
    && (Unchanged(d, reading) ==> reading.value == Moved(f, from, to))
  }

  lemma EntryFollows(c: Codec, raw: Fields, f: Facts, a: string, b: string)
    requires FactsOf(c, Object(raw), a) == Success(f)
    ensures var d := Rebound(Normal(raw, f), Prefix(a), Prefix(b));
            Follows(d, FactsOf(c, Object(d), b), f, Prefix(a), Prefix(b), PlainPath(b))
  {
    var from, to := Prefix(a), Prefix(b);
    EntryMoves(c, raw, f, a, b);
    ReboundFields(raw, f, from, to);
    var d := Rebound(Normal(raw, f), from, to);
    MovedFollows(d, FactsOf(c, Object(d), b), f, from, to, PlainPath(b));
  }

  lemma MovedFollows(d: Fields, reading: Result<Facts, Error>, f: Facts, from: string, to: string, plain: bool)
    requires Get(d, "path") == String(f.path) && Get(d, "sha256") == String(f.sha256)
    requires Get(d, "bytes") == Int(f.size) && Get(d, "object_key") == String(Moved(f, from, to).key)
    requires reading == Success(Moved(f, from, to)) <==> Flush(f.path) && plain
    ensures Follows(d, reading, f, from, to, plain)
  {
    if reading.Success? { NormalTells(d, reading.value, Moved(f, from, to)); }
  }

  lemma KeysCarryPrefix(c: Codec, files: seq<Json>, a: string)
    requires Readable(Readings(c, files, a))
    ensures forall f :: f in Values(Readings(c, files, a)) ==> Prefix(a) <= f.key
  {
    var rs := Readings(c, files, a);
    forall i | 0 <= i < |rs| ensures Prefix(a) <= rs[i].value.key {
      CarriesPrefix(c, files[i], a, rs[i].value);
    }
  }

  lemma CarriesPrefix(c: Codec, raw: Json, a: string, f: Facts)
    requires FactsOf(c, raw, a) == Success(f)
    ensures raw.Object? && Prefix(a) <= f.key
  {
    JudgeStands(LookAt(TextsOf(c, raw.fields)), a, f);
    PrefixOfPrefix(Prefix(a), "blobs/", f.key);
  }

  lemma PrefixOfPrefix(p: string, q: string, s: string)
    requires p + q <= s
    ensures p <= s
  {
    assert (p + q)[..|p|] == p;
  }

  lemma AllFollow(ds: seq<Fields>, rs: seq<Result<Facts, Error>>, fs: seq<Facts>, from: string, to: string, plain: bool)
    requires |rs| == |ds| == |fs| > 0 && DistinctPaths(fs) && AgreeingKeys(fs)
    requires forall f :: f in fs ==> from <= f.key
    requires forall i :: 0 <= i < |ds| ==> Follows(ds[i], rs[i], fs[i], from, to, plain)
    ensures Acceptable(rs) && Normals(AsList(ds).items, Values(rs)) == ds <==> plain && FlushPaths(fs)
  {
    NoKeyCollision(fs, from, to);
    ReadingsStand(ds, rs, Moves(fs, from, to));
    assert Unchanged(ds[0], rs[0]) <==> Flush(fs[0].path) && plain;
  }

  lemma EntriesStand(c: Codec, files: seq<Json>, a: string, b: string)
    requires files != [] && Acceptable(Readings(c, files, a))
    ensures ReadAsTheyStand(c, Rebounds(Entries(c, files, a), Prefix(a), Prefix(b)), b)
            <==> PlainPath(b) && FlushPaths(Values(Readings(c, files, a)))
  {
    var from, to := Prefix(a), Prefix(b);
    var fs := Values(Readings(c, files, a));
    var ds := Rebounds(Entries(c, files, a), from, to);
    var rs := Readings(c, AsList(ds).items, b);
    forall i | 0 <= i < |files| ensures Follows(ds[i], rs[i], fs[i], from, to, PlainPath(b)) {
      ReadingFollows(c, files, a, b, ds, i);
      ReadingAt(c, ds, b, i);
    }
    KeysCarryPrefix(c, files, a);
    AllFollow(ds, rs, fs, from, to, PlainPath(b));
  }

  lemma ReadingsStand(ds: seq<Fields>, rs: seq<Result<Facts, Error>>, fs: seq<Facts>)
    requires |rs| == |ds| == |fs| && DistinctPaths(fs) && AgreeingKeys(fs)
    requires forall i :: 0 <= i < |ds| ==> Unchanged(ds[i], rs[i]) ==> rs[i].value == fs[i]
    ensures Acceptable(rs) && Normals(AsList(ds).items, Values(rs)) == ds
            <==> forall i :: 0 <= i < |ds| ==> Unchanged(ds[i], rs[i])
  {
    if Acceptable(rs) && Normals(AsList(ds).items, Values(rs)) == ds {
      forall i | 0 <= i < |ds| ensures Unchanged(ds[i], rs[i]) {
        assert Normals(AsList(ds).items, Values(rs))[i] == ds[i];
      }
    }
    if forall i :: 0 <= i < |ds| ==> Unchanged(ds[i], rs[i]) {
      assert Values(rs) == fs;
    }
  }

  lemma EntryAt(files: seq<Json>, rs: seq<Result<Facts, Error>>, from: string, to: string, i: nat)
    requires Readable(rs) && i < |files| == |rs|
    ensures rs[i] == Success(Values(rs)[i])
    ensures Rebounds(Normals(files, Values(rs)), from, to)[i]
              == Rebound(Normal(FieldsOf(files[i]), Values(rs)[i]), from, to)
  {
  }

  lemma ReadingAt(c: Codec, ds: seq<Fields>, b: string, i: nat)
    requires i < |ds|
    ensures Readings(c, AsList(ds).items, b)[i] == FactsOf(c, Object(ds[i]), b)
  {
  }

  lemma ReadingFollows(c: Codec, files: seq<Json>, a: string, b: string, ds: seq<Fields>, i: nat)
    requires Readable(Readings(c, files, a)) && i < |files| == |ds|
    requires ds == Rebounds(Entries(c, files, a), Prefix(a), Prefix(b))
    ensures Follows(ds[i], FactsOf(c, Object(ds[i]), b), Values(Readings(c, files, a))[i], Prefix(a), Prefix(b),
                    PlainPath(b))
  {
    var f := Values(Readings(c, files, a))[i];
    EntryAt(files, Readings(c, files, a), Prefix(a), Prefix(b), i);
    CarriesPrefix(c, files[i], a, f);
    EntryFollows(c, files[i].fields, f, a, b);
  }

  // ---------------------------------------------------------------- the whole manifest

  /** An entry as the validation returns it. */
  predicate IsEntry(e: Fields) { "path" in e && "object_key" in e && e["object_key"].String? }

  predicate AreEntries(es: seq<Fields>) { forall i :: 0 <= i < |es| ==> IsEntry(es[i]) }

  lemma EntriesAre(files: seq<Json>, fs: seq<Facts>)
    requires |files| == |fs|
    ensures AreEntries(Normals(files, fs))
  {
  }

  lemma ChosenAre(es: seq<Fields>, k: Kind)
    requires AreEntries(es)
    ensures AreEntries(Select(es, k))
  {
    var chosen := Select(es, k);
    forall i | 0 <= i < |chosen| ensures IsEntry(chosen[i]) { assert chosen[i] in chosen; }
  }

  lemma ReboundKind(e: Fields, from: string, to: string, k: Kind)
    ensures IsKind(Rebound(e, from, to), k) <==> IsKind(e, k)
  {
    var r := Rebound(e, from, to);
    assert "path" != "key" && "path" != "object_key" && "artifact_type" != "key" && "artifact_type" != "object_key";
    assert Get(r, "path") == Get(e, "path") && Get(r, "artifact_type") == Get(e, "artifact_type");
  }

  lemma {:induction false} ReboundSelect(es: seq<Fields>, from: string, to: string, k: Kind)
    ensures Select(Rebounds(es, from, to), k) == Rebounds(Select(es, k), from, to)
  {
    if es != [] {
      var n := |es| - 1;
      assert Rebounds(es, from, to)[..n] == Rebounds(es[..n], from, to);
      ReboundSelect(es[..n], from, to, k);
      ReboundKind(es[n], from, to, k);
    }
  }

  predicate AllBindOnlyKeys(es: seq<Fields>, from: string, to: string) {
    forall i :: 0 <= i < |es| ==> BindsOnlyKeys(es[i], from, to)
  }

  lemma SameRewritten(v: Json, w: Json, x: Json, from: string, to: string)
    requires Same(v, w)
    ensures Same(Rewrite(v, from, to), x) <==> Same(Rewrite(w, from, to), x)
  {
    var rv, rw := Rewrite(v, from, to), Rewrite(w, from, to);
    RewriteSame(v, w, from, to);
    SameSymmetric(rv, rw);
    if Same(rv, x) { SameTransitive(rw, rv, x); }
    if Same(rw, x) { SameTransitive(rv, rw, x); }
  }

  lemma SameNumber(v: Json, n: int, from: string, to: string)
    ensures Same(Rewrite(v, from, to), Int(n)) <==> Same(v, Int(n))
  {
  }

  lemma ListRebinds(es: seq<Fields>, from: string, to: string)
    requires from != to && AreEntries(es)
    ensures Same(Rewrite(AsList(es), from, to), AsList(Rebounds(es, from, to))) <==> AllBindOnlyKeys(es, from, to)
  {
    var w, r := Rewrite(AsList(es), from, to), AsList(Rebounds(es, from, to));
    forall i | 0 <= i < |es| ensures Same(w.items[i], r.items[i]) <==> BindsOnlyKeys(es[i], from, to) {
      RewrittenIsRebound(es[i], from, to);
    }
  }

  /** A section of the rewritten manifest still binds its entries exactly when these carry
      the source prefix in their keys only. */
  lemma SectionRebinds(payload: Fields, rebased: Fields, es: seq<Fields>, from: string, to: string,
                       field: string, k: Kind, count: string)
    requires from != to && BindsSection(payload, es, field, k, count)
    requires AreEntries(es)
    requires Get(rebased, field) == Rewrite(Get(payload, field), from, to)
    ensures BindsSection(rebased, Rebounds(es, from, to), field, k, count) <==> AllBindOnlyKeys(Select(es, k), from, to)
  {
    var section := Get(payload, field).fields;
    var chosen := Select(es, k);
    ReboundSelect(es, from, to, k);
    FieldRewrites(Get(payload, field), count, from, to);
    FieldRewrites(Get(payload, field), "files", from, to);
    SameNumber(Get(section, count), |chosen|, from, to);
    SameRewritten(Get(section, "files"), AsList(chosen), AsList(Rebounds(chosen, from, to)), from, to);
    ChosenAre(es, k);
    ListRebinds(chosen, from, to);
  }

  lemma EntryRebinds(v: Json, e: Fields, from: string, to: string)
    requires from != to && IsEntry(e) && Same(v, Object(e))
    ensures Same(Rewrite(v, from, to), Object(Rebound(e, from, to))) <==> BindsOnlyKeys(e, from, to)
  {
    SameRewritten(v, Object(e), Object(Rebound(e, from, to)), from, to);
    RewrittenIsRebound(e, from, to);
  }

  lemma FieldRewrites(v: Json, k: string, from: string, to: string)
    requires v.Object?
    ensures Rewrite(v, from, to).Object? && Get(Rewrite(v, from, to).fields, k) == Rewrite(Get(v.fields, k), from, to)
  {
  }

  lemma BindingRebinds(section: Json, chosen: seq<Fields>, from: string, to: string)
    requires from != to && BindsEntry(section, chosen) && IsEntry(chosen[0])
    ensures BindsEntry(Rewrite(section, from, to), Rebounds(chosen, from, to)) <==> AllBindOnlyKeys(chosen, from, to)
  {
    FieldRewrites(section, "entry", from, to);
    EntryRebinds(Get(section.fields, "entry"), chosen[0], from, to);
  }

  lemma DatabaseRebinds(payload: Fields, rebased: Fields, es: seq<Fields>, from: string, to: string)
    requires from != to && BindsDatabase(payload, es)
    requires AreEntries(es)
    requires Get(rebased, "database") == Rewrite(Get(payload, "database"), from, to)
    ensures BindsDatabase(rebased, Rebounds(es, from, to)) <==> AllBindOnlyKeys(Select(es, Database), from, to)
  {
    ReboundSelect(es, from, to, Database);
    ChosenAre(es, Database);
    BindingRebinds(Get(payload, "database"), Select(es, Database), from, to);
  }

  predicate BoundEntriesBindOnlyKeys(es: seq<Fields>, from: string, to: string) {
    && AllBindOnlyKeys(Select(es, Database), from, to) && AllBindOnlyKeys(Select(es, Media), from, to)
    && AllBindOnlyKeys(Select(es, Faiss), from, to) && AllBindOnlyKeys(Select(es, Chroma), from, to)
  }

  predicate Overridden(k: string) {
    || k == "dataset_id" || k == "release_id" || k == "files" || k == "source"
    || k == "repacked_from_generation_id" || k == "clone"
    || k == "parent_dataset_id" || k == "parent_generation_id" || k == "parent_manifest_sha256" || k == "clone_reason"
  }

  lemma OverridesThese(q: Request, origin: Fields, es: seq<Fields>, digest: string)
    ensures forall k :: k in Overrides(q, origin, es, digest) ==> Overridden(k)
  {
  }

  lemma Kept(q: Request, payload: Fields, es: seq<Fields>, digest: string, k: string)
    requires !Overridden(k)
    ensures Get(Rebase(q, payload, es, digest), k) == Rewrite(Get(payload, k), q.From(), q.To())
  {
    OverridesThese(q, FieldsOf(Get(Rewritten(q, payload), "source")), es, digest);
  }

  /** The rebound manifest validates for the destination, with every entry as it was but for
      its key. */
  predicate RebindsUnchanged(c: Codec, q: Request, payload: Fields, digest: string)
    requires ValidManifest(c, payload, q.source.dataset, q.sourceGeneration)
  {
    var es := ManifestEntries(c, payload, q.source.dataset);
    var r := Rebase(q, payload, es, digest);
    && ValidManifest(c, r, q.destination.dataset, q.destinationGeneration)
    && ManifestEntries(c, r, q.destination.dataset) == Rebounds(es, q.From(), q.To())
  }

  /** Exactly when a valid manifest rebinds unchanged: the destination is named by a plain path,
      no file path has a blank in front, and the entries that a section repeats carry the
      source prefix in their keys only. */
  lemma RebaseValidates(c: Codec, q: Request, payload: Fields, digest: string)
    requires ValidManifest(c, payload, q.source.dataset, q.sourceGeneration)
    requires q.source.dataset != q.destination.dataset
    ensures RebindsUnchanged(c, q, payload, digest)
            <==>
            && PlainPath(q.destination.dataset)
            && FlushPaths(Values(Readings(c, Get(payload, "files").items, q.source.dataset)))
            && BoundEntriesBindOnlyKeys(ManifestEntries(c, payload, q.source.dataset), q.From(), q.To())
  {
    var es := ManifestEntries(c, payload, q.source.dataset);
    PrefixTells(q.source.dataset, q.destination.dataset);
    RebaseStands(c, q, payload, es, digest);
    EntriesStand(c, Get(payload, "files").items, q.source.dataset, q.destination.dataset);
  }

  lemma RebaseStands(c: Codec, q: Request, payload: Fields, es: seq<Fields>, digest: string)
    requires ValidManifest(c, payload, q.source.dataset, q.sourceGeneration) && q.From() != q.To()
    requires es == ManifestEntries(c, payload, q.source.dataset)
    ensures var r := Rebase(q, payload, es, digest);
            var ds := Rebounds(es, q.From(), q.To());
            (ValidManifest(c, r, q.destination.dataset, q.destinationGeneration)
             && ManifestEntries(c, r, q.destination.dataset) == ds)
            <==> ReadAsTheyStand(c, ds, q.destination.dataset) && BoundEntriesBindOnlyKeys(es, q.From(), q.To())
  {
    HeaderStands(q, payload, es, digest);
    EntriesAre(Get(payload, "files").items, Values(Readings(c, Get(payload, "files").items, q.source.dataset)));
    var r := RebaseKeepsSections(q, payload, es, digest);
    SectionsHold(payload, r, es, q.From(), q.To());
    ManifestStands(c, r, Rebounds(es, q.From(), q.To()), q.destination.dataset, q.destinationGeneration);
  }

  lemma HeaderStands(q: Request, payload: Fields, es: seq<Fields>, digest: string)
    requires ValidHeader(payload, q.source.dataset, q.sourceGeneration) && ValidCounts(payload, |es|)
    ensures var r := Rebase(q, payload, es, digest);
            && ValidHeader(r, q.destination.dataset, q.destinationGeneration) && ValidCounts(r, |es|)
            && Get(r, "files") == AsList(Rebounds(es, q.From(), q.To()))
  {
    IdentityHolds(q, payload, es, digest);
    VersionHolds(q, payload, es, digest);
    CountsHold(q, payload, es, digest);
  }

  lemma ManifestStands(c: Codec, r: Fields, ds: seq<Fields>, dataset: string, generation: string)
    requires ValidHeader(r, dataset, generation) && ds != [] && Get(r, "files") == AsList(ds) && ValidCounts(r, |ds|)
    ensures ValidManifest(c, r, dataset, generation) && ManifestEntries(c, r, dataset) == ds
            <==> ReadAsTheyStand(c, ds, dataset) && BindsDatabase(r, ds) && BindsArtifacts(r, ds)
  {
  }

  lemma IdentityHolds(q: Request, payload: Fields, es: seq<Fields>, digest: string)
    ensures var r := Rebase(q, payload, es, digest);
            && Get(r, "dataset_id") == String(q.destination.dataset)
            && Get(r, "release_id") == String(q.destinationGeneration)
            && Get(r, "files") == AsList(Rebounds(es, q.From(), q.To()))
  {
    OverridesSo(q, FieldsOf(Get(Rewritten(q, payload), "source")), es, digest);
  }

  lemma OverridesSo(q: Request, origin: Fields, es: seq<Fields>, digest: string)
    ensures var o := Overrides(q, origin, es, digest);
            && "dataset_id" in o && o["dataset_id"] == String(q.destination.dataset)
            && "release_id" in o && o["release_id"] == String(q.destinationGeneration)
            && "files" in o && o["files"] == AsList(Rebounds(es, q.From(), q.To()))
  {
    var l := Lineage(q, digest);
    assert "dataset_id" !in l && "release_id" !in l && "files" !in l;
  }

  lemma VersionHolds(q: Request, payload: Fields, es: seq<Fields>, digest: string)
    requires Same(Get(payload, "manifest_version"), Int(1)) && Get(payload, "read_only") == Bool(true)
    ensures var r := Rebase(q, payload, es, digest);
            Same(Get(r, "manifest_version"), Int(1)) && Get(r, "read_only") == Bool(true)
  {
    Kept(q, payload, es, digest, "manifest_version");
    Kept(q, payload, es, digest, "read_only");
    SameNumber(Get(payload, "manifest_version"), 1, q.From(), q.To());
  }

  lemma CountsHold(q: Request, payload: Fields, es: seq<Fields>, digest: string)
    requires ValidCounts(payload, |es|)
    ensures ValidCounts(Rebase(q, payload, es, digest), |es|)
  {
    Kept(q, payload, es, digest, "counts");
    var counts := Get(payload, "counts");
    if counts.Object? {
      var w := Rewrite(counts, q.From(), q.To());
      assert Get(w.fields, "files") == Rewrite(Get(counts.fields, "files"), q.From(), q.To());
      SameNumber(Get(counts.fields, "files"), |es|, q.From(), q.To());
    }
  }

  /** The sections that repeat entries have only been rewritten. */
  predicate SectionsRewritten(payload: Fields, r: Fields, from: string, to: string) {
    && Get(r, "database") == Rewrite(Get(payload, "database"), from, to)
    && Get(r, "pdf_storage") == Rewrite(Get(payload, "pdf_storage"), from, to)
    && Get(r, "faiss") == Rewrite(Get(payload, "faiss"), from, to)
    && Get(r, "chroma") == Rewrite(Get(payload, "chroma"), from, to)
  }

  lemma RebaseKeepsSections(q: Request, payload: Fields, es: seq<Fields>, digest: string) returns (r: Fields)
    ensures r == Rebase(q, payload, es, digest) && SectionsRewritten(payload, r, q.From(), q.To())
  {
    r := Rebase(q, payload, es, digest);
    Kept(q, payload, es, digest, "database");
    Kept(q, payload, es, digest, "pdf_storage");
    Kept(q, payload, es, digest, "faiss");
    Kept(q, payload, es, digest, "chroma");
  }

  lemma SectionsHold(payload: Fields, r: Fields, es: seq<Fields>, from: string, to: string)
    requires from != to && BindsDatabase(payload, es) && BindsArtifacts(payload, es) && AreEntries(es)
    requires SectionsRewritten(payload, r, from, to)
    ensures var ds := Rebounds(es, from, to);
            BindsDatabase(r, ds) && BindsArtifacts(r, ds) <==> BoundEntriesBindOnlyKeys(es, from, to)
  {
    DatabaseRebinds(payload, r, es, from, to);
    SectionRebinds(payload, r, es, from, to, "pdf_storage", Media, "file_count");
    SectionRebinds(payload, r, es, from, to, "faiss", Faiss, "count");
    SectionRebinds(payload, r, es, from, to, "chroma", Chroma, "count");
  }

  /** A slash hides a blank from the trimming, so the second validation reads another path. */
  lemma BlankInFront(t: string, blank: string, slash: string)
    requires t != "" && !IsSpace(t[0]) && !IsSpace(t[|t| - 1]) && t[0] != '/'
    requires blank == [' '] + t && slash == ['/'] + blank && PlainPath(t) && PlainPath(blank)
    ensures SafeText(slash) == Some(blank) && SafeText(blank) == Some(t)
  {
    TrimmingHides(t, blank, slash);
  }

  const SLASHED: string := ['/', ' ', 'a']

  const BLANK: string := [' ', 'a']

  lemma BlankInFrontHappens()
    ensures SafeText(SLASHED) == Some(BLANK) && SafeText(BLANK) == Some(['a'])
  {
    NoSlash("", ['a']);
    NoSlash("", BLANK);
    assert "" + ['a'] == ['a'] && "" + BLANK == BLANK;
    BlankInFront(['a'], BLANK, SLASHED);
  }

  lemma TrimmingHides(t: string, blank: string, slash: string)
    requires t != "" && !IsSpace(t[0]) && !IsSpace(t[|t| - 1]) && t[0] != '/'
    requires blank == [' '] + t && slash == ['/'] + blank
    ensures Trimmed(slash) == blank && Trimmed(blank) == t
  {
    assert slash[|slash| - 1] == t[|t| - 1];
    StripFixes(slash);
    StripFixes(t);
    StripDrops(blank, t);
    assert slash[1..] == blank;
  }

  lemma StripFixes(s: string)
    requires s != "" && !IsSpace(s[0]) && !IsSpace(s[|s| - 1])
    ensures Strip(s) == s
  {
  }

  lemma StripDrops(s: string, t: string)
    requires s == [' '] + t
    ensures Strip(s) == Strip(t)
  {
    assert s[1..] == t;
  }

  lemma MovedStands(c: Codec, raw: Fields, f: Facts, a: string, b: string)
    requires FactsOf(c, Object(raw), a) == Success(f)
    ensures var g := Moved(f, Prefix(a), Prefix(b));
            && (SafeText(g.key).Some? ==> SafeText(g.key) == Some(g.key))
            && Lower(Strip(g.sha256)) == g.sha256
  {
    var t := TextsOf(c, raw);
    JudgeStands(LookAt(t), a, f);
    SafeKeyMoves(t.key, f.key, a, b);
    DigestFixes(f.sha256);
  }

  lemma ReadsSame(g: Facts, b: string)
    requires SafeText(g.key).Some? ==> SafeText(g.key) == Some(g.key)
    requires Lower(Strip(g.sha256)) == g.sha256
    ensures var reading := Judge(LookAt(Texts(g.path, g.sha256, Int(g.size), g.key)), b);
            reading.Success? ==> reading.value == g.(path := reading.value.path)
  {
    var l := LookAt(Texts(g.path, g.sha256, Int(g.size), g.key));
    var reading := Judge(l, b);
    if reading.Success? { JudgeStands(l, b, reading.value); }
  }

  /** The destination reads the same object out of a rebound entry in any case. */
  lemma EntryKeepsObject(c: Codec, raw: Fields, f: Facts, a: string, b: string)
    requires FactsOf(c, Object(raw), a) == Success(f)
    ensures var g := FactsOf(c, Object(Rebound(Normal(raw, f), Prefix(a), Prefix(b))), b);
            g.Success? ==> g.value == Moved(f, Prefix(a), Prefix(b)).(path := g.value.path)
  {
    MovedStands(c, raw, f, a, b);
    ReboundReads(c, raw, f, Prefix(a), Prefix(b), b);
    ReadsSame(Moved(f, Prefix(a), Prefix(b)), b);
  }

  // ---------------------------------------------------------------- a manifest that fails

  function ExampleDigest(): (d: string)
    ensures IsSha256(d) && forall i :: 0 <= i < 64 ==> d[i] == 'a'
  {
    seq(64, _ => 'a')
  }

  function ExampleKey(dataset: string): string { Prefix(dataset) + ("blobs" + "/" + ExampleDigest()) }

  function ExampleEntry(dataset: string, path: string): Fields {
    map["path" := String(path), "object_key" := String(ExampleKey(dataset)), "sha256" := String(ExampleDigest()),
        "bytes" := Int(0), "artifact_type" := String("database")]
  }

  function EmptySection(count: string): Json { Object(map[count := Int(0), "files" := List([])]) }

  /** A manifest of one file, its database, listed under the path "/ a". */
  function ExamplePayload(dataset: string, generation: string): Fields {
    map["manifest_version" := Int(1), "read_only" := Bool(true), "dataset_id" := String(dataset),
        "release_id" := String(generation), "files" := List([Object(ExampleEntry(dataset, SLASHED))]),
        "database" := Object(map["entry" := Object(ExampleEntry(dataset, BLANK))]),
        "pdf_storage" := EmptySection("file_count"), "faiss" := EmptySection("count"),
        "chroma" := EmptySection("count")]
  }

  lemma PlainName(s: string)
    requires '/' !in s && '\\' !in s && s != "" && s[0] != '.'
    ensures PlainPath(s) && Basename(s) == s
  {
    NoSlash("", s);
    assert "" + s == s && Split(s) == [s];
  }

  lemma ExampleKeyIsPlain(dataset: string)
    requires PlainPath(dataset)
    ensures PlainPath(ExampleKey(dataset)) && Basename(ExampleKey(dataset)) == ExampleDigest()
  {
    var d, blobs := ExampleDigest(), ['b', 'l', 'o', 'b', 's'];
    PlainName(d);
    PlainName(blobs);
    PlainJoined(blobs, d);
    PrefixPlain(dataset, blobs + "/" + d);
  }

  lemma SafeByEnds(p: string)
    requires p != "" && !IsSpace(p[0]) && !IsSpace(p[|p| - 1]) && p[0] != '/' && PlainPath(p)
    ensures SafeText(p) == Some(p)
  {
    TrimmedFixes(p);
    TrimmedSafe(p);
  }

  lemma ExampleKeyEnds(dataset: string)
    ensures var key := ExampleKey(dataset); key != "" && key[0] == 'd' && key[|key| - 1] == 'a'
  {
    var tail := "blobs" + "/" + ExampleDigest();
    assert tail[|tail| - 1] == ExampleDigest()[63];
    assert Prefix(dataset)[0] == 'd';
  }

  lemma ExampleKeyIsSafe(dataset: string)
    requires PlainPath(dataset)
    ensures SafeText(ExampleKey(dataset)) == Some(ExampleKey(dataset))
  {
    ExampleKeyIsPlain(dataset);
    ExampleKeyEnds(dataset);
    SafeByEnds(ExampleKey(dataset));
  }

  lemma DigestIsNoPdf(d: string)
    requires IsSha256(d) && d[63] == 'a'
    ensures WithoutSuffix(d, ".pdf") == d
  {
    var suffix := ".pdf";
    assert d[|d| - 4..][3] == d[63] && suffix[3] == 'f';
  }

  lemma ExampleStands(dataset: string)
    requires PlainPath(dataset)
    ensures Stands(Facts(BLANK, ExampleKey(dataset), ExampleDigest(), 0), dataset)
  {
    ExampleKeyIsPlain(dataset);
    DigestIsNoPdf(ExampleDigest());
    var blobs := "blobs";
    assert blobs + "/" == "blobs/";
    assert ExampleKey(dataset) == Prefix(dataset) + "blobs/" + ExampleDigest();
  }

  lemma ExampleLooks(dataset: string)
    requires PlainPath(dataset)
    ensures var f := Facts(BLANK, ExampleKey(dataset), ExampleDigest(), 0);
            LookAt(Texts(SLASHED, f.sha256, Int(0), f.key)) == Look(Some(f.path), f.sha256, Int(0), Some(f.key))
  {
    BlankInFrontHappens();
    ExampleKeyIsSafe(dataset);
    DigestFixes(ExampleDigest());
  }

  lemma ExampleTexts(c: Codec, dataset: string)
    ensures TextsOf(c, ExampleEntry(dataset, SLASHED))
              == Texts(SLASHED, ExampleDigest(), Int(0), ExampleKey(dataset))
  {
    ExampleKeyEnds(dataset);
    assert ExampleDigest() != "" && SLASHED != "";
  }

  lemma ExampleReads(c: Codec, dataset: string)
    requires PlainPath(dataset)
    ensures FactsOf(c, Object(ExampleEntry(dataset, SLASHED)), dataset)
              == Success(Facts(BLANK, ExampleKey(dataset), ExampleDigest(), 0))
  {
    var f := Facts(BLANK, ExampleKey(dataset), ExampleDigest(), 0);
    ExampleTexts(c, dataset);
    ExampleLooks(dataset);
    ExampleStands(dataset);
    JudgeStands(LookAt(Texts(SLASHED, f.sha256, Int(0), f.key)), dataset, f);
  }

  lemma SingleReading(c: Codec, raw: Json, dataset: string, f: Facts)
    requires FactsOf(c, raw, dataset) == Success(f)
    ensures Readings(c, [raw], dataset) == [Success(f)]
  {
  }

  lemma SingleAccepted(raw: Fields, f: Facts)
    ensures var rs: seq<Result<Facts, Error>> := [Success(f)];
            Acceptable(rs) && Values(rs) == [f] && Normals([Object(raw)], Values(rs)) == [Normal(raw, f)]
  {
    var rs: seq<Result<Facts, Error>> := [Success(f)];
    assert Values(rs) == [f];
  }

  lemma ExampleNormal(dataset: string)
    ensures Normal(ExampleEntry(dataset, SLASHED), Facts(BLANK, ExampleKey(dataset), ExampleDigest(), 0))
              == ExampleEntry(dataset, BLANK)
  {
  }

  lemma ExampleEntries(c: Codec, dataset: string)
    requires PlainPath(dataset)
    ensures var files := [Object(ExampleEntry(dataset, SLASHED))];
            && Acceptable(Readings(c, files, dataset))
            && Values(Readings(c, files, dataset)) == [Facts(BLANK, ExampleKey(dataset), ExampleDigest(), 0)]
            && Entries(c, files, dataset) == [ExampleEntry(dataset, BLANK)]
  {
    var f, raw := Facts(BLANK, ExampleKey(dataset), ExampleDigest(), 0), ExampleEntry(dataset, SLASHED);
    ExampleReads(c, dataset);
    SingleReading(c, Object(raw), dataset, f);
    SingleAccepted(raw, f);
    ExampleNormal(dataset);
  }

  lemma ExampleSelects(dataset: string)
    ensures var es := [ExampleEntry(dataset, BLANK)];
            && Select(es, Database) == es && Select(es, Media) == [] && Select(es, Faiss) == []
            && Select(es, Chroma) == []
  {
    var e := ExampleEntry(dataset, BLANK);
    assert [e][..0] == [] && IsKind(e, Database);
  }

  lemma EmptySectionBinds(payload: Fields, es: seq<Fields>, field: string, k: Kind, count: string)
    requires Get(payload, field) == EmptySection(count) && Select(es, k) == [] && count != "files"
    ensures BindsSection(payload, es, field, k, count)
  {
  }

  lemma ExampleSections(dataset: string, generation: string)
    ensures var p := ExamplePayload(dataset, generation);
            && Get(p, "pdf_storage") == EmptySection("file_count")
            && Get(p, "faiss") == EmptySection("count") && Get(p, "chroma") == EmptySection("count")
            && Get(p, "database") == Object(map["entry" := Object(ExampleEntry(dataset, BLANK))])
  {
  }

  lemma ExampleHeader(dataset: string, generation: string)
    ensures var p := ExamplePayload(dataset, generation);
            && ValidHeader(p, dataset, generation) && Get(p, "counts") == Null
            && Get(p, "files") == List([Object(ExampleEntry(dataset, SLASHED))])
  {
  }

  lemma ExampleBinds(dataset: string, generation: string)
    ensures var p := ExamplePayload(dataset, generation);
            BindsDatabase(p, [ExampleEntry(dataset, BLANK)]) && BindsArtifacts(p, [ExampleEntry(dataset, BLANK)])
  {
    var p, es := ExamplePayload(dataset, generation), [ExampleEntry(dataset, BLANK)];
    ExampleSelects(dataset);
    ExampleSections(dataset, generation);
    SameReflexive(Object(ExampleEntry(dataset, BLANK)));
    EmptySectionBinds(p, es, "pdf_storage", Media, "file_count");
    EmptySectionBinds(p, es, "faiss", Faiss, "count");
    EmptySectionBinds(p, es, "chroma", Chroma, "count");
  }

  lemma ValidByParts(c: Codec, p: Fields, files: seq<Json>, es: seq<Fields>, dataset: string, generation: string)
    requires ValidHeader(p, dataset, generation) && Get(p, "counts") == Null && Get(p, "files") == List(files)
    requires files != [] && Acceptable(Readings(c, files, dataset)) && Entries(c, files, dataset) == es
    requires BindsDatabase(p, es) && BindsArtifacts(p, es)
    ensures ValidManifest(c, p, dataset, generation)
  {
  }

  lemma ExampleIsValid(c: Codec, dataset: string, generation: string)
    requires PlainPath(dataset)
    ensures var p := ExamplePayload(dataset, generation);
            && ValidManifest(c, p, dataset, generation)
            && Values(Readings(c, Get(p, "files").items, dataset))
                 == [Facts(BLANK, ExampleKey(dataset), ExampleDigest(), 0)]
  {
    ExampleHeader(dataset, generation);
    ExampleEntries(c, dataset);
    ExampleBinds(dataset, generation);
    ValidByParts(c, ExamplePayload(dataset, generation), [Object(ExampleEntry(dataset, SLASHED))],
                 [ExampleEntry(dataset, BLANK)], dataset, generation);
  }

  lemma BlankPathStops(c: Codec, q: Request, payload: Fields, digest: string, f: Facts)
    requires ValidManifest(c, payload, q.source.dataset, q.sourceGeneration)
    requires Values(Readings(c, Get(payload, "files").items, q.source.dataset)) == [f]
    requires q.source.dataset != q.destination.dataset && !Flush(f.path)
    ensures !RebindsUnchanged(c, q, payload, digest)
  {
    RebaseValidates(c, q, payload, digest);
    assert !FlushPaths([f]);
  }

  lemma BlankPathExample(c: Codec, dataset: string, generation: string) returns (payload: Fields, f: Facts)
    requires PlainPath(dataset)
    ensures ValidManifest(c, payload, dataset, generation)
    ensures Values(Readings(c, Get(payload, "files").items, dataset)) == [f] && !Flush(f.path)
  {
    ExampleIsValid(c, dataset, generation);
    payload := ExamplePayload(dataset, generation);
    f := Facts(BLANK, ExampleKey(dataset), ExampleDigest(), 0);
  }

  /** For every plain source there is a valid manifest that cannot be rebound to any other
      dataset with its entries as they are. */
  lemma ValidNeedNotRebind(c: Codec, q: Request, digest: string) returns (payload: Fields)
    requires PlainPath(q.source.dataset) && q.source.dataset != q.destination.dataset
    ensures ValidManifest(c, payload, q.source.dataset, q.sourceGeneration)
    ensures !RebindsUnchanged(c, q, payload, digest)
  {
    var f;
    payload, f := BlankPathExample(c, q.source.dataset, q.sourceGeneration);
    BlankPathStops(c, q, payload, digest, f);
  }
}
