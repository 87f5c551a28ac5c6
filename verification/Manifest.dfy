/** Manifests of flowdocs/dataops/clone.py: their validation, and what rebinding one to
    another dataset does to it. */
module Manifest {
  import opened Common
  import opened Json
  import opened Text

  /** What the model takes as given: the JSON codec, SHA-256, and Python's str of a value
      that is not a string. */
  datatype Codec = Codec(encode: Json -> Bytes, decode: Bytes -> Option<Json>, sha256: Bytes -> string,
                         render: Json -> string)
  {
    ghost predicate Lawful() {
      && (forall v :: decode(encode(v)) == Some(v))
      && (forall b :: IsSha256(sha256(b)))
    }
  }

  datatype Error =
    | SchemaInvalid | IdentityMismatch | FilesInvalid | PathInvalid | KeyOutsideDataset | KeyNotContentAddressed
    | ObjectCollision | CountMismatch | DatabaseBindingInvalid | ArtifactEvidenceInvalid

  predicate Falsy(v: Json) {
    match v
    case Null => true
    case String(s) => s == ""
    case List(items) => items == []
    case Object(fields) => fields == map[]
    case _ => Value(v) == 0.0
  }

  function Or(a: Json, b: Json): Json { if Falsy(a) then b else a }

  /** str(value or ""). */
  function TextOf(c: Codec, v: Json): string {
    if Falsy(v) then "" else if v.String? then v.text else c.render(v)
  }

  /** _safe_path.  That a path of plain components is its own normal form is not modelled apart. */
  function SafeText(s: string): Option<string> { IfPlain(Trimmed(s)) }

  function IfPlain(p: string): Option<string> { if p != "" && PlainPath(p) then Some(p) else None }

  function Prefix(dataset: string): string { "datasets/" + dataset + "/" }

  function WithoutSuffix(s: string, suffix: string): string {
    if |suffix| <= |s| && s[|s| - |suffix|..] == suffix then s[..|s| - |suffix|] else s
  }

  predicate EndsWith(s: string, suffix: string) { |suffix| <= |s| && s[|s| - |suffix|..] == suffix }

  /** The parts of a file entry that the checks look at. */
  datatype Facts = Facts(path: string, key: string, sha256: string, size: int)

  /** The texts an entry is judged by. */
  datatype Texts = Texts(path: string, digest: string, size: Json, key: string)

  function TextsOf(c: Codec, raw: Fields): Texts {
    Texts(TextOf(c, Get(raw, "path")), TextOf(c, Get(raw, "sha256")), Get(raw, "bytes"),
          TextOf(c, Or(Get(raw, "object_key"), Get(raw, "key"))))
  }

  datatype Look = Look(path: Option<string>, digest: string, size: Json, key: Option<string>)

  function LookAt(t: Texts): Look { Look(SafeText(t.path), Lower(Strip(t.digest)), t.size, SafeText(t.key)) }

  function Judge(l: Look, dataset: string): Result<Facts, Error> {
    if l.path.None? then Failure(PathInvalid)
    else if !IsSha256(l.digest) || !l.size.Int? || l.size.number < 0 then Failure(FilesInvalid)
    else if l.key.None? then Failure(PathInvalid)
    else if !(Prefix(dataset) + "blobs/" <= l.key.value) then Failure(KeyOutsideDataset)
    else if WithoutSuffix(Basename(l.key.value), ".pdf") != l.digest then Failure(KeyNotContentAddressed)
    else Success(Facts(l.path.value, l.key.value, l.digest, l.size.number))
  }

  function FactsOf(c: Codec, raw: Json, dataset: string): Result<Facts, Error> {
    if raw.Object? then Judge(LookAt(TextsOf(c, raw.fields)), dataset) else Failure(FilesInvalid)
  }

  /** The entry the validation hands on: the raw one with its facts normalised. */
  function Normal(raw: Fields, f: Facts): Fields {
    raw["path" := String(f.path)]["object_key" := String(f.key)]["sha256" := String(f.sha256)]["bytes" := Int(f.size)]
  }

  function Readings(c: Codec, files: seq<Json>, dataset: string): (r: seq<Result<Facts, Error>>)
    ensures |r| == |files|
  {
    seq(|files|, i requires 0 <= i < |files| => FactsOf(c, files[i], dataset))
  }

  predicate Readable(rs: seq<Result<Facts, Error>>) { forall i :: 0 <= i < |rs| ==> rs[i].Success? }

  function Values(rs: seq<Result<Facts, Error>>): (r: seq<Facts>)
    requires Readable(rs)
    ensures |r| == |rs|
  {
    seq(|rs|, i requires 0 <= i < |rs| => rs[i].value)
  }

  function FieldsOf(v: Json): Fields { if v.Object? then v.fields else map[] }

  function Normals(files: seq<Json>, fs: seq<Facts>): (r: seq<Fields>)
    requires |files| == |fs|
    ensures |r| == |files|
  {
    seq(|files|, i requires 0 <= i < |files| => Normal(FieldsOf(files[i]), fs[i]))
  }

  function Entries(c: Codec, files: seq<Json>, dataset: string): (r: seq<Fields>)
    requires Readable(Readings(c, files, dataset))
    ensures |r| == |files|
  {
    Normals(files, Values(Readings(c, files, dataset)))
  }

  predicate DistinctPaths(fs: seq<Facts>) { forall i, j :: 0 <= i < j < |fs| ==> fs[i].path != fs[j].path }

  predicate Agree(f: Facts, g: Facts) { f.key == g.key ==> f.sha256 == g.sha256 && f.size == g.size }

  predicate AgreeingKeys(fs: seq<Facts>) { forall i, j :: 0 <= i < j < |fs| ==> Agree(fs[i], fs[j]) }

  predicate Acceptable(rs: seq<Result<Facts, Error>>) {
    Readable(rs) && DistinctPaths(Values(rs)) && AgreeingKeys(Values(rs))
  }

  // ---------------------------------------------------------------- sections

  datatype Kind = Database | Media | Faiss | Chroma

  function ArtifactType(k: Kind): string {
    match k
    case Database => "database"
    case Media => "media"
    case Faiss => "faiss_indexes"
    case Chroma => "chroma_db"
  }

  predicate IsKind(e: Fields, k: Kind) {
    && Get(e, "artifact_type") == String(ArtifactType(k))
    && (k.Media? ==> Get(e, "path").String? && EndsWith(Lower(Get(e, "path").text), ".pdf"))
  }

  function Select(es: seq<Fields>, k: Kind): (r: seq<Fields>)
    ensures forall e :: e in r <==> e in es && IsKind(e, k)
  {
    if es == [] then []
    else
      var rest := Select(es[..|es| - 1], k);
      var last := es[|es| - 1];
      assert es == es[..|es| - 1] + [last];
      if IsKind(last, k) then rest + [last] else rest
  }

  function AsList(es: seq<Fields>): Json { List(seq(|es|, i requires 0 <= i < |es| => Object(es[i]))) }

  predicate BindsEntry(section: Json, database: seq<Fields>) {
    && |database| == 1
    && section.Object?
    && Same(Get(section.fields, "entry"), Object(database[0]))
  }

  predicate BindsDatabase(payload: Fields, es: seq<Fields>) {
    BindsEntry(Get(payload, "database"), Select(es, Database))
  }

  predicate BindsSection(payload: Fields, es: seq<Fields>, field: string, k: Kind, count: string) {
    var section := Get(payload, field);
    var chosen := Select(es, k);
    && section.Object?
    && Same(Get(section.fields, count), Int(|chosen|))
    && Same(Get(section.fields, "files"), AsList(chosen))
  }

  predicate BindsArtifacts(payload: Fields, es: seq<Fields>) {
    && BindsSection(payload, es, "pdf_storage", Media, "file_count")
    && BindsSection(payload, es, "faiss", Faiss, "count")
    && BindsSection(payload, es, "chroma", Chroma, "count")
  }

  predicate ValidHeader(payload: Fields, dataset: string, generation: string) {
    && Same(Get(payload, "manifest_version"), Int(1)) && Get(payload, "read_only") == Bool(true)
    && Get(payload, "dataset_id") == String(dataset) && Get(payload, "release_id") == String(generation)
  }

  predicate ValidCounts(payload: Fields, n: nat) {
    var counts := Get(payload, "counts");
    counts.Object? && Get(counts.fields, "files") != Null ==> Same(Get(counts.fields, "files"), Int(n))
  }

  predicate ValidFiles(c: Codec, files: Json, dataset: string) {
    && files.List? && files.items != []
    && Acceptable(Readings(c, files.items, dataset))
  }

  predicate ValidManifest(c: Codec, payload: Fields, dataset: string, generation: string) {
    var files := Get(payload, "files");
    && ValidHeader(payload, dataset, generation)
    && ValidFiles(c, files, dataset)
    && ValidCounts(payload, |files.items|)
    && BindsDatabase(payload, Entries(c, files.items, dataset))
    && BindsArtifacts(payload, Entries(c, files.items, dataset))
  }

  function ManifestEntries(c: Codec, payload: Fields, dataset: string): seq<Fields>
    requires ValidFiles(c, Get(payload, "files"), dataset)
  {
    Entries(c, Get(payload, "files").items, dataset)
  }

  // ---------------------------------------------------------------- the validation

  predicate HasPath(fs: seq<Facts>, p: string) { exists i :: 0 <= i < |fs| && fs[i].path == p }

  predicate HasKey(fs: seq<Facts>, k: string) { exists i :: 0 <= i < |fs| && fs[i].key == k }

  /** What the set of paths and the map of objects say about the facts read so far. */
  ghost predicate Tracks(fs: seq<Facts>, paths: set<string>, objects: map<string, (string, int)>) {
    && (forall p :: p in paths <==> HasPath(fs, p))
    && (forall k :: k in objects <==> HasKey(fs, k))
    && (forall i :: 0 <= i < |fs| ==> fs[i].key in objects && objects[fs[i].key] == (fs[i].sha256, fs[i].size))
  }

  predicate Fits(f: Facts, paths: set<string>, objects: map<string, (string, int)>) {
    f.path !in paths && (f.key in objects ==> objects[f.key] == (f.sha256, f.size))
  }

  lemma OneFactMore(fs: seq<Facts>, f: Facts)
    ensures forall p :: HasPath(fs + [f], p) <==> HasPath(fs, p) || p == f.path
    ensures forall k :: HasKey(fs + [f], k) <==> HasKey(fs, k) || k == f.key
  {
    var all := fs + [f];
    assert all[|fs|] == f;
    forall p | HasPath(fs, p) ensures HasPath(all, p) {
      var i :| 0 <= i < |fs| && fs[i].path == p;
      assert all[i] == fs[i];
    }
    forall k | HasKey(fs, k) ensures HasKey(all, k) {
      var i :| 0 <= i < |fs| && fs[i].key == k;
      assert all[i] == fs[i];
    }
  }

  lemma TracksOne(fs: seq<Facts>, f: Facts, paths: set<string>, objects: map<string, (string, int)>)
    requires Tracks(fs, paths, objects) && Fits(f, paths, objects)
    ensures Tracks(fs + [f], paths + {f.path}, objects[f.key := (f.sha256, f.size)])
  {
    OneFactMore(fs, f);
  }

  lemma FitsDecides(fs: seq<Facts>, f: Facts, paths: set<string>, objects: map<string, (string, int)>)
    requires Tracks(fs, paths, objects) && DistinctPaths(fs) && AgreeingKeys(fs)
    ensures Fits(f, paths, objects) <==> DistinctPaths(fs + [f]) && AgreeingKeys(fs + [f])
  {
    var all := fs + [f];
    assert all[|fs|] == f && forall i :: 0 <= i < |fs| ==> all[i] == fs[i];
    if HasPath(fs, f.path) {
      var i :| 0 <= i < |fs| && fs[i].path == f.path;
      assert all[i].path == all[|fs|].path;
    }
    if HasKey(fs, f.key) {
      var i :| 0 <= i < |fs| && fs[i].key == f.key;
      assert Agree(all[i], all[|fs|]) <==> objects[f.key] == (f.sha256, f.size);
    }
  }

  /** The facts of the first entries. */
  predicate Reads(readings: seq<Result<Facts, Error>>, fs: seq<Facts>) {
    |fs| <= |readings| && forall j :: 0 <= j < |fs| ==> readings[j] == Success(fs[j])
  }

  lemma PrefixAccepted(readings: seq<Result<Facts, Error>>, fs: seq<Facts>)
    requires Reads(readings, fs) && Acceptable(readings)
    ensures DistinctPaths(fs) && AgreeingKeys(fs)
  {
    assert fs == Values(readings)[..|fs|];
  }

  lemma AllAccepted(readings: seq<Result<Facts, Error>>, fs: seq<Facts>)
    requires Reads(readings, fs) && |fs| == |readings| && DistinctPaths(fs) && AgreeingKeys(fs)
    ensures Acceptable(readings) && Values(readings) == fs
  {
  }

  /** The checks of the loop on one entry, and its set and map after it. */
  method ReadFile(f: Facts, paths: set<string>, objects: map<string, (string, int)>, ghost fs: seq<Facts>)
    returns (refused: Option<Error>, newPaths: set<string>, newObjects: map<string, (string, int)>)
    requires Tracks(fs, paths, objects) && DistinctPaths(fs) && AgreeingKeys(fs)
    ensures refused.None? <==> DistinctPaths(fs + [f]) && AgreeingKeys(fs + [f])
    ensures refused.None? ==> Tracks(fs + [f], newPaths, newObjects)
  {
    FitsDecides(fs, f, paths, objects);
    newPaths, newObjects := paths, objects;
    if f.path in paths { return Some(FilesInvalid), newPaths, newObjects; }
    if f.key in objects && objects[f.key] != (f.sha256, f.size) { return Some(ObjectCollision), newPaths, newObjects; }
    TracksOne(fs, f, paths, objects);
    refused, newPaths, newObjects := None, paths + {f.path}, objects[f.key := (f.sha256, f.size)];
  }

  /** The loop over the file list, with its set of paths and its map of objects; readings
      holds what the loop makes of every entry by itself. */
  method ReadFiles(files: seq<Json>, readings: seq<Result<Facts, Error>>) returns (r: Result<seq<Fields>, Error>)
    requires |readings| == |files|
    ensures r.Success? <==> Acceptable(readings)
    ensures r.Success? ==> r.value == Normals(files, Values(readings))
  {
    var entries: seq<Fields> := [];
    var paths: set<string> := {};
    var objects: map<string, (string, int)> := map[];
    ghost var fs: seq<Facts> := [];
    for i := 0 to |files|
      invariant |entries| == |fs| == i && Reads(readings, fs)
      invariant Tracks(fs, paths, objects) && DistinctPaths(fs) && AgreeingKeys(fs)
      invariant forall j :: 0 <= j < i ==> entries[j] == Normal(FieldsOf(files[j]), fs[j])
    {
      if readings[i].Failure? { return Failure(readings[i].error); }
      var f := readings[i].value;
      var refused;
      refused, paths, objects := ReadFile(f, paths, objects, fs);
      fs := fs + [f];
      if refused.Some? {
        if Acceptable(readings) { PrefixAccepted(readings, fs); }
        return Failure(refused.value);
      }
      entries := entries + [Normal(FieldsOf(files[i]), f)];
    }
    AllAccepted(readings, fs);
    assert entries == Normals(files, fs);
    r := Success(entries);
  }

  /** _validate_custom_manifest. */
  method ValidateManifest(c: Codec, payload: Fields, dataset: string, generation: string)
    returns (r: Result<seq<Fields>, Error>)
    ensures r.Success? <==> ValidManifest(c, payload, dataset, generation)
    ensures r.Success? ==> r.value == ManifestEntries(c, payload, dataset)
  {
    if !Same(Get(payload, "manifest_version"), Int(1)) || Get(payload, "read_only") != Bool(true) {
      return Failure(SchemaInvalid);
    }
    if Get(payload, "dataset_id") != String(dataset) || Get(payload, "release_id") != String(generation) {
      return Failure(IdentityMismatch);
    }
    var files := Get(payload, "files");
    if !files.List? || files.items == [] { return Failure(FilesInvalid); }
    var entries := ReadFiles(files.items, Readings(c, files.items, dataset));
    if entries.Failure? { return entries; }
    if !ValidCounts(payload, |files.items|) { return Failure(CountMismatch); }
    if !BindsDatabase(payload, entries.value) { return Failure(DatabaseBindingInvalid); }
    if !BindsArtifacts(payload, entries.value) { return Failure(ArtifactEvidenceInvalid); }
    r := entries;
  }
}
