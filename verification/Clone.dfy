/** flowdocs/dataops/clone.py: a generation copied into another dataset, object by object,
    and published there by one swap of the authoritative pointer, while other clones of
    the same destination are at work. */
module Clone {
  import opened Common
  import opened Json
  import opened Text
  import opened Manifest
  import opened Rebind

  type Objects = map<string, Bytes>

  datatype Failed =
    | Transport | SourceManifestMissing | SourceManifestInvalid | SourceObjectMissing | ChecksumMismatch
    | RebasedInvalid | SourceSectionInvalid | ImmutableConflict | RegistrationInvalid | RegistrationConflict
    | RegistrationSchemaMismatch | PointerInvalid | PointerConflict | PointerVerifyFailed | SameDataset

  function ManifestKey(dataset: string, generation: string): string {
    Prefix(dataset) + "generations/" + generation + "/manifest.json"
  }

  function RegistrationKey(dataset: string): string { Prefix(dataset) + "control/registration.json" }

  function PointerKey(dataset: string): string { Prefix(dataset) + "control/authoritative.json" }

  // ---------------------------------------------------------------- what the store promises

  /** The object that a file entry lists is there, with its size and digest. */
  predicate Stored(c: Codec, objects: Objects, f: Facts) {
    f.key in objects && |objects[f.key]| == f.size && c.sha256(objects[f.key]) == f.sha256
  }

  predicate AllStored(c: Codec, objects: Objects, fs: seq<Facts>) {
    forall i :: 0 <= i < |fs| ==> Stored(c, objects, fs[i])
  }

  /** A manifest that validates for the dataset and lists nothing but stored objects. */
  predicate Backed(c: Codec, dataset: string, generation: string, objects: Objects, m: Fields) {
    && ValidManifest(c, m, dataset, generation)
    && AllStored(c, objects, Values(Readings(c, Get(m, "files").items, dataset)))
  }

  predicate Vouched(c: Codec, dataset: string, generation: string, digest: string, objects: Objects) {
    var key := ManifestKey(dataset, generation);
    && key in objects && c.sha256(objects[key]) == digest
    && var m := c.decode(objects[key]);
       m.Some? && m.value.Object? && Backed(c, dataset, generation, objects, m.value.fields)
  }

  function IsInt(v: Json): bool { v.Int? || v.Bool? }

  /** _pointer_from_body. */
  function ReadPointer(c: Codec, dataset: string, body: Bytes): Option<Fields> {
    var v := c.decode(body);
    if v.Some? && v.value.Object? && IsPointer(c, dataset, v.value.fields) then Some(v.value.fields) else None
  }

  function Generation(c: Codec, p: Fields): string { TextOf(c, Get(p, "generation_id")) }

  function ManifestDigest(c: Codec, p: Fields): string { TextOf(c, Get(p, "manifest_sha256")) }

  predicate IsPointer(c: Codec, dataset: string, p: Fields) {
    && Same(Get(p, "schema_version"), Int(1)) && Get(p, "dataset_id") == String(dataset)
    && IsSha256(ManifestDigest(c, p)) && Generation(c, p) != ""
    && Get(p, "manifest_object_key") == String(ManifestKey(dataset, Generation(c, p)))
    && IsInt(Get(p, "writer_epoch")) && Value(Get(p, "writer_epoch")) >= 0.0
  }

  /** The body is a pointer to a manifest that is there with the stated digest, and so is
      everything this manifest lists. */
  predicate Publishable(c: Codec, dataset: string, objects: Objects, body: Bytes) {
    var p := ReadPointer(c, dataset, body);
    p.Some? && Vouched(c, dataset, Generation(c, p.value), ManifestDigest(c, p.value), objects)
  }

  /** No dangling authority: whatever reads as a pointer is backed.  Anything else under
      that key makes every clone fail. */
  predicate NoDangling(c: Codec, dataset: string, objects: Objects) {
    PointerKey(dataset) in objects && ReadPointer(c, dataset, objects[PointerKey(dataset)]).Some? ==>
      Publishable(c, dataset, objects, objects[PointerKey(dataset)])
  }

  /** Nothing is removed, and objects other than the pointer are written once. */
  predicate Grows(dataset: string, before: Objects, after: Objects) {
    forall k :: k in before ==> k in after && (k != PointerKey(dataset) ==> after[k] == before[k])
  }

  lemma GrowsOn(dataset: string, a: Objects, b: Objects, d: Objects)
    requires Grows(dataset, a, b) && Grows(dataset, b, d)
    ensures Grows(dataset, a, d)
  {
  }

  lemma KeysDiffer(dataset: string, generation: string, key: string)
    requires Prefix(dataset) + "blobs/" <= key
    ensures key != PointerKey(dataset) && key != RegistrationKey(dataset) && key != ManifestKey(dataset, generation)
  {
    var n := |Prefix(dataset)|;
    assert (Prefix(dataset) + "blobs/")[n] == key[n] == 'b';
    assert PointerKey(dataset)[n] == 'c' && RegistrationKey(dataset)[n] == 'c'
           && ManifestKey(dataset, generation)[n] == 'g';
  }

  lemma ControlKeysDiffer(dataset: string, generation: string)
    ensures ManifestKey(dataset, generation) != PointerKey(dataset)
    ensures ManifestKey(dataset, generation) != RegistrationKey(dataset)
    ensures RegistrationKey(dataset) != PointerKey(dataset)
  {
    var n := |Prefix(dataset)|;
    assert PointerKey(dataset)[n] == 'c' && RegistrationKey(dataset)[n] == 'c'
           && ManifestKey(dataset, generation)[n] == 'g';
    assert PointerKey(dataset)[n + 8] == 'a' && RegistrationKey(dataset)[n + 8] == 'r';
  }

  predicate InBlobs(dataset: string, fs: seq<Facts>) {
    forall i :: 0 <= i < |fs| ==> Prefix(dataset) + "blobs/" <= fs[i].key
  }

  lemma AllStoredLater(c: Codec, dataset: string, a: Objects, b: Objects, fs: seq<Facts>)
    requires Grows(dataset, a, b) && AllStored(c, a, fs) && InBlobs(dataset, fs)
    ensures AllStored(c, b, fs)
  {
    forall i | 0 <= i < |fs| ensures Stored(c, b, fs[i]) {
      KeysDiffer(dataset, "", fs[i].key);
    }
  }

  lemma ValuesInBlobs(c: Codec, files: seq<Json>, dataset: string)
    requires Readable(Readings(c, files, dataset))
    ensures InBlobs(dataset, Values(Readings(c, files, dataset)))
  {
    var rs := Readings(c, files, dataset);
    forall i | 0 <= i < |rs| ensures Prefix(dataset) + "blobs/" <= rs[i].value.key {
      ValueInBlobs(c, files[i], dataset, rs[i].value);
    }
  }

  lemma ValueInBlobs(c: Codec, raw: Json, dataset: string, f: Facts)
    requires FactsOf(c, raw, dataset) == Success(f)
    ensures Prefix(dataset) + "blobs/" <= f.key
  {
    CarriesPrefix(c, raw, dataset, f);
    JudgeStands(LookAt(TextsOf(c, raw.fields)), dataset, f);
  }

  lemma BackedLater(c: Codec, dataset: string, generation: string, a: Objects, b: Objects, m: Fields)
    requires Grows(dataset, a, b) && Backed(c, dataset, generation, a, m)
    ensures Backed(c, dataset, generation, b, m)
  {
    var files := Get(m, "files").items;
    ValuesInBlobs(c, files, dataset);
    AllStoredLater(c, dataset, a, b, Values(Readings(c, files, dataset)));
  }

  lemma VouchedLater(c: Codec, dataset: string, generation: string, digest: string, a: Objects, b: Objects)
    requires Grows(dataset, a, b) && Vouched(c, dataset, generation, digest, a)
    ensures Vouched(c, dataset, generation, digest, b)
  {
    ControlKeysDiffer(dataset, generation);
    BackedLater(c, dataset, generation, a, b, c.decode(a[ManifestKey(dataset, generation)]).value.fields);
  }

  lemma PublishableLater(c: Codec, dataset: string, a: Objects, b: Objects, body: Bytes)
    requires Grows(dataset, a, b) && Publishable(c, dataset, a, body)
    ensures Publishable(c, dataset, b, body)
  {
    var p := ReadPointer(c, dataset, body).value;
    VouchedLater(c, dataset, Generation(c, p), ManifestDigest(c, p), a, b);
  }

  /** A new object beside the pointer leaves the pointer's promise as it was. */
  lemma NewObjectKeeps(c: Codec, dataset: string, a: Objects, key: string, body: Bytes)
    requires NoDangling(c, dataset, a) && key !in a && key != PointerKey(dataset)
    ensures NoDangling(c, dataset, a[key := body]) && Grows(dataset, a, a[key := body])
  {
    if PointerKey(dataset) in a && ReadPointer(c, dataset, a[PointerKey(dataset)]).Some? {
      PublishableLater(c, dataset, a, a[key := body], a[PointerKey(dataset)]);
    }
  }

  lemma NewPointerKeeps(c: Codec, dataset: string, a: Objects, body: Bytes)
    requires Publishable(c, dataset, a, body)
    ensures var b := a[PointerKey(dataset) := body];
            NoDangling(c, dataset, b) && Grows(dataset, a, b)
  {
    PublishableLater(c, dataset, a, a[PointerKey(dataset) := body], body);
  }

  // ---------------------------------------------------------------- the destination

  datatype Reply = Done | Refused | Lost

  /** The destination bucket, as the clones of one dataset change it.  quiet says that no
      one else is at work. */
  class Bucket {
    var objects: Objects
    const codec: Codec
    const dataset: string
    ghost const quiet: bool

    ghost predicate Valid() reads this { codec.Lawful() && NoDangling(codec, dataset, objects) }

    constructor (codec: Codec, dataset: string, ghost quiet: bool)
      requires codec.Lawful()
      ensures Valid() && objects == map[] && this.codec == codec && this.dataset == dataset && this.quiet == quiet
    {
      this.codec, this.dataset, this.quiet, objects := codec, dataset, quiet, map[];
    }

    /** Any number of steps of other clones: callers know no more than this contract. */
    method Others()
      requires Valid()
      modifies this
      ensures Valid() && Grows(dataset, old(objects), objects) && (quiet ==> objects == old(objects))
    {
    }

    /** _optional_object, with a read that may fail. */
    method Read(key: string) returns (r: Result<Option<Bytes>, Failed>)
      requires Valid()
      modifies this
      ensures Valid() && Grows(dataset, old(objects), objects) && (quiet ==> objects == old(objects))
      ensures r.Success? ==> r.value == Find(objects, key)
      ensures r.Failure? ==> r.error == Transport
    {
      Others();
      var lost: bool := *;
      r := if lost then Failure(Transport) else Success(Find(objects, key));
    }

    /** A put that must create the object; its reply may be lost with or without effect. */
    method PutNew(key: string, body: Bytes) returns (reply: Reply)
      requires Valid() && key != PointerKey(dataset)
      modifies this
      ensures Valid() && Grows(dataset, old(objects), objects)
      ensures reply == Done ==> key in objects && objects[key] == body
      ensures reply == Refused ==> key in objects
      ensures quiet && old(key in objects) ==> objects == old(objects)
      ensures quiet && old(key !in objects) ==>
                && (objects == old(objects) || objects == old(objects)[key := body])
                && reply != Refused
    {
      Others();
      var arrives: bool, answered: bool := *, *;
      reply := Lost;
      if arrives && key !in objects {
        NewObjectKeeps(codec, dataset, objects, key, body);
        objects := objects[key := body];
        if answered { reply := Done; }
      } else if arrives && answered {
        reply := Refused;
      }
    }
  
    /** A put of the pointer that must find the state expected names. */
    method PutPointer(expected: Option<Bytes>, body: Bytes) returns (reply: Reply)
      requires Valid() && Publishable(codec, dataset, objects, body)
      modifies this
      ensures Valid() && Grows(dataset, old(objects), objects)
      ensures quiet && expected == Find(old(objects), PointerKey(dataset)) ==>
                && (objects == old(objects) || objects == old(objects)[PointerKey(dataset) := body])
                && reply != Refused && (reply == Done ==> objects == old(objects)[PointerKey(dataset) := body])
      ensures PointerKey(dataset) in old(objects) || reply == Done ==> PointerKey(dataset) in objects
    {
      Others();
      PublishableLater(codec, dataset, old(objects), objects, body);
      var arrives: bool, answered: bool := *, *;
      reply := Lost;
      if arrives && Find(objects, PointerKey(dataset)) == expected {
        NewPointerKeeps(codec, dataset, objects, body);
        objects := objects[PointerKey(dataset) := body];
        if answered { reply := Done; }
      } else if arrives && answered {
        reply := Refused;
      }
    }
  }

  function Find(objects: Objects, key: string): Option<Bytes> {
    if key in objects then Some(objects[key]) else None
  }

  /** Every other key holds what it held. */
  ghost predicate OnlyAt(key: string, a: Objects, b: Objects) {
    forall k :: k != key && (k in a || k in b) ==> k in a && k in b && a[k] == b[k]
  }

  /** What a write-once put of the body does to a store that no one else changes. */
  ghost predicate PutOf(key: string, body: Option<Bytes>, a: Objects, b: Objects) {
    && OnlyAt(key, a, b)
    && (key in a ==> b == a)
    && (key in b && key !in a ==> body == Some(b[key]))
  }

  /** _immutable_put. */
  method ImmutablePut(bucket: Bucket, key: string, body: Bytes) returns (r: Result<(), Failed>)
    requires bucket.Valid() && key != PointerKey(bucket.dataset)
    modifies bucket
    ensures bucket.Valid() && Grows(bucket.dataset, old(bucket.objects), bucket.objects)
    ensures r.Success? ==> Find(bucket.objects, key) == Some(body)
    ensures r.Failure? ==>
              r.error == Transport
              || (r.error == ImmutableConflict && key in bucket.objects && bucket.objects[key] != body)
    ensures bucket.quiet ==> PutOf(key, Some(body), old(bucket.objects), bucket.objects)
  {
    var existing := bucket.Read(key);
    if existing.Failure? { return Failure(existing.error); }
    if existing.value.Some? {
      return if existing.value.value != body then Failure(ImmutableConflict) else Success(());
    }
    var reply := bucket.PutNew(key, body);
    if reply.Lost? { return Failure(Transport); }
    var verified := bucket.Read(key);
    if verified.Failure? { return Failure(verified.error); }
    assert verified.value.Some?;
    r := if verified.value.value != body then Failure(ImmutableConflict) else Success(());
  }

  // ---------------------------------------------------------------- objects

  predicate SourceHolds(c: Codec, source: Objects, f: Facts) {
    f.key in source && |source[f.key]| == f.size && c.sha256(source[f.key]) == f.sha256
  }

  predicate SourceHoldsAll(c: Codec, source: Objects, fs: seq<Facts>) {
    forall i :: 0 <= i < |fs| ==> SourceHolds(c, source, fs[i])
  }

  /** Where the destination has a key that this copy writes, it has the copy. */
  predicate NothingElse(source: Objects, fs: seq<Facts>, from: string, to: string, objects: Objects) {
    forall i :: 0 <= i < |fs| ==>
      var key := RewriteText(fs[i].key, from, to);
      key in objects ==> fs[i].key in source && objects[key] == source[fs[i].key]
  }

  predicate Sourced(source: Objects, f: Facts, from: string, to: string, objects: Objects) {
    f.key in source && Find(objects, RewriteText(f.key, from, to)) == Some(source[f.key])
  }

  predicate Copied(source: Objects, fs: seq<Facts>, from: string, to: string, objects: Objects) {
    forall i :: 0 <= i < |fs| ==>
      Sourced(source, fs[i], from, to, objects)
  }

  lemma CopiesStay(c: Codec, source: Objects, fs: seq<Facts>, a: string, b: string, before: Objects, after: Objects)
    requires InBlobs(a, fs) && Grows(b, before, after)
    requires forall j :: 0 <= j < |fs| ==> Stored(c, before, Moved(fs[j], Prefix(a), Prefix(b)))
    requires Copied(source, fs, Prefix(a), Prefix(b), before)
    ensures forall j :: 0 <= j < |fs| ==> Stored(c, after, Moved(fs[j], Prefix(a), Prefix(b)))
    ensures Copied(source, fs, Prefix(a), Prefix(b), after)
  {
    forall j | 0 <= j < |fs| ensures RewriteText(fs[j].key, Prefix(a), Prefix(b)) != PointerKey(b) {
      MovedKey(fs[j].key, a, b);
      KeysDiffer(b, "", RewriteText(fs[j].key, Prefix(a), Prefix(b)));
    }
  }

  ghost predicate OnlyBlobs(dataset: string, a: Objects, b: Objects) {
    forall k :: !(Prefix(dataset) + "blobs/" <= k) && (k in a || k in b) ==> k in a && k in b && a[k] == b[k]
  }

  lemma MovedKey(key: string, a: string, b: string)
    requires Prefix(a) + "blobs/" <= key
    ensures Prefix(b) + "blobs/" <= RewriteText(key, Prefix(a), Prefix(b))
  {
    var rest := key[|Prefix(a)|..];
    assert (Prefix(a) + "blobs/")[..|Prefix(a)|] == Prefix(a) && (Prefix(a) + "blobs/")[|Prefix(a)|..] == "blobs/";
    assert Prefix(a) <= key && "blobs/" <= rest;
    assert RewriteText(key, Prefix(a), Prefix(b)) == Prefix(b) + rest;
  }

  lemma MovedKeysTell(x: string, y: string, a: string, b: string)
    requires Prefix(a) + "blobs/" <= x && Prefix(a) + "blobs/" <= y
    requires RewriteText(x, Prefix(a), Prefix(b)) == RewriteText(y, Prefix(a), Prefix(b))
    ensures x == y
  {
    PrefixOfPrefix(Prefix(a), "blobs/", x);
    PrefixOfPrefix(Prefix(a), "blobs/", y);
    TextUndone(x, Prefix(a), Prefix(b));
    TextUndone(y, Prefix(a), Prefix(b));
  }

  /** Writing one of the copies leaves nothing else under the others' keys. */
  lemma OneCopyMore(source: Objects, fs: seq<Facts>, a: string, b: string, f: Facts, before: Objects, after: Objects)
    requires InBlobs(a, fs) && Prefix(a) + "blobs/" <= f.key && f.key in source
    requires NothingElse(source, fs, Prefix(a), Prefix(b), before)
    requires PutOf(RewriteText(f.key, Prefix(a), Prefix(b)), Some(source[f.key]), before, after)
    ensures NothingElse(source, fs, Prefix(a), Prefix(b), after)
  {
    forall i | 0 <= i < |fs| && RewriteText(fs[i].key, Prefix(a), Prefix(b)) == RewriteText(f.key, Prefix(a), Prefix(b))
      ensures fs[i].key == f.key
    {
      MovedKeysTell(fs[i].key, f.key, a, b);
    }
  }

  /** What holds after i copies, and what more when the store has been ours alone. */
  ghost predicate Progress(c: Codec, source: Objects, fs: seq<Facts>, a: string, b: string, quiet: bool,
                           start: Objects, now: Objects, i: nat)
    requires i <= |fs|
  {
    var from, to := Prefix(a), Prefix(b);
    && (forall j :: 0 <= j < i ==> Stored(c, now, Moved(fs[j], from, to)) && Sourced(source, fs[j], from, to, now))
    && (quiet ==>
          && OnlyBlobs(b, start, now)
          && (NothingElse(source, fs, from, to, start) ==> NothingElse(source, fs, from, to, now))
          && (Copied(source, fs, from, to, start) ==> now == start))
  }

  /** A step that may fail: f is copied if done says so. */
  lemma CopyStep(c: Codec, source: Objects, fs: seq<Facts>, a: string, b: string, quiet: bool,
                 start: Objects, before: Objects, now: Objects, i: nat, done: bool)
    requires i < |fs| && InBlobs(a, fs) && Progress(c, source, fs, a, b, quiet, start, before, i)
    requires Grows(b, before, now)
    requires var from, to := Prefix(a), Prefix(b);
             var key := RewriteText(fs[i].key, from, to);
             && (done ==> Stored(c, now, Moved(fs[i], from, to)) && Sourced(source, fs[i], from, to, now))
             && (quiet ==> PutOf(key, Find(source, fs[i].key), before, now))
    ensures Progress(c, source, fs, a, b, quiet, start, now, i + if done then 1 else 0)
  {
    MovedKey(fs[i].key, a, b);
    CopiesStay(c, source, fs[..i], a, b, before, now);
    assert forall j :: 0 <= j < i ==> fs[..i][j] == fs[j];
    if quiet { QuietStep(source, fs, a, b, start, before, now, i); }
  }

  lemma QuietStep(source: Objects, fs: seq<Facts>, a: string, b: string, start: Objects, before: Objects, now: Objects,
                  i: nat)
    requires i < |fs| && InBlobs(a, fs) && OnlyBlobs(b, start, before)
    requires PutOf(RewriteText(fs[i].key, Prefix(a), Prefix(b)), Find(source, fs[i].key), before, now)
    requires NothingElse(source, fs, Prefix(a), Prefix(b), start) ==>
              NothingElse(source, fs, Prefix(a), Prefix(b), before)
    requires Copied(source, fs, Prefix(a), Prefix(b), start) ==> before == start
    ensures OnlyBlobs(b, start, now)
    ensures NothingElse(source, fs, Prefix(a), Prefix(b), start) ==> NothingElse(source, fs, Prefix(a), Prefix(b), now)
    ensures Copied(source, fs, Prefix(a), Prefix(b), start) ==> now == start
  {
    var key := RewriteText(fs[i].key, Prefix(a), Prefix(b));
    MovedKey(fs[i].key, a, b);
    if NothingElse(source, fs, Prefix(a), Prefix(b), start) && key !in before && key in now {
      OneCopyMore(source, fs, a, b, fs[i], before, now);
    }
    if Copied(source, fs, Prefix(a), Prefix(b), start) {
      assert Sourced(source, fs[i], Prefix(a), Prefix(b), start);
    }
  }

  /** One iteration of the copy loop. */
  method CopyObject(bucket: Bucket, source: Objects, f: Facts, a: string) returns (r: Result<(), Failed>)
    requires bucket.Valid() && Prefix(a) + "blobs/" <= f.key
    modifies bucket
    ensures bucket.Valid() && Grows(bucket.dataset, old(bucket.objects), bucket.objects)
    ensures var key := RewriteText(f.key, Prefix(a), Prefix(bucket.dataset));
            && (r.Success? ==> Find(bucket.objects, key) == Find(source, f.key) && SourceHolds(bucket.codec, source, f))
            && (r.Failure? && SourceHolds(bucket.codec, source, f) ==>
                  r.error == Transport || (key in bucket.objects && bucket.objects[key] != source[f.key]))
            && (bucket.quiet ==> PutOf(key, Find(source, f.key), old(bucket.objects), bucket.objects))
  {
    var key := RewriteText(f.key, Prefix(a), Prefix(bucket.dataset));
    MovedKey(f.key, a, bucket.dataset);
    KeysDiffer(bucket.dataset, "", key);
    if f.key !in source { return Failure(SourceObjectMissing); }
    var data := source[f.key];
    if |data| != f.size || bucket.codec.sha256(data) != f.sha256 { return Failure(ChecksumMismatch); }
    r := ImmutablePut(bucket, key, data);
    if r.Failure? { return r; }
    var verified := bucket.Read(key);
    if verified.Failure? { return Failure(verified.error); }
    assert verified.value == Some(data);
  }

  method CopyObjects(bucket: Bucket, source: Objects, fs: seq<Facts>, a: string) returns (r: Result<(), Failed>)
    requires bucket.Valid() && InBlobs(a, fs)
    modifies bucket
    ensures bucket.Valid() && Grows(bucket.dataset, old(bucket.objects), bucket.objects)
    ensures Progress(bucket.codec, source, fs, a, bucket.dataset, bucket.quiet, old(bucket.objects), bucket.objects,
                     if r.Success? then |fs| else 0)
    ensures bucket.quiet && SourceHoldsAll(bucket.codec, source, fs)
              && NothingElse(source, fs, Prefix(a), Prefix(bucket.dataset), old(bucket.objects)) && r.Failure? ==>
              r.error == Transport
  {
    ghost var start := bucket.objects;
    for i := 0 to |fs|
      invariant bucket.Valid() && Grows(bucket.dataset, start, bucket.objects)
      invariant Progress(bucket.codec, source, fs, a, bucket.dataset, bucket.quiet, start, bucket.objects, i)
    {
      ghost var before := bucket.objects;
      r := CopyObject(bucket, source, fs[i], a);
      GrowsOn(bucket.dataset, start, before, bucket.objects);
      CopyStep(bucket.codec, source, fs, a, bucket.dataset, bucket.quiet, start, before, bucket.objects, i, r.Success?);
      if r.Failure? { return r; }
    }
    r := Success(());
  }

  // ---------------------------------------------------------------- registration

  function Registration(dataset: string, sourceId: string, lineage: Fields): Fields {
    map["dataset_id" := String(dataset), "registration_version" := Int(1),
        "manifest_schema_range" := Object(map["min" := Int(1), "max" := Int(1)]),
        "app_identifier" := String("pdfsearch"), "production_source_id" := String(sourceId),
        "initial_instance_id" := String("dataops-clone-rebind"), "migration_source" := String("clone/rebind")]
    + lineage
  }

  predicate RegistrationNames(r: Fields, dataset: string, sourceId: string) {
    && Get(r, "dataset_id") == String(dataset) && Same(Get(r, "registration_version"), Int(1))
    && Get(r, "app_identifier") == String("pdfsearch") && Get(r, "production_source_id") == String(sourceId)
  }

  predicate RegistrationAdmits(r: Fields) {
    var range := Get(r, "manifest_schema_range");
    && range.Object? && Get(range.fields, "min").Int? && Get(range.fields, "max").Int?
    && Get(range.fields, "min").number <= 1 <= Get(range.fields, "max").number
  }

  predicate Registered(c: Codec, dataset: string, sourceId: string, body: Bytes) {
    var v := c.decode(body);
    && v.Some? && v.value.Object?
    && RegistrationNames(v.value.fields, dataset, sourceId) && RegistrationAdmits(v.value.fields)
  }

  lemma OwnRegistration(c: Codec, dataset: string, sourceId: string, q: Request, digest: string)
    requires c.Lawful()
    ensures Registered(c, dataset, sourceId, c.encode(Object(Registration(dataset, sourceId, Lineage(q, digest)))))
  {
    LineageApart(q, digest);
    var r := Registration(dataset, sourceId, Lineage(q, digest));
    assert Get(r, "manifest_schema_range") == Object(map["min" := Int(1), "max" := Int(1)]);
  }

  lemma LineageApart(q: Request, digest: string)
    ensures var l := Lineage(q, digest);
            && "dataset_id" !in l && "registration_version" !in l && "manifest_schema_range" !in l
            && "app_identifier" !in l && "production_source_id" !in l
  {
  }

  /** _ensure_registration, of which first is the payload of a first registration. */
  method EnsureRegistration(bucket: Bucket, sourceId: string, first: Bytes) returns (r: Result<Fields, Failed>)
    requires bucket.Valid() && Registered(bucket.codec, bucket.dataset, sourceId, first)
    modifies bucket
    ensures bucket.Valid() && Grows(bucket.dataset, old(bucket.objects), bucket.objects)
    ensures r.Success? ==>
              && RegistrationKey(bucket.dataset) in bucket.objects
              && Registered(bucket.codec, bucket.dataset, sourceId, bucket.objects[RegistrationKey(bucket.dataset)])
              && bucket.codec.decode(bucket.objects[RegistrationKey(bucket.dataset)]) == Some(Object(r.value))
    ensures bucket.quiet ==>
              PutOf(RegistrationKey(bucket.dataset), Some(first), old(bucket.objects), bucket.objects)
    ensures bucket.quiet && r.Failure? && r.error != Transport ==>
              && RegistrationKey(bucket.dataset) in old(bucket.objects)
              && !Registered(bucket.codec, bucket.dataset, sourceId,
                             old(bucket.objects)[RegistrationKey(bucket.dataset)])
  {
    var key := RegistrationKey(bucket.dataset);
    ControlKeysDiffer(bucket.dataset, "");
    var existing := bucket.Read(key);
    if existing.Failure? { return Failure(existing.error); }
    if existing.value.Some? {
      var v := bucket.codec.decode(existing.value.value);
      if v.None? || !v.value.Object? { return Failure(RegistrationInvalid); }
      if !RegistrationNames(v.value.fields, bucket.dataset, sourceId) { return Failure(RegistrationConflict); }
      if !RegistrationAdmits(v.value.fields) { return Failure(RegistrationSchemaMismatch); }
      return Success(v.value.fields);
    }
    var put := ImmutablePut(bucket, key, first);
    if put.Failure? { return Failure(put.error); }
    var verified := bucket.Read(key);
    if verified.Failure? { return Failure(verified.error); }
    assert verified.value == Some(first);
    r := Success(bucket.codec.decode(verified.value.value).value.fields);
  }

  // ---------------------------------------------------------------- the pointer

  predicate NamesTarget(p: Fields, generation: string, digest: string) {
    Get(p, "generation_id") == String(generation) && Get(p, "manifest_sha256") == String(digest)
  }

  function PointerIn(c: Codec, dataset: string, objects: Objects): Option<Fields> {
    if PointerKey(dataset) in objects then ReadPointer(c, dataset, objects[PointerKey(dataset)]) else None
  }

  /** There is no pointer, or one that the clone can read. */
  predicate PointerReadable(c: Codec, dataset: string, objects: Objects) {
    PointerKey(dataset) in objects ==> ReadPointer(c, dataset, objects[PointerKey(dataset)]).Some?
  }

  predicate Current(c: Codec, dataset: string, objects: Objects, generation: string, digest: string) {
    var p := PointerIn(c, dataset, objects);
    p.Some? && NamesTarget(p.value, generation, digest)
  }

  /** The swap itself, and the reading of what came of it. */
  method SwapPointer(bucket: Bucket, expected: Option<Bytes>, body: Bytes, generation: string, digest: string)
    returns (r: Result<Fields, Failed>)
    requires bucket.Valid() && Publishable(bucket.codec, bucket.dataset, bucket.objects, body)
    requires var p := ReadPointer(bucket.codec, bucket.dataset, body);
             p.Some? && NamesTarget(p.value, generation, digest)
    modifies bucket
    ensures bucket.Valid() && Grows(bucket.dataset, old(bucket.objects), bucket.objects)
    ensures r.Success? ==> NamesTarget(r.value, generation, digest)
    ensures bucket.quiet && expected == Find(old(bucket.objects), PointerKey(bucket.dataset)) ==>
              && (bucket.objects == old(bucket.objects)
                  || bucket.objects == old(bucket.objects)[PointerKey(bucket.dataset) := body])
              && (r.Failure? ==> r.error == Transport)
              && (r.Success? ==> Some(r.value) == ReadPointer(bucket.codec, bucket.dataset, body))
              && (r.Success? ==> PointerIn(bucket.codec, bucket.dataset, bucket.objects) == Some(r.value))
  {
    var reply := bucket.PutPointer(expected, body);
    if reply.Lost? { return Failure(Transport); }
    if reply.Refused? { return Failure(PointerConflict); }
    var verified := bucket.Read(PointerKey(bucket.dataset));
    if verified.Failure? { return Failure(verified.error); }
    assert verified.value.Some?;
    var p := ReadPointer(bucket.codec, bucket.dataset, verified.value.value);
    if p.None? { return Failure(PointerInvalid); }
    if !NamesTarget(p.value, generation, digest) { return Failure(PointerVerifyFailed); }
    r := Success(p.value);
  }

  /** The pointer that is there, and whether it names this generation and digest already. */
  method ReadCurrent(bucket: Bucket, generation: string, digest: string)
    returns (r: Result<Option<Bytes>, Failed>, same: Option<Fields>)
    requires bucket.Valid()
    modifies bucket
    ensures bucket.Valid() && Grows(bucket.dataset, old(bucket.objects), bucket.objects)
    ensures bucket.quiet ==> bucket.objects == old(bucket.objects)
    ensures r.Success? ==> r.value == Find(bucket.objects, PointerKey(bucket.dataset))
    ensures r.Success? ==> (same.Some? <==> Current(bucket.codec, bucket.dataset, bucket.objects, generation, digest))
    ensures same.Some? ==> r.Success? && same == PointerIn(bucket.codec, bucket.dataset, bucket.objects)
    ensures r.Failure? && PointerReadable(bucket.codec, bucket.dataset, bucket.objects) ==> r.error == Transport
  {
    same := None;
    r := bucket.Read(PointerKey(bucket.dataset));
    if r.Success? && r.value.Some? {
      var p := ReadPointer(bucket.codec, bucket.dataset, r.value.value);
      if p.None? { return Failure(PointerInvalid), None; }
      if NamesTarget(p.value, generation, digest) { same := p; }
    }
  }

  /** _publish_pointer. */
  method PublishPointer(bucket: Bucket, body: Bytes, generation: string, digest: string)
    returns (r: Result<Fields, Failed>)
    requires bucket.Valid() && Publishable(bucket.codec, bucket.dataset, bucket.objects, body)
    requires var p := ReadPointer(bucket.codec, bucket.dataset, body);
             p.Some? && NamesTarget(p.value, generation, digest)
    modifies bucket
    ensures bucket.Valid() && Grows(bucket.dataset, old(bucket.objects), bucket.objects)
    ensures r.Success? ==> NamesTarget(r.value, generation, digest)
    ensures bucket.quiet ==> OnlyAt(PointerKey(bucket.dataset), old(bucket.objects), bucket.objects)
    ensures bucket.quiet && PointerReadable(bucket.codec, bucket.dataset, old(bucket.objects)) ==>
              && PointerReadable(bucket.codec, bucket.dataset, bucket.objects)
              && (r.Failure? ==> r.error == Transport)
              && (r.Success? ==> PointerIn(bucket.codec, bucket.dataset, bucket.objects) == Some(r.value))
    ensures bucket.quiet && Current(bucket.codec, bucket.dataset, old(bucket.objects), generation, digest) ==>
              bucket.objects == old(bucket.objects)
    ensures bucket.quiet && r.Success?
            && !Current(bucket.codec, bucket.dataset, old(bucket.objects), generation, digest) ==>
              Some(r.value) == ReadPointer(bucket.codec, bucket.dataset, body)
  {
    ghost var start := bucket.objects;
    var existing, same := ReadCurrent(bucket, generation, digest);
    if existing.Failure? { return Failure(existing.error); }
    if same.Some? { return Success(same.value); }
    PublishableLater(bucket.codec, bucket.dataset, start, bucket.objects, body);
    r := SwapPointer(bucket, existing.value, body, generation, digest);
  }

  // ---------------------------------------------------------------- what one clone is to publish

  /** A source generation that has been read and validated. */
  datatype Parent = Parent(payload: Fields, digest: string)

  predicate ValidParent(c: Codec, q: Request, p: Parent) {
    ValidManifest(c, p.payload, q.source.dataset, q.sourceGeneration)
  }

  function FactsIn(c: Codec, q: Request, p: Parent): seq<Facts>
    requires ValidParent(c, q, p)
  {
    Values(Readings(c, Get(p.payload, "files").items, q.source.dataset))
  }

  function Rebased(c: Codec, q: Request, p: Parent): Fields
    requires ValidParent(c, q, p)
  {
    Rebase(q, p.payload, ManifestEntries(c, p.payload, q.source.dataset), p.digest)
  }

  function Body(c: Codec, q: Request, p: Parent): Bytes
    requires ValidParent(c, q, p)
  {
    c.encode(Object(Rebased(c, q, p)))
  }

  function SourceId(c: Codec, q: Request, p: Parent): string {
    Strip(TextOf(c, Or(Or(Get(p.payload, "production_source_id"), String(q.source.sourceId)),
                       String(q.destination.sourceId))))
  }

  function Pointer(q: Request, p: Parent, digest: string, sourceId: string, epoch: int, publishedAt: string): Fields {
    map["schema_version" := Int(1), "dataset_id" := String(q.destination.dataset),
        "generation_id" := String(q.destinationGeneration),
        "manifest_object_key" := String(ManifestKey(q.destination.dataset, q.destinationGeneration)),
        "manifest_sha256" := String(digest), "production_source_id" := String(sourceId),
        "writer_epoch" := Int(epoch), "published_at" := String(publishedAt)]
    + Lineage(q, p.digest)
  }

  lemma NewPointerReads(c: Codec, q: Request, p: Parent, digest: string, sourceId: string, epoch: int,
                        publishedAt: string)
    requires c.Lawful() && q.destinationGeneration != "" && IsSha256(digest) && epoch >= 0
    ensures var pointer := Pointer(q, p, digest, sourceId, epoch, publishedAt);
            && ReadPointer(c, q.destination.dataset, c.encode(Object(pointer))) == Some(pointer)
            && NamesTarget(pointer, q.destinationGeneration, digest)
            && Generation(c, pointer) == q.destinationGeneration && ManifestDigest(c, pointer) == digest
  {
    var pointer := Pointer(q, p, digest, sourceId, epoch, publishedAt);
    PointerFields(q, p, digest, sourceId, epoch, publishedAt);
    assert digest != "";
  }

  lemma PointerFields(q: Request, p: Parent, digest: string, sourceId: string, epoch: int, publishedAt: string)
    ensures var pointer := Pointer(q, p, digest, sourceId, epoch, publishedAt);
            && Get(pointer, "schema_version") == Int(1) && Get(pointer, "dataset_id") == String(q.destination.dataset)
            && Get(pointer, "generation_id") == String(q.destinationGeneration)
            && Get(pointer, "manifest_object_key")
                == String(ManifestKey(q.destination.dataset, q.destinationGeneration))
            && Get(pointer, "manifest_sha256") == String(digest) && Get(pointer, "writer_epoch") == Int(epoch)
  {
    var l := Lineage(q, p.digest);
    assert "schema_version" !in l && "dataset_id" !in l && "generation_id" !in l;
    assert "manifest_object_key" !in l && "manifest_sha256" !in l && "writer_epoch" !in l;
  }

  /** The rebound manifest lists the copies that are there. */
  lemma RebasedBacked(c: Codec, q: Request, p: Parent, objects: Objects)
    requires ValidParent(c, q, p)
    requires ValidManifest(c, Rebased(c, q, p), q.destination.dataset, q.destinationGeneration)
    requires AllStored(c, objects, Moves(FactsIn(c, q, p), q.From(), q.To()))
    ensures Backed(c, q.destination.dataset, q.destinationGeneration, objects, Rebased(c, q, p))
  {
    var es := ManifestEntries(c, p.payload, q.source.dataset);
    var ds := Rebounds(es, q.From(), q.To());
    IdentityHolds(q, p.payload, es, p.digest);
    var files := Get(p.payload, "files").items;
    var gs := Values(Readings(c, AsList(ds).items, q.destination.dataset));
    var fs := FactsIn(c, q, p);
    forall i | 0 <= i < |gs| ensures Stored(c, objects, gs[i]) {
      assert Stored(c, objects, Moves(fs, q.From(), q.To())[i]);
      ListedIsStored(c, files, q.source.dataset, q.destination.dataset, i, objects);
    }
  }

  lemma ListedIsStored(c: Codec, files: seq<Json>, a: string, b: string, i: nat, objects: Objects)
    requires Readable(Readings(c, files, a)) && i < |files|
    requires var ds := Rebounds(Entries(c, files, a), Prefix(a), Prefix(b)); Readable(Readings(c, AsList(ds).items, b))
    requires Stored(c, objects, Moved(Values(Readings(c, files, a))[i], Prefix(a), Prefix(b)))
    ensures var ds := Rebounds(Entries(c, files, a), Prefix(a), Prefix(b));
            Stored(c, objects, Values(Readings(c, AsList(ds).items, b))[i])
  {
    var f := Values(Readings(c, files, a))[i];
    CarriesPrefix(c, files[i], a, f);
    EntryKeepsObject(c, files[i].fields, f, a, b);
  }

  // ---------------------------------------------------------------- publication

  /** What the control objects come to: the manifest body, the registration of a first
      clone, and the generation and digest to publish. */
  datatype Target = Target(dataset: string, generation: string, body: Bytes, digest: string, sourceId: string,
                           registration: Bytes)

  function TargetOf(c: Codec, q: Request, p: Parent): Target
    requires ValidParent(c, q, p)
  {
    var body := Body(c, q, p);
    Target(q.destination.dataset, q.destinationGeneration, body, c.sha256(body), SourceId(c, q, p),
           c.encode(Object(Registration(q.destination.dataset, SourceId(c, q, p), Lineage(q, p.digest)))))
  }

  /** The control objects hold nothing that a run of this clone would refuse. */
  ghost predicate Ready(c: Codec, t: Target, objects: Objects) {
    var key := ManifestKey(t.dataset, t.generation);
    && (key in objects ==> objects[key] == t.body)
    && (RegistrationKey(t.dataset) in objects ==>
          Registered(c, t.dataset, t.sourceId, objects[RegistrationKey(t.dataset)]))
    && PointerReadable(c, t.dataset, objects)
  }

  /** And they are all there, with the pointer on this clone's generation. */
  ghost predicate Published(c: Codec, t: Target, objects: Objects) {
    && Ready(c, t, objects)
    && ManifestKey(t.dataset, t.generation) in objects
    && RegistrationKey(t.dataset) in objects
    && Current(c, t.dataset, objects, t.generation, t.digest)
  }

  ghost predicate Publishes(c: Codec, q: Request, p: Parent)
    requires ValidParent(c, q, p)
  {
    && HasOrigin(Rewritten(q, p.payload))
    && ValidManifest(c, Rebased(c, q, p), q.destination.dataset, q.destinationGeneration)
  }

  ghost predicate SameBlobs(dataset: string, a: Objects, b: Objects) {
    forall k :: Prefix(dataset) + "blobs/" <= k && (k in a || k in b) ==> k in a && k in b && a[k] == b[k]
  }

  lemma BackedIsVouched(c: Codec, t: Target, m: Fields, objects: Objects)
    requires c.Lawful() && t.body == c.encode(Object(m)) && t.digest == c.sha256(t.body)
    requires Find(objects, ManifestKey(t.dataset, t.generation)) == Some(t.body)
    requires Backed(c, t.dataset, t.generation, objects, m)
    ensures Vouched(c, t.dataset, t.generation, t.digest, objects)
  {
  }

  /** The check against the destination's rules, before anything of the manifest is written. */
  method CheckRebased(c: Codec, q: Request, p: Parent) returns (r: Result<(), Failed>)
    requires ValidParent(c, q, p)
    ensures r.Success? <==> Publishes(c, q, p)
  {
    if !HasOrigin(Rewritten(q, p.payload)) { return Failure(SourceSectionInvalid); }
    var check := ValidateManifest(c, Rebased(c, q, p), q.destination.dataset, q.destinationGeneration);
    r := if check.Failure? then Failure(RebasedInvalid) else Success(());
  }

  method PutManifest(bucket: Bucket, t: Target) returns (r: Result<(), Failed>)
    requires bucket.Valid() && bucket.dataset == t.dataset
    modifies bucket
    ensures bucket.Valid() && Grows(bucket.dataset, old(bucket.objects), bucket.objects)
    ensures r.Success? ==> Find(bucket.objects, ManifestKey(t.dataset, t.generation)) == Some(t.body)
    ensures r.Failure? ==>
              r.error == Transport
              || (var key := ManifestKey(t.dataset, t.generation);
                  key in bucket.objects && bucket.objects[key] != t.body)
    ensures bucket.quiet ==>
              PutOf(ManifestKey(t.dataset, t.generation), Some(t.body), old(bucket.objects), bucket.objects)
  {
    var key := ManifestKey(bucket.dataset, t.generation);
    ControlKeysDiffer(bucket.dataset, t.generation);
    r := ImmutablePut(bucket, key, t.body);
    if r.Failure? { return r; }
    var verified := bucket.Read(key);
    if verified.Failure? { return Failure(verified.error); }
    assert verified.value == Some(t.body);
  }

  function NextEpoch(c: Codec, dataset: string, p: Option<Fields>): (n: int)
    requires p.Some? ==> IsPointer(c, dataset, p.value)
    ensures n >= 0
  {
    if p.None? then 0
    else
      var epoch := Get(p.value, "writer_epoch");
      1 + if epoch.Int? then epoch.number else if epoch == Bool(true) then 1 else 0
  }

  /** The read that the epoch of the new pointer is computed from. */
  method ReadEpoch(bucket: Bucket) returns (r: Result<nat, Failed>)
    requires bucket.Valid()
    modifies bucket
    ensures bucket.Valid() && Grows(bucket.dataset, old(bucket.objects), bucket.objects)
    ensures bucket.quiet ==> bucket.objects == old(bucket.objects)
    ensures bucket.quiet && PointerReadable(bucket.codec, bucket.dataset, bucket.objects) && r.Failure? ==>
              r.error == Transport
    ensures bucket.quiet && r.Success? ==>
              r.value == NextEpoch(bucket.codec, bucket.dataset,
                                   PointerIn(bucket.codec, bucket.dataset, bucket.objects))
  {
    var existing := bucket.Read(PointerKey(bucket.dataset));
    if existing.Failure? { return Failure(existing.error); }
    if existing.value.None? { return Success(0); }
    var current := ReadPointer(bucket.codec, bucket.dataset, existing.value.value);
    if current.None? { return Failure(PointerInvalid); }
    r := Success(NextEpoch(bucket.codec, bucket.dataset, current));
  }

  lemma NewPointerPublishable(c: Codec, q: Request, p: Parent, t: Target, epoch: int, publishedAt: string,
                              objects: Objects)
    requires c.Lawful() && q.destinationGeneration != "" && IsSha256(t.digest) && epoch >= 0
    requires t.dataset == q.destination.dataset && t.generation == q.destinationGeneration
    requires Vouched(c, t.dataset, t.generation, t.digest, objects)
    ensures var body := c.encode(Object(Pointer(q, p, t.digest, t.sourceId, epoch, publishedAt)));
            var read := ReadPointer(c, t.dataset, body);
            && Publishable(c, t.dataset, objects, body) && read.Some? && NamesTarget(read.value, t.generation, t.digest)
            && read == Some(Pointer(q, p, t.digest, t.sourceId, epoch, publishedAt))
  {
    NewPointerReads(c, q, p, t.digest, t.sourceId, epoch, publishedAt);
  }

  lemma ManifestPutKeeps(c: Codec, t: Target, a: Objects, b: Objects)
    requires Ready(c, t, a) && PutOf(ManifestKey(t.dataset, t.generation), Some(t.body), a, b)
    ensures Ready(c, t, b) && (Published(c, t, a) ==> b == a)
  {
    ControlKeysDiffer(t.dataset, t.generation);
  }

  lemma RegistrationPutKeeps(c: Codec, t: Target, a: Objects, b: Objects)
    requires Registered(c, t.dataset, t.sourceId, t.registration)
    ensures Ready(c, t, a) && PutOf(RegistrationKey(t.dataset), Some(t.registration), a, b) ==>
              && Ready(c, t, b) && (Published(c, t, a) ==> b == a)
              && (ManifestKey(t.dataset, t.generation) in a ==> ManifestKey(t.dataset, t.generation) in b)
  {
    ControlKeysDiffer(t.dataset, t.generation);
  }

  lemma PointerMoveKeeps(c: Codec, t: Target, a: Objects, b: Objects)
    ensures Ready(c, t, a) && OnlyAt(PointerKey(t.dataset), a, b) && PointerReadable(c, t.dataset, b) ==>
              && Ready(c, t, b)
              && (ManifestKey(t.dataset, t.generation) in a ==> ManifestKey(t.dataset, t.generation) in b)
              && (RegistrationKey(t.dataset) in a ==> RegistrationKey(t.dataset) in b)
  {
    ControlKeysDiffer(t.dataset, t.generation);
  }

  lemma BlobsApart(dataset: string, generation: string)
    ensures !(Prefix(dataset) + "blobs/" <= ManifestKey(dataset, generation))
    ensures !(Prefix(dataset) + "blobs/" <= RegistrationKey(dataset))
    ensures !(Prefix(dataset) + "blobs/" <= PointerKey(dataset))
  {
    var n := |Prefix(dataset)|;
    assert (Prefix(dataset) + "blobs/")[n] == 'b';
    assert PointerKey(dataset)[n] == 'c' && RegistrationKey(dataset)[n] == 'c'
           && ManifestKey(dataset, generation)[n] == 'g';
  }

  /** What a swap of the pointer, or the discovery that it is not needed, makes of the store. */
  ghost predicate PointerMoved(c: Codec, t: Target, a: Objects, b: Objects, r: Result<Fields, Failed>, next: Fields) {
    && OnlyAt(PointerKey(t.dataset), a, b)
    && (PointerReadable(c, t.dataset, a) ==>
          && PointerReadable(c, t.dataset, b)
          && (r.Failure? ==> r.error == Transport)
          && (r.Success? ==> PointerIn(c, t.dataset, b) == Some(r.value)))
    && (Current(c, t.dataset, a, t.generation, t.digest) ==> b == a)
    && (r.Success? && !Current(c, t.dataset, a, t.generation, t.digest) ==> r.value == next)
  }

  method PublishFresh(bucket: Bucket, q: Request, p: Parent, t: Target, epoch: int, publishedAt: string)
    returns (r: Result<Fields, Failed>)
    requires bucket.Valid() && bucket.dataset == t.dataset == q.destination.dataset
    requires t.generation == q.destinationGeneration != "" && IsSha256(t.digest) && epoch >= 0
    requires Vouched(bucket.codec, t.dataset, t.generation, t.digest, bucket.objects)
    modifies bucket
    ensures bucket.Valid() && Grows(bucket.dataset, old(bucket.objects), bucket.objects)
    ensures r.Success? ==> NamesTarget(r.value, t.generation, t.digest)
    ensures bucket.quiet ==> PointerMoved(bucket.codec, t, old(bucket.objects), bucket.objects, r,
                                   Pointer(q, p, t.digest, t.sourceId, epoch, publishedAt))
  {
    NewPointerPublishable(bucket.codec, q, p, t, epoch, publishedAt, bucket.objects);
    var pointer := Pointer(q, p, t.digest, t.sourceId, epoch, publishedAt);
    r := PublishPointer(bucket, bucket.codec.encode(Object(pointer)), t.generation, t.digest);
  }

  method MovePointer(bucket: Bucket, q: Request, p: Parent, t: Target, publishedAt: string)
    returns (r: Result<Fields, Failed>)
    requires bucket.Valid() && bucket.dataset == t.dataset == q.destination.dataset
    requires t.generation == q.destinationGeneration != "" && IsSha256(t.digest)
    requires Vouched(bucket.codec, t.dataset, t.generation, t.digest, bucket.objects)
    modifies bucket
    ensures bucket.Valid() && Grows(bucket.dataset, old(bucket.objects), bucket.objects)
    ensures r.Success? ==> NamesTarget(r.value, t.generation, t.digest)
    ensures bucket.quiet ==> OnlyAt(PointerKey(t.dataset), old(bucket.objects), bucket.objects)
    ensures bucket.quiet && PointerReadable(bucket.codec, t.dataset, old(bucket.objects)) ==>
              && PointerReadable(bucket.codec, t.dataset, bucket.objects)
              && (r.Failure? ==> r.error == Transport)
              && (r.Success? ==> PointerIn(bucket.codec, t.dataset, bucket.objects) == Some(r.value))
    ensures bucket.quiet && Current(bucket.codec, t.dataset, old(bucket.objects), t.generation, t.digest) ==>
              bucket.objects == old(bucket.objects)
    ensures bucket.quiet && r.Success?
            && !Current(bucket.codec, t.dataset, old(bucket.objects), t.generation, t.digest) ==>
              var epoch := NextEpoch(bucket.codec, t.dataset, PointerIn(bucket.codec, t.dataset, old(bucket.objects)));
              r.value == Pointer(q, p, t.digest, t.sourceId, epoch, publishedAt)
  {
    ghost var start := bucket.objects;
    var epoch := ReadEpoch(bucket);
    if epoch.Failure? { return Failure(epoch.error); }
    VouchedLater(bucket.codec, t.dataset, t.generation, t.digest, start, bucket.objects);
    r := PublishFresh(bucket, q, p, t, epoch.value, publishedAt);
  }

  /** What the registration and the swap of the pointer have made of a store that is ours alone. */
  ghost predicate EndsWell(c: Codec, t: Target, a: Objects, b: Objects, r: Result<Fields, Failed>) {
    && SameBlobs(t.dataset, a, b)
    && (Ready(c, t, a) ==>
          && Ready(c, t, b) && (r.Failure? ==> r.error == Transport)
          && (r.Success? && ManifestKey(t.dataset, t.generation) in a ==>
                Published(c, t, b) && PointerIn(c, t.dataset, b) == Some(r.value)))
    && (Published(c, t, a) ==> b == a)
  }

  lemma RegisteredOnly(c: Codec, t: Target, a: Objects, b: Objects, e: Failed)
    requires Registered(c, t.dataset, t.sourceId, t.registration)
    requires PutOf(RegistrationKey(t.dataset), Some(t.registration), a, b)
    requires Ready(c, t, a) ==> e == Transport
    ensures EndsWell(c, t, a, b, Failure(e))
  {
    BlobsApart(t.dataset, t.generation);
    RegistrationPutKeeps(c, t, a, b);
  }

  lemma RegisteredAndMoved(c: Codec, t: Target, a: Objects, m: Objects, b: Objects, r: Result<Fields, Failed>)
    requires Registered(c, t.dataset, t.sourceId, t.registration)
    requires PutOf(RegistrationKey(t.dataset), Some(t.registration), a, m) && RegistrationKey(t.dataset) in m
    requires OnlyAt(PointerKey(t.dataset), m, b)
    requires PointerReadable(c, t.dataset, m) ==>
               && PointerReadable(c, t.dataset, b) && (r.Failure? ==> r.error == Transport)
               && (r.Success? ==> PointerIn(c, t.dataset, b) == Some(r.value))
    requires r.Success? ==> NamesTarget(r.value, t.generation, t.digest)
    requires Current(c, t.dataset, m, t.generation, t.digest) ==> b == m
    ensures EndsWell(c, t, a, b, r)
  {
    BlobsApart(t.dataset, t.generation);
    RegistrationPutKeeps(c, t, a, m);
    PointerMoveKeeps(c, t, m, b);
  }

  /** Registration and pointer, once the manifest is there. */
  method FinishGeneration(bucket: Bucket, q: Request, p: Parent, t: Target, publishedAt: string)
    returns (r: Result<Fields, Failed>)
    requires bucket.Valid() && bucket.dataset == t.dataset == q.destination.dataset
    requires t.generation == q.destinationGeneration != "" && IsSha256(t.digest)
    requires Registered(bucket.codec, t.dataset, t.sourceId, t.registration)
    requires Vouched(bucket.codec, t.dataset, t.generation, t.digest, bucket.objects)
    modifies bucket
    ensures bucket.Valid() && Grows(bucket.dataset, old(bucket.objects), bucket.objects)
    ensures r.Success? ==> NamesTarget(r.value, t.generation, t.digest)
    ensures bucket.quiet ==> EndsWell(bucket.codec, t, old(bucket.objects), bucket.objects, r)
  {
    ghost var s0 := bucket.objects;
    var registration := EnsureRegistration(bucket, t.sourceId, t.registration);
    ghost var s1 := bucket.objects;
    if registration.Failure? {
      if bucket.quiet { RegisteredOnly(bucket.codec, t, s0, s1, registration.error); }
      return Failure(registration.error);
    }
    VouchedLater(bucket.codec, t.dataset, t.generation, t.digest, s0, s1);
    r := MovePointer(bucket, q, p, t, publishedAt);
    if bucket.quiet { RegisteredAndMoved(bucket.codec, t, s0, s1, bucket.objects, r); }
  }

  // ---------------------------------------------------------------- the whole clone

  function ParentOf(c: Codec, q: Request, source: Objects): Option<Parent> {
    var key := ManifestKey(q.source.dataset, q.sourceGeneration);
    if key !in source then None
    else
      var v := c.decode(source[key]);
      if v.None? || !v.value.Object? then None
      else
        var p := Parent(v.value.fields, c.sha256(source[key]));
        if ValidParent(c, q, p) then Some(p) else None
  }

  method ReadParent(c: Codec, q: Request, source: Objects) returns (r: Result<Parent, Failed>)
    ensures r.Success? <==> ParentOf(c, q, source).Some?
    ensures r.Success? ==> ParentOf(c, q, source) == Some(r.value)
  {
    var key := ManifestKey(q.source.dataset, q.sourceGeneration);
    if key !in source { return Failure(SourceManifestMissing); }
    var v := c.decode(source[key]);
    if v.None? || !v.value.Object? { return Failure(SourceManifestInvalid); }
    var entries := ValidateManifest(c, v.value.fields, q.source.dataset, q.sourceGeneration);
    if entries.Failure? { return Failure(SourceManifestInvalid); }
    r := Success(Parent(v.value.fields, c.sha256(source[key])));
  }

  /** The source has everything, and the rebound manifest is one the destination accepts. */
  ghost predicate Clonable(c: Codec, q: Request, source: Objects) {
    var p := ParentOf(c, q, source);
    && q.source.dataset != q.destination.dataset && p.Some?
    && SourceHoldsAll(c, source, FactsIn(c, q, p.value)) && Publishes(c, q, p.value)
  }

  /** What the destination holds under the keys of this clone, this clone has written or
      would accept. */
  ghost predicate Compatible(c: Codec, q: Request, p: Parent, source: Objects, objects: Objects)
    requires ValidParent(c, q, p)
  {
    NothingElse(source, FactsIn(c, q, p), q.From(), q.To(), objects) && Ready(c, TargetOf(c, q, p), objects)
  }

  /** Nothing is left to be done. */
  ghost predicate Complete(c: Codec, q: Request, p: Parent, source: Objects, objects: Objects)
    requires ValidParent(c, q, p)
  {
    Copied(source, FactsIn(c, q, p), q.From(), q.To(), objects) && Published(c, TargetOf(c, q, p), objects)
  }

  /** A run can start from nothing, and again from where any earlier run has stopped. */
  lemma EmptyIsCompatible(c: Codec, q: Request, p: Parent, source: Objects)
    requires ValidParent(c, q, p)
    ensures Compatible(c, q, p, source, map[]) && !Complete(c, q, p, source, map[])
  {
  }

  lemma CompleteIsCompatible(c: Codec, q: Request, p: Parent, source: Objects, objects: Objects)
    requires ValidParent(c, q, p) && Complete(c, q, p, source, objects)
    ensures Compatible(c, q, p, source, objects)
  {
    var fs := FactsIn(c, q, p);
    forall i | 0 <= i < |fs| ensures Sourced(source, fs[i], q.From(), q.To(), objects) { }
  }

  lemma CopiesKeepControl(c: Codec, t: Target, a: Objects, b: Objects)
    requires OnlyBlobs(t.dataset, a, b)
    ensures Ready(c, t, a) ==> Ready(c, t, b)
  {
    BlobsApart(t.dataset, t.generation);
  }

  lemma ControlKeepsCopies(source: Objects, fs: seq<Facts>, a: string, b: string, before: Objects, after: Objects)
    requires InBlobs(a, fs) && SameBlobs(b, before, after)
    ensures NothingElse(source, fs, Prefix(a), Prefix(b), before) ==>
              NothingElse(source, fs, Prefix(a), Prefix(b), after)
    ensures Copied(source, fs, Prefix(a), Prefix(b), before) ==> Copied(source, fs, Prefix(a), Prefix(b), after)
  {
    forall i | 0 <= i < |fs| ensures Prefix(b) + "blobs/" <= RewriteText(fs[i].key, Prefix(a), Prefix(b)) {
      MovedKey(fs[i].key, a, b);
    }
  }

  lemma MovesInBlobs(fs: seq<Facts>, a: string, b: string)
    requires InBlobs(a, fs)
    ensures InBlobs(b, Moves(fs, Prefix(a), Prefix(b)))
  {
    forall i | 0 <= i < |fs| ensures Prefix(b) + "blobs/" <= RewriteText(fs[i].key, Prefix(a), Prefix(b)) {
      MovedKey(fs[i].key, a, b);
    }
  }

  lemma TargetStands(c: Codec, q: Request, p: Parent)
    requires c.Lawful() && ValidParent(c, q, p)
    ensures var t := TargetOf(c, q, p);
            && t.dataset == q.destination.dataset && t.generation == q.destinationGeneration
            && IsSha256(t.digest) && Registered(c, t.dataset, t.sourceId, t.registration)
  {
    OwnRegistration(c, q.destination.dataset, SourceId(c, q, p), q, p.digest);
  }

  lemma TargetVouched(c: Codec, q: Request, p: Parent, objects: Objects)
    requires c.Lawful() && ValidParent(c, q, p) && Publishes(c, q, p)
    requires AllStored(c, objects, Moves(FactsIn(c, q, p), q.From(), q.To()))
    requires var t := TargetOf(c, q, p); Find(objects, ManifestKey(t.dataset, t.generation)) == Some(t.body)
    ensures var t := TargetOf(c, q, p); Vouched(c, t.dataset, t.generation, t.digest, objects)
  {
    RebasedBacked(c, q, p, objects);
    BackedIsVouched(c, TargetOf(c, q, p), Rebased(c, q, p), objects);
  }

  /** Manifest, registration and pointer, in this order. */
  method PublishGeneration(bucket: Bucket, q: Request, p: Parent, t: Target, publishedAt: string)
    returns (r: Result<Fields, Failed>)
    requires bucket.Valid() && bucket.dataset == q.destination.dataset && q.destinationGeneration != ""
    requires ValidParent(bucket.codec, q, p) && t == TargetOf(bucket.codec, q, p)
    requires AllStored(bucket.codec, bucket.objects, Moves(FactsIn(bucket.codec, q, p), q.From(), q.To()))
    modifies bucket
    ensures bucket.Valid() && Grows(bucket.dataset, old(bucket.objects), bucket.objects)
    ensures r.Success? ==> Publishes(bucket.codec, q, p) && NamesTarget(r.value, t.generation, t.digest)
    ensures bucket.quiet ==> SameBlobs(t.dataset, old(bucket.objects), bucket.objects)
    ensures bucket.quiet && Publishes(bucket.codec, q, p) && Ready(bucket.codec, t, old(bucket.objects)) ==>
              && (r.Failure? ==> r.error == Transport)
              && (r.Success? ==> Published(bucket.codec, t, bucket.objects)
                                 && PointerIn(bucket.codec, t.dataset, bucket.objects) == Some(r.value))
    ensures bucket.quiet && Ready(bucket.codec, t, old(bucket.objects)) ==> Ready(bucket.codec, t, bucket.objects)
    ensures bucket.quiet && Published(bucket.codec, t, old(bucket.objects)) ==> bucket.objects == old(bucket.objects)
  {
    ghost var c, s0 := bucket.codec, bucket.objects;
    TargetStands(c, q, p);
    BlobsApart(t.dataset, t.generation);
    var check := CheckRebased(bucket.codec, q, p);
    if check.Failure? { return Failure(check.error); }
    var manifest := PutManifest(bucket, t);
    ghost var s1 := bucket.objects;
    if bucket.quiet && Ready(c, t, s0) { ManifestPutKeeps(c, t, s0, s1); }
    if manifest.Failure? { return Failure(manifest.error); }
    StoredStill(c, q, p, s0, s1);
    TargetVouched(c, q, p, s1);
    r := FinishGeneration(bucket, q, p, t, publishedAt);
  }

  lemma StoredStill(c: Codec, q: Request, p: Parent, a: Objects, b: Objects)
    requires ValidParent(c, q, p) && Grows(q.destination.dataset, a, b)
    requires AllStored(c, a, Moves(FactsIn(c, q, p), q.From(), q.To()))
    ensures AllStored(c, b, Moves(FactsIn(c, q, p), q.From(), q.To()))
  {
    ValuesInBlobs(c, Get(p.payload, "files").items, q.source.dataset);
    MovesInBlobs(FactsIn(c, q, p), q.source.dataset, q.destination.dataset);
    AllStoredLater(c, q.destination.dataset, a, b, Moves(FactsIn(c, q, p), q.From(), q.To()));
  }

  lemma CopyKeeps(c: Codec, q: Request, p: Parent, source: Objects, quiet: bool, a: Objects, b: Objects, n: nat)
    requires ValidParent(c, q, p) && n <= |FactsIn(c, q, p)|
    requires Progress(c, source, FactsIn(c, q, p), q.source.dataset, q.destination.dataset, quiet, a, b, n)
    ensures quiet && Compatible(c, q, p, source, a) ==> Compatible(c, q, p, source, b)
    ensures quiet && Complete(c, q, p, source, a) ==> b == a
  {
    if quiet { CopiesKeepControl(c, TargetOf(c, q, p), a, b); }
  }

  lemma CopyProves(c: Codec, q: Request, p: Parent, source: Objects, quiet: bool, a: Objects, b: Objects)
    requires ValidParent(c, q, p)
    requires Progress(c, source, FactsIn(c, q, p), q.source.dataset, q.destination.dataset, quiet, a, b,
                      |FactsIn(c, q, p)|)
    ensures SourceHoldsAll(c, source, FactsIn(c, q, p)) && Copied(source, FactsIn(c, q, p), q.From(), q.To(), b)
    ensures AllStored(c, b, Moves(FactsIn(c, q, p), q.From(), q.To()))
  {
    CopiesProve(c, source, FactsIn(c, q, p), q.From(), q.To(), b);
  }

  lemma CopiesProve(c: Codec, source: Objects, fs: seq<Facts>, from: string, to: string, b: Objects)
    requires forall j :: 0 <= j < |fs| ==> Stored(c, b, Moved(fs[j], from, to)) && Sourced(source, fs[j], from, to, b)
    ensures SourceHoldsAll(c, source, fs) && Copied(source, fs, from, to, b) && AllStored(c, b, Moves(fs, from, to))
  {
    forall i | 0 <= i < |fs| ensures SourceHolds(c, source, fs[i]) && Sourced(source, fs[i], from, to, b) {
      assert Stored(c, b, Moved(fs[i], from, to));
    }
  }

  /** clone_rebind_generation, from the read of the source manifest on.  It stops anywhere
      with Transport, which stands for a crash as well as for a lost request. */
  method CloneRebind(bucket: Bucket, q: Request, source: Objects, publishedAt: string)
    returns (r: Result<Fields, Failed>)
    requires bucket.Valid() && bucket.dataset == q.destination.dataset && q.destinationGeneration != ""
    modifies bucket
    ensures bucket.Valid() && Grows(bucket.dataset, old(bucket.objects), bucket.objects)
    ensures r.Success? ==>
              && Clonable(bucket.codec, q, source)
              && NamesTarget(r.value, q.destinationGeneration,
                             TargetOf(bucket.codec, q, ParentOf(bucket.codec, q, source).value).digest)
    ensures bucket.quiet && Clonable(bucket.codec, q, source) ==>
              RerunsWell(bucket.codec, q, source, old(bucket.objects), bucket.objects, r)
  {
    ghost var c, s0 := bucket.codec, bucket.objects;
    if q.source.dataset == q.destination.dataset { return Failure(SameDataset); }
    var parent := ReadParent(bucket.codec, q, source);
    if parent.Failure? { return Failure(parent.error); }
    var p := parent.value;
    var fs := FactsIn(bucket.codec, q, p);
    ValuesInBlobs(c, Get(p.payload, "files").items, q.source.dataset);
    var copy := CopyObjects(bucket, source, fs, q.source.dataset);
    ghost var s1 := bucket.objects;
    CopyKeeps(c, q, p, source, bucket.quiet, s0, s1, if copy.Success? then |fs| else 0);
    if copy.Failure? { return Failure(copy.error); }
    CopyProves(c, q, p, source, bucket.quiet, s0, s1);
    r := PublishGeneration(bucket, q, p, TargetOf(bucket.codec, q, p), publishedAt);
    if bucket.quiet { ControlKeepsCopies(source, fs, q.source.dataset, q.destination.dataset, s1, bucket.objects); }
  }

  /** What a run alone at the destination makes of objects before: it never refuses its own
      earlier writes, leaves nothing it would refuse next time, completes when it returns,
      and changes nothing once complete. */
  ghost predicate RerunsWell(c: Codec, q: Request, source: Objects, before: Objects, after: Objects,
                             r: Result<Fields, Failed>)
    requires Clonable(c, q, source)
  {
    var p := ParentOf(c, q, source).value;
    && (Compatible(c, q, p, source, before) ==>
          && Compatible(c, q, p, source, after)
          && (r.Failure? ==> r.error == Transport)
          && (r.Success? ==> Complete(c, q, p, source, after)
                             && PointerIn(c, q.destination.dataset, after) == Some(r.value)))
    && (Complete(c, q, p, source, before) ==> after == before)
  }
}
