/** flowdocs/core/recovery_snapshot.py: a snapshot by two scans around a database backup
    and a copy, taken while the source changes between any two observations. */
module Snapshot {
  import opened Common
  import opened SourceTree
  import opened Text

  const READ_CHUNK: nat := 1024 * 1024

  datatype Error =
    SourceMutated | PathUnsafe | FileUnsafe | CaptureFailed | ResumeInvalid | DatabaseFailed | DatabaseUnsound

  datatype Record = Record(path: Path, stamp: Stamp)

  datatype Copied = Copied(path: Path, data: Bytes)

  /** The live source.  past is every state it has been in, the present last. */
  class Source {
    var tree: Tree
    var database: Bytes
    ghost var past: seq<World>

    ghost predicate Valid() reads this {
      IsPast(past) && past[|past| - 1] == World(tree, database)
    }

    ghost function Now(): nat reads this requires Valid() { |past| - 1 }

    /** Any number of mutations by others: callers know no more than this contract. */
    method Others()
      requires Valid()
      modifies this
      ensures Valid() && old(past) <= past
    {
    }

    /** rglob: a walk that takes time.  It may miss only what was absent for a while. */
    method Walk(category: string) returns (paths: seq<Path>)
      requires Valid()
      modifies this
      ensures Valid() && old(past) <= past
      ensures forall p :: p in paths ==> p.category == category
      ensures forall i, j :: 0 <= i < j < |paths| ==> paths[i] != paths[j]
      ensures forall p: Path :: p.category == category && p !in paths ==>
                exists k :: |old(past)| - 1 <= k < |past| && p !in past[k].tree
    {
      Others();
      paths := [];
      var todo := set p | p in tree && p.category == category;
      while todo != {}
        invariant forall p :: p in paths ==> p.category == category && p !in todo
        invariant forall i, j :: 0 <= i < j < |paths| ==> paths[i] != paths[j]
        invariant forall p: Path :: p.category == category && p in tree ==> p in todo || p in paths
        invariant forall p :: p in todo ==> p.category == category
        decreases |todo|
      {
        var p :| p in todo;
        paths := paths + [p];
        todo := todo - {p};
      }
    }

    /** is_symlink, is_file and stat, one observation each. */
    method Observe(p: Path) returns (e: Option<Entry>)
      requires Valid()
      modifies this
      ensures Valid() && old(past) <= past
      ensures e == if p in tree then Some(tree[p]) else None
    {
      Others();
      e := if p in tree then Some(tree[p]) else None;
    }

    /** One read through a descriptor that was opened on the file with stamp s: while that
        file is still there it yields the next bytes of it, otherwise anything. */
    method ReadChunk(p: Path, s: Stamp, offset: nat) returns (chunk: Bytes)
      requires Valid()
      modifies this
      ensures Valid() && old(past) <= past && |chunk| <= READ_CHUNK
      ensures HasStamp(past[Now()], p, s) ==>
                chunk == Slice(tree[p].data, offset)
    {
      Others();
      if p in tree && tree[p].Regular? && tree[p].stamp == s {
        chunk := Slice(tree[p].data, offset);
      } else {
        chunk := *;
        chunk := chunk[..Min(|chunk|, READ_CHUNK)];
      }
    }

    /** sqlite3's backup: a consistent image of the database at one instant. */
    method Backup() returns (image: Bytes)
      requires Valid()
      modifies this
      ensures Valid() && old(past) <= past && image == past[Now()].database
    {
      Others();
      image := database;
    }
  }

  function Slice(data: Bytes, offset: nat): Bytes {
    if offset >= |data| then [] else data[offset..Min(offset + READ_CHUNK, |data|)]
  }

  // ---------------------------------------------------------------- scanning

  predicate Plain(w: World, p: Path) { p in w.tree && w.tree[p].Regular? && w.tree[p].links == 1 }

  /** At some moment from a to b, the path had this stamp and one link. */
  ghost predicate Seen(past: seq<World>, a: nat, b: nat, r: Record) {
    exists k :: a <= k <= b && k < |past| && HasStamp(past[k], r.path, r.stamp) && Plain(past[k], r.path)
  }

  predicate IsFile(w: World, p: Path) { p in w.tree && w.tree[p].Regular? }

  /** At some moment from a to b, the path was no regular file. */
  ghost predicate Missing(past: seq<World>, a: nat, b: nat, p: Path) {
    exists k :: a <= k <= b && k < |past| && !IsFile(past[k], p)
  }

  predicate Lists(records: seq<Record>, p: Path) { exists r :: r in records && r.path == p }

  /** What a scan has established: every record was seen, and every listed path without a
      record was missing. */
  ghost predicate ScanFacts(past: seq<World>, a: nat, b: nat, records: seq<Record>, paths: iset<Path>) {
    && (forall r :: r in records ==> r.path in paths && Seen(past, a, b, r))
    && (forall p :: p in paths && !Lists(records, p) ==> Missing(past, a, b, p))
  }

  lemma ScanFactsLater(past: seq<World>, more: seq<World>, a: nat, b: nat, c: nat, records: seq<Record>,
                       paths: iset<Path>)
    requires past <= more && ScanFacts(past, a, b, records, paths) && b <= c
    ensures ScanFacts(more, a, c, records, paths)
  {
    forall r | r in records ensures Seen(more, a, c, r) {
      var k :| a <= k <= b && k < |past| && HasStamp(past[k], r.path, r.stamp) && Plain(past[k], r.path);
      assert more[k] == past[k];
    }
    forall p | p in paths && !Lists(records, p) ensures Missing(more, a, c, p) {
      var k :| a <= k <= b && k < |past| && !IsFile(past[k], p);
      assert more[k] == past[k];
    }
  }

  lemma ScanFactsEarlier(past: seq<World>, a: nat, m: nat, b: nat, records: seq<Record>, paths: iset<Path>)
    requires ScanFacts(past, a, b, records, paths) && m <= a
    ensures ScanFacts(past, m, b, records, paths)
  {
  }

  lemma ScanFactsJoin(past: seq<World>, a: nat, m: nat, b: nat, records: seq<Record>, paths: iset<Path>,
                      more: seq<Record>, others: iset<Path>)
    requires ScanFacts(past, a, b, records, paths) && ScanFacts(past, m, b, more, others) && a <= m && paths !! others
    ensures ScanFacts(past, a, b, records + more, paths + others)
  {
    forall r | r in records + more ensures r.path in paths + others && Seen(past, a, b, r) { }
    forall p | p in paths + others && !Lists(records + more, p) ensures Missing(past, a, b, p) {
      assert forall r :: r in records ==> r in records + more;
      assert forall r :: r in more ==> r in records + more;
      assert !Lists(records, p) && !Lists(more, p);
    }
  }

  ghost function Listed(paths: seq<Path>): iset<Path> { iset p: Path | p in paths }

  ghost function Under(category: string): iset<Path> { iset p: Path | p.category == category }

  ghost function UnderAll(categories: seq<string>): iset<Path> { iset p: Path | p.category in categories }

  function Found(r: Option<Record>): seq<Record> { if r.Some? then [r.value] else [] }

  lemma NothingScanned(past: seq<World>, a: nat, b: nat, p: Path)
    requires a <= b < |past| && !IsFile(past[b], p)
    ensures ScanFacts(past, a, b, [], Listed([p]))
  {
  }

  lemma OneScanned(past: seq<World>, a: nat, b: nat, r: Record)
    requires a <= b < |past| && HasStamp(past[b], r.path, r.stamp) && Plain(past[b], r.path)
    ensures ScanFacts(past, a, b, [r], Listed([r.path]))
  {
    assert r in [r];
  }

  /** The stat of the scan loop, and the record of what it shows. */
  method StatFile(source: Source, p: Path) returns (r: Result<Option<Record>, Error>)
    requires source.Valid()
    modifies source
    ensures source.Valid() && old(source.past) <= source.past
    ensures r.Success? ==> ScanFacts(source.past, source.Now(), source.Now(), Found(r.value), Listed([p]))
    ensures r.Failure? ==> r.error == SourceMutated || r.error == FileUnsafe
  {
    var e := source.Observe(p);
    if e.None? { return Failure(SourceMutated); }
    if !e.value.Regular? || e.value.links != 1 { return Failure(FileUnsafe); }
    OneScanned(source.past, source.Now(), source.Now(), Record(p, e.value.stamp));
    return Success(Some(Record(p, e.value.stamp)));
  }

  /** The body of the scan loop, for one path of the walk. */
  method ScanFile(source: Source, p: Path) returns (r: Result<Option<Record>, Error>)
    requires source.Valid()
    modifies source
    ensures source.Valid() && old(source.past) <= source.past
    ensures r.Success? ==>
              ScanFacts(source.past, old(source.Now()), source.Now(), Found(r.value), Listed([p]))
    ensures r.Failure? ==> r.error == PathUnsafe || r.error == SourceMutated || r.error == FileUnsafe
  {
    var e := source.Observe(p);
    if e.Some? && e.value.Symlink? { return Failure(PathUnsafe); }
    e := source.Observe(p);
    var followed: bool := *;
    if !(e.Some? && (e.value.Regular? || (e.value.Symlink? && followed))) {
      NothingScanned(source.past, source.Now(), source.Now(), p);
      r := Success(None);
    } else {
      r := StatFile(source, p);
    }
    if r.Success? {
      ScanFactsEarlier(source.past, source.Now(), old(source.Now()), source.Now(), Found(r.value), Listed([p]));
    }
  }

  method ScanRoot(source: Source, category: string) returns (r: Result<seq<Record>, Error>)
    requires source.Valid()
    modifies source
    ensures source.Valid() && old(source.past) <= source.past
    ensures r.Success? ==> ScanFacts(source.past, old(source.Now()), source.Now(), r.value, Under(category))
    ensures r.Failure? ==> r.error == PathUnsafe || r.error == SourceMutated || r.error == FileUnsafe
  {
    ghost var start := source.Now();
    var paths := source.Walk(category);
    var records: seq<Record> := [];
    ghost var walked := source.past;
    ghost var absent := Under(category) - Listed(paths);
    assert ScanFacts(source.past, start, source.Now(), records, absent) by {
      forall p | p in absent ensures Missing(source.past, start, source.Now(), p) { }
    }
    for i := 0 to |paths|
      invariant source.Valid() && old(source.past) <= source.past
      invariant ScanFacts(source.past, start, source.Now(), records, absent + Listed(paths[..i]))
    {
      ghost var before, middle := source.past, source.Now();
      ghost var done := absent + Listed(paths[..i]);
      var record := ScanFile(source, paths[i]);
      if record.Failure? { return Failure(record.error); }
      ScanFactsLater(before, source.past, start, middle, source.Now(), records, done);
      ghost var added := Found(record.value);
      assert paths[i] !in done;
      ScanFactsJoin(source.past, start, middle, source.Now(), records, done, added, Listed([paths[i]]));
      records := records + Found(record.value);
      assert paths[..i + 1] == paths[..i] + [paths[i]];
      assert done + Listed([paths[i]]) == absent + Listed(paths[..i + 1]);
    }
    assert paths[..|paths|] == paths;
    assert absent + Listed(paths) == Under(category);
    r := Success(records);
  }

  /** _scan_sources: the roots one after the other. */
  method ScanSources(source: Source, categories: seq<string>) returns (r: Result<seq<Record>, Error>)
    requires source.Valid()
    requires forall i, j :: 0 <= i < j < |categories| ==> categories[i] != categories[j]
    modifies source
    ensures source.Valid() && old(source.past) <= source.past
    ensures r.Success? ==> ScanFacts(source.past, old(source.Now()), source.Now(), r.value, UnderAll(categories))
    ensures r.Failure? ==> r.error == PathUnsafe || r.error == SourceMutated || r.error == FileUnsafe
  {
    ghost var start := source.Now();
    var records: seq<Record> := [];
    for i := 0 to |categories|
      invariant source.Valid() && old(source.past) <= source.past
      invariant ScanFacts(source.past, start, source.Now(), records, UnderAll(categories[..i]))
    {
      ghost var before, middle := source.past, source.Now();
      ghost var done := UnderAll(categories[..i]);
      var more := ScanRoot(source, categories[i]);
      if more.Failure? { return more; }
      ScanFactsLater(before, source.past, start, middle, source.Now(), records, done);
      ScanFactsJoin(source.past, start, middle, source.Now(), records, done, more.value, Under(categories[i]));
      records := records + more.value;
      assert categories[..i + 1] == categories[..i] + [categories[i]];
      assert done + Under(categories[i]) == UnderAll(categories[..i + 1]);
    }
    assert categories[..|categories|] == categories;
    r := Success(records);
  }

  // ---------------------------------------------------------------- copying

  /** At some moment from a to b the file had the record's stamp and these bytes. */
  ghost predicate CopiedAt(past: seq<World>, a: nat, b: nat, r: Record, c: Copied) {
    c.path == r.path
    && exists k ::
         a <= k <= b && k < |past| && HasStamp(past[k], r.path, r.stamp) && past[k].tree[r.path].data == c.data
  }

  lemma CopiedAtLater(past: seq<World>, more: seq<World>, a: nat, b: nat, m: nat, d: nat, r: Record, c: Copied)
    requires past <= more && CopiedAt(past, a, b, r, c) && m <= a && b <= d
    ensures CopiedAt(more, m, d, r, c)
  {
    var k :| a <= k <= b && k < |past| && HasStamp(past[k], r.path, r.stamp) && past[k].tree[r.path].data == c.data;
    assert more[k] == past[k];
  }

  /** What the reads through a descriptor have collected, if the file is still the one that
      was opened at moment k. */
  ghost predicate Collected(past: seq<World>, k: nat, r: Record, data: Bytes)
    requires k < |past| && HasStamp(past[k], r.path, r.stamp)
  {
    HasStamp(past[|past| - 1], r.path, r.stamp) ==> data <= past[k].tree[r.path].data
  }

  lemma CollectsMore(past: seq<World>, more: seq<World>, k: nat, r: Record, data: Bytes, chunk: Bytes)
    requires IsPast(more) && 0 < |past| && past <= more && k < |past|
    requires HasStamp(past[k], r.path, r.stamp) && Collected(past, k, r, data)
    requires var last := more[|more| - 1];
             HasStamp(last, r.path, r.stamp) ==> chunk == Slice(last.tree[r.path].data, |data|)
    ensures Collected(more, k, r, data + chunk)
  {
    assert more[k] == past[k];
    if HasStamp(more[|more| - 1], r.path, r.stamp) {
      FreshStampsPin(more, k, |more| - 1, r.path, r.stamp);
      assert more[|past| - 1].tree[r.path] == more[k].tree[r.path];
      assert HasStamp(past[|past| - 1], r.path, r.stamp);
    }
  }

  /** The reads through a descriptor opened at moment k, up to the empty one.  A loop that is
      still running after `limit` chunks is cut off. */
  method ReadAll(source: Source, r: Record, limit: nat, ghost k: nat) returns (data: Option<Bytes>)
    requires source.Valid() && k < |source.past| && HasStamp(source.past[k], r.path, r.stamp)
    requires Collected(source.past, k, r, [])
    modifies source
    ensures source.Valid() && old(source.past) <= source.past
    ensures data.Some? ==> Collected(source.past, k, r, data.value)
  {
    var collected: Bytes := [];
    for i := 0 to limit
      invariant source.Valid() && old(source.past) <= source.past
      invariant Collected(source.past, k, r, collected)
    {
      ghost var past := source.past;
      var chunk := source.ReadChunk(r.path, r.stamp, |collected|);
      CollectsMore(past, source.past, k, r, collected, chunk);
      collected := collected + chunk;
      if chunk == [] { return Some(collected); }
    }
    data := None;
  }

  lemma CollectedAll(past: seq<World>, more: seq<World>, k: nat, r: Record, data: Bytes)
    requires IsPast(more) && 0 < |past| && past <= more && k < |past|
    requires HasStamp(past[k], r.path, r.stamp) && Collected(past, k, r, data)
    requires HasStamp(more[|more| - 1], r.path, r.stamp) && |data| == r.stamp.size
    ensures more[k] == past[k] && past[k].tree[r.path].data == data
  {
    assert more[k] == past[k];
    FreshStampsPin(more, k, |more| - 1, r.path, r.stamp);
    assert HasStamp(more[|past| - 1], r.path, r.stamp);
  }

  /** The copy of the file that was opened at moment k, and the stat after it. */
  method CopyOpened(source: Source, r: Record, limit: nat, ghost k: nat) returns (c: Result<Copied, Error>)
    requires source.Valid() && k == source.Now() && HasStamp(source.past[k], r.path, r.stamp)
    modifies source
    ensures source.Valid() && old(source.past) <= source.past
    ensures c.Success? ==> c.value == Copied(r.path, source.past[k].tree[r.path].data)
    ensures c.Failure? ==> c.error == SourceMutated || c.error == CaptureFailed
  {
    var data := ReadAll(source, r, limit, k);
    if data.None? { return Failure(CaptureFailed); }
    ghost var past := source.past;
    var after := source.Observe(r.path);
    if after.None? { return Failure(CaptureFailed); }
    if !(after.value.Regular? && after.value.stamp == r.stamp && |data.value| == r.stamp.size) {
      return Failure(SourceMutated);
    }
    CollectedAll(past, source.past, k, r, data.value);
    return Success(Copied(r.path, data.value));
  }

  /** One iteration of _copy_scanned_files. */
  method CopyFile(source: Source, r: Record, limit: nat) returns (c: Result<Copied, Error>)
    requires source.Valid()
    modifies source
    ensures source.Valid() && old(source.past) <= source.past
    ensures c.Success? ==> CopiedAt(source.past, old(source.Now()), source.Now(), r, c.value)
    ensures c.Failure? ==> c.error == SourceMutated || c.error == FileUnsafe || c.error == CaptureFailed
  {
    var before := source.Observe(r.path);
    if before.None? || before.value.Symlink? { return Failure(SourceMutated); }
    if !before.value.Regular? || before.value.links != 1 { return Failure(FileUnsafe); }
    if before.value.stamp != r.stamp { return Failure(SourceMutated); }
    c := CopyOpened(source, r, limit, source.Now());
  }

  /** The files of a workspace by the parts of their paths. */
  type Files = map<seq<string>, Bytes>

  /** How the evidence names a copied file. */
  function Key(p: Path): string { p.category + "/" + p.relative }

  /** Where it lies inside the workspace. */
  function Place(p: Path): seq<string> { Parts(Key(p)) }

  const DATABASE := "db.sqlite3"

  function JustDatabase(image: Bytes): Files { map[Parts(DATABASE) := image] }

  /** A file is there, or a directory, or a file where a directory would have to be. */
  predicate Taken(files: Files, place: seq<string>) { exists k :: k in files && (k <= place || place <= k) }

  /** No file lies below another. */
  predicate TreeLike(files: Files) { forall k, l :: k in files && l in files && k <= l ==> k == l }

  /** The whole workspace content that copying has written so far. */
  ghost predicate Wrote(start: Files, files: Files, copied: seq<Copied>) {
    && (forall i, j :: 0 <= i < j < |copied| ==> Place(copied[i].path) != Place(copied[j].path))
    && (forall c :: c in copied ==> Place(c.path) !in start && Place(c.path) in files && files[Place(c.path)] == c.data)
    && (forall k :: k in start ==> k in files && files[k] == start[k])
    && (forall k :: k in files && k !in start ==> exists c :: c in copied && Place(c.path) == k)
  }

  lemma WroteOne(start: Files, files: Files, copied: seq<Copied>, c: Copied)
    requires Wrote(start, files, copied) && Place(c.path) !in files
    ensures Wrote(start, files[Place(c.path) := c.data], copied + [c])
  {
  }

  lemma TreeLikeOne(files: Files, place: seq<string>, data: Bytes)
    requires TreeLike(files) && !Taken(files, place)
    ensures TreeLike(files[place := data])
  {
    var more := files[place := data];
    forall k, l | k in more && l in more && k <= l ensures k == l {
      if k in files && l in files { assert k == l; }
    }
  }

  /** The first records have been copied between start and now. */
  ghost predicate CopiedFirst(past: seq<World>, start: nat, records: seq<Record>, copied: seq<Copied>) {
    && |past| > 0 && |copied| <= |records|
    && forall i :: 0 <= i < |copied| ==> CopiedAt(past, start, |past| - 1, records[i], copied[i])
  }

  lemma CopiedOne(past: seq<World>, more: seq<World>, start: nat, records: seq<Record>, copied: seq<Copied>, c: Copied)
    requires past <= more && CopiedFirst(past, start, records, copied) && |copied| < |records|
    requires start < |past| && CopiedAt(more, |past| - 1, |more| - 1, records[|copied|], c)
    ensures CopiedFirst(more, start, records, copied + [c])
  {
    forall i | 0 <= i < |copied| ensures CopiedAt(more, start, |more| - 1, records[i], copied[i]) {
      CopiedAtLater(past, more, start, |past| - 1, start, |more| - 1, records[i], copied[i]);
    }
    CopiedAtLater(more, more, |past| - 1, |more| - 1, start, |more| - 1, records[|copied|], c);
  }

  /** _copy_scanned_files, with the exclusive creation of every target. */
  method CopyScannedFiles(source: Source, records: seq<Record>, start: Files, limit: nat)
    returns (r: Result<Files, Error>, copied: seq<Copied>)
    requires source.Valid() && TreeLike(start)
    modifies source
    ensures source.Valid() && old(source.past) <= source.past
    ensures r.Success? ==>
              && |copied| == |records| && CopiedFirst(source.past, old(source.Now()), records, copied)
              && Wrote(start, r.value, copied) && TreeLike(r.value)
    ensures r.Failure? ==> r.error == SourceMutated || r.error == FileUnsafe || r.error == CaptureFailed
  {
    var files := start;
    copied := [];
    for i := 0 to |records|
      invariant source.Valid() && old(source.past) <= source.past
      invariant |copied| == i && Wrote(start, files, copied) && TreeLike(files)
      invariant CopiedFirst(source.past, old(source.Now()), records, copied)
    {
      ghost var past := source.past;
      var c := CopyFile(source, records[i], limit);
      if c.Failure? { return Failure(c.error), copied; }
      CopiedOne(past, source.past, old(source.Now()), records, copied, c.value);
      var place := Place(c.value.path);
      if Taken(files, place) { return Failure(CaptureFailed), copied; }
      WroteOne(start, files, copied, c.value);
      TreeLikeOne(files, place, c.value.data);
      files := files[place := c.value.data];
      copied := copied + [c.value];
    }
    r := Success(files);
  }

  // ---------------------------------------------------------------- one attempt

  /** From a to b the file was there with these bytes. */
  ghost predicate Held(past: seq<World>, a: nat, b: nat, c: Copied) {
    forall k :: a <= k <= b && k < |past| ==>
      c.path in past[k].tree && past[k].tree[c.path].Regular? && past[k].tree[c.path].data == c.data
  }

  predicate Captured(copied: seq<Copied>, p: Path) { exists c :: c in copied && c.path == p }

  /** The window from a to b of a capture that ran from start to end. */
  ghost predicate Window(past: seq<World>, start: nat, a: nat, at: nat, b: nat, end: nat,
                         categories: seq<string>, copied: seq<Copied>, image: Bytes)
  {
    && start <= a <= at <= b <= end < |past|
    && image == past[at].database
    && (forall c :: c in copied ==> c.path.category in categories && Held(past, a, b, c))
    && (forall p: Path :: p.category in categories && !Captured(copied, p) ==>
          Missing(past, start, a, p) && Missing(past, b, end, p))
  }

  ghost predicate Consistent(past: seq<World>, start: nat, end: nat, categories: seq<string>,
                             copied: seq<Copied>, image: Bytes)
  {
    exists a, at, b :: Window(past, start, a, at, b, end, categories, copied, image)
  }

  lemma ConsistentEarlier(past: seq<World>, start: nat, earlier: nat, end: nat, categories: seq<string>,
                          copied: seq<Copied>, image: Bytes)
    requires Consistent(past, start, end, categories, copied, image) && earlier <= start
    ensures Consistent(past, earlier, end, categories, copied, image)
  {
    var a, at, b :| Window(past, start, a, at, b, end, categories, copied, image);
    assert Window(past, earlier, a, at, b, end, categories, copied, image);
  }

  lemma TwoScansHold(past: seq<World>, start: nat, a: nat, b: nat, end: nat, r: Record, c: Copied)
    requires IsPast(past) && Seen(past, start, a, r) && Seen(past, b, end, r) && CopiedAt(past, a, b, r, c)
    ensures Held(past, a, b, c)
  {
    var i :| start <= i <= a && i < |past| && HasStamp(past[i], r.path, r.stamp) && Plain(past[i], r.path);
    var j :| b <= j <= end && j < |past| && HasStamp(past[j], r.path, r.stamp) && Plain(past[j], r.path);
    var m :| a <= m <= b && m < |past| && HasStamp(past[m], r.path, r.stamp) && past[m].tree[r.path].data == c.data;
    FreshStampsPin(past, i, j, r.path, r.stamp);
  }

  lemma AllCaptured(past: seq<World>, a: nat, b: nat, records: seq<Record>, copied: seq<Copied>)
    requires |copied| == |records|
    requires forall i :: 0 <= i < |records| ==> CopiedAt(past, a, b, records[i], copied[i])
    ensures forall p :: Lists(records, p) ==> Captured(copied, p)
  {
    forall i | 0 <= i < |records| ensures Captured(copied, records[i].path) {
      assert CopiedAt(past, a, b, records[i], copied[i]) && copied[i] in copied;
    }
  }

  lemma TwoScansAgree(past: seq<World>, start: nat, a: nat, at: nat, b: nat, end: nat,
                      categories: seq<string>, records: seq<Record>, copied: seq<Copied>)
    requires IsPast(past) && start <= a <= at <= b <= end < |past|
    requires ScanFacts(past, start, a, records, UnderAll(categories))
    requires ScanFacts(past, b, end, records, UnderAll(categories))
    requires |copied| == |records|
    requires forall i :: 0 <= i < |records| ==> CopiedAt(past, a, b, records[i], copied[i])
    ensures Window(past, start, a, at, b, end, categories, copied, past[at].database)
  {
    forall c | c in copied ensures c.path.category in categories && Held(past, a, b, c) {
      var i :| 0 <= i < |copied| && copied[i] == c;
      assert records[i] in records;
      TwoScansHold(past, start, a, b, end, records[i], c);
    }
    AllCaptured(past, a, b, records, copied);
  }

  /** Between two moments p was created and removed again, seen by its absence at three. */
  ghost predicate VisitsIn(past: seq<World>, start: nat, end: nat, p: Path) {
    exists i, j, k ::
      && start <= i < j < k <= end && k < |past|
      && !IsFile(past[i], p) && IsFile(past[j], p) && !IsFile(past[k], p)
  }

  /** A file of the image that is not captured came and went during the run. */
  lemma UncapturedVisits(past: seq<World>, start: nat, a: nat, at: nat, b: nat, end: nat,
                         categories: seq<string>, copied: seq<Copied>, image: Bytes, p: Path)
    requires Window(past, start, a, at, b, end, categories, copied, image) && p.category in categories
    ensures !Captured(copied, p) && IsFile(past[at], p) ==> VisitsIn(past, start, end, p)
  {
    if !Captured(copied, p) && IsFile(past[at], p) {
      assert Missing(past, start, a, p) && Missing(past, b, end, p);
      var i :| start <= i <= a && i < |past| && !IsFile(past[i], p);
      var k :| b <= k <= end && k < |past| && !IsFile(past[k], p);
      assert VisitsIn(past, start, end, p);
    }
  }

  /** Without a path that is created and removed again during the run, the capture is exactly
      the file set at the instant of the database image. */
  lemma CaptureIsExact(past: seq<World>, start: nat, a: nat, at: nat, b: nat, end: nat,
                       categories: seq<string>, copied: seq<Copied>, image: Bytes, p: Path)
    requires Window(past, start, a, at, b, end, categories, copied, image)
    requires p.category in categories && !VisitsIn(past, start, end, p)
    ensures IsFile(past[at], p) <==> Captured(copied, p)
  {
    UncapturedVisits(past, start, a, at, b, end, categories, copied, image, p);
  }

  function Visited(p: Path, image: Bytes): World { World(map[p := Regular(Stamp(0, 0, 0), 1, [])], image) }

  lemma VisitIsPast(p: Path, image: Bytes)
    ensures var e := World(map[], image); IsPast([e, Visited(p, image), e])
  {
    var e, v := World(map[], image), Visited(p, image);
    var two, three := [e, v], [e, v, e];
    assert two[..1] == [e] && three[..2] == two;
    assert MutatesAt([e], v, p);
    assert MutatesAt(two, e, p);
    assert IsPast([e]) && IsPast(two);
  }

  lemma AbsentIsMissing(past: seq<World>, k: nat, p: Path)
    requires k < |past| && past[k].tree == map[]
    ensures Missing(past, k, k, p)
  {
  }

  /** And with one it need not be: the visitor is in no scan, but was there with the image. */
  lemma VisitorEscapes(p: Path, image: Bytes)
    ensures exists past ::
              && IsPast(past) && Window(past, 0, 0, 1, 2, 2, [p.category], [], image) && IsFile(past[1], p)
  {
    var e := World(map[], image);
    var past := [e, Visited(p, image), e];
    VisitIsPast(p, image);
    forall q ensures Missing(past, 0, 0, q) && Missing(past, 2, 2, q) {
      AbsentIsMissing(past, 0, q);
      AbsentIsMissing(past, 2, q);
    }
    assert Window(past, 0, 0, 1, 2, 2, [p.category], [], image) && IsFile(past[1], p);
  }

  // ---------------------------------------------------------------- evidence

  datatype FileRecord = FileRecord(path: string, size: nat, sha256: string)

  datatype Evidence = Evidence(
    snapshotId: string, includedEpoch: int, attempt: nat, databaseSha: string, configurationSha: string,
    files: seq<FileRecord>)

  /** The digest and the canonical encoding, of which only injectivity is ever used. */
  datatype Digests = Digests(sha256: Bytes -> string, canonical: Evidence -> Bytes) {
    ghost predicate Injective() {
      && (forall x, y :: sha256(x) == sha256(y) ==> x == y)
      && (forall x, y :: canonical(x) == canonical(y) ==> x == y)
    }

    function Describe(path: string, data: Bytes): FileRecord { FileRecord(path, |data|, sha256(data)) }

    function Sign(e: Evidence): string { sha256(canonical(e)) }
  }

  datatype Workspace = Workspace(files: Files, evidence: Evidence, declared: string)

  datatype Snapshot = Snapshot(
    publicId: string, includedEpoch: int, evidenceSha: string, databaseSha: string, configurationSha: string)

  function Listing(d: Digests, copied: seq<Copied>): seq<FileRecord> {
    seq(|copied|, i requires 0 <= i < |copied| => d.Describe(Key(copied[i].path), copied[i].data))
  }

  predicate Escapes(path: string) { Absolute(path) || ".." in Parts(path) }

  /** The path leads to a file inside, which is as described.  The empty path leads to the
      workspace itself. */
  predicate Matches(d: Digests, files: Files, r: FileRecord) {
    var place := Parts(r.path);
    !Escapes(r.path) && place != [] && place in files && r == d.Describe(r.path, files[place])
  }

  ghost predicate Intact(d: Digests, w: Workspace, id: string) {
    && w.evidence.snapshotId == id
    && w.evidence.files != []
    && (forall r :: r in w.evidence.files ==> Matches(d, w.files, r))
    && w.declared == d.Sign(w.evidence)
  }

  /** verify_consistency_snapshot. */
  method VerifySnapshot(d: Digests, w: Workspace, id: string) returns (r: Result<Snapshot, Error>)
    ensures r.Success? <==> Intact(d, w, id)
    ensures r.Success? ==> r.value == Snapshot(id, w.evidence.includedEpoch, w.declared, w.evidence.databaseSha,
                                               w.evidence.configurationSha)
    ensures r.Failure? ==> r.error == ResumeInvalid
  {
    if w.evidence.snapshotId != id { return Failure(ResumeInvalid); }
    if w.evidence.files == [] { return Failure(ResumeInvalid); }
    for i := 0 to |w.evidence.files|
      invariant forall j :: 0 <= j < i ==> Matches(d, w.files, w.evidence.files[j])
    {
      if !Matches(d, w.files, w.evidence.files[i]) { return Failure(ResumeInvalid); }
    }
    var sha := d.Sign(w.evidence);
    if sha != w.declared { return Failure(ResumeInvalid); }
    r := Success(Snapshot(id, w.evidence.includedEpoch, sha, w.evidence.databaseSha, w.evidence.configurationSha));
  }

  /** The evidence digest a snapshot carries determines every listed file of the workspace. */
  lemma DigestDeterminesFiles(d: Digests, v: Workspace, w: Workspace, id: string, r: FileRecord)
    requires d.Injective() && Intact(d, v, id) && Intact(d, w, id) && v.declared == w.declared
    requires r in v.evidence.files
    ensures v.evidence == w.evidence && v.files[Parts(r.path)] == w.files[Parts(r.path)]
  {
    assert Matches(d, v.files, r) && Matches(d, w.files, r);
  }

  // ---------------------------------------------------------------- capture

  /** The published workspace holds the database image and the copied files, nothing else,
      and its evidence describes exactly these. */
  ghost predicate Publishes(d: Digests, w: Workspace, id: string, copied: seq<Copied>, image: Bytes) {
    && Wrote(JustDatabase(image), w.files, copied) && TreeLike(w.files)
    && w.evidence.snapshotId == id
    && w.evidence.databaseSha == d.sha256(image)
    && w.evidence.files == [d.Describe(DATABASE, image)] + Listing(d, copied)
    && w.declared == d.Sign(w.evidence)
  }

  lemma DatabaseStaysInside()
    ensures !Escapes(DATABASE) && Parts(DATABASE) == [DATABASE]
  {
    assert DATABASE == ['d', 'b', '.', 's', 'q', 'l', 'i', 't', 'e', '3'];
    PartsOfName(DATABASE);
  }

  /** Nothing is copied over the workspace itself. */
  lemma PlacedInside(image: Bytes, files: Files, copied: seq<Copied>, c: Copied)
    requires Wrote(JustDatabase(image), files, copied) && TreeLike(files) && c in copied
    ensures Place(c.path) != []
  {
    DatabaseStaysInside();
    assert Parts(DATABASE) in JustDatabase(image);
    assert [] <= Parts(DATABASE) && Parts(DATABASE) != [];
  }

  lemma Described(d: Digests, copied: seq<Copied>, r: FileRecord)
    ensures r in Listing(d, copied) <==> exists c :: c in copied && r == d.Describe(Key(c.path), c.data)
  {
    var listing := Listing(d, copied);
    if r in listing {
      var i :| 0 <= i < |listing| && listing[i] == r;
      assert copied[i] in copied;
    }
    if c :| c in copied && r == d.Describe(Key(c.path), c.data) {
      var i :| 0 <= i < |copied| && copied[i] == c;
      assert listing[i] == r;
    }
  }

  /** A fresh workspace fails its own verification only by the name of a category. */
  lemma PublishedIsIntact(d: Digests, w: Workspace, id: string, copied: seq<Copied>, image: Bytes)
    requires Publishes(d, w, id, copied, image)
    ensures Intact(d, w, id) <==> forall c :: c in copied ==> !Escapes(Key(c.path))
  {
    var first := d.Describe(DATABASE, image);
    assert Matches(d, w.files, first) by {
      assert Parts(DATABASE) in JustDatabase(image);
      DatabaseStaysInside();
    }
    forall c | c in copied
      ensures var r := d.Describe(Key(c.path), c.data);
              r in w.evidence.files && (Matches(d, w.files, r) <==> !Escapes(Key(c.path)))
    {
      Described(d, copied, d.Describe(Key(c.path), c.data));
      PlacedInside(image, w.files, copied, c);
    }
    forall r | r in w.evidence.files && r != first
      ensures exists c :: c in copied && r == d.Describe(Key(c.path), c.data)
    {
      Described(d, copied, r);
    }
  }

  /** _snapshot_sqlite: the checks of the copy may fail. */
  method SnapshotDatabase(source: Source) returns (r: Result<Bytes, Error>)
    requires source.Valid()
    modifies source
    ensures source.Valid() && old(source.past) <= source.past
    ensures r.Success? ==> r.value == source.past[source.Now()].database
    ensures r.Failure? ==> r.error == DatabaseFailed || r.error == DatabaseUnsound
  {
    var failed: bool, unsound: bool := *, *;
    if failed { return Failure(DatabaseFailed); }
    var image := source.Backup();
    r := if unsound then Failure(DatabaseUnsound) else Success(image);
  }

  /** One pass of the retry loop, up to the publication of the workspace. */
  method Attempt(d: Digests, source: Source, categories: seq<string>, id: string, configurationSha: string,
                 attempt: nat, limit: nat)
    returns (r: Result<Workspace, Error>, ghost copied: seq<Copied>, ghost image: Bytes)
    requires source.Valid()
    requires forall i, j :: 0 <= i < j < |categories| ==> categories[i] != categories[j]
    modifies source
    ensures source.Valid() && old(source.past) <= source.past
    ensures r.Success? ==>
              && Consistent(source.past, old(source.Now()), source.Now(), categories, copied, image)
              && Publishes(d, r.value, id, copied, image)
              && r.value.evidence.attempt == attempt && r.value.evidence.configurationSha == configurationSha
    ensures r.Failure? ==> r.error != ResumeInvalid
  {
    copied, image := [], [];
    ghost var start := source.Now();
    var before := ScanSources(source, categories);
    if before.Failure? { return Failure(before.error), copied, image; }
    ghost var first, a := source.past, source.Now();
    var backup := SnapshotDatabase(source);
    if backup.Failure? { return Failure(backup.error), copied, image; }
    image := backup.value;
    ghost var at := source.Now();
    var files, all := CopyScannedFiles(source, before.value, JustDatabase(backup.value), limit);
    if files.Failure? { return Failure(files.error), copied, image; }
    copied := all;
    ghost var third, b := source.past, source.Now();
    var after := ScanSources(source, categories);
    if after.Failure? { return Failure(after.error), copied, image; }
    if before.value != after.value { return Failure(SourceMutated), copied, image; }
    ghost var end := source.Now();
    ScanFactsLater(first, source.past, start, a, a, before.value, UnderAll(categories));
    forall i | 0 <= i < |all| ensures CopiedAt(source.past, a, b, before.value[i], all[i]) {
      CopiedAtLater(third, source.past, at, b, a, b, before.value[i], all[i]);
    }
    TwoScansAgree(source.past, start, a, at, b, end, categories, before.value, all);
    assert Consistent(source.past, start, end, categories, copied, image);
    var epoch: int := *;
    var evidence := Evidence(id, epoch, attempt, d.sha256(backup.value), configurationSha,
                             [d.Describe(DATABASE, backup.value)] + Listing(d, all));
    r := Success(Workspace(files.value, evidence, d.Sign(evidence)));
  }

  predicate Retryable(e: Error) { e.SourceMutated? || e.CaptureFailed? || e.DatabaseFailed? }

  /** The directory final: what earlier captures under this snapshot id have published. */
  class Published {
    var final: Option<Workspace>
    constructor () ensures final == None { final := None; }
  }

  /** capture_consistency_snapshot. */
  method Capture(d: Digests, source: Source, target: Published, categories: seq<string>, id: string,
                 configurationSha: string, maxAttempts: int, limit: nat)
    returns (r: Result<Snapshot, Error>, ghost copied: seq<Copied>, ghost image: Bytes)
    requires source.Valid()
    requires forall i, j :: 0 <= i < j < |categories| ==> categories[i] != categories[j]
    modifies source, target
    ensures source.Valid() && old(source.past) <= source.past
    ensures old(target.final.Some?) ==>
              && target.final == old(target.final) && source.past == old(source.past)
              && (r.Success? <==> Intact(d, target.final.value, id))
    ensures old(target.final.None?) && target.final.Some? ==>
              && Consistent(source.past, old(source.Now()), source.Now(), categories, copied, image)
              && Publishes(d, target.final.value, id, copied, image)
              && target.final.value.evidence.configurationSha == configurationSha
              && 1 <= target.final.value.evidence.attempt <= (if maxAttempts < 1 then 1 else maxAttempts)
              && (r.Success? <==> forall c :: c in copied ==> !Escapes(Key(c.path)))
    ensures r.Success? ==>
              && target.final.Some? && Intact(d, target.final.value, id)
              && r.value.evidenceSha == target.final.value.declared
              && r.value.databaseSha == target.final.value.evidence.databaseSha
    ensures r.Failure? && target.final.Some? ==> r.error == ResumeInvalid
  {
    copied, image := [], [];
    if target.final.Some? {
      r := VerifySnapshot(d, target.final.value, id);
      return;
    }
    var attempts := if maxAttempts < 1 then 1 else maxAttempts;
    var lastFailure := CaptureFailed;
    for attempt := 1 to attempts + 1
      invariant source.Valid() && old(source.past) <= source.past && target.final == None
      invariant Retryable(lastFailure)
    {
      ghost var now := source.Now();
      var w, all, backup := Attempt(d, source, categories, id, configurationSha, attempt, limit);
      if w.Success? {
        target.final := Some(w.value);
        copied, image := all, backup;
        ConsistentEarlier(source.past, now, old(source.Now()), source.Now(), categories, all, backup);
        PublishedIsIntact(d, w.value, id, all, backup);
        r := VerifySnapshot(d, w.value, id);
        return;
      }
      if !Retryable(w.error) { return Failure(w.error), copied, image; }
      lastFailure := w.error;
    }
    r := Failure(lastFailure);
  }
}
