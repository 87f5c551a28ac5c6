/** The custody audit of flowdocs/core/custody_audit.py over the vault and all archives. */
module Custody {
  import opened Common
  import opened Tar
  import opened ArchiveReader
  import opened Evidence
  import opened ArchiveScan

  // ---------------------------------------------------------------- the vault

  datatype Head = Exact | Other | Fails

  /** A file of a manifest: the missing file it matches, its digest and size if they are
      well-formed, and what a look at the object brings. */
  datatype Entry = Entry(reference: Option<Reference>, stated: Option<(string, nat)>, head: Head)

  datatype Generation = Unverifiable | Verifiable(source: string, entries: seq<Entry>)

  datatype Listing = ListingFails | Listing(generations: seq<Generation>, complete: bool)

  function VaultRecord(source: string, stated: (string, nat), head: Head): Record {
    Record(if head.Exact? then MetadataConsistent else ManifestReferenceOnly, source, Some(stated.0), stated.1,
           NotApplicable,
           match head
           case Exact => ObjectVerified
           case Other => MetadataMismatch
           case Fails => ObjectUnavailable)
  }

  function EntryHit(source: string, e: Entry): seq<Hit> {
    if e.reference.None? then []
    else [Hit(e.reference.value.row, if e.stated.Some? then Some(VaultRecord(source, e.stated.value, e.head))
                                     else None)]
  }

  function EntryHits(source: string, es: seq<Entry>): seq<Hit> {
    if es == [] then [] else EntryHits(source, es[..|es| - 1]) + EntryHit(source, es[|es| - 1])
  }

  function VaultHits(gs: seq<Generation>): seq<Hit> {
    if gs == [] then []
    else
      var last := gs[|gs| - 1];
      VaultHits(gs[..|gs| - 1]) + if last.Verifiable? then EntryHits(last.source, last.entries) else []
  }

  function Expect(x: Expected, e: Entry): Expected {
    if e.reference.None? || e.stated.None? then x
    else
      var token := e.reference.value.token;
      x[token := (if token in x then x[token] else {}) + {e.stated.value}]
  }

  function ExpectAll(x: Expected, es: seq<Entry>): Expected {
    if es == [] then x else Expect(ExpectAll(x, es[..|es| - 1]), es[|es| - 1])
  }

  function VaultExpected(gs: seq<Generation>): Expected {
    if gs == [] then map[]
    else
      var last := gs[|gs| - 1];
      var x := VaultExpected(gs[..|gs| - 1]);
      if last.Verifiable? then ExpectAll(x, last.entries) else x
  }

  /** An entry's effect on the ledger. */
  function EntryEntered(caps: Caps, source: string, l: Ledger, e: Entry): Ledger {
    var hit := EntryHit(source, e);
    if hit == [] then l else Enter(caps, [], l, hit[0])
  }

  lemma EntryCollected(caps: Caps, source: string, hits: seq<Hit>, es: seq<Entry>, e: Entry)
    ensures Collect(caps, [], hits + EntryHits(source, es + [e]))
              == EntryEntered(caps, source, Collect(caps, [], hits + EntryHits(source, es)), e)
  {
    var hit := EntryHit(source, e);
    assert (es + [e])[..|es|] == es && (es + [e])[|es|] == e;
    var so := hits + EntryHits(source, es);
    assert hits + EntryHits(source, es + [e]) == so + hit;
    if hit == [] {
      assert so + hit == so;
    } else {
      assert (so + hit)[..|so|] == so && (so + hit)[|so|] == hit[0];
    }
  }

  /** The ledger, and the digests that the archives are to be held against. */
  datatype Book = Book(ledger: Ledger, expected: Expected)

  function Note(caps: Caps, source: string, b: Book, e: Entry): Book {
    if e.reference.None? then b
    else if !HasRoom(caps, b.ledger.items, e.reference.value.row) then b.(ledger := Ledger(b.ledger.items, true))
    else if e.stated.None? then b
    else
      var item := Item(e.reference.value.row, VaultRecord(source, e.stated.value, e.head));
      Book(Ledger(b.ledger.items + [item], b.ledger.limited), Expect(b.expected, e))
  }

  function NoteAll(note: (Book, Entry) -> Book, b: Book, es: seq<Entry>): Book {
    if es == [] then b else note(NoteAll(note, b, es[..|es| - 1]), es[|es| - 1])
  }

  lemma NoteOne(note: (Book, Entry) -> Book, b: Book, es: seq<Entry>, i: nat)
    requires i < |es|
    ensures NoteAll(note, b, es[..i + 1]) == note(NoteAll(note, b, es[..i]), es[i])
  {
    assert es[..i + 1][..i] == es[..i];
  }

  /** The loop over the entries of one generation, with the body of the loop as note.  The
      clock may run out at any entry. */
  method ScanEntries(note: (Book, Entry) -> Book, b: Book, es: seq<Entry>) returns (book: Book, late: bool)
    ensures exists n :: 0 <= n <= |es| && book == NoteAll(note, b, es[..n])
    ensures !late ==> book == NoteAll(note, b, es)
  {
    book := b;
    for i := 0 to |es|
      invariant book == NoteAll(note, b, es[..i])
    {
      late := *;
      if late { return; }
      NoteOne(note, b, es, i);
      book := note(book, es[i]);
    }
    assert es[..|es|] == es;
    late := false;
  }

  lemma NoteEnters(caps: Caps, source: string, b: Book, e: Entry)
    ensures Note(caps, source, b, e).ledger == EntryEntered(caps, source, b.ledger, e)
    ensures !Note(caps, source, b, e).ledger.limited ==>
              !b.ledger.limited && Note(caps, source, b, e).expected == Expect(b.expected, e)
  {
    assert [] + b.ledger.items == b.ledger.items && b.ledger.items + [] == b.ledger.items;
  }

  /** The ledger is that of these hits and the entries after them, and unless it is limited
      every stated digest is expected. */
  ghost predicate Entering(caps: Caps, source: string, hits: seq<Hit>, es: seq<Entry>, known: Expected, book: Book) {
    && book.ledger == Collect(caps, [], hits + EntryHits(source, es))
    && (!book.ledger.limited ==> !Collect(caps, [], hits).limited && book.expected == ExpectAll(known, es))
  }

  lemma EnteringOne(caps: Caps, source: string, hits: seq<Hit>, es: seq<Entry>, known: Expected, book: Book, e: Entry)
    requires Entering(caps, source, hits, es, known, book)
    ensures Entering(caps, source, hits, es + [e], known, Note(caps, source, book, e))
  {
    EntryCollected(caps, source, hits, es, e);
    assert (es + [e])[..|es|] == es && (es + [e])[|es|] == e;
    NoteEnters(caps, source, book, e);
  }

  function Noting(caps: Caps, source: string): (Book, Entry) -> Book { (b: Book, e: Entry) => Note(caps, source, b, e) }

  lemma {:induction false} NoteAllEnters(caps: Caps, source: string, hits: seq<Hit>, es: seq<Entry>, book: Book)
    requires book.ledger == Collect(caps, [], hits)
    ensures Entering(caps, source, hits, es, book.expected, NoteAll(Noting(caps, source), book, es))
  {
    if es == [] {
      assert hits + [] == hits;
    } else {
      var n := |es| - 1;
      NoteAllEnters(caps, source, hits, es[..n], book);
      EnteringOne(caps, source, hits, es[..n], book.expected, NoteAll(Noting(caps, source), book, es[..n]), es[n]);
      assert es[..n] + [es[n]] == es;
    }
  }

  lemma CollectedWithin(caps: Caps, hits: seq<Hit>)
    ensures Within(caps, Collect(caps, [], hits).items)
  {
    assert forall row :: |Of([], row)| == 0;
    CollectKeepsCaps(caps, [], hits);
    var items := Collect(caps, [], hits).items;
    assert [] + items == items;
  }

  lemma GenerationsOne(gs: seq<Generation>, g: Generation)
    ensures VaultHits(gs + [g]) == VaultHits(gs) + if g.Verifiable? then EntryHits(g.source, g.entries) else []
    ensures VaultExpected(gs + [g]) == if g.Verifiable? then ExpectAll(VaultExpected(gs), g.entries)
                                       else VaultExpected(gs)
  {
    assert (gs + [g])[..|gs|] == gs && (gs + [g])[|gs|] == g;
  }

  datatype VaultScan = VaultScan(ledger: Ledger, expected: Expected, completed: bool, generationLimit: bool, late: bool)

  /** What the first generations of the vault come to. */
  ghost predicate SaysAll(caps: Caps, gs: seq<Generation>, book: Book) {
    && book.ledger == Collect(caps, [], VaultHits(gs))
    && (!book.ledger.limited ==> book.expected == VaultExpected(gs))
  }

  lemma EnteringSays(caps: Caps, gs: seq<Generation>, g: Generation, known: Book, book: Book)
    requires g.Verifiable? && SaysAll(caps, gs, known)
    requires Entering(caps, g.source, VaultHits(gs), g.entries, known.expected, book)
    ensures SaysAll(caps, gs + [g], book)
  {
    GenerationsOne(gs, g);
  }

  lemma UnverifiableSays(caps: Caps, gs: seq<Generation>, g: Generation, book: Book)
    requires g.Unverifiable? && SaysAll(caps, gs, book)
    ensures SaysAll(caps, gs + [g], book)
  {
    GenerationsOne(gs, g);
    assert VaultHits(gs) + [] == VaultHits(gs);
  }

  /** One generation: verified or passed over, and its entries. */
  method ScanGeneration(g: Generation, caps: Caps, known: Book, ghost gs: seq<Generation>)
    returns (book: Book, late: bool)
    requires SaysAll(caps, gs, known)
    ensures Within(caps, book.ledger.items)
    ensures !late ==> SaysAll(caps, gs + [g], book)
  {
    CollectedWithin(caps, VaultHits(gs));
    book, late := known, *;
    if late { return; }
    if g.Unverifiable? {
      UnverifiableSays(caps, gs, g, book);
      return;
    }
    book, late := ScanEntries(Noting(caps, g.source), known, g.entries);
    ghost var n :| 0 <= n <= |g.entries| && book == NoteAll(Noting(caps, g.source), known, g.entries[..n]);
    NoteAllEnters(caps, g.source, VaultHits(gs), g.entries[..n], known);
    CollectedWithin(caps, VaultHits(gs) + EntryHits(g.source, g.entries[..n]));
    if !late {
      NoteAllEnters(caps, g.source, VaultHits(gs), g.entries, known);
      EnteringSays(caps, gs, g, known, book);
    }
  }

  lemma NothingSaid(caps: Caps)
    ensures SaysAll(caps, [], Book(Ledger([], false), map[])) && Within(caps, Ledger([], false).items)
  {
    CollectedWithin(caps, []);
  }

  predicate AllVerifiable(gs: seq<Generation>) { forall k :: 0 <= k < |gs| ==> gs[k].Verifiable? }

  /** The loop over the listed generations. */
  method ScanGenerations(gs: seq<Generation>, caps: Caps) returns (book: Book, verified: nat, late: bool)
    ensures Within(caps, book.ledger.items)
    ensures !late ==> SaysAll(caps, gs, book)
    ensures !late ==> (verified == |gs| <==> AllVerifiable(gs))
  {
    book, verified, late := Book(Ledger([], false), map[]), 0, false;
    ghost var done: seq<Generation> := [];
    NothingSaid(caps);
    for i := 0 to |gs|
      invariant |done| == i && done <= gs && SaysAll(caps, done, book) && Within(caps, book.ledger.items)
      invariant verified <= i && (verified == i <==> AllVerifiable(done))
    {
      book, late := ScanGeneration(gs[i], caps, book, done);
      if late { return; }
      if gs[i].Verifiable? { verified := verified + 1; }
      done := done + [gs[i]];
    }
    assert done == gs;
    late := false;
  }

  /** _scan_vault. */
  method ScanVault(listing: Listing, caps: Caps) returns (scan: VaultScan)
    ensures Within(caps, scan.ledger.items)
    ensures listing.ListingFails? ==> !scan.completed && !scan.late && scan.ledger.items == []
    ensures scan.late ==> !scan.completed
    ensures scan.generationLimit <==> listing.Listing? && !listing.complete
    ensures listing.Listing? && !scan.late ==>
              && SaysAll(caps, listing.generations, Book(scan.ledger, scan.expected))
              && (scan.completed <==>
                    listing.complete && AllVerifiable(listing.generations) && !scan.ledger.limited)
  {
    NothingSaid(caps);
    if listing.ListingFails? { return VaultScan(Ledger([], false), map[], false, false, false); }
    var late: bool := *;
    if late { return VaultScan(Ledger([], false), map[], false, !listing.complete, true); }
    var book, verified, expired := ScanGenerations(listing.generations, caps);
    scan := VaultScan(book.ledger, book.expected,
                      !expired && verified == |listing.generations| && listing.complete && !book.ledger.limited,
                      !listing.complete, expired);
  }

  // ---------------------------------------------------------------- the archives

  datatype Packing = Plain | Gzip | OtherPacking

  /** An archive as it is found: whether it opens, what it is, and whether its stat has
      changed by the end.  content is its payload, decompressed if need be. */
  datatype Archive = Archive(
    source: string, opens: bool, identity: (int, int), physicalBytes: nat, packing: Packing,
    content: Bytes, broken: bool, changed: bool)

  datatype Bounds = Bounds(
    maxMembers: nat, maxCandidateBytes: nat, maxLogicalBytes: nat, maxPhysicalBytes: nat, maxReadBytes: nat,
    maxTotalPhysicalBytes: nat, maxTotalReadBytes: nat, maxRatio: nat)

  datatype Progress = Progress(failed: Option<Reason>, readBytes: nat)

  /** What does not change from one archive to the next. */
  datatype Job = Job(tools: Tools, references: map<string, Reference>, expected: Expected, bounds: Bounds, caps: Caps) {
    function For(a: Archive): Brief {
      Brief(tools, references, expected, a.source, bounds.maxMembers, bounds.maxCandidateBytes, bounds.maxLogicalBytes)
    }

    /** The hits of an archive that can be read to its end. */
    function HitsOf(a: Archive): seq<Hit> {
      var whole := Parse(tools.read, a.content, 0);
      if whole.Success? then Hits(For(a), whole.value) else []
    }

    function AllHits(archives: seq<Archive>): (r: seq<seq<Hit>>)
      ensures |r| == |archives|
    {
      seq(|archives|, i requires 0 <= i < |archives| => HitsOf(archives[i]))
    }
  }

  /** The ledger after one more completed source. */
  function Gathered(caps: Caps, before: seq<Item>, l: Ledger, hits: seq<Hit>): Ledger {
    var more := Collect(caps, before + l.items, hits);
    Ledger(l.items + more.items, l.limited || more.limited)
  }

  /** The evidence of the completed archives and of no others, entered under the caps. */
  function Gather(caps: Caps, before: seq<Item>, sources: seq<seq<Hit>>, done: seq<bool>): Ledger
    requires |sources| == |done|
  {
    if sources == [] then Ledger([], false)
    else
      var n := |sources| - 1;
      var l := Gather(caps, before, sources[..n], done[..n]);
      if done[n] then Gathered(caps, before, l, sources[n]) else l
  }

  /** The same without caps. */
  function GatherAll(sources: seq<seq<Hit>>): seq<Item> {
    if sources == [] then [] else GatherAll(sources[..|sources| - 1]) + Everything(sources[|sources| - 1])
  }

  lemma GatherOne(caps: Caps, before: seq<Item>, sources: seq<seq<Hit>>, done: seq<bool>, hits: seq<Hit>, ok: bool)
    requires |sources| == |done|
    ensures Gather(caps, before, sources + [hits], done + [ok])
              == var l := Gather(caps, before, sources, done);
                 if ok then Gathered(caps, before, l, hits) else l
  {
    assert (sources + [hits])[..|sources|] == sources && (done + [ok])[..|done|] == done;
  }

  /** The caps hold over everything before the archives and the archives together. */
  lemma {:induction false} GatherKeepsCaps(caps: Caps, before: seq<Item>, sources: seq<seq<Hit>>, done: seq<bool>)
    requires |sources| == |done| && Within(caps, before)
    ensures Within(caps, before + Gather(caps, before, sources, done).items)
  {
    if sources == [] {
      assert before + [] == before;
    } else {
      var n := |sources| - 1;
      var l := Gather(caps, before, sources[..n], done[..n]);
      GatherKeepsCaps(caps, before, sources[..n], done[..n]);
      CollectKeepsCaps(caps, before + l.items, sources[n]);
      var more := Collect(caps, before + l.items, sources[n]).items;
      assert before + l.items + more == before + (l.items + more);
    }
  }

  predicate AllDone(done: seq<bool>) { forall i :: 0 <= i < |done| ==> done[i] }

  lemma {:induction false} CompleteIsUncapped(caps: Caps, before: seq<Item>, sources: seq<seq<Hit>>, done: seq<bool>)
    requires |sources| == |done| && AllDone(done) && !Gather(caps, before, sources, done).limited
    ensures Gather(caps, before, sources, done).items == GatherAll(sources)
  {
    if sources != [] {
      var n := |sources| - 1;
      CompleteIsUncapped(caps, before, sources[..n], done[..n]);
      UnlimitedIsEverything(caps, before + Gather(caps, before, sources[..n], done[..n]).items, sources[n]);
    }
  }

  /** The sources that were completed. */
  function Completed(sources: seq<seq<Hit>>, done: seq<bool>): (r: seq<seq<Hit>>)
    requires |sources| == |done|
  {
    if sources == [] then []
    else
      var n := |sources| - 1;
      if done[n] then Completed(sources[..n], done[..n]) + [sources[n]] else Completed(sources[..n], done[..n])
  }

  /** An archive that fails leaves the evidence as if it had never been named. */
  lemma {:induction false} FailedAddNothing(caps: Caps, before: seq<Item>, sources: seq<seq<Hit>>, done: seq<bool>,
                                            all: seq<bool>)
    requires |sources| == |done| && |all| == |Completed(sources, done)| && AllDone(all)
    ensures Gather(caps, before, sources, done) == Gather(caps, before, Completed(sources, done), all)
  {
    if sources != [] {
      var n := |sources| - 1;
      var good := Completed(sources[..n], done[..n]);
      if done[n] {
        FailedAddNothing(caps, before, sources[..n], done[..n], all[..|good|]);
        assert all == all[..|good|] + [true];
        GatherOne(caps, before, good, all[..|good|], sources[n], true);
      } else {
        FailedAddNothing(caps, before, sources[..n], done[..n], all);
      }
    }
  }

  /** Such an archive is read to its end, the clock aside. */
  predicate Readable(j: Job, a: Archive, limit: int) {
    && Acceptable(j.For(a), a.content) && !a.broken && |a.content| <= limit
    && (a.packing.Gzip? ==> |a.content| <= (if a.physicalBytes > 1 then a.physicalBytes else 1) * j.bounds.maxRatio)
  }

  /** One archive that has been opened and is not refused for its size or packing. */
  method ScanOpened(j: Job, a: Archive, before: seq<Item>, totalRead: nat) returns (p: Progress, ledger: Ledger)
    ensures var limit := Min(j.bounds.maxReadBytes, j.bounds.maxTotalReadBytes - totalRead);
            && (p.failed.None? ==> Readable(j, a, limit) && !a.changed)
            && (p.failed.Some? && Readable(j, a, limit) ==> p.failed == Some(TimeLimit) || a.changed)
    ensures p.failed.None? ==> ledger == Collect(j.caps, before, j.HitsOf(a))
    ensures p.readBytes <= if totalRead > j.bounds.maxTotalReadBytes then BLOCK
                           else Min(j.bounds.maxReadBytes, j.bounds.maxTotalReadBytes - totalRead) + READ_CHUNK
  {
    var remaining: int := j.bounds.maxTotalReadBytes - totalRead;
    var reader := new BoundedArchiveReader(
      a.content, a.broken, a.physicalBytes, a.packing.Gzip?, Min(j.bounds.maxReadBytes, remaining),
      if remaining <= j.bounds.maxReadBytes then TotalReadLimit else ReadLimit, j.bounds.maxRatio);
    var failed, collected, scanned := ScanStream(reader, j.For(a), j.caps, before);
    ledger := collected;
    if failed.None? && a.changed { failed := Some(Changed); }
    p := Progress(failed, reader.readBytes);
  }

  datatype Totals = Totals(physical: nat, read: nat, readers: nat, identities: set<(int, int)>)

  /** The budget of all reads together: each reader that is opened once it is spent costs one
      more block. */
  predicate WithinBudget(j: Job, t: Totals) {
    if t.readers == 0 then t.read == 0
    else t.read <= j.bounds.maxTotalReadBytes + READ_CHUNK + BLOCK * (t.readers - 1)
  }

  /** Why an archive is not read at all. */
  function Refusal(j: Job, a: Archive, t: Totals): Option<Reason> {
    if !a.opens then Some(Unavailable)
    else if a.identity in t.identities then Some(DuplicateIdentity)
    else if t.physical + a.physicalBytes > j.bounds.maxTotalPhysicalBytes then Some(TotalPhysicalLimit)
    else if a.physicalBytes > j.bounds.maxPhysicalBytes then Some(PhysicalLimit)
    else if a.packing.OtherPacking? then Some(Unsupported)
    else None
  }

  method ScanArchive(j: Job, a: Archive, before: seq<Item>, t: Totals)
    returns (p: Progress, ledger: Ledger, after: Totals)
    requires WithinBudget(j, t)
    ensures Refusal(j, a, t).Some? ==> p.failed == Refusal(j, a, t) && p.readBytes == 0 && ledger == Ledger([], false)
    ensures p.failed.None? ==>
              !a.changed && Readable(j, a, Min(j.bounds.maxReadBytes, j.bounds.maxTotalReadBytes - t.read))
    ensures p.failed.None? ==> ledger == Collect(j.caps, before, j.HitsOf(a))
    ensures t.identities <= after.identities
            && (p.failed.None? ==> a.identity !in t.identities && a.identity in after.identities)
    ensures WithinBudget(j, after) && t.readers <= after.readers <= t.readers + 1 && after.read == t.read + p.readBytes
  {
    ledger, after := Ledger([], false), t;
    if !a.opens { return Progress(Some(Unavailable), 0), ledger, after; }
    if a.identity in t.identities { return Progress(Some(DuplicateIdentity), 0), ledger, after; }
    after := t.(identities := t.identities + {a.identity}, physical := t.physical + a.physicalBytes);
    if after.physical > j.bounds.maxTotalPhysicalBytes { return Progress(Some(TotalPhysicalLimit), 0), ledger, after; }
    if a.physicalBytes > j.bounds.maxPhysicalBytes { return Progress(Some(PhysicalLimit), 0), ledger, after; }
    if a.packing.OtherPacking? { return Progress(Some(Unsupported), 0), ledger, after; }
    p, ledger := ScanOpened(j, a, before, t.read);
    after := after.(read := t.read + p.readBytes, readers := t.readers + 1);
  }

  datatype ArchiveScans = ArchiveScans(ledger: Ledger, progress: seq<Progress>, totals: Totals)

  function Dones(progress: seq<Progress>): (r: seq<bool>)
    ensures |r| == |progress|
  {
    seq(|progress|, i requires 0 <= i < |progress| => progress[i].failed.None?)
  }

  /** The evidence so far is that of the completed sources. */
  ghost predicate Holds(caps: Caps, initial: seq<Item>, sources: seq<seq<Hit>>, done: seq<bool>, ledger: Ledger) {
    && |sources| == |done|
    && ledger.items == Gather(caps, initial, sources, done).items
    && (Gather(caps, initial, sources, done).limited ==> ledger.limited)
  }

  /** The evidence of an archive is taken over when its posture is completed, and only then. */
  method TakeOver(j: Job, a: Archive, initial: seq<Item>, ledger: Ledger, t: Totals, ghost sources: seq<seq<Hit>>,
                  ghost done: seq<bool>)
    returns (p: Progress, taken: Ledger, after: Totals, ghost hits: seq<Hit>)
    requires WithinBudget(j, t) && Holds(j.caps, initial, sources, done, ledger)
    ensures hits == j.HitsOf(a) && Holds(j.caps, initial, sources + [hits], done + [p.failed.None?], taken)
    ensures t.identities <= after.identities
            && (p.failed.None? ==> a.identity !in t.identities && a.identity in after.identities)
    ensures WithinBudget(j, after) && t.readers <= after.readers <= t.readers + 1
  {
    hits := j.HitsOf(a);
    var source;
    p, source, after := ScanArchive(j, a, initial + ledger.items, t);
    GatherOne(j.caps, initial, sources, done, hits, p.failed.None?);
    taken := Ledger(if p.failed.None? then ledger.items + source.items else ledger.items,
                    ledger.limited || source.limited);
  }

  /** No two completed archives are one file, and all of their files are known. */
  predicate OnceEach(archives: seq<Archive>, progress: seq<Progress>, identities: set<(int, int)>) {
    && |progress| <= |archives|
    && (forall k :: 0 <= k < |progress| && progress[k].failed.None? ==> archives[k].identity in identities)
    && forall i, k :: 0 <= i < k < |progress| && progress[i].failed.None? && progress[k].failed.None? ==>
         archives[i].identity != archives[k].identity
  }

  lemma OnceEachMore(archives: seq<Archive>, progress: seq<Progress>, known: set<(int, int)>, p: Progress,
                     more: set<(int, int)>)
    requires OnceEach(archives, progress, known) && |progress| < |archives| && known <= more
    requires p.failed.None? ==> archives[|progress|].identity !in known && archives[|progress|].identity in more
    ensures OnceEach(archives, progress + [p], more)
  {
  }

  predicate FirstHits(j: Job, archives: seq<Archive>, sources: seq<seq<Hit>>) {
    |sources| <= |archives| && forall k :: 0 <= k < |sources| ==> sources[k] == j.HitsOf(archives[k])
  }

  /** _scan_archives, on top of the evidence of the vault. */
  method ScanArchives(j: Job, initial: seq<Item>, archives: seq<Archive>) returns (scans: ArchiveScans)
    ensures |scans.progress| == |archives| && OnceEach(archives, scans.progress, scans.totals.identities)
    ensures Holds(j.caps, initial, j.AllHits(archives), Dones(scans.progress), scans.ledger)
    ensures WithinBudget(j, scans.totals) && scans.totals.readers <= |archives|
  {
    var ledger, progress: seq<Progress>, totals := Ledger([], false), [], Totals(0, 0, 0, {});
    ghost var sources: seq<seq<Hit>>, done: seq<bool> := [], [];
    for i := 0 to |archives|
      invariant |progress| == |sources| == |done| == i && done == Dones(progress)
      invariant FirstHits(j, archives, sources) && OnceEach(archives, progress, totals.identities)
      invariant Holds(j.caps, initial, sources, done, ledger)
      invariant WithinBudget(j, totals) && totals.readers <= i
    {
      var p;
      ghost var hits, known := [], totals.identities;
      p, ledger, totals, hits := TakeOver(j, archives[i], initial, ledger, totals, sources, done);
      OnceEachMore(archives, progress, known, p, totals.identities);
      progress, sources, done := progress + [p], sources + [hits], done + [p.failed.None?];
    }
    assert sources == j.AllHits(archives);
    scans := ArchiveScans(ledger, progress, totals);
  }

  // ---------------------------------------------------------------- the audit

  /** What the audit reports: the evidence, whether it is complete, and the progress. */
  datatype Report = Report(items: seq<Item>, complete: bool, progress: seq<Progress>, totals: Totals)

  /** All evidence there is, with no caps at all. */
  function AllEvidence(j: Job, listing: Option<Listing>, archives: seq<Archive>): seq<Item> {
    if listing.Some? && listing.value.Listing? then
      var gs := listing.value.generations;
      Everything(VaultHits(gs)) + GatherAll(j.(expected := VaultExpected(gs)).AllHits(archives))
    else GatherAll(j.AllHits(archives))
  }

  /** The two phases of audit_missing_pdf_custody and their merge.  j.expected is what is
      expected before the vault has been asked: nothing. */
  method Audit(j: Job, listing: Option<Listing>, archives: seq<Archive>) returns (report: Report)
    requires j.expected == map[]
    ensures Within(j.caps, report.items)
    ensures report.complete ==> report.items == AllEvidence(j, listing, archives)
    ensures WithinBudget(j, report.totals) && report.totals.readers <= |archives|
  {
    var late: bool := *;
    var scan := VaultScan(Ledger([], false), map[], true, false, false);
    NothingSaid(j.caps);
    if listing.Some? { scan := ScanVault(listing.value, j.caps); }
    var job := j.(expected := scan.expected);
    var scans := ScanArchives(job, scan.ledger.items, archives);
    ghost var sources, done := job.AllHits(archives), Dones(scans.progress);
    GatherKeepsCaps(j.caps, scan.ledger.items, sources, done);
    var complete := scan.completed && !scan.generationLimit && !scan.ledger.limited && !scan.late && !late
                    && AllDone(Dones(scans.progress)) && !scans.ledger.limited;
    if complete {
      CompleteIsUncapped(j.caps, scan.ledger.items, sources, done);
      if listing.Some? {
        UnlimitedIsEverything(j.caps, [], VaultHits(listing.value.generations));
      } else {
        assert job == j && [] + scans.ledger.items == scans.ledger.items;
      }
    }
    report := Report(scan.ledger.items + scans.ledger.items, complete, scans.progress, scans.totals);
  }
}
