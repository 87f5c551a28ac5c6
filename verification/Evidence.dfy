/** The evidence that the custody audit of flowdocs/core/custody_audit.py collects for the
    missing files, and its caps, which the vault phase and the archive phase share. */
module Evidence {
  import opened Common

  datatype Class = MetadataConsistent | ManifestReferenceOnly | ExactManifestArchive | PathOnlyCandidate

  datatype Posture =
    | Verified | Unverified | SizeLimitExceeded            // of an archive member
    | ObjectVerified | MetadataMismatch | ObjectUnavailable  // of an object in the vault

  datatype PdfHeader = NotApplicable | NotChecked | ValidPdf | InvalidPdf

  datatype Record = Record(cls: Class, source: string, sha256: Option<string>, size: nat, pdf: PdfHeader,
                           posture: Posture)

  /** The lists that the source keeps per row are kept as one list here; the list of a row
      is what the list says of it. */
  datatype Item = Item(row: int, record: Record)

  function Of(items: seq<Item>, row: int): seq<Record> {
    if items == [] then []
    else
      var last := items[|items| - 1];
      Of(items[..|items| - 1], row) + if last.row == row then [last.record] else []
  }

  lemma {:induction false} OfJoined(a: seq<Item>, b: seq<Item>, row: int)
    ensures Of(a + b, row) == Of(a, row) + Of(b, row)
    decreases |b|
  {
    if b == [] {
      assert a + b == a;
    } else {
      assert (a + b)[..|a + b| - 1] == a + b[..|b| - 1];
      OfJoined(a, b[..|b| - 1], row);
    }
  }

  datatype Caps = Caps(perReference: nat, total: nat)

  predicate HasRoom(caps: Caps, items: seq<Item>, row: int) {
    |Of(items, row)| < caps.perReference && |items| < caps.total
  }

  ghost predicate Within(caps: Caps, items: seq<Item>) {
    |items| <= caps.total && forall row :: |Of(items, row)| <= caps.perReference
  }

  /** A match with a missing file, and what there is to be recorded of it, if anything. */
  datatype Hit = Hit(row: int, finding: Option<Record>)

  /** What has been recorded, and whether something was refused for want of room. */
  datatype Ledger = Ledger(items: seq<Item>, limited: bool)

  function Found(h: Hit): seq<Item> { if h.finding.Some? then [Item(h.row, h.finding.value)] else [] }

  function Enter(caps: Caps, before: seq<Item>, l: Ledger, h: Hit): Ledger {
    if HasRoom(caps, before + l.items, h.row) then Ledger(l.items + Found(h), l.limited) else Ledger(l.items, true)
  }

  /** The hits of one source, entered after what was there before. */
  function Collect(caps: Caps, before: seq<Item>, hits: seq<Hit>): Ledger {
    if hits == [] then Ledger([], false)
    else Enter(caps, before, Collect(caps, before, hits[..|hits| - 1]), hits[|hits| - 1])
  }

  /** Everything the hits have to say, with no caps. */
  function Everything(hits: seq<Hit>): seq<Item> {
    if hits == [] then [] else Everything(hits[..|hits| - 1]) + Found(hits[|hits| - 1])
  }

  lemma EnterKeepsCaps(caps: Caps, before: seq<Item>, l: Ledger, h: Hit)
    requires Within(caps, before + l.items)
    ensures Within(caps, before + Enter(caps, before, l, h).items)
  {
    var items := before + l.items;
    if HasRoom(caps, items, h.row) && h.finding.Some? {
      assert before + (l.items + Found(h)) == items + Found(h);
      forall row ensures |Of(items + Found(h), row)| <= caps.perReference {
        OfJoined(items, Found(h), row);
      }
    } else {
      assert l.items + [] == l.items;
    }
  }

  /** The caps hold for a source together with everything before it. */
  lemma {:induction false} CollectKeepsCaps(caps: Caps, before: seq<Item>, hits: seq<Hit>)
    requires Within(caps, before)
    ensures Within(caps, before + Collect(caps, before, hits).items)
  {
    if hits == [] {
      assert before + [] == before;
    } else {
      CollectKeepsCaps(caps, before, hits[..|hits| - 1]);
      EnterKeepsCaps(caps, before, Collect(caps, before, hits[..|hits| - 1]), hits[|hits| - 1]);
    }
  }

  /** When nothing was refused, the caps have made no difference. */
  lemma {:induction false} UnlimitedIsEverything(caps: Caps, before: seq<Item>, hits: seq<Hit>)
    requires !Collect(caps, before, hits).limited
    ensures Collect(caps, before, hits).items == Everything(hits)
  {
    if hits != [] { UnlimitedIsEverything(caps, before, hits[..|hits| - 1]); }
  }

  /** And nothing is refused as long as the hits so far leave room for one more. */
  lemma {:induction false} RoomMeansUnlimited(caps: Caps, before: seq<Item>, hits: seq<Hit>)
    requires |before| + |hits| <= caps.total && forall row :: |Of(before, row)| + |hits| <= caps.perReference
    ensures !Collect(caps, before, hits).limited && |Collect(caps, before, hits).items| <= |hits|
  {
    if hits != [] {
      var l := Collect(caps, before, hits[..|hits| - 1]);
      var row := hits[|hits| - 1].row;
      RoomMeansUnlimited(caps, before, hits[..|hits| - 1]);
      OfJoined(before, l.items, row);
      OfBounded(l.items, row);
    }
  }

  lemma {:induction false} OfBounded(items: seq<Item>, row: int)
    ensures |Of(items, row)| <= |items|
  {
    if items != [] { OfBounded(items[..|items| - 1], row); }
  }
}
