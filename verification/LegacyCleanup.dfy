/** The retired startup backups of flowdocs/core/artifact_cleanup.py: a plan of what may go,
    cut into batches that an operator approves one by one. */
module LegacyCleanup {
  import opened Common

  const GIB: nat := 1024 * 1024 * 1024
  const MAX_APPLY_BYTES: nat := 20 * GIB
  const KEEP: nat := 3
  const MAX_AGE: nat := 7 * 24 * 3600 * 1_000_000
  const MAX_BYTES: nat := 5 * GIB

  /** A backup file; times are in microseconds. */
  datatype Backup = Backup(path: string, bytes: nat, created: int, mtime: int, inode: int)

  function Total(items: seq<Backup>): nat { if items == [] then 0 else items[0].bytes + Total(items[1..]) }

  predicate Distinct(items: seq<Backup>) { forall i, j :: 0 <= i < j < |items| ==> items[i].path != items[j].path }

  predicate Expired(b: Backup, now: int) { b.created < now - MAX_AGE }

  // ---------------------------------------------------------------- what may go

  /** The pass from the newest to the oldest, given how much is left. */
  function Eligible(items: seq<Backup>, now: int, left: int): (r: seq<Backup>)
    ensures forall b :: b in r ==> b in items
  {
    if items == [] then []
    else if Expired(items[0], now) || left > MAX_BYTES then
      [items[0]] + Eligible(items[1..], now, left - items[0].bytes)
    else Eligible(items[1..], now, left)
  }

  function Beyond(records: seq<Backup>): seq<Backup> { if |records| <= KEEP then [] else records[KEEP..] }

  function EligibleIn(records: seq<Backup>, now: int): seq<Backup> {
    Eligible(Beyond(records), now, Total(records))
  }

  /** The files whose paths are not in a set. */
  function Without(items: seq<Backup>, gone: set<string>): (r: seq<Backup>)
    ensures |r| <= |items|
  {
    if items == [] then []
    else (if items[0].path in gone then [] else [items[0]]) + Without(items[1..], gone)
  }

  lemma {:induction false} WithoutMembers(items: seq<Backup>, gone: set<string>)
    ensures forall b :: b in Without(items, gone) <==> b in items && b.path !in gone
  {
    if items != [] {
      WithoutMembers(items[1..], gone);
      assert items == [items[0]] + items[1..];
    }
  }

  function Only(items: seq<Backup>, these: set<string>): seq<Backup> {
    if items == [] then [] else (if items[0].path in these then [items[0]] else []) + Only(items[1..], these)
  }

  lemma {:induction false} TotalSplits(items: seq<Backup>, gone: set<string>)
    ensures Total(items) == Total(Without(items, gone)) + Total(Only(items, gone))
  {
    if items != [] {
      TotalSplits(items[1..], gone);
      var w, o := Without(items[1..], gone), Only(items[1..], gone);
      if items[0].path in gone {
        assert ([items[0]] + o)[1..] == o && [] + w == w;
      } else {
        assert ([items[0]] + w)[1..] == w && [] + o == o;
      }
    }
  }

  predicate Taken(b: Backup, now: int, left: int) { Expired(b, now) || left > MAX_BYTES }

  function After(b: Backup, now: int, left: int): int { if Taken(b, now, left) then left - b.bytes else left }

  function Head(b: Backup, now: int, left: int): set<string> { if Taken(b, now, left) then {b.path} else {} }

  function Paths(items: seq<Backup>): (r: set<string>)
    ensures forall b :: b in items ==> b.path in r
  {
    if items == [] then {} else {items[0].path} + Paths(items[1..])
  }

  lemma EligibleStep(items: seq<Backup>, now: int, left: int)
    requires items != []
    ensures var b := items[0];
            Paths(Eligible(items, now, left))
                == Head(b, now, left) + Paths(Eligible(items[1..], now, After(b, now, left)))
  {
    var rest := Eligible(items[1..], now, After(items[0], now, left));
    assert ([items[0]] + rest)[1..] == rest;
  }

  lemma WithoutStep(items: seq<Backup>, gone: set<string>)
    requires items != []
    ensures items[0].path in gone ==>
              && Without(items, gone) == Without(items[1..], gone)
              && Total(Only(items, gone)) == items[0].bytes + Total(Only(items[1..], gone))
    ensures items[0].path !in gone ==>
              && Without(items, gone) == [items[0]] + Without(items[1..], gone)
              && Total(Only(items, gone)) == Total(Only(items[1..], gone))
  {
    var o := Only(items[1..], gone);
    assert ([items[0]] + o)[1..] == o && [] + o == o;
  }

  lemma {:induction false} EligibleAmong(items: seq<Backup>, now: int, left: int)
    ensures Paths(Eligible(items, now, left)) <= Paths(items)
  {
    if items != [] {
      EligibleStep(items, now, left);
      EligibleAmong(items[1..], now, After(items[0], now, left));
    }
  }

  lemma {:induction false} PathsApart(items: seq<Backup>, path: string)
    requires forall i :: 0 <= i < |items| ==> items[i].path != path
    ensures path !in Paths(items)
  {
    if items != [] { PathsApart(items[1..], path); }
  }

  lemma WithoutFront(b: Backup, rest: seq<Backup>, gone: set<string>)
    ensures Without([b] + rest, gone) == if b.path in gone then Without(rest, gone) else [b] + Without(rest, gone)
  {
    assert ([b] + rest)[1..] == rest;
  }

  lemma EligibleFront(b: Backup, rest: seq<Backup>, now: int, left: int)
    ensures Eligible([b] + rest, now, left)
              == if Taken(b, now, left) then [b] + Eligible(rest, now, left - b.bytes) else Eligible(rest, now, left)
  {
    assert ([b] + rest)[1..] == rest;
  }

  lemma TotalFront(b: Backup, rest: seq<Backup>)
    ensures Total([b] + rest) == b.bytes + Total(rest) && Paths([b] + rest) == {b.path} + Paths(rest)
  {
    assert ([b] + rest)[1..] == rest;
  }

  /** The eligible files of the second pass, and what is left of the eligible ones of the first. */
  function Second(items: seq<Backup>, gone: set<string>, now: int, least: int): seq<Backup> {
    Eligible(Without(items, gone), now, least)
  }

  function LeftOver(items: seq<Backup>, gone: set<string>, now: int, left: int): seq<Backup> {
    Without(Eligible(items, now, left), gone)
  }

  lemma SecondStep(items: seq<Backup>, gone: set<string>, now: int, least: int)
    requires items != []
    ensures var b, rest := items[0], items[1..];
            Second(items, gone, now, least)
              == var x := Second(rest, gone, now, if b.path in gone then least else After(b, now, least));
                 if b.path in gone || !Taken(b, now, least) then x else [b] + x
  {
    WithoutStep(items, gone);
    EligibleFront(items[0], Without(items[1..], gone), now, least);
  }

  /** What both passes rest on at some file. */
  predicate Passing(items: seq<Backup>, gone: set<string>, now: int, left: int, least: int) {
    && gone * Paths(items) <= Paths(Eligible(items, now, left)) && Distinct(items)
    && (least <= left - Total(Only(items, gone)) || least <= MAX_BYTES)
  }

  lemma PassingOn(items: seq<Backup>, gone: set<string>, now: int, left: int, least: int)
    requires items != [] && Passing(items, gone, now, left, least)
    ensures var b, rest := items[0], items[1..];
            && b.path !in Paths(rest) && (b.path in gone ==> Taken(b, now, left))
            && (b.path !in gone && !Taken(b, now, left) ==> !Taken(b, now, least))
            && Passing(rest, gone, now, After(b, now, left), if b.path in gone then least else After(b, now, least))
  {
    var b, rest := items[0], items[1..];
    assert forall i :: 0 <= i < |rest| ==> rest[i] == items[i + 1];
    PathsApart(rest, b.path);
    EligibleStep(items, now, left);
    WithoutStep(items, gone);
    EligibleAmong(rest, now, After(b, now, left));
    forall p | p in gone * Paths(rest) ensures p in Paths(Eligible(rest, now, After(b, now, left))) {
      assert p in gone * Paths(items) && p != b.path;
    }
    assert b.path in gone ==> b.path in gone * Paths(items);
  }

  lemma SecondPaths(items: seq<Backup>, gone: set<string>, now: int, least: int)
    requires items != []
    ensures var b := items[0];
            var x := Paths(Second(items[1..], gone, now, if b.path in gone then least else After(b, now, least)));
            Paths(Second(items, gone, now, least)) == if b.path in gone || !Taken(b, now, least) then x
                                                      else {b.path} + x
  {
    var b := items[0];
    SecondStep(items, gone, now, least);
    TotalFront(b, Second(items[1..], gone, now, if b.path in gone then least else After(b, now, least)));
  }

  /** After some of what was eligible has gone, nothing else becomes eligible.  The second
      pass starts with no more than what the first one had left when all of them are gone,
      or else with so little that only age counts. */
  lemma {:induction false} NothingNewEligible(items: seq<Backup>, gone: set<string>, now: int, left: int, least: int)
    requires Passing(items, gone, now, left, least)
    ensures Paths(Second(items, gone, now, least)) <= Paths(Eligible(items, now, left))
  {
    if items != [] {
      var b := items[0];
      PassingOn(items, gone, now, left, least);
      SecondPaths(items, gone, now, least);
      EligibleStep(items, now, left);
      NothingNewEligible(items[1..], gone, now, After(b, now, left),
                         if b.path in gone then least else After(b, now, least));
    }
  }

  lemma {:induction false} WithoutNone(items: seq<Backup>, gone: set<string>)
    requires gone * Paths(items) == {}
    ensures Without(items, gone) == items && Only(items, gone) == []
  {
    if items != [] {
      var path := items[0].path;
      assert path in Paths(items) && Paths(items[1..]) <= Paths(items);
      assert path in gone ==> path in gone * Paths(items);
      assert gone * Paths(items[1..]) <= gone * Paths(items);
      WithoutNone(items[1..], gone);
    }
  }

  lemma {:induction false} PathsKnown(items: seq<Backup>, path: string)
    requires path in Paths(items)
    ensures exists i :: 0 <= i < |items| && items[i].path == path
  {
    if items[0].path != path { PathsKnown(items[1..], path); }
  }

  lemma {:induction false} NotEligibleAgain(items: seq<Backup>, gone: set<string>)
    ensures Paths(Without(items, gone)) == Paths(items) - gone
  {
    if items != [] {
      NotEligibleAgain(items[1..], gone);
      WithoutStep(items, gone);
      if items[0].path !in gone {
        assert ([items[0]] + Without(items[1..], gone))[1..] == Without(items[1..], gone);
      }
    }
  }

  lemma FrontStep(b: Backup, rest: seq<Backup>, kept: seq<Backup>, all: seq<Backup>, gone: set<string>)
    requires all != [] && all[0] == b && b.path !in gone && Without(all[1..], gone) == rest + kept
    ensures Without(all, gone) == [b] + rest + kept && Total(Only(all, gone)) == Total(Only(all[1..], gone))
  {
    WithoutStep(all, gone);
  }

  lemma {:induction false} FrontStays(front: seq<Backup>, back: seq<Backup>, gone: set<string>)
    requires gone * Paths(front) == {}
    ensures Without(front + back, gone) == front + Without(back, gone)
    ensures Total(Only(front + back, gone)) == Total(Only(back, gone))
  {
    if front == [] {
      assert front + back == back;
    } else {
      var b, rest := front[0], front[1..];
      var all := front + back;
      assert front == [b] + rest && all[1..] == rest + back && all[0] == b;
      assert Paths(front) == {b.path} + Paths(rest);
      FrontStays(rest, back, gone);
      FrontStep(b, rest, Without(back, gone), all, gone);
    }
  }

  lemma {:induction false} PathsPart(items: seq<Backup>, k: nat)
    requires k <= |items|
    ensures Paths(items) == Paths(items[..k]) + Paths(items[k..])
  {
    if k > 0 {
      assert items[..k][1..] == items[1..][..k - 1] && items[k..] == items[1..][k - 1..];
      PathsPart(items[1..], k - 1);
    } else {
      assert items[..k] == [] && items[k..] == items;
    }
  }

  lemma PartsApart(items: seq<Backup>, k: nat)
    requires k <= |items| && Distinct(items)
    ensures Paths(items[..k]) * Paths(items[k..]) == {}
  {
    forall p | p in Paths(items[..k]) && p in Paths(items[k..]) ensures false {
      PathsKnown(items[..k], p);
      PathsKnown(items[k..], p);
    }
  }

  lemma BeyondStays(records: seq<Backup>, now: int, gone: set<string>)
    requires Distinct(records) && |records| > KEEP && gone <= Paths(EligibleIn(records, now))
    ensures Without(records, gone) == records[..KEEP] + Without(records[KEEP..], gone)
    ensures Total(Without(records, gone)) == Total(records) - Total(Only(records[KEEP..], gone))
    ensures gone <= Paths(records[KEEP..])
  {
    var front, back := records[..KEEP], records[KEEP..];
    assert records == front + back;
    EligibleAmong(back, now, Total(records));
    PartsApart(records, KEEP);
    assert gone * Paths(front) == {};
    FrontStays(front, back, gone);
    TotalSplits(records, gone);
  }

  lemma FrontFirst(front: seq<Backup>, back: seq<Backup>)
    requires |front| == KEEP
    ensures Beyond(front + back) == back && (front + back)[..KEEP] == front
  {
  }

  lemma BackDistinct(records: seq<Backup>, k: nat)
    requires Distinct(records) && k <= |records|
    ensures Distinct(records[k..])
  {
    assert forall i :: 0 <= i < |records| - k ==> records[k..][i] == records[i + k];
  }

  lemma NothingNewAndNothingGone(back: seq<Backup>, gone: set<string>, now: int, left: int, least: int)
    requires gone <= Paths(Eligible(back, now, left)) && Distinct(back)
    requires least <= left - Total(Only(back, gone))
    ensures Paths(Eligible(Without(back, gone), now, least)) <= Paths(Eligible(back, now, left)) - gone
  {
    NothingNewEligible(back, gone, now, left, least);
    EligibleAmong(Without(back, gone), now, least);
    NotEligibleAgain(back, gone);
  }

  /** Once some of a plan's eligible files have gone, a new plan at the same clock makes
      eligible only what was eligible and is still there, and the newest stay. */
  lemma ReplanOnlyDeferred(records: seq<Backup>, now: int, gone: set<string>)
    requires Distinct(records) && gone <= Paths(EligibleIn(records, now))
    ensures var after := Without(records, gone);
            && Paths(EligibleIn(after, now)) <= Paths(EligibleIn(records, now)) - gone
            && (|records| >= KEEP ==> |after| >= KEEP && after[..KEEP] == records[..KEEP])
  {
    if |records| <= KEEP {
      assert gone == {};
      WithoutNone(records, gone);
    } else {
      var back := records[KEEP..];
      BeyondStays(records, now, gone);
      FrontFirst(records[..KEEP], Without(back, gone));
      BackDistinct(records, KEEP);
      NothingNewAndNothingGone(back, gone, now, Total(records), Total(Without(records, gone)));
    }
  }

  // ---------------------------------------------------------------- deferred files

  /** Every deferred file is still due when all of them are counted: it has expired, or more
      than 5 GiB is left after the newer ones. */
  predicate StillDue(deferred: seq<Backup>, now: int, left: int) {
    forall i :: 0 <= i < |deferred| ==> Expired(deferred[i], now) || left - Total(deferred[..i]) > MAX_BYTES
  }

  lemma StillDueStep(deferred: seq<Backup>, now: int, left: int)
    requires deferred != []
    ensures StillDue(deferred, now, left)
            <==> Taken(deferred[0], now, left) && StillDue(deferred[1..], now, left - deferred[0].bytes)
  {
    var rest := deferred[1..];
    forall i | 0 <= i < |rest|
      ensures deferred[i + 1] == rest[i] && Total(deferred[..i + 1]) == deferred[0].bytes + Total(rest[..i])
    {
      assert deferred[..i + 1][1..] == rest[..i];
    }
    assert deferred[..0] == [];
    if StillDue(deferred, now, left) {
      forall i | 0 <= i < |rest|
        ensures Expired(rest[i], now) || left - deferred[0].bytes - Total(rest[..i]) > MAX_BYTES
      {
        assert Expired(deferred[i + 1], now) || left - Total(deferred[..i + 1]) > MAX_BYTES;
      }
    }
    if Taken(deferred[0], now, left) && StillDue(rest, now, left - deferred[0].bytes) {
      forall i | 0 <= i < |deferred| ensures Expired(deferred[i], now) || left - Total(deferred[..i]) > MAX_BYTES {
        if i > 0 {
          assert deferred[i] == rest[i - 1];
          assert Expired(rest[i - 1], now) || left - deferred[0].bytes - Total(rest[..i - 1]) > MAX_BYTES;
        }
      }
    }
  }

  /** The same, file by file. */
  predicate Due(deferred: seq<Backup>, now: int, left: int) {
    deferred == [] || (Taken(deferred[0], now, left) && Due(deferred[1..], now, left - deferred[0].bytes))
  }

  lemma {:induction false} DueMeans(deferred: seq<Backup>, now: int, left: int)
    ensures Due(deferred, now, left) <==> StillDue(deferred, now, left)
  {
    if deferred != [] {
      StillDueStep(deferred, now, left);
      DueMeans(deferred[1..], now, left - deferred[0].bytes);
    }
  }

  lemma FrontsCancel(b: Backup, x: seq<Backup>, y: seq<Backup>)
    ensures [b] + x == [b] + y <==> x == y
  {
    assert ([b] + x)[1..] == x && ([b] + y)[1..] == y;
  }

  lemma DueFront(b: Backup, rest: seq<Backup>, now: int, left: int)
    ensures Due([b] + rest, now, left) == (Taken(b, now, left) && Due(rest, now, left - b.bytes))
  {
    assert ([b] + rest)[1..] == rest;
  }

  lemma LeftOverStep(items: seq<Backup>, gone: set<string>, now: int, left: int)
    requires items != []
    ensures var b, rest := items[0], items[1..];
            LeftOver(items, gone, now, left)
              == var y := LeftOver(rest, gone, now, After(b, now, left));
                 if b.path in gone || !Taken(b, now, left) then y else [b] + y
  {
    if Taken(items[0], now, left) { WithoutFront(items[0], Eligible(items[1..], now, left - items[0].bytes), gone); }
  }

  lemma SecondAvoids(rest: seq<Backup>, gone: set<string>, now: int, least: int, b: Backup)
    requires b.path !in Paths(rest)
    ensures b !in Second(rest, gone, now, least)
  {
    EligibleAmong(Without(rest, gone), now, least);
    NotEligibleAgain(rest, gone);
  }

  lemma TakenCase(b: Backup, x: seq<Backup>, y: seq<Backup>, now: int, least: int)
    requires Taken(b, now, least) && (x == y <==> Due(y, now, least - b.bytes))
    ensures [b] + x == [b] + y <==> Due([b] + y, now, least)
  {
    FrontsCancel(b, x, y);
    DueFront(b, y, now, least);
  }

  lemma DroppedCase(b: Backup, x: seq<Backup>, y: seq<Backup>, now: int, least: int)
    requires b !in x && !Taken(b, now, least)
    ensures x != [b] + y && !Due([b] + y, now, least)
  {
    DueFront(b, y, now, least);
    assert b in [b] + y;
  }

  predicate Again(second: seq<Backup>, left: seq<Backup>, now: int, least: int) {
    second == left <==> Due(left, now, least)
  }

  /** Both lists with a file b before them, or not. */
  lemma OneAgain(b: Backup, x: seq<Backup>, y: seq<Backup>, gone: bool, now: int, left: int, least: int)
    requires b !in x && (!gone && !Taken(b, now, left) ==> !Taken(b, now, least))
    requires Again(x, y, now, if gone then least else After(b, now, least))
    ensures Again(if gone || !Taken(b, now, least) then x else [b] + x,
                  if gone || !Taken(b, now, left) then y else [b] + y, now, least)
  {
    if !gone && Taken(b, now, left) {
      if Taken(b, now, least) { TakenCase(b, x, y, now, least); } else { DroppedCase(b, x, y, now, least); }
    }
  }

  /** The second pass takes all that was eligible and is left exactly when that is still due. */
  lemma {:induction false} AllAgain(items: seq<Backup>, gone: set<string>, now: int, left: int, least: int)
    requires Passing(items, gone, now, left, least)
    ensures Again(Second(items, gone, now, least), LeftOver(items, gone, now, left), now, least)
  {
    if items != [] {
      var b := items[0];
      var later, least2 := After(b, now, left), if b.path in gone then least else After(b, now, least);
      PassingOn(items, gone, now, left, least);
      AllAgain(items[1..], gone, now, later, least2);
      SecondAvoids(items[1..], gone, now, least2, b);
      OneAgain(b, Second(items[1..], gone, now, least2), LeftOver(items[1..], gone, now, later), b.path in gone, now,
               left, least);
      SecondStep(items, gone, now, least);
      LeftOverStep(items, gone, now, left);
    }
  }

  /** Exactly when a new plan at the same clock makes eligible all that the last one did and
      that is left: every such file has expired, or more than 5 GiB is left in front of it. */
  lemma ReplanAllDeferred(records: seq<Backup>, now: int, gone: set<string>)
    requires Distinct(records) && gone <= Paths(EligibleIn(records, now))
    ensures var after := Without(records, gone);
            EligibleIn(after, now) == Without(EligibleIn(records, now), gone)
            <==> StillDue(Without(EligibleIn(records, now), gone), now, Total(after))
  {
    if |records| <= KEEP {
      assert gone == {};
      WithoutNone(records, gone);
    } else {
      var back := records[KEEP..];
      BeyondStays(records, now, gone);
      FrontFirst(records[..KEEP], Without(back, gone));
      BackDistinct(records, KEEP);
      AllAgain(back, gone, now, Total(records), Total(Without(records, gone)));
    }
    DueMeans(Without(EligibleIn(records, now), gone), now, Total(Without(records, gone)));
  }

  // ---------------------------------------------------------------- one batch

  /** The batch is some of the eligible files, within the limit, and nothing that is left out
      would still fit. */
  ghost predicate IsBatch(eligible: seq<Backup>, batch: seq<Backup>, deferred: seq<Backup>) {
    && Total(batch) <= MAX_APPLY_BYTES
    && (forall b :: b in batch ==> b in eligible)
    && (forall b :: b in eligible ==> b in batch || b in deferred)
    && (forall b :: b in deferred ==> b in eligible && b !in batch && Total(batch) + b.bytes > MAX_APPLY_BYTES)
  }

  datatype Error = RetainedInsufficient | RetainedUnverified | StalePlan | NoCandidates | CleanupFailed

  datatype Plan = Plan(
    id: string, candidates: seq<Backup>, candidateBytes: nat, deferred: seq<Backup>, retained: seq<Backup>)

  /** What planning rests on besides the files: which backups open soundly, and the digest
      that names a plan. */
  datatype Checks = Checks(sound: Backup -> bool, identify: (seq<Backup>, seq<Backup>) -> string)

  lemma {:induction false} TotalJoined(a: seq<Backup>, b: Backup)
    ensures Total(a + [b]) == Total(a) + b.bytes
  {
    if a == [] {
      assert a + [b] == [b];
    } else {
      assert (a + [b])[1..] == a[1..] + [b];
      TotalJoined(a[1..], b);
    }
  }

  /** sum of the sizes. */
  method Sum(items: seq<Backup>) returns (n: nat)
    ensures n == Total(items)
  {
    n := 0;
    for i := 0 to |items|
      invariant n == Total(items[..i])
    {
      TotalJoined(items[..i], items[i]);
      assert items[..i + 1] == items[..i] + [items[i]];
      n := n + items[i].bytes;
    }
    assert items[..|items|] == items;
  }

  // ---------------------------------------------------------------- the policy

  /** A file may go when it is older than seven days, or when more than 5 GiB would be left
      after all newer files that may go. */
  ghost predicate Policy(items: seq<Backup>, eligible: seq<Backup>, now: int, left: int) {
    forall k :: 0 <= k < |items| ==>
      (items[k].path in Paths(eligible)
       <==> Expired(items[k], now) || left - Total(Only(items[..k], Paths(eligible))) > MAX_BYTES)
  }

  lemma {:induction false} OnlyIrrelevant(items: seq<Backup>, these: set<string>, path: string)
    requires path !in Paths(items)
    ensures Only(items, these + {path}) == Only(items, these)
  {
    if items != [] { OnlyIrrelevant(items[1..], these, path); }
  }

  lemma OnlyStep(items: seq<Backup>, these: set<string>, k: nat)
    requires 0 < k <= |items|
    ensures Only(items[..k], these)
              == (if items[0].path in these then [items[0]] else []) + Only(items[1..][..k - 1], these)
  {
    assert items[..k][1..] == items[1..][..k - 1];
  }

  lemma {:induction false} EligibleMeans(items: seq<Backup>, now: int, left: int, k: nat)
    requires Distinct(items) && k < |items|
    ensures var these := Paths(Eligible(items, now, left));
            items[k].path in these
            <==> Expired(items[k], now) || left - Total(Only(items[..k], these)) > MAX_BYTES
  {
    var b, rest, these := items[0], items[1..], Paths(Eligible(items, now, left));
    var later := After(b, now, left);
    var others := Paths(Eligible(rest, now, later));
    EligibleStep(items, now, left);
    EligibleAmong(rest, now, later);
    PathsApart(rest, b.path);
    if k == 0 {
      assert items[..0] == [];
    } else {
      EligibleMeans(rest, now, later, k - 1);
      OnlyStep(items, these, k);
      PathsPart(rest, k - 1);
      assert items[k] == rest[k - 1] && rest[k - 1].path != b.path;
      if Taken(b, now, left) {
        assert these == others + {b.path};
        OnlyIrrelevant(rest[..k - 1], others, b.path);
        var only := Only(rest[..k - 1], these);
        assert ([b] + only)[1..] == only;
      } else {
        assert these == others;
        assert [] + Only(rest[..k - 1], these) == Only(rest[..k - 1], these);
      }
    }
  }

  lemma EligibleIsPolicy(items: seq<Backup>, now: int, left: int)
    requires Distinct(items)
    ensures Policy(items, Eligible(items, now, left), now, left)
  {
    forall k | 0 <= k < |items|
      ensures var these := Paths(Eligible(items, now, left));
              items[k].path in these
              <==> Expired(items[k], now) || left - Total(Only(items[..k], these)) > MAX_BYTES
    {
      EligibleMeans(items, now, left, k);
    }
  }

  /** Nothing may go exactly when no more than 5 GiB is left and no file has expired. */
  lemma {:induction false} NothingEligible(items: seq<Backup>, now: int, left: int)
    ensures Eligible(items, now, left) == []
            <==> items == [] || (left <= MAX_BYTES && forall i :: 0 <= i < |items| ==> !Expired(items[i], now))
  {
    if items != [] {
      var rest := items[1..];
      NothingEligible(rest, now, left);
      assert forall i :: 0 <= i < |rest| ==> rest[i] == items[i + 1];
      assert forall i :: 0 < i < |items| ==> items[i] == rest[i - 1];
    }
  }

  /** The pass of legacy_backup_cleanup_plan over everything beyond the newest three. */
  method SelectEligible(records: seq<Backup>, now: int) returns (eligible: seq<Backup>)
    requires Distinct(records)
    ensures eligible == EligibleIn(records, now)
    ensures Policy(Beyond(records), eligible, now, Total(records))
  {
    var left: int := Sum(records);
    var beyond := Beyond(records);
    eligible := [];
    ghost var rest := beyond;
    for i := 0 to |beyond|
      invariant rest == beyond[i..] && eligible + Eligible(rest, now, left) == EligibleIn(records, now)
    {
      assert rest[0] == beyond[i] && rest[1..] == beyond[i + 1..];
      if Expired(beyond[i], now) || left > MAX_BYTES {
        eligible := eligible + [beyond[i]];
        left := left - beyond[i].bytes;
      }
      rest := rest[1..];
    }
    assert eligible + [] == eligible;
    if |records| > KEEP { BackDistinct(records, KEEP); }
    EligibleIsPolicy(beyond, now, Total(records));
  }

  /** The files that fit, taken from the oldest on. */
  function Fit(eligible: seq<Backup>, batch: seq<Backup>): seq<Backup> {
    if eligible == [] then batch
    else
      var oldest := eligible[|eligible| - 1];
      Fit(eligible[..|eligible| - 1],
          if Total(batch) + oldest.bytes <= MAX_APPLY_BYTES then batch + [oldest] else batch)
  }

  method SelectBatch(eligible: seq<Backup>) returns (batch: seq<Backup>, bytes: nat)
    ensures batch == Fit(eligible, []) && bytes == Total(batch)
  {
    batch, bytes := [], 0;
    assert eligible[..|eligible|] == eligible;
    for i := |eligible| downto 0
      invariant bytes == Total(batch) && Fit(eligible[..i], batch) == Fit(eligible, [])
    {
      assert eligible[..i + 1][..i] == eligible[..i];
      if bytes + eligible[i].bytes <= MAX_APPLY_BYTES {
        TotalJoined(batch, eligible[i]);
        batch := batch + [eligible[i]];
        bytes := bytes + eligible[i].bytes;
      }
    }
  }

  lemma {:induction false} FitIsBatch(eligible: seq<Backup>, batch: seq<Backup>)
    requires Total(batch) <= MAX_APPLY_BYTES
    ensures var all := Fit(eligible, batch);
            && Total(batch) <= Total(all) <= MAX_APPLY_BYTES && batch <= all
            && (forall b :: b in all ==> b in batch || b in eligible)
            && (forall b :: b in eligible && b !in all ==> Total(all) + b.bytes > MAX_APPLY_BYTES)
  {
    if eligible != [] {
      var oldest := eligible[|eligible| - 1];
      TotalJoined(batch, oldest);
      assert oldest in batch + [oldest];
      FitIsBatch(eligible[..|eligible| - 1],
                 if Total(batch) + oldest.bytes <= MAX_APPLY_BYTES then batch + [oldest] else batch);
      assert eligible == eligible[..|eligible| - 1] + [oldest];
    }
  }

  function Deferred(eligible: seq<Backup>): seq<Backup> { Without(eligible, Paths(Fit(eligible, []))) }

  lemma FitDefers(eligible: seq<Backup>)
    requires Distinct(eligible)
    ensures IsBatch(eligible, Fit(eligible, []), Deferred(eligible))
  {
    FitIsBatch(eligible, []);
    WithoutMembers(eligible, Paths(Fit(eligible, [])));
    DeferredApart(eligible, Fit(eligible, []));
  }

  /** legacy_backup_cleanup_plan, on an inventory with the newest first. */
  method MakePlan(records: seq<Backup>, now: int, c: Checks) returns (r: Result<Plan, Error>)
    requires Distinct(records)
    ensures r.Failure? <==> (0 < |records| < KEEP) || exists i :: 0 <= i < |records| && i < KEEP && !c.sound(records[i])
    ensures r.Success? ==>
              && IsBatch(EligibleIn(records, now), r.value.candidates, r.value.deferred)
              && r.value.candidates == Fit(EligibleIn(records, now), [])
              && r.value.candidateBytes == Total(r.value.candidates)
              && r.value.retained == records[..Min(KEEP, |records|)]
              && r.value.id == c.identify(r.value.candidates, r.value.retained)
  {
    if 0 < |records| < KEEP { return Failure(RetainedInsufficient); }
    var kept := Min(KEEP, |records|);
    for i := 0 to kept
      invariant forall j :: 0 <= j < i ==> c.sound(records[j])
    {
      if !c.sound(records[i]) { return Failure(RetainedUnverified); }
    }
    var eligible := SelectEligible(records, now);
    var batch, bytes := SelectBatch(eligible);
    var deferred := Without(eligible, Paths(batch));
    EligibleDistinct(Beyond(records), now, Total(records));
    FitDefers(eligible);
    r := Success(Plan(c.identify(batch, records[..kept]), batch, bytes, deferred, records[..kept]));
  }

  lemma DeferredApart(eligible: seq<Backup>, batch: seq<Backup>)
    requires Distinct(eligible) && forall b :: b in batch ==> b in eligible
    ensures forall b :: b in eligible ==> (b.path in Paths(batch) <==> b in batch)
  {
    forall b | b in eligible && b.path in Paths(batch) ensures b in batch {
      PathsKnown(batch, b.path);
      var i :| 0 <= i < |batch| && batch[i].path == b.path;
      assert batch[i] in eligible;
    }
  }

  lemma {:induction false} EligibleDistinct(items: seq<Backup>, now: int, left: int)
    requires Distinct(items)
    ensures Distinct(Eligible(items, now, left))
  {
    if items != [] {
      var rest := items[1..];
      EligibleDistinct(rest, now, After(items[0], now, left));
      forall x | x in rest ensures x.path != items[0].path {
        var i :| 0 <= i < |rest| && rest[i] == x;
        assert items[i + 1] == x;
      }
    }
  }

  // ---------------------------------------------------------------- applying batches

  /** The directory of the backups, listed with the newest first. */
  class BackupDirectory {
    var records: seq<Backup>

    ghost predicate Valid() reads this { Distinct(records) }

    constructor (records: seq<Backup>)
      requires Distinct(records)
      ensures Valid() && this.records == records
    {
      this.records := records;
    }

    /** unlink, which may fail. */
    method Remove(path: string) returns (ok: bool)
      requires Valid()
      modifies this
      ensures Valid() && records == if ok then Without(old(records), {path}) else old(records)
    {
      ok := *;
      if ok {
        WithoutDistinct(records, {path});
        records := Without(records, {path});
      }
    }

    /** One unlink, after the files in removed. */
    method RemoveNext(item: Backup, ghost start: seq<Backup>, ghost removed: seq<Backup>) returns (ok: bool)
      requires Valid() && records == Without(start, Paths(removed))
      modifies this
      ensures Valid() && records == Without(start, Paths(if ok then removed + [item] else removed))
    {
      RemovedOne(start, removed, item);
      ok := Remove(item.path);
    }

    /** The unlinks of a batch, up to the first that fails. */
    method RemoveAll(candidates: seq<Backup>) returns (removed: seq<Backup>)
      requires Valid()
      modifies this
      ensures Valid() && records == Without(old(records), Paths(removed))
      ensures removed <= candidates
    {
      removed := [];
      ghost var start := records;
      WithoutNone(records, {});
      for i := 0 to |candidates|
        invariant Valid() && |removed| == i && removed <= candidates && records == Without(start, Paths(removed))
      {
        var ok := RemoveNext(candidates[i], start, removed);
        if !ok { return; }
        removed := removed + [candidates[i]];
      }
    }

    /** apply_legacy_backup_cleanup: a fresh plan must be the one that was approved. */
    method Apply(id: string, now: int, c: Checks) returns (r: Result<Plan, Error>, removed: seq<Backup>)
      requires Valid()
      modifies this
      ensures Valid() && records == Without(old(records), Paths(removed))
      ensures removed <= Fit(EligibleIn(old(records), now), [])
      ensures r.Success? ==> r.value.id == id && removed == r.value.candidates == Fit(EligibleIn(old(records), now), [])
      ensures r.Success? ==> removed != []
      ensures r.Failure? && r.error != CleanupFailed ==> removed == []
    {
      removed := [];
      WithoutNone(records, {});
      var plan := MakePlan(records, now, c);
      if plan.Failure? { return Failure(plan.error), removed; }
      if plan.value.id != id { return Failure(StalePlan), removed; }
      if plan.value.candidates == [] { return Failure(NoCandidates), removed; }
      removed := RemoveAll(plan.value.candidates);
      r := if removed == plan.value.candidates then plan else Failure(CleanupFailed);
    }
  }

  lemma {:induction false} WithoutDistinct(items: seq<Backup>, gone: set<string>)
    requires Distinct(items)
    ensures Distinct(Without(items, gone))
  {
    if items != [] {
      var rest := items[1..];
      WithoutDistinct(rest, gone);
      WithoutMembers(rest, gone);
      forall x | x in rest ensures x.path != items[0].path {
        var i :| 0 <= i < |rest| && rest[i] == x;
        assert items[i + 1] == x;
      }
    }
  }

  lemma {:induction false} WithoutTwice(items: seq<Backup>, gone: set<string>, more: set<string>)
    ensures Without(Without(items, gone), more) == Without(items, gone + more)
  {
    if items != [] {
      WithoutTwice(items[1..], gone, more);
      WithoutStep(items, gone);
      WithoutStep(items, gone + more);
      if items[0].path !in gone {
        var w := Without(items, gone);
        assert w[1..] == Without(items[1..], gone);
        WithoutStep(w, more);
      }
    }
  }

  lemma RemovedOne(items: seq<Backup>, removed: seq<Backup>, b: Backup)
    ensures Without(Without(items, Paths(removed)), {b.path}) == Without(items, Paths(removed + [b]))
  {
    WithoutTwice(items, Paths(removed), {b.path});
    PathsOne(removed, b);
  }

  lemma {:induction false} PathsOne(items: seq<Backup>, b: Backup)
    ensures Paths(items + [b]) == Paths(items) + {b.path}
  {
    PathsPart(items + [b], |items|);
    assert (items + [b])[..|items|] == items && (items + [b])[|items|..] == [b];
  }

  lemma {:induction false} PathsWithin(items: seq<Backup>, all: seq<Backup>)
    requires forall b :: b in items ==> b in all
    ensures Paths(items) <= Paths(all)
  {
    if items != [] { PathsWithin(items[1..], all); }
  }

  lemma {:induction false} TotalPrefix(items: seq<Backup>, i: nat)
    requires i <= |items|
    ensures Total(items[..i]) <= Total(items)
  {
    if i > 0 {
      assert items[..i][1..] == items[1..][..i - 1];
      TotalPrefix(items[1..], i - 1);
    }
  }

  function Small(path: string, now: int): Backup { Backup(path, 0, now, 0, 0) }

  function Three(now: int): Backup { Backup("d", 3 * GIB, now, 0, 0) }

  function Eighteen(now: int): Backup { Backup("e", 18 * GIB, now, 0, 0) }

  function Kept(now: int): seq<Backup> { [Small("a", now), Small("b", now), Small("c", now)] }

  lemma KeptIsSmall(now: int, back: seq<Backup>)
    ensures Total(Kept(now) + back) == Total(back) && Paths(Kept(now)) == {"a", "b", "c"}
    ensures |Kept(now)| == KEEP && Beyond(Kept(now) + back) == back
  {
    var a, b, c := Small("a", now), Small("b", now), Small("c", now);
    TotalFront(c, back);
    TotalFront(b, [c] + back);
    TotalFront(a, [b] + ([c] + back));
    assert Kept(now) + back == [a] + ([b] + ([c] + back));
    TotalFront(c, []);
    TotalFront(b, [c]);
    TotalFront(a, [b, c]);
    assert [c] + [] == [c] && [b] + [c] == [b, c] && [a] + [b, c] == Kept(now);
  }

  lemma TwoTotals(now: int)
    ensures var d, o := Three(now), Eighteen(now);
            Total([d, o]) == 21 * GIB && Total([d]) == 3 * GIB && Total([o]) == 18 * GIB && Paths([o]) == {"e"}
  {
    var d, o := Three(now), Eighteen(now);
    TotalFront(o, []);
    TotalFront(d, []);
    TotalFront(d, [o]);
    assert [o] + [] == [o] && [d] + [] == [d] && [d] + [o] == [d, o];
  }

  lemma TwoEligible(now: int)
    ensures var d, o := Three(now), Eighteen(now);
            Eligible([d, o], now, 21 * GIB) == [d, o] && Eligible([d], now, 3 * GIB) == []
  {
    var d, o := Three(now), Eighteen(now);
    EligibleFront(o, [], now, 18 * GIB);
    EligibleFront(d, [o], now, 21 * GIB);
    EligibleFront(d, [], now, 3 * GIB);
    assert [o] + [] == [o] && [d] + [] == [d] && [d] + [o] == [d, o];
  }

  lemma TwoFit(now: int)
    ensures var d, o := Three(now), Eighteen(now);
            Fit([d, o], []) == [o] && Without([d, o], {"e"}) == [d]
  {
    var d, o := Three(now), Eighteen(now);
    TwoTotals(now);
    assert [d, o][..1] == [d] && [d][..0] == [] && [] + [o] == [o];
    assert Fit([d], [o]) == [o];
    WithoutFront(o, [], {"e"});
    WithoutFront(d, [o], {"e"});
    assert [o] + [] == [o] && [d] + [o] == [d, o];
  }

  lemma FirstPlan(now: int)
    ensures EligibleIn(Kept(now) + [Three(now), Eighteen(now)], now) == [Three(now), Eighteen(now)]
  {
    KeptIsSmall(now, [Three(now), Eighteen(now)]);
    TwoTotals(now);
    TwoEligible(now);
  }

  lemma SecondPlan(now: int)
    ensures EligibleIn(Kept(now) + [Three(now)], now) == []
  {
    KeptIsSmall(now, [Three(now)]);
    TwoTotals(now);
    TwoEligible(now);
  }

  lemma BigOneGone(now: int)
    ensures Without(Kept(now) + [Three(now), Eighteen(now)], {"e"}) == Kept(now) + [Three(now)]
  {
    KeptIsSmall(now, []);
    assert {"e"} * {"a", "b", "c"} == {};
    FrontStays(Kept(now), [Three(now), Eighteen(now)], {"e"});
    TwoFit(now);
  }

  lemma FiveDistinct(now: int)
    ensures Distinct(Kept(now) + [Three(now), Eighteen(now)])
  {
    var all := Kept(now) + [Three(now), Eighteen(now)];
    assert all == [Small("a", now), Small("b", now), Small("c", now), Three(now), Eighteen(now)];
  }

  /** A deferred file need not be eligible any more: when the batch with 18 GiB has gone, the
      3 GiB that were deferred are within the limit. */
  lemma DeferredNeedNotStay(now: int)
    ensures var records := Kept(now) + [Three(now), Eighteen(now)];
            && Distinct(records)
            && EligibleIn(records, now) == [Three(now), Eighteen(now)]
            && Fit(EligibleIn(records, now), []) == [Eighteen(now)]
            && EligibleIn(Without(records, Paths([Eighteen(now)])), now) == []
  {
    FiveDistinct(now);
    FirstPlan(now);
    TwoFit(now);
    TwoTotals(now);
    BigOneGone(now);
    SecondPlan(now);
  }

  /** Applying any part of a batch removes at most 20 GiB, keeps the newest three, and makes
      nothing eligible that was not deferred or left over. */
  lemma BatchApplied(records: seq<Backup>, now: int, removed: seq<Backup>)
    requires Distinct(records) && removed <= Fit(EligibleIn(records, now), [])
    ensures var after := Without(records, Paths(removed));
            && Total(removed) <= MAX_APPLY_BYTES
            && Paths(EligibleIn(after, now)) <= Paths(EligibleIn(records, now)) - Paths(removed)
            && (|records| >= KEEP ==> |after| >= KEEP && after[..KEEP] == records[..KEEP])
  {
    var batch := Fit(EligibleIn(records, now), []);
    FitIsBatch(EligibleIn(records, now), []);
    TotalPrefix(batch, |removed|);
    PathsWithin(batch, EligibleIn(records, now));
    PathsPart(batch, |removed|);
    assert batch[..|removed|] == removed;
    ReplanOnlyDeferred(records, now, Paths(removed));
  }

  lemma {:induction false} SomethingGoes(items: seq<Backup>, gone: set<string>)
    requires gone * Paths(items) != {}
    ensures |Without(items, gone)| < |items|
  {
    WithoutStep(items, gone);
    if items[0].path !in gone { SomethingGoes(items[1..], gone); }
  }

  lemma BatchShrinks(records: seq<Backup>, now: int)
    requires Fit(EligibleIn(records, now), []) != []
    ensures |Without(records, Paths(Fit(EligibleIn(records, now), [])))| < |records|
  {
    var batch := Fit(EligibleIn(records, now), []);
    FitIsBatch(EligibleIn(records, now), []);
    var first := batch[0];
    assert first in batch && first in Beyond(records) && first in records;
    assert first.path in Paths(batch) * Paths(records);
    SomethingGoes(records, Paths(batch));
  }

  /** Plan and apply over and over at one clock, until a plan has no candidates. */
  ghost function Settled(records: seq<Backup>, now: int): seq<Backup>
    decreases |records|
  {
    var batch := Fit(EligibleIn(records, now), []);
    if batch == [] then records
    else
      BatchShrinks(records, now);
      Settled(Without(records, Paths(batch)), now)
  }

  /** A directory that satisfies the retention policy: beyond the newest three nothing has
      expired, and if there is anything, all files together have at most 5 GiB. */
  ghost predicate WithinPolicy(records: seq<Backup>, now: int) {
    |records| > KEEP ==> Total(records) <= MAX_BYTES && forall i :: KEEP <= i < |records| ==> !Expired(records[i], now)
  }

  lemma NothingEligibleIn(records: seq<Backup>, now: int)
    ensures EligibleIn(records, now) == [] <==> WithinPolicy(records, now)
  {
    var beyond := Beyond(records);
    NothingEligible(beyond, now, Total(records));
    if |records| > KEEP {
      assert forall i :: KEEP <= i < |records| ==> records[i] == beyond[i - KEEP];
      assert forall i :: 0 <= i < |beyond| ==> beyond[i] == records[i + KEEP];
    }
  }

  /** Nothing has gone that was not eligible, the newest three are still there, and nothing
      else has become eligible. */
  ghost predicate Leads(records: seq<Backup>, end: seq<Backup>, now: int) {
    && (|records| >= KEEP ==> |end| >= KEEP && end[..KEEP] == records[..KEEP])
    && (forall b :: b in end ==> b in records)
    && Paths(records) - Paths(EligibleIn(records, now)) <= Paths(end) <= Paths(records)
    && Paths(EligibleIn(end, now)) <= Paths(EligibleIn(records, now))
  }

  lemma LeadsOn(a: seq<Backup>, b: seq<Backup>, c: seq<Backup>, now: int)
    requires Leads(a, b, now) && Leads(b, c, now)
    ensures Leads(a, c, now)
  {
  }

  lemma BatchLeads(records: seq<Backup>, now: int)
    requires Distinct(records)
    ensures var after := Without(records, Paths(Fit(EligibleIn(records, now), [])));
            Leads(records, after, now) && Distinct(after)
  {
    var batch := Fit(EligibleIn(records, now), []);
    FitIsBatch(EligibleIn(records, now), []);
    BatchApplied(records, now, batch);
    WithoutDistinct(records, Paths(batch));
    WithoutMembers(records, Paths(batch));
    NotEligibleAgain(records, Paths(batch));
    PathsWithin(batch, EligibleIn(records, now));
  }

  /** Over and over, the batches end with nothing eligible but what is too big for any batch. */
  lemma {:induction false} BatchesConverge(records: seq<Backup>, now: int)
    requires Distinct(records)
    ensures var end := Settled(records, now);
            Leads(records, end, now) && forall b :: b in EligibleIn(end, now) ==> b.bytes > MAX_APPLY_BYTES
    decreases |records|
  {
    var batch := Fit(EligibleIn(records, now), []);
    if batch == [] {
      FitIsBatch(EligibleIn(records, now), []);
    } else {
      var after := Without(records, Paths(batch));
      BatchShrinks(records, now);
      BatchLeads(records, now);
      BatchesConverge(after, now);
      LeadsOn(records, after, Settled(after, now), now);
    }
  }

  lemma BeyondAmong(records: seq<Backup>)
    ensures forall b :: b in Beyond(records) ==> b in records
  {
  }

  lemma SomeMember(items: seq<Backup>)
    requires items != []
    ensures exists b :: b in items
  {
    assert items[0] in items;
  }

  /** With no file over 20 GiB the batches end with a directory within the policy. */
  lemma BatchesReachPolicy(records: seq<Backup>, now: int)
    requires Distinct(records) && forall b :: b in records ==> b.bytes <= MAX_APPLY_BYTES
    ensures WithinPolicy(Settled(records, now), now)
  {
    var end := Settled(records, now);
    BatchesConverge(records, now);
    BeyondAmong(end);
    var eligible := EligibleIn(end, now);
    if eligible != [] { SomeMember(eligible); }
    NothingEligibleIn(end, now);
  }
}
