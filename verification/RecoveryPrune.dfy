/** Pruning of the recovery sets of flowdocs/core/emergency_recovery.py. */
module RecoveryPrune {
  import opened Common

  /** A published set; bytes is what its databases come to. */
  datatype RecoverySet = RecoverySet(id: string, created: int, bytes: nat, held: bool)

  datatype Limits = Limits(keep: int, maxAge: int, maxBytes: int)

  datatype Plan = Plan(
    candidates: seq<RecoverySet>, guarded: seq<RecoverySet>, remaining: int, blocked: bool)

  function Total(items: seq<RecoverySet>): nat {
    if items == [] then 0 else Total(items[..|items| - 1]) + items[|items| - 1].bytes
  }

  predicate Distinct(items: seq<RecoverySet>) { forall i, j :: 0 <= i < j < |items| ==> items[i].id != items[j].id }

  predicate Guarded(item: RecoverySet, index: nat, l: Limits) { item.held || index < l.keep }

  predicate Expired(item: RecoverySet, l: Limits, now: int) { item.created < now - l.maxAge }

  datatype Tally = Tally(candidates: seq<RecoverySet>, guarded: seq<RecoverySet>, kept: seq<RecoverySet>, left: int)

  function Add(t: Tally, item: RecoverySet, index: nat, l: Limits, now: int): Tally {
    if Guarded(item, index, l) then t.(guarded := t.guarded + [item])
    else if Expired(item, l, now) || t.left > l.maxBytes then
      t.(candidates := t.candidates + [item], left := t.left - item.bytes)
    else t.(kept := t.kept + [item])
  }

  /** What the loop has settled for the first sets, given how much is left. */
  function Judge(records: seq<RecoverySet>, l: Limits, now: int, total: int): (t: Tally)
    ensures t.left == total - Total(t.candidates)
  {
    if records == [] then Tally([], [], [], total)
    else
      var n := |records| - 1;
      var t := Judge(records[..n], l, now, total);
      assert (t.candidates + [records[n]])[..|t.candidates|] == t.candidates;
      Add(t, records[n], n, l, now)
  }

  lemma TotalOne(items: seq<RecoverySet>, item: RecoverySet)
    ensures Total(items + [item]) == Total(items) + item.bytes
  {
    assert (items + [item])[..|items|] == items;
  }

  ghost predicate Accounts(t: Tally, records: seq<RecoverySet>) {
    && Total(records) == Total(t.candidates) + Total(t.guarded) + Total(t.kept)
    && (forall r :: r in records <==> r in t.candidates || r in t.guarded || r in t.kept)
  }

  lemma InOne(items: seq<RecoverySet>, item: RecoverySet)
    ensures forall r :: r in items + [item] <==> r in items || r == item
  {
  }

  lemma AddAccounts(t: Tally, item: RecoverySet, records: seq<RecoverySet>, l: Limits, now: int, index: nat)
    requires Accounts(t, records)
    ensures Accounts(Add(t, item, index, l, now), records + [item])
  {
    TotalOne(records, item);
    InOne(records, item);
    if Guarded(item, index, l) {
      TotalOne(t.guarded, item);
      InOne(t.guarded, item);
    } else if Expired(item, l, now) || t.left > l.maxBytes {
      TotalOne(t.candidates, item);
      InOne(t.candidates, item);
    } else {
      TotalOne(t.kept, item);
      InOne(t.kept, item);
    }
  }

  /** Every set is a candidate, guarded, or kept for now, and so are all the bytes. */
  lemma {:induction false} JudgeSplits(records: seq<RecoverySet>, l: Limits, now: int, total: int)
    ensures Accounts(Judge(records, l, now, total), records)
  {
    if records != [] {
      var n := |records| - 1;
      JudgeSplits(records[..n], l, now, total);
      AddAccounts(Judge(records[..n], l, now, total), records[n], records[..n], l, now, n);
      assert records == records[..n] + [records[n]];
    }
  }

  /** A set was kept only when no more than the limit was left. */
  lemma {:induction false} KeptMeansRoom(records: seq<RecoverySet>, l: Limits, now: int, total: int)
    ensures var t := Judge(records, l, now, total); t.kept != [] ==> t.left <= l.maxBytes
    ensures Judge(records, l, now, total).left <= total
  {
    if records != [] { KeptMeansRoom(records[..|records| - 1], l, now, total); }
  }

  /** The plan is blocked exactly when what remains is over the limit. */
  lemma BlockedExactly(records: seq<RecoverySet>, l: Limits, now: int)
    ensures var t := Judge(records, l, now, Total(records));
            && t.left + Total(t.candidates) == Total(records)
            && (Total(t.guarded) > l.maxBytes <==> t.left > l.maxBytes)
  {
    JudgeSplits(records, l, now, Total(records));
    KeptMeansRoom(records, l, now, Total(records));
    assert Total([]) == 0;
  }

  method Sum(items: seq<RecoverySet>) returns (n: nat)
    ensures n == Total(items)
  {
    n := 0;
    for i := 0 to |items|
      invariant n == Total(items[..i])
    {
      TotalOne(items[..i], items[i]);
      assert items[..i + 1] == items[..i] + [items[i]];
      n := n + items[i].bytes;
    }
    assert items[..|items|] == items;
  }

  /** plan_prune, with the newest set first. */
  method PlanPrune(records: seq<RecoverySet>, l: Limits, now: int) returns (p: Plan)
    ensures var t := Judge(records, l, now, Total(records));
            p == Plan(t.candidates, t.guarded, t.left, Total(t.guarded) > l.maxBytes)
    ensures p.remaining + Total(p.candidates) == Total(records)
    ensures p.blocked <==> p.remaining > l.maxBytes
  {
    var sum := Sum(records);
    var total: int := sum;
    var candidates: seq<RecoverySet>, guarded: seq<RecoverySet> := [], [];
    for i := 0 to |records|
      invariant var t := Judge(records[..i], l, now, sum);
                candidates == t.candidates && guarded == t.guarded && total == t.left
    {
      assert records[..i + 1][..i] == records[..i];
      if Guarded(records[i], i, l) {
        guarded := guarded + [records[i]];
      } else if Expired(records[i], l, now) || total > l.maxBytes {
        candidates := candidates + [records[i]];
        total := total - records[i].bytes;
      }
    }
    assert records[..|records|] == records;
    BlockedExactly(records, l, now);
    var guardedBytes := Sum(guarded);
    p := Plan(candidates, guarded, total, guardedBytes > l.maxBytes);
  }

  lemma CandidatesLast(records: seq<RecoverySet>, l: Limits, now: int, total: int)
    requires records != []
    ensures var n := |records| - 1;
            var t := Judge(records[..n], l, now, total).candidates;
            && Judge(records, l, now, total).candidates <= t + [records[n]]
            && (Guarded(records[n], n, l) ==> Judge(records, l, now, total).candidates == t)
  {
  }

  /** Held sets and the newest ones are never candidates. */
  lemma {:induction false} GuardedStay(records: seq<RecoverySet>, l: Limits, now: int, total: int, i: nat)
    requires Distinct(records) && i < |records| && Guarded(records[i], i, l)
    ensures records[i] !in Judge(records, l, now, total).candidates
  {
    var n := |records| - 1;
    CandidatesLast(records, l, now, total);
    if i < n {
      GuardedStay(records[..n], l, now, total, i);
      assert records[n] != records[i];
    } else {
      JudgeSplits(records[..n], l, now, total);
      assert records[n] !in records[..n];
    }
  }

  // ---------------------------------------------------------------- after the pruning

  function Ids(items: seq<RecoverySet>): set<string> {
    if items == [] then {} else Ids(items[..|items| - 1]) + {items[|items| - 1].id}
  }

  function Without(items: seq<RecoverySet>, gone: set<string>): (r: seq<RecoverySet>)
    ensures |r| <= |items|
  {
    if items == [] then []
    else
      var last := items[|items| - 1];
      Without(items[..|items| - 1], gone) + if last.id in gone then [] else [last]
  }

  lemma {:induction false} IdsKnown(items: seq<RecoverySet>, id: string)
    ensures id in Ids(items) <==> exists i :: 0 <= i < |items| && items[i].id == id
  {
    if items != [] {
      var n := |items| - 1;
      IdsKnown(items[..n], id);
      if exists i :: 0 <= i < n && items[..n][i].id == id {
        var i :| 0 <= i < n && items[..n][i].id == id;
        assert items[i].id == id;
      }
      if i :| 0 <= i < |items| && items[i].id == id {
        if i < n { assert items[..n][i].id == id; }
      }
    }
  }

  /** gone names the candidates among these sets. */
  predicate Names(records: seq<RecoverySet>, t: Tally, gone: set<string>) {
    forall i :: 0 <= i < |records| ==> (records[i].id in gone <==> records[i] in t.candidates)
  }

  lemma NamesEarlier(records: seq<RecoverySet>, l: Limits, now: int, total: int, gone: set<string>)
    requires records != [] && Distinct(records) && Names(records, Judge(records, l, now, total), gone)
    ensures var n := |records| - 1;
            var t := Judge(records[..n], l, now, total);
            && Names(records[..n], t, gone)
            && (records[n].id in gone <==>
                  !Guarded(records[n], n, l) && (Expired(records[n], l, now) || t.left > l.maxBytes))
  {
    var n := |records| - 1;
    var t := Judge(records[..n], l, now, total);
    JudgeSplits(records[..n], l, now, total);
    assert records[n] !in records[..n];
    assert forall i :: 0 <= i < n ==> records[i] != records[n];
  }

  lemma StillNothing(w: seq<RecoverySet>, item: RecoverySet, l: Limits, now: int, left: int)
    requires Judge(w, l, now, left).candidates == []
    requires Guarded(item, |w|, l) || (!Expired(item, l, now) && left <= l.maxBytes)
    ensures Judge(w + [item], l, now, left).candidates == []
  {
    assert (w + [item])[..|w|] == w && (w + [item])[|w|] == item;
  }

  lemma WithoutLast(records: seq<RecoverySet>, gone: set<string>)
    requires records != []
    ensures var n := |records| - 1;
            Without(records, gone)
              == if records[n].id in gone then Without(records[..n], gone)
                 else Without(records[..n], gone) + [records[n]]
  {
  }

  lemma JudgeLast(records: seq<RecoverySet>, l: Limits, now: int, total: int)
    requires records != []
    ensures var n := |records| - 1;
            Judge(records, l, now, total).left <= Judge(records[..n], l, now, total).left
  {
  }

  /** A new plan for what is left of the sets, at the same clock, has no candidates. */
  lemma {:induction false} NothingMore(records: seq<RecoverySet>, l: Limits, now: int, total: int, gone: set<string>,
                                       left: int)
    requires Distinct(records) && Names(records, Judge(records, l, now, total), gone)
    requires left <= Judge(records, l, now, total).left
    ensures Judge(Without(records, gone), l, now, left).candidates == []
  {
    if records != [] {
      var n := |records| - 1;
      NamesEarlier(records, l, now, total, gone);
      JudgeLast(records, l, now, total);
      WithoutLast(records, gone);
      NothingMore(records[..n], l, now, total, gone, left);
      if records[n].id !in gone { StillNothing(Without(records[..n], gone), records[n], l, now, left); }
    }
  }

  lemma TallyLast(records: seq<RecoverySet>, l: Limits, now: int, total: int, gone: set<string>)
    requires records != [] && Distinct(records) && Names(records, Judge(records, l, now, total), gone)
    ensures var n := |records| - 1;
            var t := Judge(records[..n], l, now, total).candidates;
            Judge(records, l, now, total).candidates == if records[n].id in gone then t + [records[n]] else t
  {
    NamesEarlier(records, l, now, total, gone);
  }

  lemma {:induction false} WhatRemains(records: seq<RecoverySet>, l: Limits, now: int, total: int, gone: set<string>)
    requires Distinct(records) && Names(records, Judge(records, l, now, total), gone)
    ensures Total(Without(records, gone)) + Total(Judge(records, l, now, total).candidates) == Total(records)
  {
    if records != [] {
      var n := |records| - 1;
      NamesEarlier(records, l, now, total, gone);
      TallyLast(records, l, now, total, gone);
      WithoutLast(records, gone);
      WhatRemains(records[..n], l, now, total, gone);
      if records[n].id in gone {
        TotalOne(Judge(records[..n], l, now, total).candidates, records[n]);
      } else {
        TotalOne(Without(records[..n], gone), records[n]);
      }
    }
  }

  lemma CandidatesNamed(records: seq<RecoverySet>, l: Limits, now: int, total: int)
    requires Distinct(records)
    ensures var t := Judge(records, l, now, total); Names(records, t, Ids(t.candidates))
  {
    var t := Judge(records, l, now, total);
    JudgeSplits(records, l, now, total);
    forall i | 0 <= i < |records| ensures records[i].id in Ids(t.candidates) <==> records[i] in t.candidates {
      IdsKnown(t.candidates, records[i].id);
      if k :| 0 <= k < |t.candidates| && t.candidates[k].id == records[i].id {
        assert t.candidates[k] in records;
      }
    }
  }

  /** Pruning is done in one go: afterwards as many bytes are left as the plan said, and a
      new plan at the same clock finds nothing to remove. */
  lemma PruneSettles(records: seq<RecoverySet>, l: Limits, now: int)
    requires Distinct(records)
    ensures var t := Judge(records, l, now, Total(records));
            var after := Without(records, Ids(t.candidates));
            Total(after) == t.left && Judge(after, l, now, Total(after)).candidates == []
  {
    var t := Judge(records, l, now, Total(records));
    CandidatesNamed(records, l, now, Total(records));
    WhatRemains(records, l, now, Total(records), Ids(t.candidates));
    NothingMore(records, l, now, Total(records), Ids(t.candidates), t.left);
  }

  datatype Error = StalePrunePlan | UnsafePath | RemovalFailed

  /** The directory of the published sets, the newest first. */
  class SetDirectory {
    var records: seq<RecoverySet>

    ghost predicate Valid() reads this { Distinct(records) }

    constructor (records: seq<RecoverySet>)
      requires Distinct(records)
      ensures Valid() && this.records == records
    {
      this.records := records;
    }

    /** rmtree, which may fail. */
    method Remove(id: string) returns (ok: bool)
      requires Valid()
      modifies this
      ensures Valid() && records == if ok then Without(old(records), {id}) else old(records)
    {
      ok := *;
      if ok {
        WithoutDistinct(records, {id});
        records := Without(records, {id});
      }
    }

    /** One removal, after the sets in removed.  links says which directories have become links. */
    method RemoveNext(item: RecoverySet, links: set<string>, ghost start: seq<RecoverySet>,
                      ghost removed: seq<RecoverySet>)
      returns (failed: Option<Error>)
      requires Valid() && records == Without(start, Ids(removed))
      modifies this
      ensures Valid() && (failed.Some? ==> records == old(records) && failed.value != StalePrunePlan)
      ensures failed.None? ==> records == Without(start, Ids(removed + [item]))
    {
      if item.id in links { return Some(UnsafePath); }
      RemovedOne(start, removed, item);
      var ok := Remove(item.id);
      failed := if ok then None else Some(RemovalFailed);
    }

    /** The removals, up to the first that is refused or fails. */
    method RemoveAll(candidates: seq<RecoverySet>, links: set<string>)
      returns (r: Result<(), Error>, removed: seq<RecoverySet>)
      requires Valid()
      modifies this
      ensures Valid() && records == Without(old(records), Ids(removed)) && removed <= candidates
      ensures r.Success? ==> removed == candidates
      ensures r.Failure? ==> r.error != StalePrunePlan
    {
      removed := [];
      ghost var start := records;
      WithoutNone(records);
      for i := 0 to |candidates|
        invariant Valid() && |removed| == i && removed <= candidates && records == Without(start, Ids(removed))
      {
        var failed := RemoveNext(candidates[i], links, start, removed);
        if failed.Some? { return Failure(failed.value), removed; }
        removed := removed + [candidates[i]];
      }
      r := Success(());
    }

    /** apply_prune: the removals of a fresh plan that is the one approved. */
    method ApplyPrune(id: string, l: Limits, now: int, identify: Plan -> string, links: set<string>)
      returns (r: Result<Plan, Error>, removed: seq<RecoverySet>)
      requires Valid()
      modifies this
      ensures Valid() && records == Without(old(records), Ids(removed))
      ensures removed <= Judge(old(records), l, now, Total(old(records))).candidates
      ensures r.Success? ==>
                && identify(r.value) == id && removed == r.value.candidates
                && removed == Judge(old(records), l, now, Total(old(records))).candidates
                && Judge(records, l, now, Total(records)).candidates == []
                && (!r.value.blocked ==> Total(records) <= l.maxBytes)
      ensures r.Failure? && r.error == StalePrunePlan ==> removed == []
    {
      removed := [];
      WithoutNone(records);
      var plan := PlanPrune(records, l, now);
      if identify(plan) != id { return Failure(StalePrunePlan), removed; }
      PruneSettles(records, l, now);
      var done;
      done, removed := RemoveAll(plan.candidates, links);
      r := if done.Failure? then Failure(done.error) else Success(plan);
    }
  }

  lemma {:induction false} WithoutNone(items: seq<RecoverySet>)
    ensures Without(items, {}) == items
  {
    if items != [] { WithoutNone(items[..|items| - 1]); }
  }

  lemma {:induction false} WithoutTwice(items: seq<RecoverySet>, gone: set<string>, more: set<string>)
    ensures Without(Without(items, gone), more) == Without(items, gone + more)
  {
    if items != [] {
      var n := |items| - 1;
      WithoutTwice(items[..n], gone, more);
      var w := Without(items[..n], gone);
      assert (w + [items[n]])[..|w|] == w && w + [] == w;
    }
  }

  lemma RemovedOne(items: seq<RecoverySet>, removed: seq<RecoverySet>, item: RecoverySet)
    ensures Without(Without(items, Ids(removed)), {item.id}) == Without(items, Ids(removed + [item]))
  {
    assert (removed + [item])[..|removed|] == removed;
    WithoutTwice(items, Ids(removed), {item.id});
  }

  lemma {:induction false} WithoutDistinct(items: seq<RecoverySet>, gone: set<string>)
    requires Distinct(items)
    ensures Distinct(Without(items, gone)) && forall r :: r in Without(items, gone) ==> r in items
  {
    if items != [] {
      var n := |items| - 1;
      WithoutDistinct(items[..n], gone);
      forall r | r in items[..n] ensures r.id != items[n].id { }
    }
  }
}
