/** The files and the database a snapshot is taken from, while other processes change them. */
module SourceTree {
  import opened Common

  datatype Path = Path(category: string, relative: string)

  /** What a stat reports of a file's content. */
  datatype Stamp = Stamp(size: nat, mtime: int, inode: int)

  datatype Entry = Regular(stamp: Stamp, links: nat, data: Bytes) | Symlink | Directory

  type Tree = map<Path, Entry>

  datatype World = World(tree: Tree, database: Bytes)

  predicate HasStamp(w: World, p: Path, s: Stamp) {
    p in w.tree && w.tree[p].Regular? && w.tree[p].stamp == s
  }

  /** One mutation: at most one path changes, and a regular file it leaves there has the
      size of its content and a stamp that this path never had before. */
  ghost predicate Mutates(past: seq<World>, w: World)
    requires |past| > 0
  {
    exists p: Path :: MutatesAt(past, w, p)
  }

  ghost predicate MutatesAt(past: seq<World>, w: World, p: Path)
    requires |past| > 0
  {
    var last := past[|past| - 1];
    && (forall q :: q != p ==> (q in w.tree <==> q in last.tree) && (q in w.tree ==> w.tree[q] == last.tree[q]))
    && (p in w.tree && (p !in last.tree || w.tree[p] != last.tree[p]) && w.tree[p].Regular? ==>
          && |w.tree[p].data| == w.tree[p].stamp.size
          && forall k :: 0 <= k < |past| ==> !HasStamp(past[k], p, w.tree[p].stamp))
  }

  predicate SizesMatch(w: World) {
    forall p :: p in w.tree && w.tree[p].Regular? ==> |w.tree[p].data| == w.tree[p].stamp.size
  }

  ghost predicate IsPast(past: seq<World>) {
    && |past| > 0
    && (if |past| == 1 then SizesMatch(past[0])
        else IsPast(past[..|past| - 1]) && Mutates(past[..|past| - 1], past[|past| - 1]))
  }

  /** A stamp seen twice on a path means that the file did not change in between. */
  ghost predicate Pinned(past: seq<World>, i: nat, j: nat, p: Path, s: Stamp)
    requires i <= j < |past| && HasStamp(past[i], p, s) && HasStamp(past[j], p, s)
  {
    && |past[i].tree[p].data| == s.size
    && forall k :: i <= k <= j ==> p in past[k].tree && past[k].tree[p] == past[i].tree[p]
  }

  lemma LastMutation(before: seq<World>, w: World, p: Path, s: Stamp)
    requires |before| > 0 && Mutates(before, w) && HasStamp(w, p, s)
    ensures || (|w.tree[p].data| == s.size && forall k :: 0 <= k < |before| ==> !HasStamp(before[k], p, s))
            || (HasStamp(before[|before| - 1], p, s) && before[|before| - 1].tree[p] == w.tree[p])
  {
    var q :| MutatesAt(before, w, q);
  }

  lemma PinnedLater(before: seq<World>, past: seq<World>, i: nat, j: nat, p: Path, s: Stamp)
    requires before <= past && i <= j < |before| && HasStamp(before[i], p, s) && HasStamp(before[j], p, s)
    requires Pinned(before, i, j, p, s)
    ensures Pinned(past, i, j, p, s)
  {
    assert forall k :: i <= k <= j ==> before[k] == past[k];
  }

  lemma PinnedOneMore(past: seq<World>, i: nat, n: nat, p: Path, s: Stamp)
    requires i < n < |past| && HasStamp(past[i], p, s) && HasStamp(past[n - 1], p, s) && HasStamp(past[n], p, s)
    requires Pinned(past, i, n - 1, p, s) && past[n].tree[p] == past[n - 1].tree[p]
    ensures Pinned(past, i, n, p, s)
  {
  }

  lemma PastSplits(past: seq<World>)
    requires IsPast(past) && |past| > 1
    ensures IsPast(past[..|past| - 1]) && Mutates(past[..|past| - 1], past[|past| - 1])
  {
  }

  lemma FirstPins(past: seq<World>, p: Path, s: Stamp)
    requires IsPast(past) && |past| == 1 && HasStamp(past[0], p, s)
    ensures Pinned(past, 0, 0, p, s)
  {
  }

  lemma {:induction false} FreshStampsPin(past: seq<World>, i: nat, j: nat, p: Path, s: Stamp)
    requires IsPast(past) && i <= j < |past| && HasStamp(past[i], p, s) && HasStamp(past[j], p, s)
    ensures Pinned(past, i, j, p, s)
    decreases |past|
  {
    var n := |past| - 1;
    if n == 0 {
      FirstPins(past, p, s);
    } else {
      var before := past[..n];
      PastSplits(past);
      assert forall k :: 0 <= k < n ==> before[k] == past[k];
      if j < n {
        FreshStampsPin(before, i, j, p, s);
        PinnedLater(before, past, i, j, p, s);
      } else {
        LastMutation(before, past[n], p, s);
        if i < n {
          FreshStampsPin(before, i, n - 1, p, s);
          PinnedLater(before, past, i, n - 1, p, s);
          PinnedOneMore(past, i, n, p, s);
        } else if HasStamp(before[n - 1], p, s) {
          FreshStampsPin(before, n - 1, n - 1, p, s);
        }
      }
    }
  }
}
