/** The writer record and the authoritative pointer of a dataset, two objects of a store
    whose only atomic operations are conditional puts, and what any number of clients can
    do to them.  Hashes and entity tags are ideal: they are the content they stand for. */
module Publication {
  import opened Common

  type Client = nat

  datatype Token = NoToken | Token(id: nat)

  datatype TokenHash = HashOf(token: Token)

  datatype Writer = Writer(
    sourceId: string, instanceId: string, tokenHash: TokenHash, epoch: int, previousEpoch: int,
    acquiredAt: int, heartbeatAt: int, expiresAt: int, released: bool)

  datatype Pointer = Pointer(
    generation: string, manifestKey: string, manifestSha256: string, epoch: int, tokenHash: TokenHash,
    sourceId: string, instanceId: string, previousSha256: string, publishedAt: int)

  datatype Grant = Grant(epoch: int, tokenHash: TokenHash)

  /** The two objects, and as history which tokens were drawn by whom and which writers
      were granted, in order. */
  datatype Control = Control(
    writer: Option<Writer>, pointer: Option<Pointer>,
    issued: map<Token, Client>, grants: seq<Grant>)

  // ---------------------------------------------------------------- what one atomic step may do

  predicate Owns(c: Client, a: Control, hash: TokenHash) {
    hash.token.Token? && hash.token in a.issued && a.issued[hash.token] == c
  }

  predicate Granted(a: Control, epoch: int, hash: TokenHash) { Grant(epoch, hash) in a.grants }

  predicate UnusedToken(a: Control, hash: TokenHash) { forall g :: g in a.grants ==> g.tokenHash != hash }

  predicate SameTenure(r: Writer, q: Writer) {
    r.sourceId == q.sourceId && r.instanceId == q.instanceId && r.tokenHash == q.tokenHash
    && r.epoch == q.epoch && r.previousEpoch == q.previousEpoch && r.acquiredAt == q.acquiredAt
  }

  predicate MayAcquire(c: Client, a: Control, r: Writer) {
    && Owns(c, a, r.tokenHash) && UnusedToken(a, r.tokenHash)
    && r.epoch == (if a.writer.None? then 1 else a.writer.value.epoch + 1)
  }

  predicate MayKeep(c: Client, a: Control, r: Writer) {
    a.writer.Some? && SameTenure(a.writer.value, r) && Owns(c, a, r.tokenHash)
  }

  predicate MayPublish(c: Client, a: Control, p: Pointer) {
    && Granted(a, p.epoch, p.tokenHash) && Owns(c, a, p.tokenHash)
    && (a.pointer.Some? ==> a.pointer.value.epoch <= p.epoch)
  }

  function Acquired(a: Control, r: Writer): Control {
    a.(writer := Some(r), grants := a.grants + [Grant(r.epoch, r.tokenHash)])
  }

  datatype Event =
    | Draw(token: Token)
    | Acquire(taken: Writer)
    | Keep(kept: Writer)
    | Publish(published: Pointer)

  predicate Allowed(c: Client, a: Control, e: Event) {
    match e
    case Draw(t) => t.Token? && t !in a.issued
    case Acquire(r) => MayAcquire(c, a, r)
    case Keep(r) => MayKeep(c, a, r)
    case Publish(p) => MayPublish(c, a, p)
  }

  function After(c: Client, a: Control, e: Event): Control {
    match e
    case Draw(t) => a.(issued := a.issued[t := c])
    case Acquire(r) => Acquired(a, r)
    case Keep(r) => a.(writer := Some(r))
    case Publish(p) => a.(pointer := Some(p))
  }

  /** An interleaving of any number of clients, as the events each of them performed. */
  datatype Action = Action(client: Client, event: Event)

  predicate Init(a: Control) { a == Control(None, None, map[], []) }

  ghost predicate IsHistory(h: seq<Control>, acts: seq<Action>) {
    && |h| == |acts| + 1
    && Init(h[0])
    && forall k :: 0 <= k < |acts| ==>
         Allowed(acts[k].client, h[k], acts[k].event) && h[k + 1] == After(acts[k].client, h[k], acts[k].event)
  }

  // ---------------------------------------------------------------- what every history keeps

  predicate Rising(gs: seq<Grant>) { forall i, j :: 0 <= i < j < |gs| ==> gs[i].epoch < gs[j].epoch }

  predicate DistinctTokens(gs: seq<Grant>) {
    forall i, j :: 0 <= i < j < |gs| ==> gs[i].tokenHash != gs[j].tokenHash
  }

  /** The writer record is the last grant; every published pointer was granted. */
  predicate Inv(a: Control) {
    && Rising(a.grants) && DistinctTokens(a.grants)
    && (a.writer.None? <==> a.grants == [])
    && (a.writer.Some? ==>
          a.grants[|a.grants| - 1] == Grant(a.writer.value.epoch, a.writer.value.tokenHash))
    && (forall g :: g in a.grants ==> g.epoch >= 1 && g.tokenHash.token in a.issued)
    && (a.pointer.Some? ==> Granted(a, a.pointer.value.epoch, a.pointer.value.tokenHash))
  }

  lemma StepKeepsInv(c: Client, a: Control, e: Event)
    requires Inv(a) && Allowed(c, a, e)
    ensures Inv(After(c, a, e))
  {
    if e.Acquire? {
      var b := After(c, a, e);
      assert b.grants[..|a.grants|] == a.grants;
      forall i | 0 <= i < |a.grants| ensures a.grants[i].epoch <= a.grants[|a.grants| - 1].epoch { }
    }
  }

  lemma {:induction false} HistoryKeepsInv(h: seq<Control>, acts: seq<Action>, k: nat)
    requires IsHistory(h, acts) && k < |h|
    ensures Inv(h[k])
  {
    if k > 0 {
      HistoryKeepsInv(h, acts, k - 1);
      StepKeepsInv(acts[k - 1].client, h[k - 1], acts[k - 1].event);
    }
  }

  /** What other clients can do between two operations of a client, seen by that client. */
  predicate Rely(me: Client, a: Control, b: Control) {
    && (forall t :: t in a.issued ==> t in b.issued && b.issued[t] == a.issued[t])
    && a.grants <= b.grants
    && (forall g :: g in b.grants && Owns(me, a, g.tokenHash) ==> g in a.grants)
    && (a.writer.Some? ==> b.writer.Some? && a.writer.value.epoch <= b.writer.value.epoch)
    && (a.pointer.Some? ==> b.pointer.Some? && a.pointer.value.epoch <= b.pointer.value.epoch)
  }

  lemma StepIsRelied(me: Client, c: Client, a: Control, e: Event)
    requires Inv(a) && Allowed(c, a, e) && c != me
    ensures Rely(me, a, After(c, a, e))
  {
  }

  lemma RelyIsTransitive(me: Client, a: Control, b: Control, c: Control)
    requires Rely(me, a, b) && Rely(me, b, c)
    ensures Rely(me, a, c)
  {
    forall g | g in c.grants && Owns(me, a, g.tokenHash) ensures g in a.grants { assert Owns(me, b, g.tokenHash); }
  }

  /** The steps of the other clients, however many and in whatever order, are within what
      a client relies on. */
  lemma {:induction false} OthersAreRelied(h: seq<Control>, acts: seq<Action>, j: nat, k: nat, me: Client)
    requires IsHistory(h, acts) && j <= k < |h|
    requires forall n :: j <= n < k ==> acts[n].client != me
    ensures Rely(me, h[j], h[k])
    decreases k
  {
    if j < k {
      OthersAreRelied(h, acts, j, k - 1, me);
      HistoryKeepsInv(h, acts, k - 1);
      StepIsRelied(me, acts[k - 1].client, h[k - 1], acts[k - 1].event);
      RelyIsTransitive(me, h[j], h[k - 1], h[k]);
    }
  }

  // ---------------------------------------------------------------- writer epochs

  /** In every history the writer epoch never decreases and rises strictly at each
      acquisition, takeovers included. */
  lemma {:induction false} WriterEpochsRise(h: seq<Control>, acts: seq<Action>, j: nat, k: nat)
    requires IsHistory(h, acts) && j <= k < |h| && h[j].writer.Some?
    ensures h[k].writer.Some? && h[j].writer.value.epoch <= h[k].writer.value.epoch
    ensures (exists n :: j <= n < k && acts[n].event.Acquire?) ==>
              h[j].writer.value.epoch < h[k].writer.value.epoch
    decreases k
  {
    if j < k { WriterEpochsRise(h, acts, j, k - 1); }
  }

  /** An epoch belongs to one owner token, and a token to one epoch. */
  lemma OneTokenPerEpoch(h: seq<Control>, acts: seq<Action>, k: nat, g: Grant, f: Grant)
    requires IsHistory(h, acts) && k < |h| && g in h[k].grants && f in h[k].grants
    ensures g.epoch == f.epoch <==> g.tokenHash == f.tokenHash
  {
    HistoryKeepsInv(h, acts, k);
  }

  lemma {:induction false} GrantsGrow(h: seq<Control>, acts: seq<Action>, j: nat, k: nat)
    requires IsHistory(h, acts) && j <= k < |h|
    ensures h[j].grants <= h[k].grants
    decreases k
  {
    if j < k { GrantsGrow(h, acts, j, k - 1); }
  }

  /** After a takeover no renewal or release of an earlier holder ever succeeds. */
  lemma NoKeepAfterTakeover(h: seq<Control>, acts: seq<Action>, n: nat, k: nat)
    requires IsHistory(h, acts) && n < k < |acts|
    requires h[n].writer.Some? && acts[n].event.Acquire?
    requires acts[k].event.Keep?
    ensures acts[k].event.kept.tokenHash != h[n].writer.value.tokenHash
    ensures acts[k].event.kept.epoch > h[n].writer.value.epoch
  {
    HistoryKeepsInv(h, acts, n);
    HistoryKeepsInv(h, acts, k);
    GrantsGrow(h, acts, n + 1, k);
    var last := |h[n].grants| - 1;
    assert h[n + 1].grants[last] == h[n].grants[last];
    assert h[k].grants[last] == h[n].grants[last];
  }

  // ---------------------------------------------------------------- publication fencing

  /** Pointer epochs never decrease. */
  lemma {:induction false} PointerEpochsRise(h: seq<Control>, acts: seq<Action>, j: nat, k: nat)
    requires IsHistory(h, acts) && j <= k < |h| && h[j].pointer.Some?
    ensures h[k].pointer.Some? && h[j].pointer.value.epoch <= h[k].pointer.value.epoch
    decreases k
  {
    if j < k { PointerEpochsRise(h, acts, j, k - 1); }
  }

  /** A published epoch and token were granted by an acquisition, and the epoch is at most
      the current writer epoch. */
  lemma PublishedWasGranted(h: seq<Control>, acts: seq<Action>, k: nat)
    requires IsHistory(h, acts) && k < |h| && h[k].pointer.Some?
    ensures Granted(h[k], h[k].pointer.value.epoch, h[k].pointer.value.tokenHash)
    ensures h[k].writer.Some? && h[k].pointer.value.epoch <= h[k].writer.value.epoch
  {
    HistoryKeepsInv(h, acts, k);
    var gs := h[k].grants;
    var i :| 0 <= i < |gs| && gs[i] == Grant(h[k].pointer.value.epoch, h[k].pointer.value.tokenHash);
  }

  /** Two pointers of the same epoch, at any two times, carry the same token. */
  lemma SameEpochSameToken(h: seq<Control>, acts: seq<Action>, j: nat, k: nat)
    requires IsHistory(h, acts) && j <= k < |h| && h[j].pointer.Some? && h[k].pointer.Some?
    requires h[j].pointer.value.epoch == h[k].pointer.value.epoch
    ensures h[j].pointer.value.tokenHash == h[k].pointer.value.tokenHash
  {
    PublishedWasGranted(h, acts, j);
    PublishedWasGranted(h, acts, k);
    GrantsGrow(h, acts, j, k);
    var p := h[j].pointer.value;
    var i :| 0 <= i < |h[j].grants| && h[j].grants[i] == Grant(p.epoch, p.tokenHash);
    assert h[k].grants[i] == Grant(p.epoch, p.tokenHash);
    OneTokenPerEpoch(h, acts, k, Grant(p.epoch, p.tokenHash),
                     Grant(h[k].pointer.value.epoch, h[k].pointer.value.tokenHash));
  }
}
