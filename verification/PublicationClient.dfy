/** The client operations of flowdocs/core/global_writer.py, flowdocs/core/registration.py
    and of the publication in flowdocs/core/maintenance.py, run against a shared store that
    other clients change between any two operations. */
module PublicationClient {
  import opened Common
  import opened Publication

  datatype Error =
    | WriterHeld | WriterConflict | NoETagForRenewal | NoWriter | LeaseExpired | TokenMismatch
    | SourceMismatch | InstanceMismatch | EpochMismatch | OwnershipChanged
    | PointerExists | EpochTooOld | PointerConflict | Cancelled

  datatype ETag<+T> = NoETag | TagOf(content: T)

  datatype Condition<+T> = IfAbsent | IfMatch(etag: ETag<T>)

  predicate Matches<T(==)>(cond: Condition<T>, current: Option<T>) {
    match cond
    case IfAbsent => current.None?
    case IfMatch(etag) => current.Some? && etag == TagOf(current.value)
  }

  /** A writer record in a client's hands, with the tag and the secret token beside it. */
  datatype Lease = Lease(record: Writer, etag: ETag<Writer>, token: Token) {
    predicate Genuine() {
      record.tokenHash == HashOf(token) && (etag.TagOf? ==> SameTenure(etag.content, record))
    }
  }

  /** The events of one client, in order. */
  function By(me: Client, acts: seq<Action>): seq<Event> {
    if acts == [] then []
    else By(me, acts[..|acts| - 1]) + (if acts[|acts| - 1].client == me then [acts[|acts| - 1].event] else [])
  }

  lemma {:induction false} OthersAddNothing(me: Client, a: seq<Action>, b: seq<Action>)
    requires a <= b && forall n :: |a| <= n < |b| ==> b[n].client != me
    ensures By(me, b) == By(me, a)
    decreases |b|
  {
    if |a| < |b| {
      OthersAddNothing(me, a, b[..|b| - 1]);
    } else {
      assert a == b;
    }
  }

  lemma OneMore(me: Client, a: seq<Action>, e: Event)
    ensures By(me, a + [Action(me, e)]) == By(me, a) + [e]
  {
    assert (a + [Action(me, e)])[..|a|] == a;
  }

  class ControlStore {
    var writer: Option<Writer>
    var pointer: Option<Pointer>
    ghost var issued: map<Token, Client>
    ghost var grants: seq<Grant>
    ghost var history: seq<Control>
    ghost var acts: seq<Action>

    ghost function Now(): Control reads this { Control(writer, pointer, issued, grants) }

    /** The store's past is a history of the protocol that ends in its present. */
    ghost predicate Valid() reads this {
      IsHistory(history, acts) && history[|acts|] == Now() && Inv(Now())
    }

    constructor ()
      ensures Valid() && acts == []
    {
      writer, pointer, issued, grants, acts := None, None, map[], [], [];
      history := [Control(None, None, map[], [])];
    }

    ghost method Append(me: Client, e: Event)
      requires IsHistory(history, acts) && Allowed(me, history[|acts|], e)
      requires Now() == After(me, history[|acts|], e)
      modifies this`history, this`acts
      ensures Valid() && acts == old(acts) + [Action(me, e)] && history == old(history) + [Now()]
      ensures By(me, acts) == By(me, old(acts)) + [e]
    {
      HistoryKeepsInv(history, acts, |acts|);
      StepKeepsInv(me, history[|acts|], e);
      OneMore(me, acts, e);
      acts := acts + [Action(me, e)];
      history := history + [Now()];
    }

    /** Any number of steps of other clients: callers know no more than this contract. */
    method Others(me: Client)
      requires Valid()
      modifies this
      ensures Valid() && old(acts) <= acts && old(history) <= history
      ensures forall n :: |old(acts)| <= n < |acts| ==> acts[n].client != me
    {
    }

    method Interference(me: Client)
      requires Valid()
      modifies this
      ensures Valid() && old(acts) <= acts && old(history) <= history
      ensures Rely(me, old(Now()), Now()) && By(me, acts) == By(me, old(acts))
    {
      Others(me);
      OthersAreRelied(history, acts, |old(acts)|, |acts|, me);
      OthersAddNothing(me, old(acts), acts);
    }

    /** secrets.token_hex draws a token nobody has drawn before. */
    method DrawToken(me: Client, t: Token)
      requires Valid() && t.Token? && t !in issued
      modifies this
      ensures Valid() && Now() == After(me, old(Now()), Draw(t))
      ensures old(acts) <= acts && old(history) <= history
      ensures By(me, acts) == By(me, old(acts)) + [Draw(t)]
      ensures Owns(me, Now(), HashOf(t)) && UnusedToken(Now(), HashOf(t))
    {
      issued := issued[t := me];
      Append(me, Draw(t));
    }

    /** A conditional put of writer.json.  The reply of a put that took effect may be lost. */
    method PutWriter(me: Client, r: Writer, cond: Condition<Writer>, ghost e: Event) returns (ok: bool)
      requires Valid()
      requires Matches(cond, writer) ==> (e == Acquire(r) || e == Keep(r)) && Allowed(me, Now(), e)
      modifies this
      ensures Valid() && old(acts) <= acts && old(history) <= history
      ensures ok ==> Matches(cond, old(writer))
      ensures Matches(cond, old(writer)) ==>
                && Now() == After(me, old(Now()), e) && acts == old(acts) + [Action(me, e)]
                && By(me, acts) == By(me, old(acts)) + [e]
      ensures !Matches(cond, old(writer)) ==> Now() == old(Now()) && acts == old(acts)
    {
      ok := false;
      if Matches(cond, writer) {
        writer := Some(r);
        if e.Acquire? { grants := grants + [Grant(r.epoch, r.tokenHash)]; }
        Append(me, e);
        ok := *;
      }
    }

    /** A conditional put of authoritative.json. */
    method PutPointer(me: Client, p: Pointer, cond: Condition<Pointer>) returns (ok: bool)
      requires Valid()
      requires Matches(cond, pointer) ==> Allowed(me, Now(), Publish(p))
      modifies this
      ensures Valid() && old(acts) <= acts && old(history) <= history
      ensures ok ==> Matches(cond, old(pointer))
      ensures Matches(cond, old(pointer)) ==>
                && Now() == After(me, old(Now()), Publish(p)) && acts == old(acts) + [Action(me, Publish(p))]
                && By(me, acts) == By(me, old(acts)) + [Publish(p)]
      ensures !Matches(cond, old(pointer)) ==> Now() == old(Now()) && acts == old(acts)
    {
      ok := false;
      if Matches(cond, pointer) {
        pointer := Some(p);
        Append(me, Publish(p));
        ok := *;
      }
    }
  }

  /** What a run under the token may have done: a publication of it, only if told so. */
  predicate InTenure(e: Event, token: Token, publishes: bool) {
    match e
    case Draw(t) => t == token
    case Acquire(w) => w.tokenHash == HashOf(token)
    case Keep(w) => w.tokenHash == HashOf(token)
    case Publish(p) => p.tokenHash == HashOf(token) && publishes
  }

  /** The events that have been added. */
  predicate AllInTenure(before: seq<Event>, after: seq<Event>, token: Token, publishes: bool) {
    before <= after && forall k :: |before| <= k < |after| ==> InTenure(after[k], token, publishes)
  }

  lemma InTenureOne(before: seq<Event>, e: Event, token: Token, publishes: bool)
    requires InTenure(e, token, publishes)
    ensures AllInTenure(before, before + [e], token, publishes)
  {
  }

  lemma InTenureJoined(a: seq<Event>, b: seq<Event>, c: seq<Event>, token: Token, p: bool, q: bool)
    requires AllInTenure(a, b, token, p) && AllInTenure(b, c, token, q)
    ensures AllInTenure(a, c, token, p || q)
  {
  }

  // ---------------------------------------------------------------- global_writer.py

  /** The conditional put that ends an acquisition, after the writer record was read. */
  method PutAcquisition(store: ControlStore, me: Client, existing: Option<Writer>, etag: ETag<Writer>, record: Writer)
    returns (ok: bool, ghost took: bool)
    requires store.Valid() && Owns(me, store.Now(), record.tokenHash) && UnusedToken(store.Now(), record.tokenHash)
    requires existing.Some? && etag.TagOf? ==>
               etag.content == existing.value && record.epoch == existing.value.epoch + 1
    requires existing.None? ==> record.epoch == 1
    modifies store
    ensures store.Valid() && old(store.acts) <= store.acts && old(store.history) <= store.history
    ensures (ok ==> took) && (took && existing.Some? ==> etag.TagOf?)
    ensures By(me, store.acts) == By(me, old(store.acts)) + if took then [Acquire(record)] else []
    ensures took ==> Granted(store.Now(), record.epoch, record.tokenHash)
                     && store.history[|store.acts| - 1].writer == existing
    ensures Owns(me, store.Now(), record.tokenHash)
  {
    store.Interference(me);
    var cond := if existing.None? then IfAbsent else IfMatch(etag);
    took := Matches(cond, store.writer);
    ok := store.PutWriter(me, record, cond, Acquire(record));
  }

  /** A fresh token, and the writer record as it is read after that.  The reply may lack the tag. */
  method DrawAndRead(store: ControlStore, me: Client, token: Token)
    returns (existing: Option<Writer>, etag: ETag<Writer>)
    requires store.Valid() && token.Token? && token !in store.issued
    modifies store
    ensures store.Valid() && old(store.acts) <= store.acts && old(store.history) <= store.history
    ensures Owns(me, store.Now(), HashOf(token)) && UnusedToken(store.Now(), HashOf(token))
    ensures By(me, store.acts) == By(me, old(store.acts)) + [Draw(token)] && existing == store.writer
    ensures etag.TagOf? ==> existing == Some(etag.content)
  {
    store.DrawToken(me, token);
    store.Interference(me);
    existing := store.writer;
    var tagged: bool := *;
    etag := if tagged && existing.Some? then TagOf(existing.value) else NoETag;
  }

  /** acquire_global_writer. */
  method AcquireGlobalWriter(store: ControlStore, me: Client, token: Token, sourceId: string,
                             instanceId: string, now: int, ttl: int, force: bool)
    returns (r: Result<Lease, Error>)
    requires store.Valid() && token.Token? && token !in store.issued
    modifies store
    ensures store.Valid() && old(store.acts) <= store.acts && old(store.history) <= store.history
    ensures Owns(me, store.Now(), HashOf(token))
    ensures r.Success? ==>
              && By(me, store.acts) == By(me, old(store.acts)) + [Draw(token)] + [Acquire(r.value.record)]
              && r.value.token == token && r.value.Genuine() && r.value.etag == TagOf(r.value.record)
              && Granted(store.Now(), r.value.record.epoch, HashOf(token))
              && var epoch := r.value.record.epoch;
                 r.value.record
                     == Writer(sourceId, instanceId, HashOf(token), epoch, epoch - 1, now, now, now + ttl, false)
    ensures r.Success? && !force && store.history[|store.acts| - 1].writer.Some? ==>
              store.history[|store.acts| - 1].writer.value.expiresAt <= now
    ensures r.Failure? ==> r.error == WriterConflict || (r.error == WriterHeld && !force)
    ensures r.Failure? ==>
              || By(me, store.acts) == By(me, old(store.acts)) + [Draw(token)]
              || (r.error == WriterConflict && exists w: Writer | w.tokenHash == HashOf(token) ::
                    By(me, store.acts) == By(me, old(store.acts)) + [Draw(token)] + [Acquire(w)])
    ensures AllInTenure(By(me, old(store.acts)), By(me, store.acts), token, false)
  {
    ghost var start := By(me, store.acts);
    InTenureOne(start, Draw(token), token, false);
    var existing, etag := DrawAndRead(store, me, token);
    if existing.Some? && existing.value.expiresAt > now && !force {
      return Failure(WriterHeld);
    }
    var last := if existing.Some? then existing.value.epoch else 0;
    var epoch := if existing.Some? && etag.NoETag? && existing.value.expiresAt == 0 then last else last + 1;
    var record := Writer(sourceId, instanceId, HashOf(token), epoch, last, now, now, now + ttl, false);
    ghost var drawn := By(me, store.acts);
    var ok, took := PutAcquisition(store, me, existing, etag, record);
    if took {
      InTenureOne(drawn, Acquire(record), token, false);
      InTenureJoined(start, drawn, By(me, store.acts), token, false, false);
    }
    if !ok {
      return Failure(WriterConflict);
    }
    return Success(Lease(record, TagOf(record), token));
  }

  /** renew_global_writer. */
  method RenewGlobalWriter(store: ControlStore, me: Client, lease: Lease, now: int, ttl: int)
    returns (r: Result<Lease, Error>)
    requires store.Valid() && lease.Genuine() && Owns(me, store.Now(), HashOf(lease.token))
    modifies store
    ensures store.Valid() && old(store.acts) <= store.acts && old(store.history) <= store.history
    ensures r.Success? ==>
              && r.value.record == lease.record.(heartbeatAt := now, expiresAt := now + ttl)
              && r.value.Genuine() && r.value.etag == TagOf(r.value.record) && r.value.token == lease.token
              && By(me, store.acts) == By(me, old(store.acts)) + [Keep(r.value.record)]
    ensures lease.etag.NoETag? ==> r == Failure(NoETagForRenewal)
    ensures r.Failure? ==>
              || By(me, store.acts) == By(me, old(store.acts))
              || (r.error == WriterConflict && exists w: Writer | SameTenure(lease.record, w) ::
                    By(me, store.acts) == By(me, old(store.acts)) + [Keep(w)])
  {
    if lease.etag.NoETag? {
      return Failure(NoETagForRenewal);
    }
    store.Interference(me);
    var record := lease.record.(heartbeatAt := now, expiresAt := now + ttl);
    var ok := store.PutWriter(me, record, IfMatch(lease.etag), Keep(record));
    if !ok {
      return Failure(WriterConflict);
    }
    return Success(Lease(record, TagOf(record), lease.token));
  }

  /** release_global_writer. */
  method ReleaseGlobalWriter(store: ControlStore, me: Client, lease: Lease, now: int) returns (r: Result<Writer, Error>)
    requires store.Valid() && Owns(me, store.Now(), HashOf(lease.token))
    modifies store
    ensures store.Valid() && old(store.acts) <= store.acts && old(store.history) <= store.history
    ensures r.Success? ==>
              && r.value.expiresAt == 0 && r.value.released && r.value.heartbeatAt == now
              && r.value.tokenHash == HashOf(lease.token) && r.value.epoch == lease.record.epoch
              && By(me, store.acts) == By(me, old(store.acts)) + [Keep(r.value)]
    ensures r.Failure? ==>
              || By(me, store.acts) == By(me, old(store.acts))
              || (r.error == WriterConflict && exists w: Writer ::
                    w.expiresAt == 0 && w.tokenHash == HashOf(lease.token) && w.epoch == lease.record.epoch
                    && By(me, store.acts) == By(me, old(store.acts)) + [Keep(w)])
    ensures AllInTenure(By(me, old(store.acts)), By(me, store.acts), lease.token, false)
  {
    store.Interference(me);
    var current := store.writer;
    if current.None? {
      return Failure(WriterConflict);
    }
    if current.value.tokenHash != HashOf(lease.token) || current.value.epoch != lease.record.epoch {
      return Failure(OwnershipChanged);
    }
    var tagged: bool := *;
    if !tagged {
      return Failure(WriterConflict);
    }
    var released := current.value.(heartbeatAt := now, expiresAt := 0, released := true);
    store.Interference(me);
    InTenureOne(By(me, store.acts), Keep(released), lease.token, false);
    var ok := store.PutWriter(me, released, IfMatch(TagOf(current.value)), Keep(released));
    if !ok {
      return Failure(WriterConflict);
    }
    return Success(released);
  }

  /** validate_writer_for_publication: the caller's tenure was current, unexpired and its own
      at some moment of the call. */
  method ValidateWriterForPublication(store: ControlStore, me: Client, lease: Lease, sourceId: string,
                                      instanceId: string, expectedEpoch: Option<int>, now: int)
    returns (r: Result<Lease, Error>)
    requires store.Valid()
    modifies store
    ensures store.Valid() && old(store.acts) <= store.acts && old(store.history) <= store.history
    ensures By(me, store.acts) == By(me, old(store.acts)) && Rely(me, old(store.Now()), store.Now())
    ensures r.Success? ==>
              && store.Now().writer == Some(r.value.record)
              && now <= r.value.record.expiresAt && r.value.record.sourceId == sourceId
              && r.value.record.tokenHash == HashOf(lease.token) && r.value.token == lease.token
              && r.value.Genuine() && (instanceId != "" ==> r.value.record.instanceId == instanceId)
              && (expectedEpoch.Some? ==> r.value.record.epoch == expectedEpoch.value)
              && Granted(store.Now(), r.value.record.epoch, HashOf(lease.token))
    ensures r.Failure? ==>
              || store.writer.None? || store.writer.value.expiresAt < now
              || store.writer.value.tokenHash != HashOf(lease.token) || store.writer.value.sourceId != sourceId
              || (instanceId != "" && store.writer.value.instanceId != instanceId)
              || (expectedEpoch.Some? && store.writer.value.epoch != expectedEpoch.value)
  {
    store.Interference(me);
    var current := store.writer;
    if current.None? { return Failure(NoWriter); }
    var w := current.value;
    if w.expiresAt < now { return Failure(LeaseExpired); }
    if HashOf(lease.token) != w.tokenHash { return Failure(TokenMismatch); }
    if w.sourceId != sourceId { return Failure(SourceMismatch); }
    if instanceId != "" && w.instanceId != instanceId { return Failure(InstanceMismatch); }
    if expectedEpoch.Some? && w.epoch != expectedEpoch.value { return Failure(EpochMismatch); }
    return Success(Lease(w, TagOf(w), lease.token));
  }

  // ---------------------------------------------------------------- registration.py

  /** The pointer was the current one at some moment of the store's past. */
  ghost predicate WasPointer(store: ControlStore, p: Pointer)
    reads store
  {
    exists k :: 0 <= k < |store.history| && store.history[k].pointer == Some(p)
  }

  lemma PastPointersAreOlder(store: ControlStore, p: Pointer)
    requires store.Valid() && WasPointer(store, p)
    ensures store.pointer.Some? && p.epoch <= store.pointer.value.epoch
  {
    var k :| 0 <= k < |store.history| && store.history[k].pointer == Some(p);
    PointerEpochsRise(store.history, store.acts, k, |store.acts|);
  }

  /** The conditional put that ends a publication.  The epoch was checked against previous,
      read after the pointer whose tag the put carries. */
  method PutPublication(store: ControlStore, me: Client, p: Pointer, expected: Option<Pointer>,
                        ghost previous: Option<Pointer>)
    returns (ok: bool, ghost took: bool)
    requires store.Valid() && Owns(me, store.Now(), p.tokenHash) && Granted(store.Now(), p.epoch, p.tokenHash)
    requires expected.Some? ==> previous.Some? && WasPointer(store, previous.value)
    requires expected.Some? ==> expected.value.epoch <= previous.value.epoch <= p.epoch
    modifies store
    ensures store.Valid() && old(store.acts) <= store.acts && old(store.history) <= store.history
    ensures ok ==> took
    ensures By(me, store.acts) == By(me, old(store.acts)) + if took then [Publish(p)] else []
    ensures took ==> store.history[|store.acts| - 1].pointer == expected
    ensures took && expected.Some? ==> previous.value.epoch == expected.value.epoch
    ensures Owns(me, store.Now(), p.tokenHash)
  {
    store.Interference(me);
    if expected.Some? { PastPointersAreOlder(store, previous.value); }
    var cond := if expected.None? then IfAbsent else IfMatch(TagOf(expected.value));
    took := Matches(cond, store.pointer);
    ok := store.PutPointer(me, p, cond);
  }

  /** update_authoritative_pointer: the epoch is checked against one read of the pointer and
      the put is conditional on the tag of another, earlier one. */
  method UpdateAuthoritativePointer(store: ControlStore, me: Client, draft: Pointer, expected: Option<Pointer>)
    returns (r: Result<Pointer, Error>)
    requires store.Valid() && Owns(me, store.Now(), draft.tokenHash)
    requires Granted(store.Now(), draft.epoch, draft.tokenHash)
    requires expected.Some? ==> WasPointer(store, expected.value)
    modifies store
    ensures store.Valid() && old(store.acts) <= store.acts && old(store.history) <= store.history
    ensures r.Success? ==>
              && r.value == draft.(previousSha256 := r.value.previousSha256)
              && By(me, store.acts) == By(me, old(store.acts)) + [Publish(r.value)]
              && store.history[|store.acts| - 1].pointer == expected
    ensures Owns(me, store.Now(), draft.tokenHash)
    ensures r.Failure? ==>
              || By(me, store.acts) == By(me, old(store.acts))
              || (r.error == PointerConflict && exists p: Pointer
                  | p.epoch == draft.epoch && p.tokenHash == draft.tokenHash ::
                    By(me, store.acts) == By(me, old(store.acts)) + [Publish(p)])
  {
    store.Interference(me);
    if expected.Some? { PastPointersAreOlder(store, expected.value); }
    var previous := store.pointer;
    if previous.Some? {
      if expected.None? { return Failure(PointerExists); }
      if draft.epoch < previous.value.epoch { return Failure(EpochTooOld); }
      assert store.history[|store.acts|].pointer == previous;
    }
    var pointer := draft.(previousSha256 := if previous.Some? then previous.value.manifestSha256 else "");
    ghost var before := By(me, store.acts);
    var ok, took := PutPublication(store, me, pointer, expected, previous);
    if !ok {
      assert took ==> By(me, store.acts) == before + [Publish(pointer)];
      return Failure(PointerConflict);
    }
    return Success(pointer);
  }

  /** update_authoritative_pointer_cas. */
  method UpdateAuthoritativePointerCas(store: ControlStore, me: Client, lease: Lease, generation: string,
                                       manifestKey: string, manifestSha256: string, sourceId: string,
                                       instanceId: string, now: int)
    returns (r: Result<Pointer, Error>)
    requires store.Valid() && Owns(me, store.Now(), lease.record.tokenHash)
    requires Granted(store.Now(), lease.record.epoch, lease.record.tokenHash)
    modifies store
    ensures store.Valid() && old(store.acts) <= store.acts && old(store.history) <= store.history
    ensures r.Success? ==>
              && r.value == Pointer(generation, manifestKey, manifestSha256, lease.record.epoch,
                                    lease.record.tokenHash, sourceId, instanceId, r.value.previousSha256, now)
              && By(me, store.acts) == By(me, old(store.acts)) + [Publish(r.value)]
    ensures Owns(me, store.Now(), lease.record.tokenHash)
    ensures r.Failure? ==>
              || By(me, store.acts) == By(me, old(store.acts))
              || (r.error == PointerConflict && exists p: Pointer
                  | p.epoch == lease.record.epoch && p.tokenHash == lease.record.tokenHash ::
                    By(me, store.acts) == By(me, old(store.acts)) + [Publish(p)])
  {
    store.Interference(me);
    var current := store.pointer;
    assert current.Some? ==> store.history[|store.acts|].pointer == current;
    var draft := Pointer(generation, manifestKey, manifestSha256, lease.record.epoch,
                         lease.record.tokenHash, sourceId, instanceId, "", now);
    r := UpdateAuthoritativePointer(store, me, draft, current);
  }

  // ---------------------------------------------------------------- maintenance.py

  /** The publication of update_authoritative_pointer_cas, seen as the events it adds. */
  method PublishOnce(store: ControlStore, me: Client, lease: Lease, generation: string, manifestKey: string,
                     manifestSha256: string, sourceId: string, instanceId: string, now: int)
    returns (r: Result<Pointer, Error>)
    requires store.Valid() && Owns(me, store.Now(), HashOf(lease.token)) && lease.Genuine()
    requires Granted(store.Now(), lease.record.epoch, HashOf(lease.token))
    modifies store
    ensures store.Valid() && old(store.acts) <= store.acts && old(store.history) <= store.history
    ensures Owns(me, store.Now(), HashOf(lease.token))
    ensures r.Success? ==>
              && r.value.epoch == lease.record.epoch && r.value.tokenHash == HashOf(lease.token)
              && r.value.generation == generation && r.value.manifestSha256 == manifestSha256
              && By(me, store.acts) == By(me, old(store.acts)) + [Publish(r.value)]
    ensures AllInTenure(By(me, old(store.acts)), By(me, store.acts), lease.token,
                        r.Success? || r.error == PointerConflict)
  {
    r := UpdateAuthoritativePointerCas(store, me, lease, generation, manifestKey, manifestSha256, sourceId,
                                       instanceId, now);
  }

  /** The end of sync_active_generation: validate again, publish, release. */
  method PublishUnderLease(store: ControlStore, me: Client, lease: Lease, generation: string,
                           manifestKey: string, manifestSha256: string, sourceId: string,
                           instanceId: string, now: int, later: int)
    returns (r: Result<Pointer, Error>)
    requires store.Valid() && lease.Genuine() && Owns(me, store.Now(), HashOf(lease.token))
    modifies store
    ensures store.Valid() && old(store.acts) <= store.acts && old(store.history) <= store.history
    ensures r.Success? ==>
              && r.value.epoch == lease.record.epoch && r.value.tokenHash == HashOf(lease.token)
              && r.value.generation == generation && r.value.manifestSha256 == manifestSha256
              && By(me, old(store.acts)) + [Publish(r.value)] <= By(me, store.acts)
    ensures AllInTenure(By(me, old(store.acts)), By(me, store.acts), lease.token,
                        r.Success? || r.error == PointerConflict)
  {
    var validated := ValidateWriterForPublication(store, me, lease, sourceId, instanceId,
                                                  Some(lease.record.epoch), now);
    if validated.Failure? { return Failure(validated.error); }
    r := PublishOnce(store, me, validated.value, generation, manifestKey, manifestSha256, sourceId, instanceId, now);
    if r.Success? {
      ghost var published := By(me, store.acts);
      var _ := ReleaseGlobalWriter(store, me, validated.value, later);
      InTenureJoined(By(me, old(store.acts)), published, By(me, store.acts), lease.token, true, false);
    }
  }

  /** The control steps of sync_active_generation: acquire, upload, perhaps cancel, validate
      again, publish, release.  Only a run that reaches the last step publishes, and it
      publishes the epoch and token it was granted.  A run that fails has published nothing,
      unless the swap of the pointer failed, whose reply may have been lost. */
  method SyncActiveGeneration(store: ControlStore, me: Client, token: Token, generation: string,
                              manifestKey: string, manifestSha256: string, sourceId: string,
                              instanceId: string, clock: seq<int>, cancelEarly: bool, cancelLate: bool)
    returns (r: Result<Pointer, Error>)
    requires store.Valid() && token.Token? && token !in store.issued && |clock| == 4
    modifies store
    ensures store.Valid() && old(store.acts) <= store.acts && old(store.history) <= store.history
    ensures r.Success? ==>
              && r.value.tokenHash == HashOf(token) && r.value.generation == generation
              && r.value.manifestSha256 == manifestSha256
              && exists w: Writer | w.tokenHash == HashOf(token) && w.epoch == r.value.epoch ::
                   By(me, old(store.acts)) + [Draw(token)] + [Acquire(w)] + [Publish(r.value)]
                   <= By(me, store.acts)
    ensures cancelEarly || cancelLate ==> r.Failure? && r.error != PointerConflict
    ensures AllInTenure(By(me, old(store.acts)), By(me, store.acts), token, r.Success? || r.error == PointerConflict)
  {
    var acquired := AcquireGlobalWriter(store, me, token, sourceId, instanceId, clock[0], 300, false);
    if acquired.Failure? { return Failure(acquired.error); }
    var lease := acquired.value;
    if cancelEarly { return Failure(Cancelled); }
    store.Interference(me);
    ghost var start, before := By(me, old(store.acts)), By(me, store.acts);
    if cancelLate {
      var _ := ReleaseGlobalWriter(store, me, lease, clock[1]);
      InTenureJoined(start, before, By(me, store.acts), token, false, false);
      return Failure(Cancelled);
    }
    r := PublishUnderLease(store, me, lease, generation, manifestKey, manifestSha256, sourceId, instanceId,
                           clock[2], clock[3]);
    InTenureJoined(start, before, By(me, store.acts), token, false, r.Success? || r.error == PointerConflict);
  }
}
