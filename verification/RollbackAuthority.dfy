/** What every run keeps about active.json, previous.json and the lock, with either
    supervisor crashing and restarting at any step. */
module RollbackAuthority {
  import opened Common
  import opened Activation

  predicate Locked(pc: WebPc) { !pc.Boot? && !pc.Entry? }

  predicate HoldsPrevious(pc: WebPc) { pc.Before? || pc.After? || pc.Undo? || pc.Restored? }

  // ---------------------------------------------------------------- the invariant

  predicate Bookkeeping(f: Files, h: History, w: Web) {
    && DistinctCutovers(f.intents)
    && f.results.Keys <= f.intents && f.webAck.Keys <= f.intents && h.cut <= f.webAck.Keys
    && (!w.pc.Boot? ==> w.intent in f.intents)
    && (!w.pc.Boot? && !w.pc.Finish? ==> w.intent !in f.results)
    && (w.pc.Finish? && !w.pc.finish.ReleaseLock? ==> w.intent in f.results)
    && (Locked(w.pc) ==> f.lock == Held(w.intent))
    && (w.pc.Before? || w.pc.After? ==> !w.recovering)
    && (w.pc == Gate(Activation.Authority) ==> !w.recovering)
    && (w.pc.Entry? && !w.pc.entry.WriteFailed? ==> !w.recovering)
  }

  /** active.json is the previous or the target pointer of its last cutover, and while
      that cutover is also the last writer of previous.json, previous.json is its P. */
  predicate Pointers(f: Files, h: History) {
    && (h.owner.None? <==> h.cut == {})
    && (h.owner.Some? ==> h.owner.value in h.cut)
    && (h.owner.Some? ==> IsPrevious(h.owner.value, f.active) || IsTarget(h.owner.value, f.active))
    && (h.previousBy.None? <==> f.previous.None?)
    && (h.owner.Some? ==> h.previousBy.Some?)
    && (h.previousBy.Some? && h.previousBy == h.owner ==> IsPrevious(h.owner.value, f.previous.value))
    && (h.previousBy.Some? && h.previousBy != h.owner ==> f.previous == Some(f.active))
  }

  predicate AwaitsAuthority(pc: WebPc) {
    pc == Entry(TakeLock) || pc == Entry(LockWrite) || pc == Gate(Activation.Authority)
  }

  predicate Control(f: Files, h: History, w: Web) {
    var i := w.intent;
    && (w.pc == Entry(Claim) || w.pc == Entry(ClaimWrite) || w.pc == Gate(RecoverCheck) ==>
          w.current == f.active && !IsPrevious(i, f.active))
    && (w.pc == Entry(AckApplying) ==> i !in f.webAck)
    && (AwaitsAuthority(w.pc) || w.pc.Before? ==> ApplyingIn(f, i))
    && (HoldsPrevious(w.pc) ==> IsPrevious(i, w.previousDocument))
    && (HoldsPrevious(w.pc) && !w.recovering ==> w.current == w.previousDocument)
    && (w.pc.Before? ==> f.active == w.current && i !in h.cut)
    && (w.pc == Before(WriteActive) ==> h.previousBy == Some(i) && f.previous == Some(w.previousDocument))
    && (w.pc.After? ==> h.owner == Some(i) && h.previousBy == Some(i) && IsTarget(i, f.active))
    && (w.pc.Undo? ==>
          || (h.owner == Some(i) && h.previousBy == Some(i) && IsTarget(i, f.active))
          || (!w.recovering && f.active == w.previousDocument))
    && (w.pc.Restored? ==> f.active == w.previousDocument)
    && (w.pc.Undo? && (w.pc.undo.UndoAwait? || w.pc.undo.UndoFreeze? || w.pc.undo.UndoActive?) ==>
          i in f.webAck && f.webAck[i] == RollbackPending)
  }

  predicate CutOrFirst(h: History, p: Pointer) { p.intentDigest.OfIntent? ==> p.intentDigest.intent in h.cut }

  /** Every pointer in use was written by an intent that did its cutover. */
  predicate Lineage(f: Files, h: History, w: Web) {
    && CutOrFirst(h, f.active)
    && (f.previous.Some? ==> CutOrFirst(h, f.previous.value))
    && (HoldsPrevious(w.pc) ==> CutOrFirst(h, w.previousDocument))
    && forall i :: i in h.cut && i.previousDigest.OfPointer? ==> CutOrFirst(h, i.previousDigest.pointer)
  }

  /** An intent that switched the pointer and never began its rollback cannot find its
      previous pointer active again, so it cannot cut over twice. */
  predicate NoSecondCut(f: Files, h: History, w: Web) {
    forall i :: i in h.cut && ApplyingIn(f, i) ==>
      && i.previousDigest != OfPointer(f.active)
      && (HoldsPrevious(w.pc) && w.intent != i ==> i.previousDigest != OfPointer(w.previousDocument))
      && (f.previous.Some? && i.previousDigest == OfPointer(f.previous.value) ==> h.owner == Some(i))
  }

  predicate Local(s: State) { Bookkeeping(s.f, s.h, s.w) && Control(s.f, s.h, s.w) }

  predicate Global(s: State) { Pointers(s.f, s.h) && Lineage(s.f, s.h, s.w) && NoSecondCut(s.f, s.h, s.w) }

  predicate Inv(s: State) { Local(s) && Global(s) }

  lemma InitInv(s: State)
    requires Init(s)
    ensures Inv(s)
  {
  }

  lemma MaintenanceKeepsFiles(s: State, c: Choice)
    ensures MaintenanceNext(s, c).f == s.f && MaintenanceNext(s, c).h == s.h && MaintenanceNext(s, c).w == s.w
  {
  }

  lemma TargetIsNew(i: Intent, clock: int)
    ensures OfPointer(Target(i, clock)) != i.previousDigest
  {
    var p := Target(i, clock);
    assert p.intentDigest.intent < p;
    if i.previousDigest.OfPointer? { assert i.previousDigest.pointer < i; }
  }

  // ---------------------------------------------------------------- steps that move no pointer

  /** A step that leaves both pointers and the history alone, makes no intent of the
      history apply anew, and takes its rollback document from one of the two files. */
  predicate Quiet(s: State, t: State) {
    && t.f.active == s.f.active && t.f.previous == s.f.previous && t.h == s.h
    && (forall i :: i in s.h.cut && ApplyingIn(t.f, i) ==> ApplyingIn(s.f, i))
    && (HoldsPrevious(t.w.pc) ==>
          || (HoldsPrevious(s.w.pc) && t.w.intent == s.w.intent && t.w.previousDocument == s.w.previousDocument)
          || t.w.previousDocument == s.f.active
          || (s.f.previous == Some(t.w.previousDocument) && s.h.owner == Some(t.w.intent)))
  }

  lemma QuietKeepsGlobal(s: State, t: State)
    requires Global(s) && Quiet(s, t)
    ensures Global(t)
  {
  }

  lemma RaiseIsQuiet(s: State)
    requires HoldsPrevious(s.w.pc)
    ensures Quiet(s, Raise(s))
  {
  }

  lemma RaiseKeepsGlobal(s: State)
    requires Global(s) && HoldsPrevious(s.w.pc)
    ensures Global(Raise(s))
  {
    RaiseIsQuiet(s);
    QuietKeepsGlobal(s, Raise(s));
  }

  // ---------------------------------------------------------------- the three pointer writes

  lemma SetPreviousKeepsGlobal(s: State)
    requires Inv(s) && s.w.pc == Before(WritePrevious)
    ensures Global(SetPrevious(s, s.w.previousDocument))
  {
  }

  lemma SetTargetKeepsGlobal(s: State, clock: int)
    requires Inv(s) && s.w.pc == Before(WriteActive)
    ensures Global(SetTarget(s, clock))
  {
    TargetIsNew(s.w.intent, clock);
  }

  lemma RestoreKeepsGlobal(s: State)
    requires Inv(s) && s.w.pc == Undo(UndoActive)
    ensures Global(Restore(s))
  {
  }

  /** A recovery finds its own cutover: the last one. */
  lemma RecoversOwnCutover(s: State)
    requires Inv(s) && s.w.pc == Gate(RecoverCheck)
    requires s.w.current.generation == s.w.intent.targetGeneration
    requires s.f.previous.Some? && IsPrevious(s.w.intent, s.f.previous.value)
    ensures s.h.owner == Some(s.w.intent) && s.h.previousBy == s.h.owner && IsTarget(s.w.intent, s.f.active)
  {
  }

  // ---------------------------------------------------------------- every step keeps the local part

  lemma IdleKeepsLocal(s: State, c: Choice)
    requires Local(s) && s.w.pc == Boot(Idle)
    ensures Local(BootNext(s, c, Idle))
  {
  }

  lemma StartingKeepsLocal(s: State, c: Choice, pc: BootPc)
    requires Local(s) && s.w.pc == Boot(pc) && !pc.Idle?
    ensures Local(BootNext(s, c, pc))
  {
  }

  lemma BootKeepsLocal(s: State, c: Choice)
    requires Local(s) && s.w.pc.Boot?
    ensures Local(BootNext(s, c, s.w.pc.boot))
  {
    if s.w.pc.boot.Idle? { IdleKeepsLocal(s, c); } else { StartingKeepsLocal(s, c, s.w.pc.boot); }
  }

  predicate FirstEntry(pc: EntryPc) { pc.Compare? || pc.Claim? || pc.ClaimWrite? || pc.RollbackCheck? }

  lemma FirstEntryKeepsLocal(s: State, c: Choice)
    requires Local(s) && s.w.pc.Entry? && FirstEntry(s.w.pc.entry)
    ensures Local(EntryNext(s, c, s.w.pc.entry))
  {
  }

  lemma AcknowledgingKeepsLocal(s: State, c: Choice)
    requires Local(s) && (s.w.pc == Entry(WriteFailed) || s.w.pc == Entry(AckApplying) || s.w.pc == Entry(AckCheck))
    ensures Local(EntryNext(s, c, s.w.pc.entry))
  {
  }

  lemma LockingKeepsLocal(s: State, c: Choice)
    requires Local(s) && (s.w.pc == Entry(TakeLock) || s.w.pc == Entry(LockWrite))
    ensures Local(EntryNext(s, c, s.w.pc.entry))
  {
  }

  lemma LaterEntryKeepsLocal(s: State, c: Choice)
    requires Local(s) && s.w.pc.Entry? && !FirstEntry(s.w.pc.entry)
    ensures Local(EntryNext(s, c, s.w.pc.entry))
  {
    if s.w.pc == Entry(WriteFailed) || s.w.pc == Entry(AckApplying) || s.w.pc == Entry(AckCheck) {
      AcknowledgingKeepsLocal(s, c);
    } else if s.w.pc == Entry(TakeLock) || s.w.pc == Entry(LockWrite) {
      LockingKeepsLocal(s, c);
    }
  }

  lemma RecoverCheckKeepsLocal(s: State, c: Choice)
    requires Inv(s) && s.w.pc == Gate(RecoverCheck)
    ensures Local(GateNext(s, c, s.w.pc.gate))
  {
    if s.w.current.generation == s.w.intent.targetGeneration && s.f.previous.Some?
       && IsPrevious(s.w.intent, s.f.previous.value)
    {
      RecoversOwnCutover(s);
    }
  }

  lemma AuthorityKeepsLocal(s: State, c: Choice)
    requires Inv(s) && s.w.pc == Gate(Authority)
    ensures Local(GateNext(s, c, s.w.pc.gate))
  {
  }

  lemma OtherGateKeepsLocal(s: State, c: Choice)
    requires Local(s) && s.w.pc.Gate? && !s.w.pc.gate.RecoverCheck? && !s.w.pc.gate.Authority?
    ensures Local(GateNext(s, c, s.w.pc.gate))
  {
  }

  predicate FirstBefore(pc: BeforePc) { pc.StopOld? || pc.FreezeOld? }

  lemma FirstBeforeKeepsLocal(s: State, c: Choice)
    requires Local(s) && s.w.pc.Before? && FirstBefore(s.w.pc.before) && !c.raises
    ensures Local(BeforeNext(s, c, s.w.pc.before))
  {
  }

  lemma LaterBeforeKeepsLocal(s: State, c: Choice)
    requires Local(s) && s.w.pc.Before? && !FirstBefore(s.w.pc.before) && !c.raises
    ensures Local(BeforeNext(s, c, s.w.pc.before))
  {
  }

  lemma FirstBeforeRaisesLocal(s: State, c: Choice)
    requires Local(s) && s.w.pc.Before? && FirstBefore(s.w.pc.before) && c.raises
    ensures Local(BeforeNext(s, c, s.w.pc.before))
  {
  }

  lemma LaterBeforeRaisesLocal(s: State, c: Choice)
    requires Local(s) && s.w.pc.Before? && !FirstBefore(s.w.pc.before) && c.raises
    ensures Local(BeforeNext(s, c, s.w.pc.before))
  {
  }

  predicate FirstAfter(pc: AfterPc) { pc.ThawTarget? || pc.VerifyOne? || pc.StartTarget? || pc.AckSwitched? }

  lemma FirstAfterKeepsLocal(s: State, c: Choice)
    requires Local(s) && s.w.pc.After? && FirstAfter(s.w.pc.after) && !c.raises
    ensures Local(AfterNext(s, c, s.w.pc.after))
  {
  }

  lemma WaitingAfterKeepsLocal(s: State, c: Choice)
    requires Local(s) && (s.w.pc == After(AwaitTarget) || s.w.pc == After(AwaitReady)) && !c.raises
    ensures Local(AfterNext(s, c, s.w.pc.after))
  {
  }

  lemma LaterAfterKeepsLocal(s: State, c: Choice)
    requires Local(s) && s.w.pc.After? && !FirstAfter(s.w.pc.after) && !c.raises
    ensures Local(AfterNext(s, c, s.w.pc.after))
  {
    if s.w.pc == After(AwaitTarget) || s.w.pc == After(AwaitReady) { WaitingAfterKeepsLocal(s, c); }
  }

  lemma RaiseKeepsLocal(s: State)
    requires Local(s) && s.w.pc.After?
    ensures Local(Raise(s))
  {
  }

  lemma WaitingAfterEffectLocal(s: State, c: Choice)
    requires Local(s) && c.raises && c.effect
    requires s.w.pc == After(AwaitTarget) || s.w.pc == After(AwaitReady) || s.w.pc == After(VerifyTwo)
    ensures Local(AfterNext(s, c, s.w.pc.after))
  {
    RaiseKeepsLocal(s);
  }

  lemma LaterAfterEffectLocal(s: State, c: Choice)
    requires Local(s) && s.w.pc.After? && !FirstAfter(s.w.pc.after) && c.raises && c.effect
    ensures Local(AfterNext(s, c, s.w.pc.after))
  {
    if s.w.pc == After(AwaitTarget) || s.w.pc == After(AwaitReady) || s.w.pc == After(VerifyTwo) {
      WaitingAfterEffectLocal(s, c);
    } else if s.w.pc == After(WriteCommitted) {
      RaiseKeepsLocal(s);
    }
  }

  lemma FirstAfterEffectLocal(s: State, c: Choice)
    requires Local(s) && s.w.pc.After? && FirstAfter(s.w.pc.after) && c.raises && c.effect
    ensures Local(AfterNext(s, c, s.w.pc.after))
  {
    match s.w.pc.after
    case ThawTarget => RaiseKeepsLocal(s.(writable := s.writable + {s.w.intent.targetGeneration}));
    case VerifyOne => RaiseKeepsLocal(s);
    case StartTarget => RaiseKeepsLocal(StartWebChild(s));
    case AckSwitched => RaiseKeepsLocal(WriteAck(s, PointerSwitched));
  }

  lemma AfterEffectLocal(s: State, c: Choice)
    requires Local(s) && s.w.pc.After? && c.raises && c.effect
    ensures Local(AfterNext(s, c, s.w.pc.after))
  {
    if FirstAfter(s.w.pc.after) { FirstAfterEffectLocal(s, c); } else { LaterAfterEffectLocal(s, c); }
  }

  lemma AfterRaisesLocal(s: State, c: Choice)
    requires Local(s) && s.w.pc.After? && c.raises
    ensures Local(AfterNext(s, c, s.w.pc.after))
  {
    if c.effect { AfterEffectLocal(s, c); } else { RaiseKeepsLocal(s); }
  }

  predicate FirstUndo(pc: UndoPc) { pc.UndoStop? || pc.UndoAck? || pc.UndoAwait? }

  lemma FirstUndoKeepsLocal(s: State, c: Choice)
    requires Local(s) && s.w.pc.Undo? && FirstUndo(s.w.pc.undo) && !c.raises
    ensures Local(UndoNext(s, c, s.w.pc.undo))
  {
  }

  lemma LaterUndoKeepsLocal(s: State, c: Choice)
    requires Local(s) && s.w.pc.Undo? && !FirstUndo(s.w.pc.undo) && !c.raises
    ensures Local(UndoNext(s, c, s.w.pc.undo))
  {
  }

  lemma FirstUndoRaisesLocal(s: State, c: Choice)
    requires Local(s) && s.w.pc.Undo? && FirstUndo(s.w.pc.undo) && c.raises
    ensures Local(UndoNext(s, c, s.w.pc.undo))
  {
  }

  lemma LaterUndoRaisesLocal(s: State, c: Choice)
    requires Local(s) && s.w.pc.Undo? && !FirstUndo(s.w.pc.undo) && c.raises
    ensures Local(UndoNext(s, c, s.w.pc.undo))
  {
  }

  predicate FirstRestored(pc: RestorePc) { pc.UndoThaw? || pc.UndoStart? || pc.UndoSwitched? }

  lemma FirstRestoredKeepsLocal(s: State, c: Choice)
    requires Local(s) && s.w.pc.Restored? && FirstRestored(s.w.pc.restored) && !c.raises
    ensures Local(RestoredNext(s, c, s.w.pc.restored))
  {
  }

  lemma LaterRestoredKeepsLocal(s: State, c: Choice)
    requires Local(s) && s.w.pc.Restored? && !FirstRestored(s.w.pc.restored) && !c.raises
    ensures Local(RestoredNext(s, c, s.w.pc.restored))
  {
  }

  lemma SwitchedRaisesLocal(s: State, c: Choice)
    requires Local(s) && s.w.pc == Restored(UndoSwitched) && c.raises
    ensures Local(RestoredNext(s, c, s.w.pc.restored))
  {
  }

  lemma RestoredRaiseKeepsLocal(s: State)
    requires Local(s) && s.w.pc.Restored?
    ensures Local(Raise(s))
  {
  }

  lemma StartedRaisesLocal(s: State, c: Choice)
    requires Local(s) && (s.w.pc == Restored(UndoThaw) || s.w.pc == Restored(UndoStart)) && c.raises
    ensures Local(RestoredNext(s, c, s.w.pc.restored))
  {
    RestoredRaiseKeepsLocal(s);
    if s.w.pc.restored.UndoThaw? {
      RestoredRaiseKeepsLocal(s.(writable := s.writable + {s.w.previousDocument.generation}));
    } else {
      RestoredRaiseKeepsLocal(StartWebChild(s));
    }
  }

  lemma FirstRestoredRaisesLocal(s: State, c: Choice)
    requires Local(s) && s.w.pc.Restored? && FirstRestored(s.w.pc.restored) && c.raises
    ensures Local(RestoredNext(s, c, s.w.pc.restored))
  {
    if s.w.pc.restored.UndoSwitched? { SwitchedRaisesLocal(s, c); } else { StartedRaisesLocal(s, c); }
  }

  lemma LaterRestoredRaisesLocal(s: State, c: Choice)
    requires Local(s) && s.w.pc.Restored? && !FirstRestored(s.w.pc.restored) && c.raises
    ensures Local(RestoredNext(s, c, s.w.pc.restored))
  {
  }

  lemma FinishKeepsLocal(s: State, c: Choice)
    requires Local(s) && s.w.pc.Finish?
    ensures Local(FinishNext(s, c, s.w.pc.finish))
  {
  }

  // ---------------------------------------------------------------- every step keeps the global part

  lemma BootIsQuiet(s: State, c: Choice)
    requires Local(s) && s.w.pc.Boot?
    ensures Quiet(s, BootNext(s, c, s.w.pc.boot))
  {
  }

  lemma BootKeepsGlobal(s: State, c: Choice)
    requires Inv(s) && s.w.pc.Boot?
    ensures Global(BootNext(s, c, s.w.pc.boot))
  {
    BootIsQuiet(s, c);
    QuietKeepsGlobal(s, BootNext(s, c, s.w.pc.boot));
  }

  lemma ClaimingEntryIsQuiet(s: State, c: Choice)
    requires s.w.pc == Entry(Claim) || s.w.pc == Entry(ClaimWrite) || s.w.pc == Entry(Compare)
             || s.w.pc == Entry(RollbackCheck)
    ensures Quiet(s, EntryNext(s, c, s.w.pc.entry))
  {
  }

  lemma LockingEntryIsQuiet(s: State, c: Choice)
    requires s.w.pc.Entry? && s.w.pc != Entry(AckApplying)
    ensures Quiet(s, EntryNext(s, c, s.w.pc.entry))
  {
    if s.w.pc == Entry(Claim) || s.w.pc == Entry(ClaimWrite) || s.w.pc == Entry(Compare)
      || s.w.pc == Entry(RollbackCheck) {
      ClaimingEntryIsQuiet(s, c);
    }
  }

  lemma EntryIsQuiet(s: State, c: Choice)
    requires s.h.cut <= s.f.webAck.Keys && s.w.pc.Entry?
    requires s.w.pc == Entry(AckApplying) ==> s.w.intent !in s.f.webAck
    ensures Quiet(s, EntryNext(s, c, s.w.pc.entry))
  {
    if s.w.pc != Entry(AckApplying) { LockingEntryIsQuiet(s, c); }
  }

  lemma EntryKeepsGlobal(s: State, c: Choice)
    requires Inv(s) && s.w.pc.Entry?
    ensures Global(EntryNext(s, c, s.w.pc.entry))
  {
    EntryIsQuiet(s, c);
    QuietKeepsGlobal(s, EntryNext(s, c, s.w.pc.entry));
  }

  lemma GateIsQuiet(s: State, c: Choice)
    requires Inv(s) && s.w.pc.Gate?
    ensures Quiet(s, GateNext(s, c, s.w.pc.gate))
  {
  }

  lemma GateKeepsGlobal(s: State, c: Choice)
    requires Inv(s) && s.w.pc.Gate?
    ensures Global(GateNext(s, c, s.w.pc.gate))
  {
    GateIsQuiet(s, c);
    QuietKeepsGlobal(s, GateNext(s, c, s.w.pc.gate));
  }

  lemma AfterIsQuiet(s: State, c: Choice)
    requires Local(s) && s.w.pc.After? && !c.raises
    ensures Quiet(s, AfterNext(s, c, s.w.pc.after))
  {
  }

  lemma AfterKeepsGlobal(s: State, c: Choice)
    requires Inv(s) && s.w.pc.After?
    ensures Global(AfterNext(s, c, s.w.pc.after))
  {
    var done := AfterNext(s, c.(raises := false), s.w.pc.after);
    AfterIsQuiet(s, c.(raises := false));
    QuietKeepsGlobal(s, done);
    RaiseKeepsGlobal(s);
    RaiseKeepsGlobal(done.(w := s.w));
  }

  lemma RestoredIsQuiet(s: State, c: Choice)
    requires Local(s) && s.w.pc.Restored? && !c.raises
    ensures Quiet(s, RestoredNext(s, c, s.w.pc.restored))
  {
  }

  lemma RestoredKeepsGlobal(s: State, c: Choice)
    requires Inv(s) && s.w.pc.Restored?
    ensures Global(RestoredNext(s, c, s.w.pc.restored))
  {
    var done := RestoredNext(s, c.(raises := false), s.w.pc.restored);
    RestoredIsQuiet(s, c.(raises := false));
    QuietKeepsGlobal(s, done);
    RaiseKeepsGlobal(s);
    RaiseKeepsGlobal(done.(w := s.w));
  }

  lemma FinishIsQuiet(s: State, c: Choice)
    requires Local(s) && s.w.pc.Finish?
    ensures Quiet(s, FinishNext(s, c, s.w.pc.finish))
  {
  }

  lemma FinishKeepsGlobal(s: State, c: Choice)
    requires Inv(s) && s.w.pc.Finish?
    ensures Global(FinishNext(s, c, s.w.pc.finish))
  {
    FinishIsQuiet(s, c);
    QuietKeepsGlobal(s, FinishNext(s, c, s.w.pc.finish));
  }

  lemma BeforeKeepsGlobal(s: State, c: Choice)
    requires Inv(s) && s.w.pc.Before?
    ensures Global(BeforeNext(s, c, s.w.pc.before))
  {
    var effect := BeforeNext(s, c.(raises := false), s.w.pc.before).(w := s.w);
    if s.w.pc.before.WritePrevious? { SetPreviousKeepsGlobal(s); }
    else if s.w.pc.before.WriteActive? { SetTargetKeepsGlobal(s, c.clock); }
    else { QuietKeepsGlobal(s, effect); }
    QuietKeepsGlobal(effect, BeforeNext(s, c.(raises := false), s.w.pc.before));
    RaiseKeepsGlobal(effect);
    RaiseKeepsGlobal(s);
  }

  lemma UndoEffectKeepsGlobal(s: State, c: Choice)
    requires Inv(s) && s.w.pc.Undo?
    ensures Global(UndoNext(s, c.(raises := false), s.w.pc.undo).(w := s.w))
  {
    if s.w.pc.undo.UndoActive? {
      RestoreKeepsGlobal(s);
    } else {
      QuietKeepsGlobal(s, UndoNext(s, c.(raises := false), s.w.pc.undo).(w := s.w));
    }
  }

  /** A raising step raises in the state before it or in the one after its effect. */
  lemma UndoRaises(s: State, c: Choice)
    requires s.w.pc.Undo? && c.raises
    ensures var effect := UndoNext(s, c.(raises := false), s.w.pc.undo).(w := s.w);
            UndoNext(s, c, s.w.pc.undo) == Raise(s) || UndoNext(s, c, s.w.pc.undo) == Raise(effect)
  {
  }

  lemma UndoMoves(s: State, c: Choice)
    requires s.w.pc.Undo? && !c.raises
    ensures var t := UndoNext(s, c, s.w.pc.undo); Quiet(t.(w := s.w), t)
  {
  }

  lemma UndoEffect(s: State, c: Choice) returns (effect: State)
    requires Inv(s) && s.w.pc.Undo?
    ensures Global(effect) && effect.w == s.w
    ensures var t := UndoNext(s, c, s.w.pc.undo);
            if c.raises then t == Raise(s) || t == Raise(effect) else Quiet(effect, t)
  {
    effect := UndoNext(s, c.(raises := false), s.w.pc.undo).(w := s.w);
    UndoEffectKeepsGlobal(s, c);
    if c.raises { UndoRaises(s, c); } else { UndoMoves(s, c); }
  }

  lemma UndoKeepsGlobal(s: State, c: Choice)
    requires Inv(s) && s.w.pc.Undo?
    ensures Global(UndoNext(s, c, s.w.pc.undo))
  {
    var effect := UndoEffect(s, c);
    if c.raises {
      RaiseKeepsGlobal(effect);
      RaiseKeepsGlobal(s);
    } else {
      QuietKeepsGlobal(effect, UndoNext(s, c, s.w.pc.undo));
    }
  }

  // ---------------------------------------------------------------- all steps, all runs

  lemma EntryKeepsInv(s: State, c: Choice)
    requires Inv(s) && s.w.pc.Entry?
    ensures Inv(EntryNext(s, c, s.w.pc.entry))
  {
    EntryKeepsGlobal(s, c);
    if FirstEntry(s.w.pc.entry) { FirstEntryKeepsLocal(s, c); } else { LaterEntryKeepsLocal(s, c); }
  }

  lemma GateKeepsInv(s: State, c: Choice)
    requires Inv(s) && s.w.pc.Gate?
    ensures Inv(GateNext(s, c, s.w.pc.gate))
  {
    GateKeepsGlobal(s, c);
    match s.w.pc.gate
    case RecoverCheck => RecoverCheckKeepsLocal(s, c);
    case Authority => AuthorityKeepsLocal(s, c);
    case _ => OtherGateKeepsLocal(s, c);
  }

  lemma BeforeKeepsInv(s: State, c: Choice)
    requires Inv(s) && s.w.pc.Before?
    ensures Inv(BeforeNext(s, c, s.w.pc.before))
  {
    BeforeKeepsGlobal(s, c);
    if FirstBefore(s.w.pc.before) {
      if c.raises { FirstBeforeRaisesLocal(s, c); } else { FirstBeforeKeepsLocal(s, c); }
    } else {
      if c.raises { LaterBeforeRaisesLocal(s, c); } else { LaterBeforeKeepsLocal(s, c); }
    }
  }

  lemma AfterKeepsInv(s: State, c: Choice)
    requires Inv(s) && s.w.pc.After?
    ensures Inv(AfterNext(s, c, s.w.pc.after))
  {
    AfterKeepsGlobal(s, c);
    if c.raises { AfterRaisesLocal(s, c); }
    else if FirstAfter(s.w.pc.after) { FirstAfterKeepsLocal(s, c); }
    else { LaterAfterKeepsLocal(s, c); }
  }

  lemma UndoKeepsInv(s: State, c: Choice)
    requires Inv(s) && s.w.pc.Undo?
    ensures Inv(UndoNext(s, c, s.w.pc.undo))
  {
    UndoKeepsGlobal(s, c);
    if FirstUndo(s.w.pc.undo) {
      if c.raises { FirstUndoRaisesLocal(s, c); } else { FirstUndoKeepsLocal(s, c); }
    } else {
      if c.raises { LaterUndoRaisesLocal(s, c); } else { LaterUndoKeepsLocal(s, c); }
    }
  }

  lemma RestoredKeepsInv(s: State, c: Choice)
    requires Inv(s) && s.w.pc.Restored?
    ensures Inv(RestoredNext(s, c, s.w.pc.restored))
  {
    RestoredKeepsGlobal(s, c);
    if FirstRestored(s.w.pc.restored) {
      if c.raises { FirstRestoredRaisesLocal(s, c); } else { FirstRestoredKeepsLocal(s, c); }
    } else {
      if c.raises { LaterRestoredRaisesLocal(s, c); } else { LaterRestoredKeepsLocal(s, c); }
    }
  }

  lemma WebKeepsInv(s: State, c: Choice)
    requires Inv(s)
    ensures Inv(WebNext(s, c))
  {
    match s.w.pc
    case Boot(_) => BootKeepsLocal(s, c); BootKeepsGlobal(s, c);
    case Entry(_) => EntryKeepsInv(s, c);
    case Gate(_) => GateKeepsInv(s, c);
    case Before(_) => BeforeKeepsInv(s, c);
    case After(_) => AfterKeepsInv(s, c);
    case Undo(_) => UndoKeepsInv(s, c);
    case Restored(_) => RestoredKeepsInv(s, c);
    case Finish(_) => FinishKeepsLocal(s, c); FinishKeepsGlobal(s, c);
  }

  lemma StepKeepsInv(s: State, l: Label)
    requires Inv(s) && Enabled(s, l)
    ensures Inv(Next(s, l))
  {
    match l
    case WebStep(c) => WebKeepsInv(s, c);
    case MaintenanceStep(c) => MaintenanceKeepsFiles(s, c);
    case _ =>
  }

  lemma {:induction false} RunKeepsInv(run: seq<State>, labels: seq<Label>, k: nat)
    requires IsRun(run, labels) && k < |run|
    ensures Inv(run[k])
  {
    if k == 0 { InitInv(run[0]); }
    else {
      RunKeepsInv(run, labels, k - 1);
      StepKeepsInv(run[k - 1], labels[k - 1]);
    }
  }
}
