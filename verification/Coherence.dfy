/** Child processes, writable workspaces and the acknowledgement handshake, in runs where
    the maintenance supervisor does not restart while a handshake is open. */
module Coherence {
  import opened Common
  import opened Activation
  import opened RollbackAuthority

  // ---------------------------------------------------------------- the handshake

  /** How far the web side of an intent has come; no acknowledgement is 0. */
  function Rank(f: Files, i: Intent): nat {
    if i !in f.webAck then 0
    else match f.webAck[i]
         case Applying => 1 case PointerSwitched => 2 case Verifying => 3
         case RollbackPending => 4 case RollbackPointerSwitched => 5
         case _ => 6
  }

  predicate MBooting(pc: MaintenancePc) { pc.MBootRead? || pc.MBootThaw? || pc.MBootResolve? || pc.MBootSpawn? }

  predicate MAnswering(pc: MaintenancePc) { pc.MStart? || pc.MSpawn? || pc.MStopUndo? || pc.MAck? }

  predicate MQuiescing(pc: MaintenancePc) { pc.MStop? || pc.MAckQuiesced? || pc.MPause? }

  predicate MResuming(pc: MaintenancePc) { pc.MResume? || pc.MResumeSpawn? || pc.MClear? }

  /** Where the maintenance process is, against the intent it is paused for. */
  predicate MControl(s: State) {
    && (MBooting(s.m.pc) ==> s.m.paused.None? && NoOpenHandshake(s))
    && (MQuiescing(s.m.pc) ==> s.m.paused.None?)
    && (MAnswering(s.m.pc) || s.m.pc.MReadWeb? ==> s.m.paused == Some(s.m.intent))
    && (MResuming(s.m.pc) ==> s.m.paused == Some(s.m.intent) && s.m.intent in s.f.results)
    && (s.m.pc.MReconcile? ==> s.m.intent in s.f.results)
    && (s.m.pc.MAckQuiesced? || (s.m.pc.MAck? && s.m.ack == RollbackQuiesced) ==> s.maintenanceChild.None?)
    && (MAnswering(s.m.pc) ==> match s.m.ack
          case TargetStarted => Rank(s.f, s.m.intent) >= 2 && !s.m.pc.MStopUndo?
          case RollbackQuiesced => Rank(s.f, s.m.intent) >= 4 && (s.m.pc.MStopUndo? || s.m.pc.MAck?)
          case RollbackStarted => Rank(s.f, s.m.intent) >= 5 && !s.m.pc.MStopUndo?
          case _ => false)
  }

  /** Every open handshake is the one the maintenance process is paused for, and its
      acknowledgement never runs ahead of the web side. */
  predicate Handshake(s: State) {
    forall i :: i in s.maintenanceAck && i !in s.f.results ==>
      && (s.m.paused == Some(i) || (s.m.pc.MPause? && s.m.intent == i))
      && (Rank(s.f, i) <= 1 ==> s.maintenanceAck[i] == Quiesced && s.maintenanceChild.None?)
      && (Rank(s.f, i) <= 3 ==> s.maintenanceAck[i] == Quiesced || s.maintenanceAck[i] == TargetStarted)
      && (MAnswering(s.m.pc) && s.m.ack == TargetStarted ==>
            s.maintenanceAck[i] == Quiesced || s.maintenanceAck[i] == TargetStarted)
      && (Rank(s.f, i) == 4 && s.maintenanceAck[i] == RollbackQuiesced ==> s.maintenanceChild.None?)
  }

  /** Once the web side has announced the restored pointer, that pointer is active. */
  predicate SwitchedBack(s: State) {
    forall i :: i in s.maintenanceAck && i !in s.f.results && Rank(s.f, i) == 5 ==> IsPrevious(i, s.f.active)
  }

  /** The web side goes past its first acknowledgement only after the maintenance one, and
      past the restored pointer only with a result. */
  ghost predicate Acknowledged(s: State) {
    && s.h.cut <= s.maintenanceAck.Keys
    && forall i :: i !in s.f.results ==> Rank(s.f, i) <= (if i in s.maintenanceAck then 5 else 1)
  }

  /** Points of the web process that rest on the quiesced acknowledgement. */
  predicate RestsOnQuiesced(pc: WebPc) {
    match pc
    case Entry(e) => e.AckApplying? || e.TakeLock? || e.LockWrite?
    case Gate(g) => g.Authority?
    case Before(_) => true
    case After(a) => a.ThawTarget? || a.VerifyOne? || a.StartTarget? || a.AckSwitched?
    case _ => false
  }

  predicate Frozen(pc: WebPc) { pc == Undo(UndoFreeze) || pc == Undo(UndoActive) }

  predicate WControl(s: State) {
    var i := s.w.intent;
    && (s.w.pc == Entry(Validate) || s.w.pc == Entry(AckCheck) ==> i in s.maintenanceAck)
    && (RestsOnQuiesced(s.w.pc) || s.w.pc.After? || s.w.pc.Undo? || s.w.pc.Restored? ==> i in s.maintenanceAck)
    && (RestsOnQuiesced(s.w.pc) ==> Rank(s.f, i) <= 1)
    && (s.w.pc.After? ==> Rank(s.f, i) <= 3)
    && (s.w.pc.Undo? ==> Rank(s.f, i) <= 4)
    && (s.w.pc == Restored(UndoThaw) || s.w.pc == Restored(UndoStart) || s.w.pc == Restored(UndoSwitched) ==>
          Rank(s.f, i) <= 4)
    && (Frozen(s.w.pc) ==> MaintenanceSays(s, i, RollbackQuiesced) && Rank(s.f, i) == 4)
  }

  // ---------------------------------------------------------------- children and workspaces

  predicate WebStopped(pc: WebPc) {
    match pc
    case Before(b) => !b.StopOld?
    case After(a) => a.ThawTarget? || a.VerifyOne?
    case Undo(u) => !u.UndoStop?
    case Restored(r) => r.UndoThaw?
    case _ => false
  }

  predicate Children(s: State) {
    && (s.webChild.Some? ==> s.webChild.value == s.f.active)
    && (s.maintenanceChild.Some? ==> s.maintenanceChild.value == s.f.active)
    && (s.m.pc.MBootThaw? || s.m.pc.MBootSpawn? || s.m.pc.MSpawn? || s.m.pc.MResumeSpawn? ==>
          s.m.read == s.f.active)
    && (s.w.pc == Boot(BootThaw) ==> s.w.current == s.f.active)
    && (WebStopped(s.w.pc) ==> s.webChild.None?)
  }

  predicate Workspaces(s: State) {
    && s.writable <= {s.f.active.generation}
    && (s.w.pc == Before(WritePrevious) || s.w.pc == Before(WriteActive) ==> s.writable == {})
    && (s.w.pc == Undo(UndoActive) ==> s.writable <= {s.w.previousDocument.generation})
  }

  // ---------------------------------------------------------------- maintenance steps

  predicate Unresolved(s: State) { !s.w.pc.Boot? && !s.w.pc.Finish? ==> s.w.intent !in s.f.results }

  predicate Silent(s: State, t: State) { t.f == s.f && t.h == s.h && t.maintenanceAck == s.maintenanceAck }

  lemma SilentKeeps(s: State, t: State)
    requires Silent(s, t)
    ensures SwitchedBack(s) ==> SwitchedBack(t)
    ensures Acknowledged(s) ==> Acknowledged(t)
  {
  }

  lemma MaintenanceTickKeepsMControl(s: State, c: Choice)
    requires MControl(s) && Handshake(s) && (s.m.pc.MIdle? || s.m.pc.MReadWeb?)
    ensures MControl(MaintenanceNext(s, c))
  {
  }

  lemma MaintenanceWorkKeepsMControl(s: State, c: Choice)
    requires MControl(s) && Handshake(s) && (MAnswering(s.m.pc) || MResuming(s.m.pc))
    ensures MControl(MaintenanceNext(s, c))
  {
  }

  lemma MaintenanceKeepsMControl(s: State, c: Choice)
    requires MControl(s) && Handshake(s)
    ensures MControl(MaintenanceNext(s, c))
  {
    if s.m.pc.MIdle? || s.m.pc.MReadWeb? { MaintenanceTickKeepsMControl(s, c); }
    else if MAnswering(s.m.pc) || MResuming(s.m.pc) { MaintenanceWorkKeepsMControl(s, c); }
  }

  predicate WritesAck(pc: MaintenancePc) { pc.MReconcile? || pc.MAck? || pc.MAckQuiesced? }

  lemma MaintenanceAckKeepsHandshake(s: State, c: Choice)
    requires MControl(s) && Handshake(s) && Acknowledged(s) && WritesAck(s.m.pc)
    ensures Handshake(MaintenanceNext(s, c))
  {
  }

  lemma MaintenanceTickKeepsHandshake(s: State, c: Choice)
    requires MControl(s) && Handshake(s) && s.m.pc.MIdle?
    ensures Handshake(MaintenanceNext(s, c))
  {
  }

  lemma MaintenanceWorkKeepsHandshake(s: State, c: Choice)
    requires MControl(s) && Handshake(s) && !WritesAck(s.m.pc) && (MAnswering(s.m.pc) || MResuming(s.m.pc))
    ensures Handshake(MaintenanceNext(s, c))
  {
  }

  lemma MaintenanceQuietKeepsHandshake(s: State, c: Choice)
    requires MControl(s) && Handshake(s) && !WritesAck(s.m.pc) && (MQuiescing(s.m.pc) || s.m.pc.MReadWeb?)
    ensures Handshake(MaintenanceNext(s, c))
  {
  }

  lemma MaintenanceOtherKeepsHandshake(s: State, c: Choice)
    requires MControl(s) && Handshake(s) && !WritesAck(s.m.pc) && !s.m.pc.MIdle?
    ensures Handshake(MaintenanceNext(s, c))
  {
    if MAnswering(s.m.pc) || MResuming(s.m.pc) { MaintenanceWorkKeepsHandshake(s, c); }
    else if MQuiescing(s.m.pc) || s.m.pc.MReadWeb? { MaintenanceQuietKeepsHandshake(s, c); }
  }

  lemma MaintenanceMoveKeepsHandshake(s: State, c: Choice)
    requires MControl(s) && Handshake(s) && !WritesAck(s.m.pc)
    ensures Handshake(MaintenanceNext(s, c))
  {
    if s.m.pc.MIdle? { MaintenanceTickKeepsHandshake(s, c); } else { MaintenanceOtherKeepsHandshake(s, c); }
  }

  lemma MaintenanceAckKeepsAcknowledged(s: State, c: Choice)
    requires MControl(s) && Handshake(s) && Acknowledged(s) && SwitchedBack(s) && WritesAck(s.m.pc)
    ensures Acknowledged(MaintenanceNext(s, c)) && SwitchedBack(MaintenanceNext(s, c))
  {
  }

  lemma MaintenanceMoveIsSilent(s: State, c: Choice)
    requires !WritesAck(s.m.pc)
    ensures Silent(s, MaintenanceNext(s, c))
  {
  }

  lemma MaintenanceKeepsAcknowledged(s: State, c: Choice)
    requires MControl(s) && Handshake(s) && Acknowledged(s) && SwitchedBack(s)
    ensures Acknowledged(MaintenanceNext(s, c)) && SwitchedBack(MaintenanceNext(s, c))
  {
    if WritesAck(s.m.pc) {
      MaintenanceAckKeepsAcknowledged(s, c);
    } else {
      MaintenanceMoveIsSilent(s, c);
      SilentKeeps(s, MaintenanceNext(s, c));
    }
  }

  lemma MaintenanceAckKeepsWControl(s: State, c: Choice)
    requires MControl(s) && Handshake(s) && WControl(s) && Unresolved(s) && WritesAck(s.m.pc)
    ensures WControl(MaintenanceNext(s, c))
  {
  }

  lemma SilentKeepsWControl(s: State, t: State)
    requires Silent(s, t) && t.w == s.w && WControl(s)
    ensures WControl(t)
  {
  }

  lemma MaintenanceKeepsWControl(s: State, c: Choice)
    requires MControl(s) && Handshake(s) && WControl(s) && Unresolved(s)
    ensures WControl(MaintenanceNext(s, c))
  {
    if WritesAck(s.m.pc) {
      MaintenanceAckKeepsWControl(s, c);
    } else {
      MaintenanceMoveIsSilent(s, c);
      MaintenanceKeepsFiles(s, c);
      SilentKeepsWControl(s, MaintenanceNext(s, c));
    }
  }

  lemma MaintenanceBootKeepsChildren(s: State, c: Choice)
    requires Children(s) && MBooting(s.m.pc)
    ensures Children(MaintenanceNext(s, c))
  {
  }

  lemma MaintenanceStartKeepsChildren(s: State, c: Choice)
    requires Children(s) && (MResuming(s.m.pc) || MAnswering(s.m.pc))
    ensures Children(MaintenanceNext(s, c))
  {
  }

  lemma MaintenanceKeepsChildren(s: State, c: Choice)
    requires Children(s)
    ensures Children(MaintenanceNext(s, c))
  {
    if MBooting(s.m.pc) { MaintenanceBootKeepsChildren(s, c); }
    else if MResuming(s.m.pc) || MAnswering(s.m.pc) { MaintenanceStartKeepsChildren(s, c); }
  }

  lemma MaintenanceThawKeepsWorkspaces(s: State, c: Choice)
    requires MControl(s) && WControl(s) && Children(s) && Workspaces(s) && Unresolved(s) && s.m.pc.MBootThaw?
    ensures Workspaces(MaintenanceNext(s, c))
  {
  }

  lemma MaintenanceMovesNoWorkspace(s: State, c: Choice)
    requires !s.m.pc.MBootThaw?
    ensures MaintenanceNext(s, c).writable == s.writable
  {
  }

  lemma MaintenanceKeepsWorkspaces(s: State, c: Choice)
    requires MControl(s) && WControl(s) && Children(s) && Workspaces(s) && Unresolved(s)
    ensures Workspaces(MaintenanceNext(s, c))
  {
    if s.m.pc.MBootThaw? {
      MaintenanceThawKeepsWorkspaces(s, c);
    } else {
      MaintenanceMovesNoWorkspace(s, c);
      MaintenanceKeepsFiles(s, c);
    }
  }

  // ---------------------------------------------------------------- web steps

  /** A web step leaves the maintenance side alone and moves no intent back. */
  ghost predicate MovesForward(s: State, t: State) {
    && t.m == s.m && t.maintenanceAck == s.maintenanceAck && t.maintenanceChild == s.maintenanceChild
    && s.f.results.Keys <= t.f.results.Keys
    && (forall i :: Rank(s.f, i) <= Rank(t.f, i))
  }

  lemma ForwardKeepsHandshake(s: State, t: State)
    requires MControl(s) && Handshake(s) && MovesForward(s, t)
    ensures MControl(t) && Handshake(t)
  {
  }

  /** A web step outside the guarded blocks: no pointer, no workspace, no new child. */
  ghost predicate Calm(s: State, t: State) {
    && MovesForward(s, t)
    && t.f.active == s.f.active && t.h == s.h && t.writable == s.writable
    && (t.webChild == s.webChild || t.webChild.None?)
    && (forall i :: Rank(t.f, i) == 5 ==> Rank(s.f, i) == 5)
    && (forall i :: i !in t.f.results && Rank(t.f, i) > 1 ==> Rank(s.f, i) == Rank(t.f, i))
    && !WebStopped(t.w.pc) && t.w.pc != Boot(BootThaw)
  }

  lemma CalmKeeps(s: State, t: State)
    requires Calm(s, t) && SwitchedBack(s) && Acknowledged(s) && Children(s) && Workspaces(s)
    ensures SwitchedBack(t) && Acknowledged(t) && Children(t) && Workspaces(t)
  {
  }

  // Entry, Gate and Finish.

  lemma FirstEntryIsCalm(s: State, c: Choice)
    requires s.w.pc.Entry? && FirstEntry(s.w.pc.entry) && Unresolved(s)
    requires s.w.pc == Entry(AckApplying) ==> s.w.intent !in s.f.webAck
    ensures Calm(s, EntryNext(s, c, s.w.pc.entry))
  {
  }

  lemma FirstEntryWControl(s: State, c: Choice)
    requires s.w.pc.Entry? && FirstEntry(s.w.pc.entry) && WControl(s)
    ensures WControl(EntryNext(s, c, s.w.pc.entry))
  {
  }

  lemma WritingEntryIsCalm(s: State, c: Choice)
    requires s.w.pc == Entry(WriteFailed) || s.w.pc == Entry(AckApplying)
    requires Unresolved(s) && (s.w.pc == Entry(AckApplying) ==> s.w.intent !in s.f.webAck)
    ensures Calm(s, EntryNext(s, c, s.w.pc.entry))
  {
  }

  lemma LockingEntryIsCalm(s: State, c: Choice)
    requires s.w.pc == Entry(TakeLock) || s.w.pc == Entry(LockWrite) || s.w.pc == Entry(Validate)
    ensures Calm(s, EntryNext(s, c, s.w.pc.entry))
  {
  }

  lemma LaterEntryIsCalm(s: State, c: Choice)
    requires s.w.pc.Entry? && !FirstEntry(s.w.pc.entry) && Unresolved(s)
    requires s.w.pc == Entry(AckApplying) ==> s.w.intent !in s.f.webAck
    ensures Calm(s, EntryNext(s, c, s.w.pc.entry))
  {
    if s.w.pc == Entry(WriteFailed) || s.w.pc == Entry(AckApplying) {
      WritingEntryIsCalm(s, c);
    } else if s.w.pc == Entry(TakeLock) || s.w.pc == Entry(LockWrite) || s.w.pc == Entry(Validate) {
      LockingEntryIsCalm(s, c);
    }
  }

  lemma AcknowledgingWControl(s: State, c: Choice)
    requires (s.w.pc == Entry(AckApplying) || s.w.pc == Entry(AckCheck)) && WControl(s)
    ensures WControl(EntryNext(s, c, s.w.pc.entry))
  {
  }

  lemma LockingEntryWControl(s: State, c: Choice)
    requires (s.w.pc == Entry(TakeLock) || s.w.pc == Entry(LockWrite)) && WControl(s)
    ensures WControl(EntryNext(s, c, s.w.pc.entry))
  {
  }

  lemma LaterEntryWControl(s: State, c: Choice)
    requires s.w.pc.Entry? && !FirstEntry(s.w.pc.entry) && WControl(s)
    ensures WControl(EntryNext(s, c, s.w.pc.entry))
  {
    if s.w.pc.entry.AckApplying? || s.w.pc.entry.AckCheck? { AcknowledgingWControl(s, c); }
    else if s.w.pc.entry.TakeLock? || s.w.pc.entry.LockWrite? { LockingEntryWControl(s, c); }
  }

  lemma WritingGateIsCalm(s: State, c: Choice)
    requires (s.w.pc == Gate(AuthorityFailed) || s.w.pc == Gate(Activation.UndoFailed)) && Unresolved(s)
    ensures Calm(s, GateNext(s, c, s.w.pc.gate))
  {
  }

  lemma CheckingGateIsCalm(s: State, c: Choice)
    requires s.w.pc.Gate? && !s.w.pc.gate.AuthorityFailed? && !s.w.pc.gate.UndoFailed?
    ensures Calm(s, GateNext(s, c, s.w.pc.gate))
  {
  }

  lemma GateIsCalm(s: State, c: Choice)
    requires s.w.pc.Gate? && Unresolved(s)
    ensures Calm(s, GateNext(s, c, s.w.pc.gate))
  {
    if s.w.pc.gate.AuthorityFailed? || s.w.pc.gate.UndoFailed? { WritingGateIsCalm(s, c); }
    else { CheckingGateIsCalm(s, c); }
  }

  lemma AcknowledgingFinishIsCalm(s: State, c: Choice)
    requires (s.w.pc == Finish(AckCommitted) || s.w.pc == Finish(AckRolledBack)) && s.w.intent in s.f.results
    ensures Calm(s, FinishNext(s, c, s.w.pc.finish))
  {
  }

  lemma FinishIsCalm(s: State, c: Choice)
    requires s.w.pc.Finish? && (!s.w.pc.finish.ReleaseLock? ==> s.w.intent in s.f.results)
    ensures Calm(s, FinishNext(s, c, s.w.pc.finish))
  {
    if s.w.pc.finish.AckCommitted? || s.w.pc.finish.AckRolledBack? { AcknowledgingFinishIsCalm(s, c); }
  }

  lemma RecoverCheckWControl(s: State, c: Choice)
    requires Inv(s) && WControl(s) && SwitchedBack(s) && Acknowledged(s) && s.w.pc == Gate(RecoverCheck)
    ensures WControl(GateNext(s, c, s.w.pc.gate))
  {
    if s.w.current.generation == s.w.intent.targetGeneration && s.f.previous.Some?
       && IsPrevious(s.w.intent, s.f.previous.value)
    {
      RecoversOwnCutover(s);
    }
  }

  lemma OtherGateWControl(s: State, c: Choice)
    requires s.w.pc.Gate? && !s.w.pc.gate.RecoverCheck? && WControl(s)
    ensures WControl(GateNext(s, c, s.w.pc.gate))
  {
  }

  lemma FinishWControl(s: State, c: Choice)
    requires s.w.pc.Finish? && WControl(s)
    ensures WControl(FinishNext(s, c, s.w.pc.finish))
  {
  }

  // Boot and the guarded blocks.

  /** Nobody runs, and nobody is about to run, on the pointer being replaced. */
  predicate AllStopped(s: State) {
    && s.webChild.None? && s.maintenanceChild.None?
    && !s.m.pc.MBootThaw? && !s.m.pc.MBootSpawn? && !s.m.pc.MSpawn? && !s.m.pc.MResumeSpawn?
  }

  predicate ReplacesActive(pc: WebPc) { pc == Before(WriteActive) || pc == Undo(UndoActive) }

  lemma ReplacedWhileStopped(s: State)
    requires MControl(s) && Handshake(s) && WControl(s) && Unresolved(s) && WebStopped(s.w.pc) && Children(s)
    requires ReplacesActive(s.w.pc)
    ensures AllStopped(s)
  {
  }

  /** Steps that write an acknowledgement, a pointer or a result, among the guarded ones. */
  predicate WritesFiles(pc: WebPc) {
    match pc
    case Before(b) => b.WritePrevious? || b.WriteActive?
    case After(a) => a.AckSwitched? || a.AckVerifying? || a.WriteCommitted?
    case Undo(u) => u.UndoAck? || u.UndoActive?
    case Restored(r) => r.UndoSwitched? || r.UndoResult?
    case _ => true
  }

  lemma BootForward(s: State, c: Choice)
    requires s.w.pc.Boot?
    ensures MovesForward(s, BootNext(s, c, s.w.pc.boot))
  {
  }

  lemma BootWControl(s: State, c: Choice)
    requires s.w.pc.Boot? && WControl(s)
    ensures WControl(BootNext(s, c, s.w.pc.boot))
  {
  }

  lemma BootChildren(s: State, c: Choice)
    requires s.w.pc.Boot? && Children(s)
    ensures Children(BootNext(s, c, s.w.pc.boot))
  {
  }

  lemma BootWorkspaces(s: State, c: Choice)
    requires s.w.pc.Boot? && Children(s) && Workspaces(s)
    ensures Workspaces(BootNext(s, c, s.w.pc.boot))
  {
  }

  lemma BootSwitchedBack(s: State, c: Choice)
    requires s.w.pc.Boot? && SwitchedBack(s)
    ensures SwitchedBack(BootNext(s, c, s.w.pc.boot))
  {
  }

  lemma BootAcknowledged(s: State, c: Choice)
    requires s.w.pc.Boot? && Acknowledged(s)
    ensures Acknowledged(BootNext(s, c, s.w.pc.boot))
  {
  }

  lemma BeforeForward(s: State, c: Choice)
    requires s.w.pc.Before? && WControl(s)
    ensures MovesForward(s, BeforeNext(s, c, s.w.pc.before))
  {
  }

  lemma BeforeWritesWControl(s: State, c: Choice)
    requires s.w.pc.Before? && WritesFiles(s.w.pc) && WControl(s) && Acknowledged(s)
    ensures WControl(BeforeNext(s, c, s.w.pc.before))
  {
  }

  lemma BeforeWControl(s: State, c: Choice)
    requires s.w.pc.Before? && WControl(s) && Acknowledged(s)
    ensures WControl(BeforeNext(s, c, s.w.pc.before))
  {
    if WritesFiles(s.w.pc) { BeforeWritesWControl(s, c); }
  }

  lemma BeforeChildren(s: State, c: Choice)
    requires s.w.pc.Before? && Children(s)
    requires ReplacesActive(s.w.pc) ==> AllStopped(s)
    ensures Children(BeforeNext(s, c, s.w.pc.before))
  {
  }

  lemma BeforeWorkspaces(s: State, c: Choice)
    requires s.w.pc.Before? && Workspaces(s) && s.w.current == s.f.active
    ensures Workspaces(BeforeNext(s, c, s.w.pc.before))
  {
  }

  lemma BeforeIsSilent(s: State, c: Choice)
    requires s.w.pc.Before? && !WritesFiles(s.w.pc)
    ensures Silent(s, BeforeNext(s, c, s.w.pc.before))
  {
  }

  lemma BeforeWritesSwitchedBack(s: State, c: Choice)
    requires s.w.pc.Before? && SwitchedBack(s) && MControl(s) && Handshake(s) && WControl(s) && Unresolved(s)
             && WritesFiles(s.w.pc)
    ensures SwitchedBack(BeforeNext(s, c, s.w.pc.before))
  {
  }

  lemma BeforeSwitchedBack(s: State, c: Choice)
    requires s.w.pc.Before? && SwitchedBack(s) && MControl(s) && Handshake(s) && WControl(s) && Unresolved(s)
    ensures SwitchedBack(BeforeNext(s, c, s.w.pc.before))
  {
    if WritesFiles(s.w.pc) {
      BeforeWritesSwitchedBack(s, c);
    } else {
      BeforeIsSilent(s, c);
      SilentKeeps(s, BeforeNext(s, c, s.w.pc.before));
    }
  }

  lemma BeforeWritesAcknowledged(s: State, c: Choice)
    requires s.w.pc.Before? && Acknowledged(s) && WControl(s) && WritesFiles(s.w.pc)
    ensures Acknowledged(BeforeNext(s, c, s.w.pc.before))
  {
  }

  lemma BeforeAcknowledged(s: State, c: Choice)
    requires s.w.pc.Before? && Acknowledged(s) && WControl(s)
    ensures Acknowledged(BeforeNext(s, c, s.w.pc.before))
  {
    if WritesFiles(s.w.pc) {
      BeforeWritesAcknowledged(s, c);
    } else {
      BeforeIsSilent(s, c);
      SilentKeeps(s, BeforeNext(s, c, s.w.pc.before));
    }
  }

  lemma AfterForward(s: State, c: Choice)
    requires s.w.pc.After? && WControl(s)
    ensures MovesForward(s, AfterNext(s, c, s.w.pc.after))
  {
  }

  lemma FirstAfterWControl(s: State, c: Choice)
    requires s.w.pc.After? && FirstAfter(s.w.pc.after) && WControl(s)
    ensures WControl(AfterNext(s, c, s.w.pc.after))
  {
  }

  lemma LaterAfterWControl(s: State, c: Choice)
    requires s.w.pc.After? && !FirstAfter(s.w.pc.after) && WControl(s)
    ensures WControl(AfterNext(s, c, s.w.pc.after))
  {
  }

  lemma AfterWControl(s: State, c: Choice)
    requires s.w.pc.After? && WControl(s)
    ensures WControl(AfterNext(s, c, s.w.pc.after))
  {
    if FirstAfter(s.w.pc.after) { FirstAfterWControl(s, c); } else { LaterAfterWControl(s, c); }
  }

  lemma FirstAfterChildren(s: State, c: Choice)
    requires s.w.pc.After? && FirstAfter(s.w.pc.after) && Children(s)
    ensures Children(AfterNext(s, c, s.w.pc.after))
  {
  }

  predicate AwaitingAfter(pc: AfterPc) { pc.AwaitTarget? || pc.AwaitReady? || pc.VerifyTwo? }

  lemma AwaitingAfterChildren(s: State, c: Choice)
    requires s.w.pc.After? && AwaitingAfter(s.w.pc.after) && Children(s)
    ensures Children(AfterNext(s, c, s.w.pc.after))
  {
  }

  lemma LaterAfterChildren(s: State, c: Choice)
    requires s.w.pc.After? && !FirstAfter(s.w.pc.after) && Children(s)
    ensures Children(AfterNext(s, c, s.w.pc.after))
  {
    if AwaitingAfter(s.w.pc.after) { AwaitingAfterChildren(s, c); }
  }

  lemma AfterWorkspaces(s: State, c: Choice)
    requires s.w.pc.After? && Workspaces(s) && s.f.active.generation == s.w.intent.targetGeneration
    ensures Workspaces(AfterNext(s, c, s.w.pc.after))
  {
  }

  lemma AfterIsSilent(s: State, c: Choice)
    requires s.w.pc.After? && !WritesFiles(s.w.pc)
    ensures Silent(s, AfterNext(s, c, s.w.pc.after))
  {
  }

  lemma AfterWritesSwitchedBack(s: State, c: Choice)
    requires s.w.pc.After? && SwitchedBack(s) && WritesFiles(s.w.pc)
    ensures SwitchedBack(AfterNext(s, c, s.w.pc.after))
  {
  }

  lemma AfterSwitchedBack(s: State, c: Choice)
    requires s.w.pc.After? && SwitchedBack(s)
    ensures SwitchedBack(AfterNext(s, c, s.w.pc.after))
  {
    if WritesFiles(s.w.pc) {
      AfterWritesSwitchedBack(s, c);
    } else {
      AfterIsSilent(s, c);
      SilentKeeps(s, AfterNext(s, c, s.w.pc.after));
    }
  }

  lemma AfterWritesAcknowledged(s: State, c: Choice)
    requires s.w.pc.After? && Acknowledged(s) && WControl(s) && WritesFiles(s.w.pc)
    ensures Acknowledged(AfterNext(s, c, s.w.pc.after))
  {
  }

  lemma AfterAcknowledged(s: State, c: Choice)
    requires s.w.pc.After? && Acknowledged(s) && WControl(s)
    ensures Acknowledged(AfterNext(s, c, s.w.pc.after))
  {
    if WritesFiles(s.w.pc) {
      AfterWritesAcknowledged(s, c);
    } else {
      AfterIsSilent(s, c);
      SilentKeeps(s, AfterNext(s, c, s.w.pc.after));
    }
  }

  lemma UndoForward(s: State, c: Choice)
    requires s.w.pc.Undo? && WControl(s)
    ensures MovesForward(s, UndoNext(s, c, s.w.pc.undo))
  {
  }

  lemma UndoWritesWControl(s: State, c: Choice)
    requires s.w.pc.Undo? && WritesFiles(s.w.pc) && WControl(s)
    ensures WControl(UndoNext(s, c, s.w.pc.undo))
  {
  }

  lemma UndoWControl(s: State, c: Choice)
    requires s.w.pc.Undo? && WControl(s)
    requires s.w.pc == Undo(UndoAwait) ==> Rank(s.f, s.w.intent) == 4
    ensures WControl(UndoNext(s, c, s.w.pc.undo))
  {
    if WritesFiles(s.w.pc) { UndoWritesWControl(s, c); }
  }

  lemma UndoChildren(s: State, c: Choice)
    requires s.w.pc.Undo? && Children(s)
    requires ReplacesActive(s.w.pc) ==> AllStopped(s)
    ensures Children(UndoNext(s, c, s.w.pc.undo))
  {
  }

  lemma UndoWorkspaces(s: State, c: Choice)
    requires s.w.pc.Undo? && Workspaces(s)
    requires s.f.active.generation == s.w.intent.targetGeneration || s.f.active == s.w.previousDocument
    ensures Workspaces(UndoNext(s, c, s.w.pc.undo))
  {
  }

  lemma UndoIsSilent(s: State, c: Choice)
    requires s.w.pc.Undo? && !WritesFiles(s.w.pc)
    ensures Silent(s, UndoNext(s, c, s.w.pc.undo))
  {
  }

  lemma UndoWritesSwitchedBack(s: State, c: Choice)
    requires s.w.pc.Undo? && SwitchedBack(s) && MControl(s) && Handshake(s) && WControl(s) && Unresolved(s)
             && WritesFiles(s.w.pc)
    ensures SwitchedBack(UndoNext(s, c, s.w.pc.undo))
  {
  }

  lemma UndoSwitchedBack(s: State, c: Choice)
    requires s.w.pc.Undo? && SwitchedBack(s) && MControl(s) && Handshake(s) && WControl(s) && Unresolved(s)
    ensures SwitchedBack(UndoNext(s, c, s.w.pc.undo))
  {
    if WritesFiles(s.w.pc) {
      UndoWritesSwitchedBack(s, c);
    } else {
      UndoIsSilent(s, c);
      SilentKeeps(s, UndoNext(s, c, s.w.pc.undo));
    }
  }

  lemma UndoWritesAcknowledged(s: State, c: Choice)
    requires s.w.pc.Undo? && Acknowledged(s) && WControl(s) && WritesFiles(s.w.pc)
    ensures Acknowledged(UndoNext(s, c, s.w.pc.undo))
  {
  }

  lemma UndoAcknowledged(s: State, c: Choice)
    requires s.w.pc.Undo? && Acknowledged(s) && WControl(s)
    ensures Acknowledged(UndoNext(s, c, s.w.pc.undo))
  {
    if WritesFiles(s.w.pc) {
      UndoWritesAcknowledged(s, c);
    } else {
      UndoIsSilent(s, c);
      SilentKeeps(s, UndoNext(s, c, s.w.pc.undo));
    }
  }

  lemma RestoredForward(s: State, c: Choice)
    requires s.w.pc.Restored? && WControl(s)
    ensures MovesForward(s, RestoredNext(s, c, s.w.pc.restored))
  {
  }

  lemma RestoredWritesWControl(s: State, c: Choice)
    requires s.w.pc.Restored? && WritesFiles(s.w.pc) && WControl(s)
    ensures WControl(RestoredNext(s, c, s.w.pc.restored))
  {
  }

  lemma RestoredWaitsWControl(s: State, c: Choice)
    requires s.w.pc.Restored? && !WritesFiles(s.w.pc) && WControl(s)
    ensures WControl(RestoredNext(s, c, s.w.pc.restored))
  {
  }

  lemma RestoredWControl(s: State, c: Choice)
    requires s.w.pc.Restored? && WControl(s)
    ensures WControl(RestoredNext(s, c, s.w.pc.restored))
  {
    if WritesFiles(s.w.pc) { RestoredWritesWControl(s, c); } else { RestoredWaitsWControl(s, c); }
  }

  lemma RestoredStartsChildren(s: State, c: Choice)
    requires (s.w.pc == Restored(UndoThaw) || s.w.pc == Restored(UndoStart)) && Children(s)
    ensures Children(RestoredNext(s, c, s.w.pc.restored))
  {
  }

  lemma RestoredChildren(s: State, c: Choice)
    requires s.w.pc.Restored? && Children(s)
    ensures Children(RestoredNext(s, c, s.w.pc.restored))
  {
    if s.w.pc == Restored(UndoThaw) || s.w.pc == Restored(UndoStart) { RestoredStartsChildren(s, c); }
  }

  lemma RestoredWorkspaces(s: State, c: Choice)
    requires s.w.pc.Restored? && Workspaces(s) && s.f.active == s.w.previousDocument
    ensures Workspaces(RestoredNext(s, c, s.w.pc.restored))
  {
  }

  lemma RestoredIsSilent(s: State, c: Choice)
    requires s.w.pc.Restored? && !WritesFiles(s.w.pc)
    ensures Silent(s, RestoredNext(s, c, s.w.pc.restored))
  {
  }

  lemma RestoredWritesSwitchedBack(s: State, c: Choice)
    requires s.w.pc.Restored? && SwitchedBack(s) && IsPrevious(s.w.intent, s.f.active) && WritesFiles(s.w.pc)
    ensures SwitchedBack(RestoredNext(s, c, s.w.pc.restored))
  {
  }

  lemma RestoredSwitchedBack(s: State, c: Choice)
    requires s.w.pc.Restored? && SwitchedBack(s) && IsPrevious(s.w.intent, s.f.active)
    ensures SwitchedBack(RestoredNext(s, c, s.w.pc.restored))
  {
    if WritesFiles(s.w.pc) {
      RestoredWritesSwitchedBack(s, c);
    } else {
      RestoredIsSilent(s, c);
      SilentKeeps(s, RestoredNext(s, c, s.w.pc.restored));
    }
  }

  lemma RestoredWritesAcknowledged(s: State, c: Choice)
    requires s.w.pc.Restored? && Acknowledged(s) && WControl(s) && WritesFiles(s.w.pc)
    ensures Acknowledged(RestoredNext(s, c, s.w.pc.restored))
  {
  }

  lemma RestoredAcknowledged(s: State, c: Choice)
    requires s.w.pc.Restored? && Acknowledged(s) && WControl(s)
    ensures Acknowledged(RestoredNext(s, c, s.w.pc.restored))
  {
    if WritesFiles(s.w.pc) {
      RestoredWritesAcknowledged(s, c);
    } else {
      RestoredIsSilent(s, c);
      SilentKeeps(s, RestoredNext(s, c, s.w.pc.restored));
    }
  }

  // ---------------------------------------------------------------- all steps, all runs

  lemma ControlFacts(s: State)
    requires Inv(s)
    ensures Unresolved(s)
    ensures s.w.pc == Entry(AckApplying) ==> s.w.intent !in s.f.webAck
    ensures s.w.pc.Before? ==> s.w.current == s.f.active
    ensures s.w.pc.After? ==> s.f.active.generation == s.w.intent.targetGeneration
    ensures s.w.pc.Undo? ==> s.f.active.generation == s.w.intent.targetGeneration || s.f.active == s.w.previousDocument
    ensures s.w.pc == Undo(UndoAwait) ==> Rank(s.f, s.w.intent) == 4
    ensures s.w.pc.Restored? ==> s.f.active == s.w.previousDocument && IsPrevious(s.w.intent, s.f.active)
    ensures s.w.pc.Finish? && !s.w.pc.finish.ReleaseLock? ==> s.w.intent in s.f.results
  {
  }

  ghost predicate Rest(s: State) {
    MControl(s) && Handshake(s) && SwitchedBack(s) && Acknowledged(s) && WControl(s) && Children(s) && Workspaces(s)
  }

  lemma CalmKeepsRest(s: State, t: State)
    requires Rest(s) && Calm(s, t) && WControl(t)
    ensures Rest(t)
  {
    ForwardKeepsHandshake(s, t);
    CalmKeeps(s, t);
  }

  lemma EntryKeepsRest(s: State, c: Choice)
    requires Inv(s) && Rest(s) && s.w.pc.Entry?
    ensures Rest(EntryNext(s, c, s.w.pc.entry))
  {
    ControlFacts(s);
    if FirstEntry(s.w.pc.entry) { FirstEntryIsCalm(s, c); FirstEntryWControl(s, c); }
    else { LaterEntryIsCalm(s, c); LaterEntryWControl(s, c); }
    CalmKeepsRest(s, EntryNext(s, c, s.w.pc.entry));
  }

  lemma GateKeepsRest(s: State, c: Choice)
    requires Inv(s) && Rest(s) && s.w.pc.Gate?
    ensures Rest(GateNext(s, c, s.w.pc.gate))
  {
    ControlFacts(s);
    GateIsCalm(s, c);
    if s.w.pc.gate.RecoverCheck? { RecoverCheckWControl(s, c); } else { OtherGateWControl(s, c); }
    CalmKeepsRest(s, GateNext(s, c, s.w.pc.gate));
  }

  lemma BeforeKeepsRest(s: State, c: Choice)
    requires Inv(s) && Rest(s) && s.w.pc.Before?
    ensures Rest(BeforeNext(s, c, s.w.pc.before))
  {
    ControlFacts(s);
    if ReplacesActive(s.w.pc) { ReplacedWhileStopped(s); }
    BeforeForward(s, c);
    ForwardKeepsHandshake(s, BeforeNext(s, c, s.w.pc.before));
    BeforeWControl(s, c);
    BeforeChildren(s, c);
    BeforeWorkspaces(s, c);
    BeforeSwitchedBack(s, c);
    BeforeAcknowledged(s, c);
  }

  lemma AfterKeepsRest(s: State, c: Choice)
    requires Inv(s) && Rest(s) && s.w.pc.After?
    ensures Rest(AfterNext(s, c, s.w.pc.after))
  {
    ControlFacts(s);
    AfterForward(s, c);
    ForwardKeepsHandshake(s, AfterNext(s, c, s.w.pc.after));
    AfterWControl(s, c);
    if FirstAfter(s.w.pc.after) { FirstAfterChildren(s, c); } else { LaterAfterChildren(s, c); }
    AfterWorkspaces(s, c);
    AfterSwitchedBack(s, c);
    AfterAcknowledged(s, c);
  }

  lemma UndoKeepsRest(s: State, c: Choice)
    requires Inv(s) && Rest(s) && s.w.pc.Undo?
    ensures Rest(UndoNext(s, c, s.w.pc.undo))
  {
    ControlFacts(s);
    if ReplacesActive(s.w.pc) { ReplacedWhileStopped(s); }
    UndoForward(s, c);
    ForwardKeepsHandshake(s, UndoNext(s, c, s.w.pc.undo));
    UndoWControl(s, c);
    UndoChildren(s, c);
    UndoWorkspaces(s, c);
    UndoSwitchedBack(s, c);
    UndoAcknowledged(s, c);
  }

  lemma RestoredKeepsRest(s: State, c: Choice)
    requires Inv(s) && Rest(s) && s.w.pc.Restored?
    ensures Rest(RestoredNext(s, c, s.w.pc.restored))
  {
    ControlFacts(s);
    RestoredForward(s, c);
    ForwardKeepsHandshake(s, RestoredNext(s, c, s.w.pc.restored));
    RestoredWControl(s, c);
    RestoredChildren(s, c);
    RestoredWorkspaces(s, c);
    RestoredSwitchedBack(s, c);
    RestoredAcknowledged(s, c);
  }

  lemma BootKeepsRest(s: State, c: Choice)
    requires Inv(s) && Rest(s) && s.w.pc.Boot?
    ensures Rest(BootNext(s, c, s.w.pc.boot))
  {
    BootForward(s, c);
    ForwardKeepsHandshake(s, BootNext(s, c, s.w.pc.boot));
    BootWControl(s, c);
    BootChildren(s, c);
    BootWorkspaces(s, c);
    BootSwitchedBack(s, c);
    BootAcknowledged(s, c);
  }

  lemma FinishKeepsRest(s: State, c: Choice)
    requires Inv(s) && Rest(s) && s.w.pc.Finish?
    ensures Rest(FinishNext(s, c, s.w.pc.finish))
  {
    ControlFacts(s);
    FinishIsCalm(s, c);
    FinishWControl(s, c);
    CalmKeepsRest(s, FinishNext(s, c, s.w.pc.finish));
  }

  lemma WebKeepsRest(s: State, c: Choice)
    requires Inv(s) && Rest(s)
    ensures Rest(WebNext(s, c))
  {
    match s.w.pc
    case Boot(_) => BootKeepsRest(s, c);
    case Entry(_) => EntryKeepsRest(s, c);
    case Gate(_) => GateKeepsRest(s, c);
    case Before(_) => BeforeKeepsRest(s, c);
    case After(_) => AfterKeepsRest(s, c);
    case Undo(_) => UndoKeepsRest(s, c);
    case Restored(_) => RestoredKeepsRest(s, c);
    case Finish(_) => FinishKeepsRest(s, c);
  }

  lemma MaintenanceKeepsRest(s: State, c: Choice)
    requires Inv(s) && Rest(s)
    ensures Rest(MaintenanceNext(s, c))
  {
    ControlFacts(s);
    MaintenanceKeepsMControl(s, c);
    if WritesAck(s.m.pc) { MaintenanceAckKeepsHandshake(s, c); } else { MaintenanceMoveKeepsHandshake(s, c); }
    MaintenanceKeepsAcknowledged(s, c);
    MaintenanceKeepsWControl(s, c);
    MaintenanceKeepsChildren(s, c);
    MaintenanceKeepsWorkspaces(s, c);
  }

  lemma RestartKeepsRest(s: State)
    requires Rest(s) && NoOpenHandshake(s)
    ensures Rest(Next(s, MaintenanceRestart))
  {
  }

  lemma CrashKeepsRest(s: State)
    requires Rest(s)
    ensures Rest(Next(s, WebCrash))
  {
  }

  lemma ExitKeepsRest(s: State, l: Label)
    requires Rest(s) && (l.WebChildExit? || l.MaintenanceChildExit?)
    ensures Rest(Next(s, l))
  {
  }

  lemma IntentKeepsHandshake(s: State, i: Intent)
    requires MControl(s) && Handshake(s) && SwitchedBack(s) && Acknowledged(s)
    ensures var t := Next(s, NewIntent(i)); MControl(t) && Handshake(t) && SwitchedBack(t) && Acknowledged(t)
  {
  }

  lemma IntentKeepsOthers(s: State, i: Intent)
    requires WControl(s) && Children(s) && Workspaces(s)
    ensures var t := Next(s, NewIntent(i)); WControl(t) && Children(t) && Workspaces(t)
  {
  }

  lemma IntentKeepsRest(s: State, i: Intent)
    requires Rest(s)
    ensures Rest(Next(s, NewIntent(i)))
  {
    IntentKeepsHandshake(s, i);
    IntentKeepsOthers(s, i);
  }

  lemma OtherKeepsRest(s: State, l: Label)
    requires Rest(s) && Enabled(s, l) && !l.WebStep? && !l.MaintenanceStep?
    requires l.MaintenanceRestart? ==> NoOpenHandshake(s)
    ensures Rest(Next(s, l))
  {
    match l
    case MaintenanceRestart => RestartKeepsRest(s);
    case WebCrash => CrashKeepsRest(s);
    case NewIntent(i) => IntentKeepsRest(s, i);
    case _ => ExitKeepsRest(s, l);
  }

  lemma StepKeepsRest(s: State, l: Label)
    requires Inv(s) && Rest(s) && Enabled(s, l) && (l.MaintenanceRestart? ==> NoOpenHandshake(s))
    ensures Rest(Next(s, l))
  {
    match l
    case WebStep(c) => WebKeepsRest(s, c);
    case MaintenanceStep(c) => MaintenanceKeepsRest(s, c);
    case _ => OtherKeepsRest(s, l);
  }

  lemma InitRest(s: State)
    requires Init(s)
    ensures Rest(s)
  {
  }

  lemma {:induction false} RunKeepsRest(run: seq<State>, labels: seq<Label>, k: nat)
    requires IsRun(run, labels) && CalmMaintenance(run, labels) && k < |run|
    ensures Rest(run[k])
  {
    if k == 0 { InitRest(run[0]); }
    else {
      RunKeepsRest(run, labels, k - 1);
      RunKeepsInv(run, labels, k - 1);
      StepKeepsRest(run[k - 1], labels[k - 1]);
    }
  }

  // ---------------------------------------------------------------- the results

  /** Every running child is bound to the very pointer that active.json holds. */
  lemma ChildrenFollowThePointer(run: seq<State>, labels: seq<Label>, k: nat)
    requires IsRun(run, labels) && CalmMaintenance(run, labels) && k < |run|
    ensures run[k].webChild.Some? ==> run[k].webChild.value == run[k].f.active
    ensures run[k].maintenanceChild.Some? ==> run[k].maintenanceChild.value == run[k].f.active
  {
    RunKeepsRest(run, labels, k);
  }

  /** At most one workspace is writable, and it is the one active.json names. */
  lemma OneWritableWorkspace(run: seq<State>, labels: seq<Label>, k: nat, g: string)
    requires IsRun(run, labels) && CalmMaintenance(run, labels) && k < |run|
    requires g in run[k].writable
    ensures g == run[k].f.active.generation && run[k].writable == {g}
  {
    RunKeepsRest(run, labels, k);
  }

  lemma WebKeepsActive(s: State, c: Choice)
    requires !s.w.pc.Before? && !s.w.pc.After? && !s.w.pc.Undo? && !s.w.pc.Restored?
    ensures WebNext(s, c).f.active == s.f.active
  {
  }

  lemma CutoverKeepsActive(s: State, c: Choice)
    requires s.w.pc.Before? || s.w.pc.After? || s.w.pc.Undo? || s.w.pc.Restored?
    requires !ReplacesActive(s.w.pc)
    ensures WebNext(s, c).f.active == s.f.active
  {
  }

  lemma ChangesActiveAt(s: State, l: Label)
    requires Next(s, l).f.active != s.f.active
    ensures l.WebStep? && ReplacesActive(s.w.pc)
  {
    match l
    case WebStep(c) =>
      if s.w.pc.Before? || s.w.pc.After? || s.w.pc.Undo? || s.w.pc.Restored? {
        if !ReplacesActive(s.w.pc) { CutoverKeepsActive(s, c); }
      } else {
        WebKeepsActive(s, c);
      }
    case MaintenanceStep(c) => MaintenanceKeepsFiles(s, c);
    case _ =>
  }

  /** While active.json is replaced no child runs, and none is being started. */
  lemma ReplacedWhileNobodyRuns(run: seq<State>, labels: seq<Label>, k: nat)
    requires IsRun(run, labels) && CalmMaintenance(run, labels) && k < |labels|
    requires run[k + 1].f.active != run[k].f.active
    ensures AllStopped(run[k])
  {
    RunKeepsRest(run, labels, k);
    RunKeepsInv(run, labels, k);
    ControlFacts(run[k]);
    ChangesActiveAt(run[k], labels[k]);
    ReplacedWhileStopped(run[k]);
  }

  /** The maintenance supervisor ends by itself only when its child has exited and it is
      not paused; no handshake is open then, so such a restart is harmless. */
  lemma OwnExitIsCalm(s: State)
    requires Rest(s) && s.m.pc.MIdle? && s.m.paused.None?
    ensures NoOpenHandshake(s)
  {
  }
}
