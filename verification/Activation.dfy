/** Two supervisors, one per role, switch the runtime generation through files
    (flowdocs/runtime_supervisor.py).  Every step below is one atomic effect of the
    source: one file write, one child operation, one read that decides a branch.

    Hashes are ideal: a digest is the document it was computed from.  A workspace is
    named by the generation it holds. */
module Activation {
  import opened Common

  // ---------------------------------------------------------------- documents

  datatype Digest = NoDigest | OfPointer(pointer: Pointer) | OfIntent(intent: Intent)

  datatype Pointer = Pointer(
    generation: string, manifest: string, intentDigest: Digest, stateVersion: int, observedAt: int)

  datatype Mode = Activate | Rollback

  datatype Intent = Intent(
    id: string, mode: Mode,
    previousGeneration: string, previousDigest: Digest,
    targetGeneration: string, targetManifest: string,
    rollbackGeneration: string, rollbackManifest: string, rollbackDigest: Digest,
    stateVersion: int)

  datatype WebAck =
    | Applying | PointerSwitched | Verifying | CommittedAck
    | RollbackPending | RollbackPointerSwitched | RolledBackAck | ReconciledAck

  datatype MaintenanceAck = Quiesced | TargetStarted | RollbackQuiesced | RollbackStarted | Reconciled

  datatype Status = Committed | RolledBack | Failed | RollbackFailed

  datatype Outcome = Outcome(status: Status, active: Pointer, previousGeneration: string)

  // Torn is the window between the exclusive create and the write of the content.
  datatype Lock = Free | Torn | Held(owner: Intent)

  // ---------------------------------------------------------------- processes

  // Program points of the web supervisor, in groups that share what holds there.
  datatype BootPc = Down | BootRead | BootThaw | BootStart | Idle

  datatype EntryPc =
    | Compare | Claim | ClaimWrite | RollbackCheck | AwaitQuiesce | Validate | AckCheck | AckApplying
    | TakeLock | LockWrite | WriteFailed

  datatype GatePc = RecoverCheck | RecoverAbandoned | Authority | AuthorityFailed | UndoFailed

  datatype BeforePc = StopOld | FreezeOld | WritePrevious | WriteActive

  datatype AfterPc =
    | ThawTarget | VerifyOne | StartTarget | AckSwitched | AwaitTarget | AckVerifying | AwaitReady
    | VerifyTwo | WriteCommitted

  datatype UndoPc = UndoStop | UndoAck | UndoAwait | UndoFreeze | UndoActive

  datatype RestorePc =
    | UndoThaw | UndoStart | UndoSwitched | UndoAwaitStarted | UndoReady | UndoResult

  datatype FinishPc = AckCommitted | AckRolledBack | Reconcile | ReleaseLock

  datatype WebPc =
    | Boot(boot: BootPc)            // no intent in hand
    | Entry(entry: EntryPc)         // before the lock
    | Gate(gate: GatePc)            // under the lock, outside the guarded blocks
    | Before(before: BeforePc)      // cutover, active.json still the previous pointer
    | After(after: AfterPc)         // cutover, active.json the target pointer
    | Undo(undo: UndoPc)            // rollback or recovery, until active.json is restored
    | Restored(restored: RestorePc) // rollback or recovery, active.json restored
    | Finish(finish: FinishPc)      // the result is written

  datatype Web = Web(
    pc: WebPc, run: nat, intent: Intent, resumed: bool, recovering: bool,
    current: Pointer, previousDocument: Pointer)

  datatype MaintenancePc =
    | MBootRead | MBootThaw | MBootResolve | MBootSpawn | MIdle
    | MReconcile | MResume | MResumeSpawn | MClear
    | MReadWeb | MStart | MSpawn | MStopUndo | MAck
    | MStop | MAckQuiesced | MPause

  datatype Maintenance = Maintenance(
    pc: MaintenancePc, intent: Intent, paused: Option<Intent>, read: Pointer, ack: MaintenanceAck)

  /** History variables: which intents put their target in
      active.json, which did so last, and which intent wrote previous.json last. */
  datatype History = History(cut: set<Intent>, owner: Option<Intent>, previousBy: Option<Intent>)

  /** The files that only the web supervisor or the operator writes. */
  datatype Files = Files(
    active: Pointer, previous: Option<Pointer>, intents: set<Intent>,
    webAck: map<Intent, WebAck>, results: map<Intent, Outcome>, lock: Lock)

  datatype State = State(
    f: Files, h: History, w: Web, m: Maintenance,
    maintenanceAck: map<Intent, MaintenanceAck>, writable: set<string>,
    webChild: Option<Pointer>, maintenanceChild: Option<Pointer>)

  /** What the environment decides for one step: the intent a tick picks, whether the
      operation raises, whether a raising write had already taken effect, the clock,
      and whether a best-effort reconciliation succeeds. */
  datatype Choice = Choice(intent: Intent, raises: bool, effect: bool, clock: int, reconciled: bool)

  datatype Label =
    | WebStep(c: Choice) | WebCrash | WebChildExit
    | MaintenanceStep(c: Choice) | MaintenanceRestart | MaintenanceChildExit
    | NewIntent(intent: Intent)

  // ---------------------------------------------------------------- predicates of the source

  predicate IsPrevious(i: Intent, p: Pointer) {
    OfPointer(p) == i.previousDigest && p.generation == i.previousGeneration
  }

  predicate IsTarget(i: Intent, p: Pointer) {
    p.generation == i.targetGeneration && p.manifest == i.targetManifest && p.intentDigest == OfIntent(i)
  }

  function Target(i: Intent, clock: int): Pointer {
    Pointer(i.targetGeneration, i.targetManifest, OfIntent(i), i.stateVersion, clock)
  }

  predicate RollbackPreviousMatches(i: Intent, p: Pointer) {
    && p.generation == i.rollbackGeneration && p.manifest == i.rollbackManifest
    && OfPointer(p) == i.rollbackDigest
    && p.generation == i.targetGeneration && p.manifest == i.targetManifest
  }

  predicate ApplyingIn(f: Files, i: Intent) { i in f.webAck && f.webAck[i] == Applying }

  predicate MaintenanceSays(s: State, i: Intent, a: MaintenanceAck) {
    i in s.maintenanceAck && s.maintenanceAck[i] == a
  }

  predicate BoundTo(child: Option<Pointer>, generation: string, manifest: string) {
    child.Some? && child.value.generation == generation && child.value.manifest == manifest
  }

  // ---------------------------------------------------------------- the web supervisor

  function At(s: State, pc: WebPc): State { s.(w := s.w.(pc := pc)) }

  function SetAck(s: State, i: Intent, a: WebAck): State { s.(f := s.f.(webAck := s.f.webAck[i := a])) }

  function WriteAck(s: State, a: WebAck): State { SetAck(s, s.w.intent, a) }

  function SetLock(s: State, lock: Lock): State { s.(f := s.f.(lock := lock)) }

  function SetPrevious(s: State, p: Pointer): State {
    s.(f := s.f.(previous := Some(p)), h := s.h.(previousBy := Some(s.w.intent)))
  }

  function SetTarget(s: State, clock: int): State {
    var i := s.w.intent;
    s.(f := s.f.(active := Target(i, clock)), h := s.h.(cut := s.h.cut + {i}, owner := Some(i)))
  }

  function Restore(s: State): State { s.(f := s.f.(active := s.w.previousDocument)) }

  function WriteResult(s: State, status: Status, previousGeneration: string): State {
    s.(f := s.f.(results := s.f.results[s.w.intent := Outcome(status, s.f.active, previousGeneration)]))
  }

  /** Where an exception in the guarded block of the cutover, of the rollback or of the
      restart recovery continues. */
  function Raise(s: State): State {
    if s.w.recovering then At(s, Gate(RecoverAbandoned))
    else if s.w.pc.Before? || s.w.pc.After? then At(s, Undo(UndoStop))
    else At(s, Gate(UndoFailed))
  }

  /** A guarded effect: it happens and control moves on, or it raises, before or after it
      took effect. */
  function Guarded(s: State, after: State, pc: WebPc, c: Choice): State {
    if !c.raises then At(after, pc) else if c.effect then Raise(after) else Raise(s)
  }

  function StartWebChild(s: State): State {
    if s.webChild.Some? then s else s.(webChild := Some(s.f.active))
  }

  function Unlock(s: State): State {
    if s.f.lock == Held(s.w.intent) then SetLock(s, Free) else s
  }

  function WebNext(s: State, c: Choice): State {
    match s.w.pc
    case Boot(pc) => BootNext(s, c, pc)
    case Entry(pc) => EntryNext(s, c, pc)
    case Gate(pc) => GateNext(s, c, pc)
    case Before(pc) => BeforeNext(s, c, pc)
    case After(pc) => AfterNext(s, c, pc)
    case Undo(pc) => UndoNext(s, c, pc)
    case Restored(pc) => RestoredNext(s, c, pc)
    case Finish(pc) => FinishNext(s, c, pc)
  }

  /** The start of run, and one iteration of a tick. */
  function BootNext(s: State, c: Choice, pc: BootPc): State {
    match pc
    case Down => s.(w := s.w.(pc := Boot(BootRead), run := s.w.run + 1))
    case BootRead => s.(w := s.w.(pc := Boot(BootThaw), current := s.f.active))
    case BootThaw => At(s.(writable := s.writable + {s.w.current.generation}), Boot(BootStart))
    case BootStart => At(StartWebChild(s), Boot(Idle))
    case Idle =>
      if c.intent !in s.f.intents then s
      else if c.intent in s.f.results then
        (if c.reconciled then SetAck(s, c.intent, ReconciledAck) else s)
      else s.(w := s.w.(pc := Entry(Compare), intent := c.intent, resumed := false, recovering := false))
  }

  function EntryNext(s: State, c: Choice, pc: EntryPc): State {
    var i := s.w.intent;
    match pc
    case Compare =>
      var t := s.(w := s.w.(current := s.f.active));
      if !IsPrevious(i, s.f.active) then At(t, Entry(Claim))
      else At(t, Entry(if i.mode == Rollback then RollbackCheck else AwaitQuiesce))
    case Claim =>
      if s.f.lock == Free then At(SetLock(s, Torn), Entry(ClaimWrite))
      else At(s, if s.f.lock == Held(i) then Gate(RecoverCheck) else Boot(Idle))
    case ClaimWrite => At(SetLock(s, Held(i)), Gate(RecoverCheck))
    case RollbackCheck =>
      At(s, Entry(
        if s.f.previous.Some? && (RollbackPreviousMatches(i, s.f.previous.value)
                                || (ApplyingIn(s.f, i) && s.f.lock == Held(i)
                                    && s.f.previous.value == s.w.current))
        then AwaitQuiesce else WriteFailed))
    case AwaitQuiesce => At(s, if MaintenanceSays(s, i, Quiesced) then Entry(Validate) else Boot(Idle))
    case Validate => if i.targetGeneration in s.writable then Crash(s) else At(s, Entry(AckCheck))
    case AckCheck =>
      At(s, if i !in s.f.webAck then Entry(AckApplying)
            else if s.f.webAck[i] == Applying then Entry(TakeLock) else Boot(Idle))
    case AckApplying => At(WriteAck(s, Applying), Entry(TakeLock))
    case TakeLock =>
      if s.f.lock == Free then At(SetLock(s, Torn).(w := s.w.(resumed := false)), Entry(LockWrite))
      else if s.f.lock == Held(i) then At(s.(w := s.w.(resumed := true)), Gate(Authority))
      else At(s, Boot(Idle))
    case LockWrite => At(SetLock(s, Held(i)), Gate(Authority))
    case WriteFailed => At(if c.raises then s else WriteResult(s, Failed, s.f.active.generation), Boot(Idle))
  }

  function GateNext(s: State, c: Choice, pc: GatePc): State {
    var i := s.w.intent;
    match pc
    case RecoverCheck =>
      if s.w.current.generation == i.targetGeneration && s.f.previous.Some? && IsPrevious(i, s.f.previous.value)
      then s.(w := s.w.(pc := Undo(UndoStop), recovering := true, previousDocument := s.f.previous.value))
      else At(s, Gate(RecoverAbandoned))
    case RecoverAbandoned => At(Unlock(s), Entry(WriteFailed))
    case Authority =>
      if IsPrevious(i, s.f.active)
         && (i.mode == Rollback ==>
               s.f.previous.Some? && (RollbackPreviousMatches(i, s.f.previous.value)
                                    || (s.w.resumed && s.f.previous.value == s.f.active)))
      then s.(w := s.w.(pc := Before(StopOld), current := s.f.active, previousDocument := s.f.active))
      else At(s, Gate(AuthorityFailed))
    case AuthorityFailed => At(WriteResult(s, Failed, s.f.active.generation), Finish(ReleaseLock))
    case UndoFailed =>
      At(if c.raises then s else WriteResult(s, RollbackFailed, s.w.current.generation), Finish(ReleaseLock))
  }

  function BeforeNext(s: State, c: Choice, pc: BeforePc): State {
    match pc
    case StopOld => Guarded(s, s.(webChild := None), Before(FreezeOld), c)
    case FreezeOld =>
      if c.raises then Raise(s)
      else At(s.(writable := s.writable - {s.w.current.generation}), Before(WritePrevious))
    case WritePrevious => Guarded(s, SetPrevious(s, s.w.previousDocument), Before(WriteActive), c)
    case WriteActive => Guarded(s, SetTarget(s, c.clock), After(ThawTarget), c)
  }

  function AfterNext(s: State, c: Choice, pc: AfterPc): State {
    var i := s.w.intent;
    match pc
    case ThawTarget => Guarded(s, s.(writable := s.writable + {i.targetGeneration}), After(VerifyOne), c)
    case VerifyOne => Guarded(s, s, After(StartTarget), c)
    case StartTarget => Guarded(s, StartWebChild(s), After(AckSwitched), c)
    case AckSwitched => Guarded(s, WriteAck(s, PointerSwitched), After(AwaitTarget), c)
    case AwaitTarget =>
      if c.raises then Raise(s)
      else if MaintenanceSays(s, i, TargetStarted) then At(s, After(AckVerifying)) else s
    case AckVerifying => Guarded(s, WriteAck(s, Verifying), After(AwaitReady), c)
    case AwaitReady =>
      if c.raises then Raise(s)
      else if BoundTo(s.webChild, i.targetGeneration, i.targetManifest) then At(s, After(VerifyTwo)) else s
    case VerifyTwo => Guarded(s, s, After(WriteCommitted), c)
    case WriteCommitted =>
      if c.raises then Raise(s) else At(WriteResult(s, Committed, s.w.current.generation), Finish(AckCommitted))
  }

  /** The rollback of a failed cutover and the recovery after a restart: same effects, in
      the same order; only their exception handlers differ. */
  function UndoNext(s: State, c: Choice, pc: UndoPc): State {
    var i := s.w.intent;
    match pc
    case UndoStop => Guarded(s, s.(webChild := None), Undo(UndoAck), c)
    case UndoAck => Guarded(s, WriteAck(s, RollbackPending), Undo(UndoAwait), c)
    case UndoAwait =>
      if c.raises then Raise(s)
      else if MaintenanceSays(s, i, RollbackQuiesced) then At(s, Undo(UndoFreeze)) else s
    case UndoFreeze =>
      if c.raises then Raise(s) else At(s.(writable := s.writable - {i.targetGeneration}), Undo(UndoActive))
    case UndoActive => Guarded(s, Restore(s), Restored(UndoThaw), c)
  }

  function RestoredNext(s: State, c: Choice, pc: RestorePc): State {
    var i := s.w.intent;
    var p := s.w.previousDocument;
    match pc
    case UndoThaw => Guarded(s, s.(writable := s.writable + {p.generation}), Restored(UndoStart), c)
    case UndoStart => Guarded(s, StartWebChild(s), Restored(UndoSwitched), c)
    case UndoSwitched => Guarded(s, WriteAck(s, RollbackPointerSwitched), Restored(UndoAwaitStarted), c)
    case UndoAwaitStarted =>
      if c.raises then Raise(s)
      else if MaintenanceSays(s, i, RollbackStarted) then At(s, Restored(UndoReady)) else s
    case UndoReady =>
      if c.raises then Raise(s)
      else if BoundTo(s.webChild, p.generation, p.manifest) then At(s, Restored(UndoResult)) else s
    case UndoResult =>
      if c.raises then Raise(s) else At(WriteResult(s, RolledBack, p.generation), Finish(AckRolledBack))
  }

  function FinishNext(s: State, c: Choice, pc: FinishPc): State {
    match pc
    case AckCommitted => At(WriteAck(s, CommittedAck), Finish(Reconcile))
    case AckRolledBack => At(WriteAck(s, RolledBackAck), Finish(Reconcile))
    case Reconcile => At(if c.reconciled then WriteAck(s, ReconciledAck) else s, Finish(ReleaseLock))
    case ReleaseLock => At(Unlock(s), Boot(Idle))
  }

  /** The supervisor is process 1 of its container, so its child dies with it. */
  function Crash(s: State): State { s.(w := s.w.(pc := Boot(Down)), webChild := None) }

  // ---------------------------------------------------------------- the maintenance supervisor

  function MAt(s: State, pc: MaintenancePc): State { s.(m := s.m.(pc := pc)) }

  function MaintenanceNext(s: State, c: Choice): State {
    var i := s.m.intent;
    match s.m.pc
    case MBootRead => s.(m := s.m.(pc := MBootThaw, read := s.f.active))
    case MBootThaw => MAt(s.(writable := s.writable + {s.m.read.generation}), MBootResolve)
    case MBootResolve => s.(m := s.m.(pc := MBootSpawn, read := s.f.active))
    case MBootSpawn => MAt(s.(maintenanceChild := Some(s.m.read)), MIdle)
    case MIdle =>
      if c.intent !in s.f.intents then s
      else
        var t := s.(m := s.m.(intent := c.intent));
        if c.intent in s.f.results then MAt(t, MReconcile)
        else if s.m.paused == None then MAt(t, MStop)
        else if s.m.paused == Some(c.intent) then MAt(t, MReadWeb)
        else s
    case MReconcile =>
      var t := if c.reconciled then s.(maintenanceAck := s.maintenanceAck[i := Reconciled]) else s;
      MAt(t, if s.m.paused == Some(i) then MResume else MIdle)
    case MResume =>
      if s.maintenanceChild.Some? then MAt(s, MClear) else s.(m := s.m.(pc := MResumeSpawn, read := s.f.active))
    case MResumeSpawn => MAt(s.(maintenanceChild := Some(s.m.read)), MClear)
    case MClear => s.(m := s.m.(pc := MIdle, paused := None))
    case MReadWeb =>
      if i !in s.f.webAck then MAt(s, MIdle)
      else if s.f.webAck[i] == PointerSwitched then s.(m := s.m.(pc := MStart, ack := TargetStarted))
      else if s.f.webAck[i] == RollbackPending then s.(m := s.m.(pc := MStopUndo, ack := RollbackQuiesced))
      else if s.f.webAck[i] == RollbackPointerSwitched then s.(m := s.m.(pc := MStart, ack := RollbackStarted))
      else MAt(s, MIdle)
    case MStart =>
      if s.maintenanceChild.Some? then MAt(s, MAck) else s.(m := s.m.(pc := MSpawn, read := s.f.active))
    case MSpawn => MAt(s.(maintenanceChild := Some(s.m.read)), MAck)
    case MStopUndo => MAt(s.(maintenanceChild := None), MAck)
    case MAck => MAt(s.(maintenanceAck := s.maintenanceAck[i := s.m.ack]), MIdle)
    case MStop => MAt(s.(maintenanceChild := None), MAckQuiesced)
    case MAckQuiesced => MAt(s.(maintenanceAck := s.maintenanceAck[i := Quiesced]), MPause)
    case MPause => s.(m := s.m.(pc := MIdle, paused := Some(i)))
  }

  // ---------------------------------------------------------------- runs

  /** Two intents never share both the previous pointer and the target generation: the
      recovery compares only these two. */
  predicate DistinctCutovers(intents: set<Intent>) {
    forall i, j | i in intents && j in intents ::
      i.previousDigest == j.previousDigest && i.targetGeneration == j.targetGeneration ==> i == j
  }

  predicate NoOpenHandshake(s: State) { forall i :: i in s.maintenanceAck ==> i in s.f.results }

  predicate Enabled(s: State, l: Label) {
    match l
    case NewIntent(i) => DistinctCutovers(s.f.intents + {i})
    case _ => true
  }

  function Next(s: State, l: Label): State {
    match l
    case WebStep(c) => WebNext(s, c)
    case WebCrash => Crash(s)
    case WebChildExit => s.(webChild := None)
    case MaintenanceStep(c) => MaintenanceNext(s, c)
    case MaintenanceRestart =>
      s.(maintenanceChild := None, m := s.m.(pc := MBootRead, paused := None))
    case MaintenanceChildExit => s.(maintenanceChild := None)
    case NewIntent(i) => s.(f := s.f.(intents := s.f.intents + {i}))
  }

  /** A deployment after its first activation: an active pointer, no previous one. */
  predicate Init(s: State) {
    && s.f.active.intentDigest == NoDigest && s.f.previous == None
    && s.f.intents == {} && s.f.webAck == map[] && s.maintenanceAck == map[] && s.f.results == map[]
    && s.f.lock == Free && s.writable <= {s.f.active.generation}
    && s.webChild == None && s.maintenanceChild == None
    && s.w.pc == Boot(Down) && s.m.pc == MBootRead && s.m.paused == None
    && s.h.cut == {} && s.h.owner == None && s.h.previousBy == None
  }

  ghost predicate IsRun(run: seq<State>, labels: seq<Label>) {
    && |run| == |labels| + 1
    && Init(run[0])
    && forall k :: 0 <= k < |labels| ==> Enabled(run[k], labels[k]) && run[k + 1] == Next(run[k], labels[k])
  }

  /** The maintenance supervisor never restarts while a handshake is open. */
  ghost predicate CalmMaintenance(run: seq<State>, labels: seq<Label>)
    requires |run| == |labels| + 1
  {
    forall k :: 0 <= k < |labels| && labels[k] == MaintenanceRestart ==> NoOpenHandshake(run[k])
  }
}
