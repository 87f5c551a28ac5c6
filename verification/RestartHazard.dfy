/** Why coherence is stated for runs in which the maintenance supervisor does not restart in
    the middle of a handshake: its start begins with a child (flowdocs/runtime_supervisor.py,
    run), whatever it had acknowledged before. */
module RestartHazard {
  import opened Common
  import opened Activation
  import RA = RollbackAuthority
  import R = ActivationResults
  import C = Coherence
  import opened ActivationRuns

  /** A maintenance child runs that is not bound to the active pointer. */
  predicate Incoherent(s: State) { s.maintenanceChild.Some? && s.maintenanceChild.value != s.f.active }

  /** From every initial state there is a run at the end of which a child runs that is not
      bound to the active pointer: maintenance acknowledges that it is quiet, restarts, and has
      its child running again when the web supervisor relies on the acknowledgement. */
  lemma RestartBreaksCoherence(s: State)
    requires Init(s)
    ensures exists run: seq<State>, labels: seq<Label> ::
              IsRun(run, labels) && run[0] == s && Incoherent(run[|labels|])
  {
    var a := s.f.active;
    var target := a.generation + "'";
    assert target != a.generation;
    var i := Intent("", Activate, a.generation, OfPointer(a), target, "", "", "", NoDigest, 0);
    var b := QuietComesAbout(s, i);
    var c := Next(b, MaintenanceRestart);
    ReachesNext(b, MaintenanceRestart);
    ReachesOn(s, b, c);
    var d := MaintenanceBoots(c, i);
    ReachesOn(s, c, d);
    var e := WebComesToSwitch(d, i);
    ReachesOn(s, d, e);
    var t := WebSwitches(e, i);
    ReachesOn(s, e, t);
    assert OfPointer(a) == i.previousDigest;
    RA.TargetIsNew(i, 0);
    ReachedFromStart(s, t);
  }

  // ---------------------------------------------------------------- every state that is in danger

  /** What the web supervisor does on its own. */
  function WebAlone(s: State, cs: seq<Choice>): State
    decreases |cs|
  {
    if cs == [] then s else WebAlone(WebNext(s, cs[0]), cs[1..])
  }

  /** On its way it validates no intent for the generation g. */
  predicate Avoids(s: State, cs: seq<Choice>, g: string)
    decreases |cs|
  {
    cs != [] ==>
      && (s.w.pc == Entry(Validate) ==> s.w.intent.targetGeneration != g)
      && Avoids(WebNext(s, cs[0]), cs[1..], g)
  }

  /** The web supervisor by itself can still replace active.json. */
  ghost predicate InDanger(s: State) {
    exists cs :: Avoids(s, cs, s.f.active.generation) && WebAlone(s, cs).f.active != s.f.active
  }

  predicate SameBut(a: set<string>, b: set<string>, g: string) { a - {g} == b - {g} }

  lemma SameButMoves(a: set<string>, b: set<string>, g: string, x: string)
    requires SameBut(a, b, g)
    ensures SameBut(a + {x}, b + {x}, g) && SameBut(a - {x}, b - {x}, g)
  {
    assert (a + {x}) - {g} == (a - {g}) + ({x} - {g}) && (b + {x}) - {g} == (b - {g}) + ({x} - {g});
    assert (a - {x}) - {g} == (a - {g}) - {x} && (b - {x}) - {g} == (b - {g}) - {x};
  }

  /** Two states that the web supervisor cannot tell apart, workspaces aside. */
  predicate Twin(s: State, t: State) {
    t.f == s.f && t.h == s.h && t.w == s.w && t.webChild == s.webChild && t.maintenanceAck == s.maintenanceAck
  }

  lemma BootKeepsTwin(s: State, t: State, c: Choice, pc: BootPc)
    requires Twin(s, t) && s.w.pc == Boot(pc)
    ensures Twin(BootNext(s, c, pc), BootNext(t, c, pc))
  {
  }

  lemma EntryKeepsTwin(s: State, t: State, c: Choice, pc: EntryPc)
    requires Twin(s, t) && s.w.pc == Entry(pc) && pc != Validate
    ensures Twin(EntryNext(s, c, pc), EntryNext(t, c, pc))
  {
  }

  lemma GateKeepsTwin(s: State, t: State, c: Choice, pc: GatePc)
    requires Twin(s, t) && s.w.pc == Gate(pc)
    ensures Twin(GateNext(s, c, pc), GateNext(t, c, pc))
  {
  }

  lemma BeforeKeepsTwin(s: State, t: State, c: Choice, pc: BeforePc)
    requires Twin(s, t) && s.w.pc == Before(pc)
    ensures Twin(BeforeNext(s, c, pc), BeforeNext(t, c, pc))
  {
  }

  lemma AfterKeepsTwin(s: State, t: State, c: Choice, pc: AfterPc)
    requires Twin(s, t) && s.w.pc == After(pc)
    ensures Twin(AfterNext(s, c, pc), AfterNext(t, c, pc))
  {
  }

  lemma UndoKeepsTwin(s: State, t: State, c: Choice, pc: UndoPc)
    requires Twin(s, t) && s.w.pc == Undo(pc)
    ensures Twin(UndoNext(s, c, pc), UndoNext(t, c, pc))
  {
  }

  lemma RestoredKeepsTwin(s: State, t: State, c: Choice, pc: RestorePc)
    requires Twin(s, t) && s.w.pc == Restored(pc)
    ensures Twin(RestoredNext(s, c, pc), RestoredNext(t, c, pc))
  {
  }

  lemma FinishKeepsTwin(s: State, t: State, c: Choice, pc: FinishPc)
    requires Twin(s, t) && s.w.pc == Finish(pc)
    ensures Twin(FinishNext(s, c, pc), FinishNext(t, c, pc))
  {
  }

  predicate MovesWorkspace(pc: WebPc) {
    pc == Boot(BootThaw) || pc == Before(FreezeOld) || pc == After(ThawTarget) || pc == Undo(UndoFreeze)
    || pc == Restored(UndoThaw)
  }

  function Moved(s: State): string {
    match s.w.pc
    case Boot(_) => s.w.current.generation
    case Before(_) => s.w.current.generation
    case Restored(_) => s.w.previousDocument.generation
    case _ => s.w.intent.targetGeneration
  }

  lemma OthersKeepWorkspaces(s: State, c: Choice)
    requires !MovesWorkspace(s.w.pc)
    ensures WebNext(s, c).writable == s.writable
  {
  }

  lemma MovesOne(s: State, c: Choice)
    requires MovesWorkspace(s.w.pc)
    ensures WebNext(s, c).writable == WorkspacesAfter(s.w.pc, s.writable, Moved(s), !c.raises, c.effect)
  {
  }

  function WorkspacesAfter(pc: WebPc, a: set<string>, x: string, done: bool, effect: bool): set<string> {
    match pc
    case Boot(_) => a + {x}
    case Before(_) => if done then a - {x} else a
    case Undo(_) => if done then a - {x} else a
    case _ => if done || effect then a + {x} else a
  }

  lemma WorkspacesStaySame(s: State, t: State, g: string, c: Choice)
    requires Twin(s, t) && SameBut(s.writable, t.writable, g)
    ensures SameBut(WebNext(s, c).writable, WebNext(t, c).writable, g)
  {
    if MovesWorkspace(s.w.pc) {
      MovesOne(s, c);
      MovesOne(t, c);
      SameButMoves(s.writable, t.writable, g, Moved(s));
    } else {
      OthersKeepWorkspaces(s, c);
      OthersKeepWorkspaces(t, c);
    }
  }

  lemma ValidatesAlike(s: State, t: State, g: string, c: Choice)
    requires Twin(s, t) && SameBut(s.writable, t.writable, g)
    requires s.w.pc == Entry(Validate) && s.w.intent.targetGeneration != g
    ensures Twin(WebNext(s, c), WebNext(t, c))
  {
    var x := s.w.intent.targetGeneration;
    assert x in s.writable <==> x in s.writable - {g};
    assert x in t.writable <==> x in t.writable - {g};
  }

  predicate OwnMaintenance(s: State, t: State) {
    t.m == s.m && t.maintenanceChild == s.maintenanceChild && t.maintenanceAck == s.maintenanceAck
  }

  lemma OutsideKeepsMaintenance(s: State, c: Choice)
    requires s.w.pc.Boot? || s.w.pc.Entry? || s.w.pc.Gate? || s.w.pc.Finish?
    ensures OwnMaintenance(s, WebNext(s, c))
  {
  }

  lemma InsideKeepsMaintenance(s: State, c: Choice)
    requires s.w.pc.Before? || s.w.pc.After? || s.w.pc.Undo? || s.w.pc.Restored?
    ensures OwnMaintenance(s, WebNext(s, c))
  {
  }

  lemma WebKeepsMaintenance(s: State, c: Choice)
    ensures OwnMaintenance(s, WebNext(s, c))
  {
    if s.w.pc.Before? || s.w.pc.After? || s.w.pc.Undo? || s.w.pc.Restored? {
      InsideKeepsMaintenance(s, c);
    } else {
      OutsideKeepsMaintenance(s, c);
    }
  }

  lemma TwinStep(s: State, t: State, g: string, c: Choice)
    requires Twin(s, t) && SameBut(s.writable, t.writable, g)
    requires s.w.pc == Entry(Validate) ==> s.w.intent.targetGeneration != g
    ensures Twin(WebNext(s, c), WebNext(t, c)) && SameBut(WebNext(s, c).writable, WebNext(t, c).writable, g)
  {
    WorkspacesStaySame(s, t, g, c);
    match s.w.pc
    case Boot(pc) => BootKeepsTwin(s, t, c, pc);
    case Entry(pc) => if pc == Validate { ValidatesAlike(s, t, g, c); } else { EntryKeepsTwin(s, t, c, pc); }
    case Gate(pc) => GateKeepsTwin(s, t, c, pc);
    case Before(pc) => BeforeKeepsTwin(s, t, c, pc);
    case After(pc) => AfterKeepsTwin(s, t, c, pc);
    case Undo(pc) => UndoKeepsTwin(s, t, c, pc);
    case Restored(pc) => RestoredKeepsTwin(s, t, c, pc);
    case Finish(pc) => FinishKeepsTwin(s, t, c, pc);
  }

  lemma {:induction false} TwinGoesOn(s: State, t: State, g: string, cs: seq<Choice>)
    requires Twin(s, t) && SameBut(s.writable, t.writable, g) && Avoids(s, cs, g)
    ensures WebAlone(t, cs).f == WebAlone(s, cs).f && WebAlone(t, cs).maintenanceChild == t.maintenanceChild
    ensures Reaches(t, WebAlone(t, cs))
    decreases |cs|
  {
    if cs == [] {
      assert CanPlay(t, []) && Play(t, []) == t;
    } else {
      var c := cs[0];
      TwinStep(s, t, g, c);
      WebKeepsMaintenance(t, c);
      TwinGoesOn(WebNext(s, c), WebNext(t, c), g, cs[1..]);
      ReachesNext(t, WebStep(c));
      ReachesOn(t, WebNext(t, c), WebAlone(t, cs));
    }
  }

  /** Wherever the web supervisor by itself can still replace active.json, a maintenance restart
      has a continuation that breaks coherence. */
  lemma RestartIsHazard(run: seq<State>, labels: seq<Label>)
    requires IsRun(run, labels) && InDanger(run[|labels|])
    ensures exists longer: seq<State>, more: seq<Label> ::
              && IsRun(longer, more) && run <= longer && labels + [MaintenanceRestart] <= more
              && Incoherent(longer[|more|])
  {
    var s, g := run[|labels|], run[|labels|].f.active.generation;
    var cs :| Avoids(s, cs, g) && WebAlone(s, cs).f.active != s.f.active;
    var r := Next(s, MaintenanceRestart);
    assert IsRun(run + [r], labels + [MaintenanceRestart]);
    var b := MaintenanceBoots(r, s.w.intent);
    TwinGoesOn(s, b, g, cs);
    ReachesOn(r, b, WebAlone(b, cs));
    ReachedByRun(run + [r], labels + [MaintenanceRestart], WebAlone(b, cs));
  }

  // ---------------------------------------------------------------- which states are in danger

  lemma DangerAhead(s: State, c: Choice)
    requires s.w.pc != Entry(Validate) && WebNext(s, c).f.active == s.f.active && InDanger(WebNext(s, c))
    ensures InDanger(s)
  {
    var t, g := WebNext(s, c), s.f.active.generation;
    var cs :| Avoids(t, cs, g) && WebAlone(t, cs).f.active != t.f.active;
    var more := [c] + cs;
    assert more[0] == c && more[1..] == cs;
    assert Avoids(s, more, g) && WebAlone(s, more).f.active != s.f.active;
  }

  lemma DangerNow(s: State, c: Choice)
    requires s.w.pc != Entry(Validate) && WebNext(s, c).f.active != s.f.active
    ensures InDanger(s)
  {
    var one := [c];
    assert one[0] == c && one[1..] == [];
    assert Avoids(s, one, s.f.active.generation);
    assert WebAlone(s, one).f.active != s.f.active;
  }

  /** The whole cutover up to the write of the target pointer is. */
  lemma {:induction false} CutoverInDanger(s: State)
    requires s.w.pc.Before? && IsPrevious(s.w.intent, s.f.active)
    ensures InDanger(s)
    decreases 4 - R.BeforeRank(s.w.pc.before)
  {
    var i := s.w.intent;
    var c := Quietly(i);
    if s.w.pc == Before(WriteActive) {
      RA.TargetIsNew(i, c.clock);
      DangerNow(s, c);
    } else {
      CutoverInDanger(WebNext(s, c));
      DangerAhead(s, c);
    }
  }

  /** So is a rollback that has the target workspace to freeze or the old pointer to restore. */
  lemma RollbackInDanger(s: State)
    requires C.Frozen(s.w.pc) && s.w.previousDocument != s.f.active
    ensures InDanger(s)
  {
    var c := Quietly(s.w.intent);
    if s.w.pc == Undo(UndoActive) {
      DangerNow(s, c);
    } else {
      DangerNow(WebNext(s, c), c);
      DangerAhead(s, c);
    }
  }

  lemma ClosedStep(s: State, c: Choice)
    requires RA.Inv(s) && C.Rest(s) && NoOpenHandshake(s)
    ensures var t := WebNext(s, c); t.f.active == s.f.active && RA.Inv(t) && C.Rest(t) && NoOpenHandshake(t)
  {
    var l := WebStep(c);
    RA.StepKeepsInv(s, l);
    C.StepKeepsRest(s, l);
    WebKeepsMaintenance(s, c);
    forall i | i in s.f.results ensures i in WebNext(s, c).f.results { R.OneResultEach(s, l, i); }
    R.UnresolvedWhileApplying(s);
    if WebNext(s, c).f.active != s.f.active { C.ChangesActiveAt(s, l); }
  }

  /** A coherent state with no open handshake is in no danger. */
  lemma {:induction false} ClosedIsSafe(s: State, cs: seq<Choice>)
    requires RA.Inv(s) && C.Rest(s) && NoOpenHandshake(s)
    ensures WebAlone(s, cs).f.active == s.f.active
    decreases |cs|
  {
    if cs != [] {
      ClosedStep(s, cs[0]);
      ClosedIsSafe(WebNext(s, cs[0]), cs[1..]);
    }
  }

  /** So in a run without such restarts the danger comes with an open handshake only. */
  lemma DangerMeansOpen(run: seq<State>, labels: seq<Label>, k: nat)
    requires IsRun(run, labels) && CalmMaintenance(run, labels) && k < |run| && InDanger(run[k])
    ensures !NoOpenHandshake(run[k])
  {
    RA.RunKeepsInv(run, labels, k);
    C.RunKeepsRest(run, labels, k);
    var s := run[k];
    var cs :| Avoids(s, cs, s.f.active.generation) && WebAlone(s, cs).f.active != s.f.active;
    if NoOpenHandshake(s) { ClosedIsSafe(s, cs); }
  }
}
