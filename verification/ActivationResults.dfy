/** What a run's signed results and pointer files are worth to an operator. */
module ActivationResults {
  import opened Common
  import opened Activation
  import opened RollbackAuthority

  // ---------------------------------------------------------------- rollback authority

  predicate TakesEffect(c: Choice) { !c.raises || c.effect }

  predicate WritesTarget(s: State, l: Label, i: Intent) {
    l.WebStep? && s.w.pc == Before(WriteActive) && s.w.intent == i && TakesEffect(l.c)
  }

  predicate WritesPrevious(s: State, l: Label) {
    l.WebStep? && s.w.pc == Before(WritePrevious) && TakesEffect(l.c)
  }

  predicate LastWriter(s: State, i: Intent) { s.h.owner == Some(i) && s.h.previousBy == Some(i) }

  lemma TargetWriterIsLast(s: State, l: Label, i: Intent)
    requires Inv(s) && WritesTarget(s, l, i)
    ensures LastWriter(Next(s, l), i)
  {
    assert s.h.previousBy == Some(i);
  }

  lemma StaysLastWriter(s: State, l: Label, i: Intent)
    requires s.w.pc == Before(WriteActive) ==> s.h.previousBy == Some(s.w.intent)
    requires LastWriter(s, i) && !WritesPrevious(s, l)
    ensures LastWriter(Next(s, l), i)
  {
    if l.MaintenanceStep? { MaintenanceKeepsFiles(s, l.c); }
  }

  lemma WriterOfPrevious(s: State)
    requires Inv(s)
    ensures s.w.pc == Before(WriteActive) ==> s.h.previousBy == Some(s.w.intent)
  {
  }

  lemma {:induction false} LastWriters(run: seq<State>, labels: seq<Label>, k: nat, n: nat, i: Intent)
    requires IsRun(run, labels) && k < n < |run|
    requires WritesTarget(run[k], labels[k], i)
    requires forall j :: k < j < n ==> !WritesPrevious(run[j], labels[j])
    ensures LastWriter(run[n], i)
    decreases n
  {
    var s, l := run[n - 1], labels[n - 1];
    RunKeepsInv(run, labels, n - 1);
    if k + 1 < n {
      LastWriters(run, labels, k, n - 1, i);
      WriterOfPrevious(s);
      StaysLastWriter(s, l, i);
    } else {
      TargetWriterIsLast(s, l, i);
    }
  }

  /** From the write of the target pointer until another cutover writes previous.json, and
      through any crash of either supervisor, active.json is P or T and previous.json is P. */
  lemma RollbackAuthorityKept(run: seq<State>, labels: seq<Label>, k: nat, n: nat, i: Intent)
    requires IsRun(run, labels) && k < n < |run|
    requires WritesTarget(run[k], labels[k], i)
    requires forall j :: k < j < n ==> !WritesPrevious(run[j], labels[j])
    ensures IsPrevious(i, run[n].f.active) || IsTarget(i, run[n].f.active)
    ensures run[n].f.previous.Some? && IsPrevious(i, run[n].f.previous.value)
  {
    LastWriters(run, labels, k, n, i);
    RunKeepsInv(run, labels, n);
  }

  /** Each intent replaces active.json by its target at most once in a run. */
  lemma {:induction false} CutsOnce(run: seq<State>, labels: seq<Label>, k: nat, n: nat, i: Intent)
    requires IsRun(run, labels) && k < n < |labels|
    requires WritesTarget(run[k], labels[k], i)
    ensures !WritesTarget(run[n], labels[n], i)
  {
    RunCutsGrow(run, labels);
    CutGrows(run, k + 1, n);
    RunKeepsInv(run, labels, n);
  }

  lemma CutGrowsStep(s: State, l: Label)
    ensures s.h.cut <= Next(s, l).h.cut
  {
    if l.MaintenanceStep? { MaintenanceKeepsFiles(s, l.c); }
  }

  predicate CutsGrow(run: seq<State>) { forall k :: 0 <= k < |run| - 1 ==> run[k].h.cut <= run[k + 1].h.cut }

  lemma RunCutsGrow(run: seq<State>, labels: seq<Label>)
    requires IsRun(run, labels)
    ensures CutsGrow(run)
  {
    forall k | 0 <= k < |run| - 1 ensures run[k].h.cut <= run[k + 1].h.cut { CutGrowsStep(run[k], labels[k]); }
  }

  lemma {:induction false} CutGrows(run: seq<State>, k: nat, n: nat)
    requires CutsGrow(run) && k <= n < |run|
    ensures run[k].h.cut <= run[n].h.cut
    decreases n
  {
    if k < n { CutGrows(run, k, n - 1); }
  }

  // ---------------------------------------------------------------- results

  predicate HasResult(s: State, i: Intent, status: Status) { i in s.f.results && s.f.results[i].status == status }

  predicate WritesResult(pc: WebPc) {
    pc == Entry(WriteFailed) || pc == Gate(AuthorityFailed) || pc == Gate(Activation.UndoFailed)
    || pc == After(WriteCommitted) || pc == Restored(UndoResult)
  }

  lemma NoResultOutside(s: State, c: Choice)
    requires !WritesResult(s.w.pc) && !s.w.pc.After? && !s.w.pc.Undo? && !s.w.pc.Restored? && !s.w.pc.Before?
    ensures WebNext(s, c).f.results == s.f.results
  {
  }

  lemma NoResultInCutover(s: State, c: Choice)
    requires !WritesResult(s.w.pc) && (s.w.pc.Before? || s.w.pc.After?)
    ensures WebNext(s, c).f.results == s.f.results
  {
  }

  lemma NoResultInRollback(s: State, c: Choice)
    requires !WritesResult(s.w.pc) && (s.w.pc.Undo? || s.w.pc.Restored?)
    ensures WebNext(s, c).f.results == s.f.results
  {
  }

  lemma NoResult(s: State, c: Choice)
    requires !WritesResult(s.w.pc)
    ensures WebNext(s, c).f.results == s.f.results
  {
    if s.w.pc.Before? || s.w.pc.After? { NoResultInCutover(s, c); }
    else if s.w.pc.Undo? || s.w.pc.Restored? { NoResultInRollback(s, c); }
    else { NoResultOutside(s, c); }
  }

  lemma ResultIsNew(s: State, c: Choice)
    requires WritesResult(s.w.pc) && s.w.intent !in s.f.results
    ensures var t := WebNext(s, c);
            || t.f.results == s.f.results
            || (t.f.active == s.f.active
                && exists status, p :: t.f.results == s.f.results[s.w.intent := Outcome(status, s.f.active, p)])
  {
  }

  lemma ResultsAreFinal(s: State, l: Label)
    requires !s.w.pc.Boot? && !s.w.pc.Finish? ==> s.w.intent !in s.f.results
    ensures var t := Next(s, l);
            || t.f.results == s.f.results
            || (t.f.active == s.f.active && s.w.intent !in s.f.results
                && exists status, p :: t.f.results == s.f.results[s.w.intent := Outcome(status, s.f.active, p)])
  {
    match l
    case MaintenanceStep(c) => MaintenanceKeepsFiles(s, c);
    case WebStep(c) => if WritesResult(s.w.pc) { ResultIsNew(s, c); } else { NoResult(s, c); }
    case _ =>
  }

  lemma UnresolvedWhileApplying(s: State)
    requires Inv(s)
    ensures !s.w.pc.Boot? && !s.w.pc.Finish? ==> s.w.intent !in s.f.results
  {
  }

  /** At most one result is ever written for an intent, and it names the pointer that is
      active when it is written. */
  lemma OneResultEach(s: State, l: Label, i: Intent)
    requires Inv(s)
    ensures i in s.f.results ==> i in Next(s, l).f.results && Next(s, l).f.results[i] == s.f.results[i]
    ensures i !in s.f.results && i in Next(s, l).f.results ==>
              s.w.intent == i && Next(s, l).f.results[i].active == s.f.active == Next(s, l).f.active
  {
    UnresolvedWhileApplying(s);
    ResultsAreFinal(s, l);
  }

  lemma ResultPoint(s: State, l: Label, i: Intent)
    requires i !in s.f.results
    ensures HasResult(Next(s, l), i, Committed) ==> s.w.intent == i && s.w.pc == After(WriteCommitted)
    ensures HasResult(Next(s, l), i, RolledBack) ==> s.w.intent == i && s.w.pc == Restored(UndoResult)
  {
    match l
    case MaintenanceStep(c) => MaintenanceKeepsFiles(s, c);
    case WebStep(c) =>
      if !WritesResult(s.w.pc) { NoResult(s, c); }
    case _ =>
  }

  /** A committed result is written under the intent's own lock, with T active and P kept
      in previous.json. */
  lemma CommittedIsSound(s: State, l: Label, i: Intent)
    requires Inv(s) && i !in s.f.results && HasResult(Next(s, l), i, Committed)
    ensures s.f.lock == Held(i) && s.w.pc == After(WriteCommitted) && s.w.intent == i
    ensures IsTarget(i, s.f.active) && s.f.previous.Some? && IsPrevious(i, s.f.previous.value)
  {
    ResultPoint(s, l, i);
  }

  /** A rolled-back result is written only when active.json is P, byte for byte. */
  lemma RolledBackIsSound(s: State, l: Label, i: Intent)
    requires Inv(s) && i !in s.f.results && HasResult(Next(s, l), i, RolledBack)
    ensures s.f.lock == Held(i) && OfPointer(s.f.active) == i.previousDigest
    ensures s.f.active.generation == i.previousGeneration
  {
    ResultPoint(s, l, i);
  }

  // ---------------------------------------------------------------- what a commit rests on

  function BeforeRank(pc: BeforePc): nat {
    match pc case StopOld => 1 case FreezeOld => 2 case WritePrevious => 3 case WriteActive => 4
  }

  function AfterRank(pc: AfterPc): nat {
    match pc
    case ThawTarget => 5 case VerifyOne => 6 case StartTarget => 7 case AckSwitched => 8 case AwaitTarget => 9
    case AckVerifying => 10 case AwaitReady => 11 case VerifyTwo => 12 case WriteCommitted => 13
  }

  /** Position on the only way to a commit. */
  function Stage(pc: WebPc): int {
    match pc
    case Gate(g) => if g.Authority? then 0 else -1
    case Before(b) => BeforeRank(b)
    case After(a) => AfterRank(a)
    case _ => -1
  }

  /** At step j the web process of the given run completed pc for intent i and moved on. */
  predicate Passed(run: seq<State>, labels: seq<Label>, j: nat, pc: WebPc, i: Intent, process: nat) {
    && |run| == |labels| + 1 && j < |labels| && labels[j].WebStep?
    && run[j].w.pc == pc && Stage(run[j + 1].w.pc) == Stage(pc) + 1
    && run[j].w.intent == i && run[j].w.run == process
  }

  /** The only way on is from one stage to the next, within one process and one intent. */
  predicate Advances(s: State, t: State) {
    t.w.pc.Before? || t.w.pc.After? ==>
      || t.w == s.w
      || (Stage(s.w.pc) == Stage(t.w.pc) - 1 && t.w.intent == s.w.intent && t.w.run == s.w.run)
  }

  lemma FirstEntryAdvances(s: State, c: Choice)
    requires s.w.pc.Entry? && FirstEntry(s.w.pc.entry)
    ensures Advances(s, EntryNext(s, c, s.w.pc.entry))
  {
  }

  lemma LaterEntryAdvances(s: State, c: Choice)
    requires s.w.pc.Entry? && !FirstEntry(s.w.pc.entry)
    ensures Advances(s, EntryNext(s, c, s.w.pc.entry))
  {
  }

  lemma EntryAdvances(s: State, c: Choice)
    requires s.w.pc.Entry?
    ensures Advances(s, WebNext(s, c))
  {
    if FirstEntry(s.w.pc.entry) { FirstEntryAdvances(s, c); } else { LaterEntryAdvances(s, c); }
  }

  lemma GateAdvances(s: State, c: Choice)
    requires s.w.pc.Gate?
    ensures Advances(s, WebNext(s, c))
  {
  }

  lemma OutsideAdvances(s: State, c: Choice)
    requires s.w.pc.Boot? || s.w.pc.Entry? || s.w.pc.Gate? || s.w.pc.Finish?
    ensures Advances(s, WebNext(s, c))
  {
    if s.w.pc.Entry? { EntryAdvances(s, c); }
    if s.w.pc.Gate? { GateAdvances(s, c); }
  }

  lemma BeforeAdvances(s: State, c: Choice)
    requires s.w.pc.Before?
    ensures Advances(s, WebNext(s, c))
  {
  }

  lemma FirstAfterAdvances(s: State, c: Choice)
    requires s.w.pc.After? && FirstAfter(s.w.pc.after)
    ensures Advances(s, WebNext(s, c))
  {
  }

  lemma AfterAdvances(s: State, c: Choice)
    requires s.w.pc.After?
    ensures Advances(s, WebNext(s, c))
  {
    if FirstAfter(s.w.pc.after) { FirstAfterAdvances(s, c); }
  }

  lemma UndoAdvances(s: State, c: Choice)
    requires s.w.pc.Undo? || s.w.pc.Restored?
    ensures Advances(s, WebNext(s, c))
  {
  }

  lemma StageStep(s: State, l: Label)
    ensures Advances(s, Next(s, l))
    ensures Next(s, l).w != s.w ==> l.WebStep? || l.WebCrash?
  {
    match l
    case WebStep(c) =>
      if s.w.pc.Before? { BeforeAdvances(s, c); }
      else if s.w.pc.After? { AfterAdvances(s, c); }
      else if s.w.pc.Undo? || s.w.pc.Restored? { UndoAdvances(s, c); }
      else { OutsideAdvances(s, c); }
    case MaintenanceStep(c) => MaintenanceKeepsFiles(s, c);
    case _ =>
  }

  lemma StageIsInjective(a: WebPc, b: WebPc)
    requires Stage(a) == Stage(b) >= 0
    ensures a == b
  {
  }

  /** How a web process comes to a stage beyond the first: it stood there before the step, or
      right at the stage before. */
  predicate ComesFrom(s: State, l: Label, t: State) {
    || t.w == s.w
    || (l.WebStep? && Stage(t.w.pc) == Stage(s.w.pc) + 1 && t.w.intent == s.w.intent && t.w.run == s.w.run)
  }

  lemma OneBack(s: State, l: Label)
    requires Stage(Next(s, l).w.pc) > 0
    ensures ComesFrom(s, l, Next(s, l))
  {
    StageStep(s, l);
  }

  ghost predicate Marches(run: seq<State>, labels: seq<Label>) {
    && |run| == |labels| + 1 && Stage(run[0].w.pc) <= 0
    && forall k :: 0 < k < |run| && Stage(run[k].w.pc) > 0 ==> ComesFrom(run[k - 1], labels[k - 1], run[k])
  }

  lemma RunMarches(run: seq<State>, labels: seq<Label>)
    requires IsRun(run, labels)
    ensures Marches(run, labels)
  {
    forall k | 0 < k < |run| && Stage(run[k].w.pc) > 0 ensures ComesFrom(run[k - 1], labels[k - 1], run[k]) {
      assert run[k] == Next(run[k - 1], labels[k - 1]);
      OneBack(run[k - 1], labels[k - 1]);
    }
  }

  lemma {:induction false} MarchedPast(run: seq<State>, labels: seq<Label>, k: nat, pc: WebPc) returns (j: nat)
    requires Marches(run, labels) && k < |run|
    requires 0 <= Stage(pc) < Stage(run[k].w.pc)
    ensures j < k && Passed(run, labels, j, pc, run[k].w.intent, run[k].w.run)
    decreases k
  {
    assert k > 0 && ComesFrom(run[k - 1], labels[k - 1], run[k]);
    if Stage(run[k - 1].w.pc) > Stage(pc) {
      j := MarchedPast(run, labels, k - 1, pc);
    } else {
      j := k - 1;
      StageIsInjective(run[j].w.pc, pc);
    }
  }

  /** Whoever stands at a stage has completed every earlier one, in the same process and for
      the same intent. */
  lemma PassedBefore(run: seq<State>, labels: seq<Label>, k: nat, pc: WebPc) returns (j: nat)
    requires IsRun(run, labels) && k < |run|
    requires 0 <= Stage(pc) < Stage(run[k].w.pc)
    ensures j < k && Passed(run, labels, j, pc, run[k].w.intent, run[k].w.run)
  {
    RunMarches(run, labels);
    j := MarchedPast(run, labels, k, pc);
  }

  /** What a step that moves on has checked. */
  lemma MovingOnChecks(s: State, c: Choice)
    requires 0 <= Stage(s.w.pc) && Stage(WebNext(s, c).w.pc) == Stage(s.w.pc) + 1
    ensures s.w.pc == Gate(Authority) ==> IsPrevious(s.w.intent, s.f.active)
    ensures s.w.pc == After(AwaitTarget) ==> MaintenanceSays(s, s.w.intent, TargetStarted)
    ensures s.w.pc == After(AwaitReady) ==>
              BoundTo(s.webChild, s.w.intent.targetGeneration, s.w.intent.targetManifest)
  {
  }

  predicate Evidence(run: seq<State>, labels: seq<Label>, a: nat, b: nat, c: nat, d: nat, e: nat, i: Intent,
                     process: nat)
  {
    && a < b < c < d < e
    && Passed(run, labels, a, Gate(Authority), i, process) && IsPrevious(i, run[a].f.active)
    && Passed(run, labels, b, After(VerifyOne), i, process)
    && Passed(run, labels, c, After(AwaitTarget), i, process) && MaintenanceSays(run[c], i, TargetStarted)
    && Passed(run, labels, d, After(AwaitReady), i, process)
    && BoundTo(run[d].webChild, i.targetGeneration, i.targetManifest)
    && Passed(run, labels, e, After(VerifyTwo), i, process)
  }

  /** The evidence behind a commit, gathered in order by one web process. */
  ghost predicate Earned(run: seq<State>, labels: seq<Label>, k: nat, i: Intent, process: nat) {
    exists a: nat, b: nat, c: nat, d: nat, e: nat :: e < k && Evidence(run, labels, a, b, c, d, e, i, process)
  }

  lemma PassedChecks(run: seq<State>, labels: seq<Label>, j: nat, pc: WebPc, i: Intent, process: nat)
    requires IsRun(run, labels) && Passed(run, labels, j, pc, i, process) && 0 <= Stage(pc)
    ensures pc == Gate(Authority) ==> IsPrevious(i, run[j].f.active)
    ensures pc == After(AwaitTarget) ==> MaintenanceSays(run[j], i, TargetStarted)
    ensures pc == After(AwaitReady) ==> BoundTo(run[j].webChild, i.targetGeneration, i.targetManifest)
  {
    MovingOnChecks(run[j], labels[j].c);
  }

  lemma EarnedBefore(run: seq<State>, labels: seq<Label>, k: nat, i: Intent)
    requires IsRun(run, labels) && k < |run| && run[k].w.pc == After(WriteCommitted) && run[k].w.intent == i
    ensures Earned(run, labels, k, i, run[k].w.run)
  {
    var process := run[k].w.run;
    var e := PassedBefore(run, labels, k, After(VerifyTwo));
    var d := PassedBefore(run, labels, e, After(AwaitReady));
    var c := PassedBefore(run, labels, d, After(AwaitTarget));
    var b := PassedBefore(run, labels, c, After(VerifyOne));
    var a := PassedBefore(run, labels, b, Gate(Authority));
    PassedChecks(run, labels, a, Gate(Authority), i, process);
    PassedChecks(run, labels, c, After(AwaitTarget), i, process);
    PassedChecks(run, labels, d, After(AwaitReady), i, process);
    assert Evidence(run, labels, a, b, c, d, e, i, process);
  }

  /** A committed result rests on evidence of the same web process: it saw P active, then a
      passing verification, the maintenance start, matching readiness and a second pass. */
  lemma CommitIsEarned(run: seq<State>, labels: seq<Label>, k: nat, i: Intent)
    requires IsRun(run, labels) && k < |labels|
    requires i !in run[k].f.results && HasResult(run[k + 1], i, Committed)
    ensures Earned(run, labels, k, i, run[k].w.run)
  {
    ResultPoint(run[k], labels[k], i);
    EarnedBefore(run, labels, k, i);
  }

  // ---------------------------------------------------------------- interrupted cutovers

  /** The cutover of i was done, and the process that did it is gone. */
  predicate Interrupted(s: State, i: Intent) {
    && i in s.h.cut && !HasResult(s, i, Committed)
    && (s.w.intent == i ==> !s.w.pc.After?)
  }

  lemma InterruptedStays(s: State, l: Label, i: Intent)
    requires s.w.pc.Before? ==> s.w.intent !in s.h.cut
    requires Interrupted(s, i) && !HasResult(Next(s, l), i, Committed)
    ensures Interrupted(Next(s, l), i)
  {
    StageStep(s, l);
    CutGrowsStep(s, l);
  }

  lemma InterruptedStaysUncommitted(s: State, l: Label, i: Intent)
    requires Inv(s) && Interrupted(s, i)
    ensures !HasResult(Next(s, l), i, Committed)
  {
    OneResultEach(s, l, i);
    if i !in s.f.results { ResultPoint(s, l, i); }
  }

  lemma FreshBeforeSwitch(s: State)
    requires Inv(s)
    ensures s.w.pc.Before? ==> s.w.intent !in s.h.cut
  {
  }

  /** A cutover that a restarted web supervisor finds incomplete never becomes committed. */
  lemma {:induction false} InterruptedNeverCommits(run: seq<State>, labels: seq<Label>, k: nat, n: nat, i: Intent)
    requires IsRun(run, labels) && k <= n < |run|
    requires run[k].w.pc.Boot? && i in run[k].h.cut && !HasResult(run[k], i, Committed)
    ensures Interrupted(run[n], i) && !HasResult(run[n], i, Committed)
    decreases n
  {
    if k < n {
      InterruptedNeverCommits(run, labels, k, n - 1, i);
      RunKeepsInv(run, labels, n - 1);
      FreshBeforeSwitch(run[n - 1]);
      InterruptedStaysUncommitted(run[n - 1], labels[n - 1], i);
      InterruptedStays(run[n - 1], labels[n - 1], i);
    }
  }
}
