/** Runs that end as an operator hopes: one that commits and one that rolls back, from every
    initial state and for every intent that applies to it. */
module ActivationRuns {
  import opened Common
  import opened Activation
  import opened ActivationResults

  // ---------------------------------------------------------------- runs step by step

  predicate Links<S, L>(states: seq<S>, labels: seq<L>, step: (S, L, S) -> bool) {
    |states| == |labels| + 1 && forall k :: 0 <= k < |labels| ==> step(states[k], labels[k], states[k + 1])
  }

  lemma LinksJoin<S, L>(a: seq<S>, la: seq<L>, b: seq<S>, lb: seq<L>, step: (S, L, S) -> bool)
    requires Links(a, la, step) && Links(b, lb, step) && b[0] == a[|la|]
    ensures Links(a + b[1..], la + lb, step) && (a + b[1..])[|la + lb|] == b[|lb|]
  {
    var n, c, lc := |la|, a + b[1..], la + lb;
    forall k | 0 <= k < |lc| ensures step(c[k], lc[k], c[k + 1]) {
      if k < n {
        assert c[k] == a[k] && c[k + 1] == a[k + 1] && lc[k] == la[k];
      } else {
        assert c[k] == b[k - n] && c[k + 1] == b[k + 1 - n] && lc[k] == lb[k - n];
      }
    }
  }

  predicate IsStep(s: State, l: Label, t: State) { Enabled(s, l) && t == Next(s, l) }

  lemma RunLinks(run: seq<State>, labels: seq<Label>)
    requires IsRun(run, labels)
    ensures Links(run, labels, IsStep)
  {
    forall k | 0 <= k < |labels| ensures IsStep(run[k], labels[k], run[k + 1]) {}
  }

  lemma LinksRun(run: seq<State>, labels: seq<Label>)
    requires Links(run, labels, IsStep) && Init(run[0])
    ensures IsRun(run, labels)
  {
    forall k | 0 <= k < |labels| ensures Enabled(run[k], labels[k]) && run[k + 1] == Next(run[k], labels[k]) {
      assert IsStep(run[k], labels[k], run[k + 1]);
    }
  }

  // ---------------------------------------------------------------- playing labels

  function Play(s: State, labels: seq<Label>): State
    decreases |labels|
  {
    if labels == [] then s else Play(Next(s, labels[0]), labels[1..])
  }

  function States(s: State, labels: seq<Label>): (r: seq<State>)
    ensures |r| == |labels| + 1 && r[0] == s
    decreases |labels|
  {
    if labels == [] then [s] else [s] + States(Next(s, labels[0]), labels[1..])
  }

  predicate CanPlay(s: State, labels: seq<Label>)
    decreases |labels|
  {
    labels != [] ==> Enabled(s, labels[0]) && CanPlay(Next(s, labels[0]), labels[1..])
  }

  lemma {:induction false} PlayedIsRun(s: State, labels: seq<Label>)
    requires CanPlay(s, labels)
    ensures Links(States(s, labels), labels, IsStep) && States(s, labels)[|labels|] == Play(s, labels)
    decreases |labels|
  {
    if labels != [] {
      var t := Next(s, labels[0]);
      PlayedIsRun(t, labels[1..]);
      assert Links([s, t], [labels[0]], IsStep);
      LinksJoin([s, t], [labels[0]], States(t, labels[1..]), labels[1..], IsStep);
      assert [s, t] + States(t, labels[1..])[1..] == States(s, labels) && [labels[0]] + labels[1..] == labels;
    }
  }

  lemma {:induction false} PlayJoined(s: State, a: seq<Label>, b: seq<Label>)
    ensures Play(s, a + b) == Play(Play(s, a), b)
    ensures CanPlay(s, a + b) <==> CanPlay(s, a) && CanPlay(Play(s, a), b)
    decreases |a|
  {
    if a == [] {
      assert a + b == b;
    } else {
      assert (a + b)[1..] == a[1..] + b;
      PlayJoined(Next(s, a[0]), a[1..], b);
    }
  }

  // ---------------------------------------------------------------- what can be reached

  ghost predicate Reaches(s: State, t: State) { exists labels :: CanPlay(s, labels) && Play(s, labels) == t }

  lemma ReachesOn(s: State, t: State, u: State)
    requires Reaches(s, t) && Reaches(t, u)
    ensures Reaches(s, u)
  {
    var a :| CanPlay(s, a) && Play(s, a) == t;
    var b :| CanPlay(t, b) && Play(t, b) == u;
    PlayJoined(s, a, b);
    assert CanPlay(s, a + b);
  }

  lemma ReachesNext(s: State, l: Label)
    requires Enabled(s, l)
    ensures Reaches(s, Next(s, l))
  {
    var one, t := [l], Next(s, l);
    assert one[0] == l && one[1..] == [];
    assert Play(t, one[1..]) == t && CanPlay(t, one[1..]);
    assert CanPlay(s, one) && Play(s, one) == t;
  }

  /** What is reached from the end of a run ends a run that extends it. */
  lemma ReachedByRun(run: seq<State>, labels: seq<Label>, t: State)
    requires IsRun(run, labels) && Reaches(run[|labels|], t)
    ensures exists longer: seq<State>, more: seq<Label> ::
              IsRun(longer, more) && run <= longer && labels <= more && longer[|more|] == t
  {
    var s := run[|labels|];
    var rest :| CanPlay(s, rest) && Play(s, rest) == t;
    var longer, more := run + States(s, rest)[1..], labels + rest;
    PlayedIsRun(s, rest);
    RunLinks(run, labels);
    LinksJoin(run, labels, States(s, rest), rest, IsStep);
    LinksRun(longer, more);
    assert longer[|more|] == t;
  }

  lemma ReachedFromStart(s: State, t: State)
    requires Init(s) && Reaches(s, t)
    ensures exists run: seq<State>, labels: seq<Label> :: IsRun(run, labels) && run[0] == s && run[|labels|] == t
  {
    assert IsRun([s], []);
    ReachedByRun([s], [], t);
  }

  function Quietly(i: Intent): Choice { Choice(i, false, false, 0, false) }

  function M(i: Intent): Label { MaintenanceStep(Quietly(i)) }

  function W(i: Intent): Label { WebStep(Quietly(i)) }

  predicate Steps(l: Label) { l.WebStep? || l.MaintenanceStep? || l.MaintenanceRestart? }

  lemma Two(s: State, l: Label) returns (t: State)
    requires Steps(l)
    ensures t == Next(Next(s, l), l) && Reaches(s, t)
  {
    var a := Next(s, l);
    t := Next(a, l);
    ReachesNext(s, l);
    ReachesNext(a, l);
    ReachesOn(s, a, t);
  }

  lemma Three(s: State, l: Label) returns (t: State)
    requires Steps(l)
    ensures t == Next(Next(Next(s, l), l), l) && Reaches(s, t)
  {
    var a := Two(s, l);
    t := Next(a, l);
    ReachesNext(a, l);
    ReachesOn(s, a, t);
  }

  lemma Four(s: State, l: Label) returns (t: State)
    requires Steps(l)
    ensures t == Next(Next(Next(Next(s, l), l), l), l) && Reaches(s, t)
  {
    var a := Three(s, l);
    t := Next(a, l);
    ReachesNext(a, l);
    ReachesOn(s, a, t);
  }

  // ---------------------------------------------------------------- the maintenance supervisor

  lemma MaintenanceBoots(s: State, i: Intent) returns (t: State)
    requires s.m.pc.MBootRead?
    ensures Reaches(s, t)
    ensures t == s.(writable := s.writable + {s.f.active.generation}, maintenanceChild := Some(s.f.active),
                    m := s.m.(pc := MIdle, read := s.f.active))
  {
    t := Four(s, M(i));
  }

  lemma IntentComes(s: State, i: Intent) returns (t: State)
    requires s.f.intents == {}
    ensures Reaches(s, t) && t == s.(f := s.f.(intents := {i}))
  {
    assert {} + {i} == {i};
    t := Next(s, NewIntent(i));
    ReachesNext(s, NewIntent(i));
  }

  lemma MaintenanceQuiesces(s: State, i: Intent) returns (t: State)
    requires s.m.pc.MIdle? && s.m.paused == None && i in s.f.intents && i !in s.f.results
    ensures Reaches(s, t)
    ensures t == s.(maintenanceChild := None, maintenanceAck := s.maintenanceAck[i := Quiesced],
                    m := s.m.(pc := MIdle, intent := i, paused := Some(i)))
  {
    t := Four(s, M(i));
  }

  /** It is paused for i, and its next tick answers the web side. */
  predicate PausedFor(s: State, i: Intent) {
    s.m.pc.MIdle? && s.m.paused == Some(i) && i in s.f.intents && i !in s.f.results && i in s.f.webAck
  }

  lemma MaintenanceStarts(s: State, i: Intent) returns (t: State)
    requires PausedFor(s, i) && s.maintenanceChild.None?
    requires s.f.webAck[i] == PointerSwitched || s.f.webAck[i] == RollbackPointerSwitched
    ensures Reaches(s, t)
    ensures var ack := if s.f.webAck[i] == PointerSwitched then TargetStarted else RollbackStarted;
            t == s.(maintenanceChild := Some(s.f.active), maintenanceAck := s.maintenanceAck[i := ack],
                    m := s.m.(pc := MIdle, intent := i, read := s.f.active, ack := ack))
  {
    var ack := if s.f.webAck[i] == PointerSwitched then TargetStarted else RollbackStarted;
    var a := Three(s, M(i));
    assert a == s.(m := s.m.(pc := MSpawn, intent := i, read := s.f.active, ack := ack));
    t := Two(a, M(i));
    ReachesOn(s, a, t);
  }

  lemma MaintenanceQuiescesAgain(s: State, i: Intent) returns (t: State)
    requires PausedFor(s, i) && s.f.webAck[i] == RollbackPending
    ensures Reaches(s, t)
    ensures t == s.(maintenanceChild := None, maintenanceAck := s.maintenanceAck[i := RollbackQuiesced],
                    m := s.m.(pc := MIdle, intent := i, ack := RollbackQuiesced))
  {
    t := Four(s, M(i));
  }

  // ---------------------------------------------------------------- the web supervisor up to the switch

  lemma WebBoots(s: State, i: Intent) returns (t: State)
    requires s.w.pc == Boot(Down) && s.webChild == None
    ensures Reaches(s, t)
    ensures t == s.(writable := s.writable + {s.f.active.generation}, webChild := Some(s.f.active),
                    w := s.w.(pc := Boot(Idle), run := s.w.run + 1, current := s.f.active))
  {
    t := Four(s, W(i));
  }

  lemma WebEnters(s: State, i: Intent) returns (t: State)
    requires s.w.pc == Boot(Idle) && i in s.f.intents && i !in s.f.results && IsPrevious(i, s.f.active)
    requires i.mode == Activate && MaintenanceSays(s, i, Quiesced) && i.targetGeneration !in s.writable
    ensures Reaches(s, t)
    ensures t == s.(w := s.w.(pc := Entry(AckCheck), intent := i, resumed := false, recovering := false,
                              current := s.f.active))
  {
    t := Four(s, W(i));
  }

  lemma WebAcknowledges(s: State, i: Intent) returns (t: State)
    requires s.w.pc == Entry(AckCheck) && s.w.intent == i && i !in s.f.webAck
    ensures Reaches(s, t)
    ensures t == s.(f := s.f.(webAck := s.f.webAck[i := Applying]), w := s.w.(pc := Entry(TakeLock)))
  {
    t := Two(s, W(i));
  }

  lemma WebTakesLock(s: State, i: Intent) returns (t: State)
    requires s.w.pc == Entry(TakeLock) && s.w.intent == i && s.f.lock == Free && !s.w.resumed
    ensures Reaches(s, t) && t == s.(f := s.f.(lock := Held(i)), w := s.w.(pc := Gate(Authority)))
  {
    t := Two(s, W(i));
  }

  lemma WebPrepares(s: State, i: Intent) returns (t: State)
    requires s.w.pc == Gate(Authority) && s.w.intent == i && i.mode == Activate && IsPrevious(i, s.f.active)
    ensures Reaches(s, t)
    ensures t == s.(f := s.f.(previous := Some(s.f.active)), h := s.h.(previousBy := Some(i)), webChild := None,
                    writable := s.writable - {s.f.active.generation},
                    w := s.w.(pc := Before(WriteActive), current := s.f.active, previousDocument := s.f.active))
  {
    t := Four(s, W(i));
  }

  /** An intent for the pointer that is active. */
  predicate Applies(i: Intent, p: Pointer) {
    i.mode == Activate && IsPrevious(i, p) && i.previousGeneration != i.targetGeneration
  }

  /** The web supervisor is down, and maintenance has acknowledged that it is quiet. */
  predicate Acknowledged(s: State, i: Intent) {
    && s.f.intents == {i} && s.f.results == map[] && s.f.webAck == map[] && s.f.lock == Free
    && s.w.pc == Boot(Down) && s.webChild == None && s.writable <= {s.f.active.generation}
    && MaintenanceSays(s, i, Quiesced) && Applies(i, s.f.active)
  }

  /** Nothing of the maintenance supervisor has changed. */
  predicate SameMaintenance(s: State, t: State) {
    && t.m == s.m && t.maintenanceChild == s.maintenanceChild && t.maintenanceAck == s.maintenanceAck
    && t.f.intents == s.f.intents && t.f.results == s.f.results
  }

  /** The web supervisor writes the target pointer next. */
  predicate Switching(s: State, i: Intent) {
    && s.w.pc == Before(WriteActive) && s.w.intent == i && !s.w.recovering && s.w.previousDocument == s.f.active
    && s.webChild == None && Applies(i, s.f.active) && i in s.f.intents && i !in s.f.results
    && i in s.f.webAck
  }

  lemma WebComesToSwitch(s: State, i: Intent) returns (t: State)
    requires Acknowledged(s, i)
    ensures Reaches(s, t) && Switching(t, i) && SameMaintenance(s, t) && t.f.active == s.f.active
  {
    var a := WebBoots(s, i);
    var b := WebEnters(a, i);
    ReachesOn(s, a, b);
    var c := WebAcknowledges(b, i);
    ReachesOn(s, b, c);
    var d := WebTakesLock(c, i);
    ReachesOn(s, c, d);
    t := WebPrepares(d, i);
    ReachesOn(s, d, t);
  }

  lemma QuietComesAbout(s: State, i: Intent) returns (t: State)
    requires Init(s) && Applies(i, s.f.active)
    ensures Reaches(s, t) && Acknowledged(t, i) && t.f.active == s.f.active
    ensures t.m.pc == MIdle && t.m.paused == Some(i) && t.maintenanceChild == None
  {
    var a := MaintenanceBoots(s, i);
    var b := IntentComes(a, i);
    ReachesOn(s, a, b);
    t := MaintenanceQuiesces(b, i);
    ReachesOn(s, b, t);
  }

  /** From every initial state a run comes to the write of the target pointer. */
  lemma SwitchComesAbout(s: State, i: Intent) returns (t: State)
    requires Init(s) && Applies(i, s.f.active)
    ensures Reaches(s, t) && Switching(t, i) && PausedFor(t, i) && t.maintenanceChild == None
  {
    var a := QuietComesAbout(s, i);
    t := WebComesToSwitch(a, i);
    ReachesOn(s, a, t);
  }

  // ---------------------------------------------------------------- a run that commits

  lemma WebSwitches(s: State, i: Intent) returns (t: State)
    requires Switching(s, i)
    ensures Reaches(s, t) && SameMaintenance(s, t)
    ensures t.f.active == Target(i, 0) && t.f.webAck == s.f.webAck && t.webChild == None
    ensures t.w == s.w.(pc := After(ThawTarget))
  {
    t := Next(s, W(i));
    ReachesNext(s, W(i));
  }

  lemma WebAnnounces(s: State, i: Intent) returns (t: State)
    requires s.w.pc == After(ThawTarget) && s.w.intent == i && s.f.active == Target(i, 0) && s.webChild == None
    ensures Reaches(s, t) && SameMaintenance(s, t)
    ensures t.f == s.f.(webAck := s.f.webAck[i := PointerSwitched]) && t.w == s.w.(pc := After(AwaitTarget))
    ensures t.webChild == Some(Target(i, 0))
  {
    t := Four(s, W(i));
  }

  lemma WebVerifies(s: State, i: Intent) returns (t: State)
    requires s.w.pc == After(AwaitTarget) && s.w.intent == i && s.webChild == Some(Target(i, 0))
    requires MaintenanceSays(s, i, TargetStarted)
    ensures Reaches(s, t) && t.w == s.w.(pc := After(WriteCommitted))
  {
    t := Four(s, W(i));
  }

  lemma WebCommits(s: State, i: Intent) returns (t: State)
    requires s.w.pc == After(WriteCommitted) && s.w.intent == i
    ensures Reaches(s, t) && HasResult(t, i, Committed)
  {
    t := Next(s, W(i));
    ReachesNext(s, W(i));
  }

  lemma SomeRunCommits(s: State, i: Intent)
    requires Init(s) && Applies(i, s.f.active)
    ensures exists run: seq<State>, labels: seq<Label> ::
              IsRun(run, labels) && run[0] == s && HasResult(run[|labels|], i, Committed)
  {
    var a := SwitchComesAbout(s, i);
    var b := WebSwitches(a, i);
    ReachesOn(s, a, b);
    var c := WebAnnounces(b, i);
    ReachesOn(s, b, c);
    var d := MaintenanceStarts(c, i);
    ReachesOn(s, c, d);
    var e := WebVerifies(d, i);
    ReachesOn(s, d, e);
    var t := WebCommits(e, i);
    ReachesOn(s, e, t);
    ReachedFromStart(s, t);
  }

  // ---------------------------------------------------------------- a run that rolls back

  /** The thawing of the target workspace raises, and the rollback begins. */
  lemma WebFails(s: State, i: Intent) returns (t: State)
    requires s.w.pc == After(ThawTarget) && !s.w.recovering
    ensures Reaches(s, t) && t == At(s, Undo(UndoStop))
  {
    var l := WebStep(Quietly(i).(raises := true));
    t := Next(s, l);
    ReachesNext(s, l);
  }

  lemma WebPends(s: State, i: Intent) returns (t: State)
    requires s.w.pc == Undo(UndoStop) && s.w.intent == i
    ensures Reaches(s, t)
    ensures t == s.(f := s.f.(webAck := s.f.webAck[i := RollbackPending]), webChild := None,
                    w := s.w.(pc := Undo(UndoAwait)))
  {
    t := Two(s, W(i));
  }

  lemma WebRestores(s: State, i: Intent) returns (t: State)
    requires s.w.pc == Undo(UndoAwait) && s.w.intent == i && MaintenanceSays(s, i, RollbackQuiesced)
    ensures Reaches(s, t) && SameMaintenance(s, t)
    ensures t.f == s.f.(active := s.w.previousDocument) && t.w == s.w.(pc := Restored(UndoThaw))
    ensures t.webChild == s.webChild
  {
    t := Three(s, W(i));
  }

  lemma WebAnnouncesAgain(s: State, i: Intent) returns (t: State)
    requires s.w.pc == Restored(UndoThaw) && s.w.intent == i && s.webChild == None
    ensures Reaches(s, t) && SameMaintenance(s, t)
    ensures t.f == s.f.(webAck := s.f.webAck[i := RollbackPointerSwitched])
    ensures t.w == s.w.(pc := Restored(UndoAwaitStarted)) && t.webChild == Some(s.f.active)
  {
    t := Three(s, W(i));
  }

  lemma WebRollsBack(s: State, i: Intent) returns (t: State)
    requires s.w.pc == Restored(UndoAwaitStarted) && s.w.intent == i && s.webChild == Some(s.w.previousDocument)
    requires MaintenanceSays(s, i, RollbackStarted)
    ensures Reaches(s, t) && HasResult(t, i, RolledBack)
  {
    t := Three(s, W(i));
  }

  lemma SomeRunRollsBack(s: State, i: Intent)
    requires Init(s) && Applies(i, s.f.active)
    ensures exists run: seq<State>, labels: seq<Label> ::
              IsRun(run, labels) && run[0] == s && HasResult(run[|labels|], i, RolledBack)
  {
    var a := SwitchComesAbout(s, i);
    var b := WebSwitches(a, i);
    ReachesOn(s, a, b);
    var c := WebFails(b, i);
    ReachesOn(s, b, c);
    var d := WebPends(c, i);
    ReachesOn(s, c, d);
    var e := MaintenanceQuiescesAgain(d, i);
    ReachesOn(s, d, e);
    var g := WebRestores(e, i);
    ReachesOn(s, e, g);
    var h := WebAnnouncesAgain(g, i);
    ReachesOn(s, g, h);
    var j := MaintenanceStarts(h, i);
    ReachesOn(s, h, j);
    var t := WebRollsBack(j, i);
    ReachesOn(s, j, t);
    ReachedFromStart(s, t);
  }
}
