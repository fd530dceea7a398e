/**
Debounced saving: one timer handle, the timers the event loop still holds, and saves in flight.
Versions number the live states; every mutation is followed by a schedule call.
*/
module Debounce {
  import opened Options

  datatype Saver = Saver(
    live: nat,             // version of the live state
    persistTimer: Option<nat>,
    pending: set<nat>,     // timers that will fire unless cleared
    nextTimer: nat,
    captured: nat,         // version in the last snapshot taken
    inFlight: seq<nat>,    // versions being written, in the order their saves started
    durable: nat)          // version in the durable copy

  datatype Step =
    | Mutate         // and scheduleRuntimePersist
    | Fire(t: nat)   // a pending timer fires and starts a save
    | Flush          // a save without a timer
    | Complete(i: nat)
    | Fail(i: nat)

  const BOOTED := Saver(0, None, {}, 0, 0, [], 0)

  /** `scheduleRuntimePersist`: clear the timer that is set, set a new one. */
  function Schedule(s: Saver): Saver {
    var cleared := if s.persistTimer.Some? then s.pending - {s.persistTimer.value} else s.pending;
    s.(pending := cleared + {s.nextTimer}, persistTimer := Some(s.nextTimer), nextTimer := s.nextTimer + 1)
  }

  /** `persistRuntimeState` up to its first await: the state is captured whole, as the file path does. */
  function StartSave(s: Saver): Saver {
    s.(captured := s.live, inFlight := s.inFlight + [s.live])
  }

  function Drop(xs: seq<nat>, i: nat): seq<nat>
    requires i < |xs|
  {
    xs[..i] + xs[i + 1..]
  }

  predicate Enabled(s: Saver, step: Step) {
    match step
    case Fire(t) => t in s.pending
    case Complete(i) => i < |s.inFlight|
    case Fail(i) => i < |s.inFlight|
    case _ => true
  }

  /** A step that is not enabled does not happen. */
  function Exec(s: Saver, step: Step): Saver {
    if !Enabled(s, step) then s else
    match step
    case Mutate => Schedule(s.(live := s.live + 1))
    case Fire(t) => StartSave(s.(pending := s.pending - {t}, persistTimer := None))
    case Flush => StartSave(s)
    case Complete(i) => s.(durable := s.inFlight[i], inFlight := Drop(s.inFlight, i))
    case Fail(i) => s.(inFlight := Drop(s.inFlight, i))
  }

  function Run(steps: seq<Step>): Saver {
    if steps == [] then BOOTED else Exec(Run(steps[..|steps| - 1]), steps[|steps| - 1])
  }

  /** The handle is the only timer, and nothing written is newer than the last snapshot. */
  ghost predicate Tidy(s: Saver) {
    && s.pending == (if s.persistTimer.Some? then {s.persistTimer.value} else {})
    && (s.persistTimer.Some? ==> s.persistTimer.value < s.nextTimer)
    && s.captured <= s.live
    && s.durable <= s.captured
    && forall i | 0 <= i < |s.inFlight| :: s.inFlight[i] <= s.captured
  }

  ghost predicate Sound(s: Saver) {
    Tidy(s) && (s.captured < s.live ==> s.persistTimer.Some?)
  }

  lemma SoundStep(s: Saver, step: Step)
    requires Sound(s)
    ensures Sound(Exec(s, step))
  {
    if (step.Complete? || step.Fail?) && Enabled(s, step) {
      var rest := Drop(s.inFlight, step.i);
      assert forall k | 0 <= k < |rest| :: rest[k] in s.inFlight;
      assert Exec(s, step).inFlight == rest;
    }
  }

  /**
  In every reachable state at most one timer is pending, it is the one in the handle, and a live
  state newer than the last snapshot always has it; the durable copy is some captured state.
  */
  lemma {:induction false} OneTimer(steps: seq<Step>)
    ensures Sound(Run(steps)) && |Run(steps).pending| <= 1
  {
    hide Exec;
    if steps != [] {
      OneTimer(steps[..|steps| - 1]);
      SoundStep(Run(steps[..|steps| - 1]), steps[|steps| - 1]);
    }
  }

  /* ---- when the durable copy is the live state ---- */

  /** Position of the last mutation of a run. */
  ghost function LastMutation(steps: seq<Step>): Option<nat> {
    if steps == [] then None
    else if steps[|steps| - 1].Mutate? then Some(|steps| - 1)
    else LastMutation(steps[..|steps| - 1])
  }

  /** Positions at which the saves in flight were started, oldest first. */
  ghost function Starts(steps: seq<Step>): seq<nat> {
    if steps == [] then []
    else
      var n := |steps| - 1;
      var before, step := Starts(steps[..n]), steps[n];
      if step.Flush? || (step.Fire? && Enabled(Run(steps[..n]), step)) then before + [n]
      else if (step.Complete? || step.Fail?) && step.i < |before| then Drop(before, step.i)
      else before
  }

  /** Position at which the save that completed last was started. */
  ghost function CompletedStart(steps: seq<Step>): Option<nat> {
    if steps == [] then None
    else
      var n := |steps| - 1;
      var before, step := Starts(steps[..n]), steps[n];
      if step.Complete? && step.i < |before| then Some(before[step.i]) else CompletedStart(steps[..n])
  }

  /** A save started at this position took the latest mutation with it. */
  ghost predicate After(start: nat, mutation: Option<nat>) {
    mutation.Some? ==> start > mutation.value
  }

  /**
  After n steps: a version in flight or durable is the live one exactly when its save started after
  the last mutation.
  */
  ghost predicate Tells(s: Saver, starts: seq<nat>, completed: Option<nat>, mutation: Option<nat>, n: nat) {
    && |starts| == |s.inFlight|
    && (mutation.Some? ==> mutation.value < n) && (mutation.None? <==> s.live == 0)
    && (forall i | 0 <= i < |starts| :: starts[i] < n && s.inFlight[i] <= s.live)
    && (forall i | 0 <= i < |starts| :: s.inFlight[i] == s.live <==> After(starts[i], mutation))
    && s.durable <= s.live && (completed.Some? ==> completed.value < n)
    && (s.durable == s.live <==> mutation.None? || (completed.Some? && After(completed.value, mutation)))
  }

  ghost predicate StartsTell(steps: seq<Step>) {
    Tells(Run(steps), Starts(steps), CompletedStart(steps), LastMutation(steps), |steps|)
  }

  /** Finishing a save takes it off both lists. */
  lemma FinishTells(s: Saver, starts: seq<nat>, completed: Option<nat>, mutation: Option<nat>, n: nat, i: nat)
    requires Tells(s, starts, completed, mutation, n) && i < |starts|
    ensures var failed := s.(inFlight := Drop(s.inFlight, i));
      && Tells(failed, Drop(starts, i), completed, mutation, n + 1)
      && Tells(failed.(durable := s.inFlight[i]), Drop(starts, i), Some(starts[i]), mutation, n + 1)
  {
    var rest, flight := Drop(starts, i), Drop(s.inFlight, i);
    assert forall k | 0 <= k < |rest| ::
      var j := if k < i then k else k + 1; rest[k] == starts[j] && flight[k] == s.inFlight[j];
  }

  lemma MutationTells(s: Saver, starts: seq<nat>, completed: Option<nat>, mutation: Option<nat>, n: nat)
    requires Tells(s, starts, completed, mutation, n)
    ensures Tells(Schedule(s.(live := s.live + 1)), starts, completed, Some(n), n + 1)
  {}

  lemma StartTells(s: Saver, starts: seq<nat>, completed: Option<nat>, mutation: Option<nat>, n: nat, pending: set<nat>)
    requires Tells(s, starts, completed, mutation, n)
    ensures Tells(StartSave(s), starts + [n], completed, mutation, n + 1)
    ensures Tells(StartSave(s.(pending := pending, persistTimer := None)), starts + [n], completed, mutation, n + 1)
    ensures Tells(s, starts, completed, mutation, n + 1)
  {}

  lemma {:induction false} StartsTellAll(steps: seq<Step>)
    ensures StartsTell(steps)
  {
    hide Tells, Drop, Schedule, StartSave;
    if steps == [] {
      NothingTells();
    } else {
      var n := |steps| - 1;
      var s, step := Run(steps[..n]), steps[n];
      var starts, completed, mutation := Starts(steps[..n]), CompletedStart(steps[..n]), LastMutation(steps[..n]);
      StartsTellAll(steps[..n]);
      SameLength(s, starts, completed, mutation, n);
      MutationTells(s, starts, completed, mutation, n);
      StartTells(s, starts, completed, mutation, n, if step.Fire? then s.pending - {step.t} else {});
      if (step.Complete? || step.Fail?) && Enabled(s, step) { FinishTells(s, starts, completed, mutation, n, step.i); }
    }
  }

  lemma NothingTells()
    ensures Tells(BOOTED, [], None, None, 0)
  {}

  lemma SameLength(s: Saver, starts: seq<nat>, completed: Option<nat>, mutation: Option<nat>, n: nat)
    requires Tells(s, starts, completed, mutation, n)
    ensures |starts| == |s.inFlight|
  {}

  /**
  For every run: the durable copy is the live state exactly when nothing was ever mutated, or the
  save that completed last was started after the last mutation.
  */
  lemma DurableExactly(steps: seq<Step>)
    ensures Run(steps).durable == Run(steps).live <==>
      LastMutation(steps).None? ||
      (CompletedStart(steps).Some? && CompletedStart(steps).value > LastMutation(steps).value)
  {
    StartsTellAll(steps);
  }

  /** Saves finish in the order they start, and the newest one in flight does not fail. */
  predicate Orderly(steps: seq<Step>)
  {
    steps == [] ||
    (Orderly(steps[..|steps| - 1]) &&
     var s, step := Run(steps[..|steps| - 1]), steps[|steps| - 1];
     (step.Complete? ==> step.i == 0) && (step.Fail? ==> step.i + 1 != |s.inFlight|))
  }

  predicate Quiet(s: Saver) {
    s.pending == {} && s.inFlight == []
  }

  /** Position at which the newest save was started. */
  ghost function LastStart(steps: seq<Step>): Option<nat> {
    if steps == [] then None
    else
      var n := |steps| - 1;
      if steps[n].Flush? || (steps[n].Fire? && Enabled(Run(steps[..n]), steps[n])) then Some(n)
        else LastStart(steps[..n])
  }

  /** The newest save was started after the last mutation, unless a timer is still pending. */
  lemma {:induction false} TimerOrStart(steps: seq<Step>)
    ensures LastStart(steps).Some? ==> LastStart(steps).value < |steps|
    ensures Run(steps).pending == {} && LastMutation(steps).Some? ==>
      LastStart(steps).Some? && LastStart(steps).value > LastMutation(steps).value
  {
    if steps != [] {
      var n := |steps| - 1;
      TimerOrStart(steps[..n]);
      OneTimer(steps[..n]);
      StartsTellAll(steps[..n]);
      assert steps[n].Mutate? ==> Run(steps).pending != {} by {
        if steps[n].Mutate? { assert Run(steps[..n]).nextTimer in Run(steps).pending; }
      }
    }
  }

  /** With orderly saves the newest one is in flight, or it is the one that completed last. */
  lemma {:induction false} NewestCompletes(steps: seq<Step>)
    requires Orderly(steps)
    ensures if Starts(steps) == [] then CompletedStart(steps) == LastStart(steps)
      else LastStart(steps) == Some(Starts(steps)[|Starts(steps)| - 1])
  {
    if steps != [] {
      var n := |steps| - 1;
      NewestCompletes(steps[..n]);
      StartsTellAll(steps[..n]);
    }
  }

  /**
  Once nothing is pending or in flight, the live state is durable if the newest save completed last,
  whatever earlier saves did.
  */
  lemma NewestLastMeansDurable(steps: seq<Step>)
    requires Quiet(Run(steps)) && CompletedStart(steps) == LastStart(steps)
    ensures Run(steps).durable == Run(steps).live
  {
    DurableExactly(steps);
    TimerOrStart(steps);
  }

  /** So orderly saves leave the live state durable once nothing is pending or in flight. */
  lemma QuietMeansDurable(steps: seq<Step>)
    requires Orderly(steps) && Quiet(Run(steps))
    ensures Run(steps).durable == Run(steps).live
  {
    StartsTellAll(steps);
    NewestCompletes(steps);
    NewestLastMeansDurable(steps);
  }

  /** Two overlapping saves that finish in the wrong order leave an old state durable, and no timer. */
  lemma OverlapLosesState()
    ensures var steps := [Mutate, Fire(0), Mutate, Fire(1), Complete(1), Complete(0)];
      Quiet(Run(steps)) && Run(steps).durable == 1 && Run(steps).live == 2
  {
    var s1, s2 := [Mutate], [Mutate, Fire(0)];
    var s3, s4 := s2 + [Mutate], s2 + [Mutate, Fire(1)];
    var s5 := s4 + [Complete(1)];
    var s6 := [Mutate, Fire(0), Mutate, Fire(1), Complete(1), Complete(0)];
    assert s1[..0] == [] && s2[..1] == s1 && s3[..2] == s2 && s4[..3] == s3 && s5[..4] == s4 && s6[..5] == s5;
    assert Run(s1) == Saver(1, Some(0), {0}, 1, 0, [], 0);
    assert Run(s2) == Saver(1, None, {}, 1, 1, [1], 0);
    assert Run(s3) == Saver(2, Some(1), {1}, 2, 1, [1], 0);
    assert Run(s4) == Saver(2, None, {}, 2, 2, [1, 2], 0);
    assert Run(s5) == Saver(2, None, {}, 2, 2, [1], 2);
  }

  /** A failed save is not retried: the state stays unsaved until the next mutation. */
  lemma FailureLosesState()
    ensures var steps := [Mutate, Fire(0), Fail(0)];
      Quiet(Run(steps)) && Run(steps).durable == 0 && Run(steps).live == 1
  {
    var s1, s2, s3 := [Mutate], [Mutate, Fire(0)], [Mutate, Fire(0), Fail(0)];
    assert s1[..0] == [] && s2[..1] == s1 && s3[..2] == s2;
    assert Run(s1) == Saver(1, Some(0), {0}, 1, 0, [], 0);
    assert Run(s2) == Saver(1, None, {}, 1, 1, [1], 0);
  }

  /** The module-level handle with the event loop's timers. */
  class PersistTimer {
    var saver: Saver
    const enabled: bool

    constructor (enabled: bool)
      ensures saver == BOOTED && this.enabled == enabled
    {
      this.saver, this.enabled := BOOTED, enabled;
    }

    /**
    Called after a mutation, when the live state may be newer than any snapshot and have no timer.
    It then has one, no older timer can still fire, and nothing else changed.
    */
    method ScheduleRuntimePersist()
      requires Tidy(saver)
      modifies this
      ensures enabled ==> Sound(saver) && saver.pending == {old(saver).nextTimer} && saver.pending !! old(saver.pending)
      ensures saver ==
        old(saver).(persistTimer := saver.persistTimer, pending := saver.pending, nextTimer := saver.nextTimer)
      ensures !enabled ==> saver == old(saver)
    {
      if !enabled { return; }
      if saver.persistTimer.Some? {
        saver := saver.(pending := saver.pending - {saver.persistTimer.value});
      }
      saver := saver.(pending := saver.pending + {saver.nextTimer}, persistTimer := Some(saver.nextTimer),
        nextTimer := saver.nextTimer + 1);
    }
  }
}
