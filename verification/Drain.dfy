/**
 * The ownership and drain protocol of the client shell: one in-flight flag and two request flags, shared by any number
 * of pause, abort and action threads. A step is one atomic load, store, swap or compare-and-swap, or one commit.
 * A goroutine that a request spawns to drain continues as the requesting thread.
 */
module Drain {
  import opened Wrappers

  /** The next step of a thread. */
  datatype Pc =
    | PauseStart(value: bool)   // pauseTarget.Store(value)
    | PauseStored               // pauseRequested.Store(true)
    | PauseClaim                // actionInFlight.CompareAndSwap(false, true)
    | AbortStart                // abortRequested.Store(true)
    | AbortClaim                // actionInFlight.CompareAndSwap(false, true)
    | ActionStart               // actionInFlight.CompareAndSwap(false, true)
    | Working                   // the action itself, then its deferred finishAction
    | TakeAbort                 // abortRequested.Swap(false)
    | DropPause                 // pauseRequested.Store(false)
    | CommitAbort
    | TakePause                 // pauseRequested.Swap(false)
    | LoadTarget                // pauseTarget.Load()
    | CommitPause(value: bool)
    | Release                   // actionInFlight.Store(false)
    | CheckAbort                // abortRequested.Load()
    | CheckPause                // pauseRequested.Load()
    | Reclaim                   // actionInFlight.CompareAndSwap(false, true)
    | Finished

  /** The shared flags, and what has been asked for and committed so far. */
  datatype Flags = Flags(
    inFlight: bool, pauseRequested: bool, pauseTarget: bool, abortRequested: bool,
    pauseAsked: bool, lastPaused: Option<bool>, pauseDropped: bool, abortOwed: bool)

  datatype Shell = Shell(flags: Flags, threads: seq<Pc>)

  datatype Effect = Effect(flags: Flags, pc: Pc)

  predicate Owns(pc: Pc) {
    || pc.Working? || pc.TakeAbort? || pc.DropPause? || pc.CommitAbort? || pc.TakePause? || pc.LoadTarget?
    || pc.CommitPause? || pc.Release?
  }

  /** A compare-and-swap on the in-flight flag: to `won` as its new owner, or to `Finished`. */
  function Claim(f: Flags, won: Pc): Effect {
    if f.inFlight then Effect(f, Finished) else Effect(f.(inFlight := true), won)
  }

  /** What one atomic step does to the flags, and where it takes its thread. */
  function Act(f: Flags, pc: Pc): Effect {
    match pc
    case PauseStart(v) => Effect(f.(pauseTarget := v, pauseAsked := true, pauseDropped := false), PauseStored)
    case PauseStored => Effect(f.(pauseRequested := true), PauseClaim)
    case PauseClaim => Claim(f, TakeAbort)
    case AbortStart => Effect(f.(abortRequested := true, abortOwed := true), AbortClaim)
    case AbortClaim => Claim(f, TakeAbort)
    case ActionStart => Claim(f, Working)
    case Working => Effect(f, TakeAbort)
    case TakeAbort => Effect(f.(abortRequested := false), if f.abortRequested then DropPause else TakePause)
    case DropPause => Effect(
      f.(pauseRequested := false, pauseDropped := f.pauseDropped || f.pauseRequested), CommitAbort)
    case CommitAbort => Effect(f.(abortOwed := false), TakeAbort)
    case TakePause => Effect(f.(pauseRequested := false), if f.pauseRequested then LoadTarget else Release)
    case LoadTarget => Effect(f, CommitPause(f.pauseTarget))
    case CommitPause(v) => Effect(f.(lastPaused := Some(v)), TakeAbort)
    case Release => Effect(f.(inFlight := false), CheckAbort)
    case CheckAbort => Effect(f, if f.abortRequested then Reclaim else CheckPause)
    case CheckPause => Effect(f, if f.pauseRequested then Reclaim else Finished)
    case Reclaim => Claim(f, TakeAbort)
    case Finished => Effect(f, Finished)
  }

  predicate CanStep(s: Shell, t: nat) {
    t < |s.threads| && s.threads[t] != Finished
  }

  /** The next atomic step of thread t. */
  function Step(s: Shell, t: nat): Shell
    requires CanStep(s, t)
  {
    var e := Act(s.flags, s.threads[t]);
    Shell(e.flags, s.threads[t := e.pc])
  }

  predicate Starting(pc: Pc) {
    pc.PauseStart? || pc.AbortStart? || pc.ActionStart?
  }

  ghost predicate Initial(s: Shell) {
    && !s.flags.inFlight && !s.flags.pauseRequested && !s.flags.abortRequested
    && !s.flags.pauseAsked && s.flags.lastPaused == None && !s.flags.pauseDropped && !s.flags.abortOwed
    && forall t :: 0 <= t < |s.threads| ==> Starting(s.threads[t])
  }

  // ----- properties of some thread

  ghost predicate Any(threads: seq<Pc>, test: Pc -> bool) {
    exists i :: 0 <= i < |threads| && test(threads[i])
  }

  ghost predicate AnyOther(threads: seq<Pc>, t: nat, test: Pc -> bool) {
    exists i :: 0 <= i < |threads| && i != t && test(threads[i])
  }

  ghost predicate AtMostOne(threads: seq<Pc>, test: Pc -> bool) {
    forall i, j :: 0 <= i < j < |threads| ==> !(test(threads[i]) && test(threads[j]))
  }

  lemma AnyAt(threads: seq<Pc>, t: nat, pc: Pc, test: Pc -> bool)
    requires t < |threads|
    ensures Any(threads, test) <==> test(threads[t]) || AnyOther(threads, t, test)
    ensures Any(threads[t := pc], test) <==> test(pc) || AnyOther(threads, t, test)
  {
    var threads' := threads[t := pc];
    assert threads'[t] == pc;
    if AnyOther(threads, t, test) {
      var i :| 0 <= i < |threads| && i != t && test(threads[i]);
      assert test(threads'[i]);
    }
    if Any(threads', test) && !test(pc) {
      var i :| 0 <= i < |threads'| && test(threads'[i]);
      assert test(threads[i]);
    }
  }

  lemma AtMostOneAt(threads: seq<Pc>, t: nat, pc: Pc, test: Pc -> bool)
    requires t < |threads| && AtMostOne(threads, test)
    ensures test(threads[t]) ==> !AnyOther(threads, t, test)
    ensures (test(pc) ==> !AnyOther(threads, t, test)) ==> AtMostOne(threads[t := pc], test)
  {
  }

  // ----- the invariant

  predicate SeesAbort(pc: Pc) {
    Owns(pc) || pc.AbortClaim? || pc.CheckAbort? || pc.Reclaim?
  }

  predicate SeesPause(pc: Pc) {
    Owns(pc) || pc.PauseClaim? || pc.CheckAbort? || pc.CheckPause? || pc.Reclaim?
  }

  predicate Raising(pc: Pc) {
    pc == PauseStored
  }

  /** The thread will request the current target, or commit it. */
  predicate IsCarrier(target: bool, pc: Pc) {
    pc == PauseStored || pc == LoadTarget || pc == CommitPause(target)
  }

  function Carries(target: bool): Pc -> bool {
    (pc: Pc) => IsCarrier(target, pc)
  }

  function CommitsStale(target: bool): Pc -> bool {
    (pc: Pc) => pc == CommitPause(!target)
  }

  predicate Aborting(pc: Pc) {
    pc == DropPause || pc == CommitAbort
  }

  /** At most one thread owns the shell, and the flag says whether one does. */
  ghost predicate OneOwner(s: Shell) {
    AtMostOne(s.threads, Owns) && (s.flags.inFlight <==> Any(s.threads, Owns))
  }

  /** No wakeup is lost: whenever a request flag is up, some thread is still bound to look at it. */
  ghost predicate NoneStranded(s: Shell) {
    && (s.flags.abortRequested ==> Any(s.threads, SeesAbort))
    && (s.flags.pauseRequested ==> Any(s.threads, SeesPause))
  }

  /** The current target is committed, dropped by an abort, requested, or on its way to being requested or committed;
      a stale value is committed only while the newer target is still to be requested or served. */
  ghost predicate TargetTracked(s: Shell) {
    && (s.flags.pauseAsked ==>
          || s.flags.lastPaused == Some(s.flags.pauseTarget) || s.flags.pauseDropped || s.flags.pauseRequested
          || Any(s.threads, Carries(s.flags.pauseTarget)))
    && (Any(s.threads, CommitsStale(s.flags.pauseTarget)) ==> s.flags.pauseRequested || Any(s.threads, Raising))
  }

  /** An abort that has been asked for is requested or being committed. */
  ghost predicate AbortTracked(s: Shell) {
    s.flags.abortOwed ==> s.flags.abortRequested || Any(s.threads, Aborting)
  }

  ghost predicate Inv(s: Shell) {
    OneOwner(s) && NoneStranded(s) && TargetTracked(s) && AbortTracked(s)
  }

  lemma InitialInv(s: Shell)
    requires Initial(s)
    ensures Inv(s)
  {
  }

  lemma StepKeepsOwner(s: Shell, t: nat)
    requires OneOwner(s) && CanStep(s, t)
    ensures OneOwner(Step(s, t))
  {
    hide Any, AnyOther, AtMostOne;
    var pc := Act(s.flags, s.threads[t]).pc;
    AnyAt(s.threads, t, pc, Owns);
    AtMostOneAt(s.threads, t, pc, Owns);
  }

  lemma StepStrandsNone(s: Shell, t: nat)
    requires OneOwner(s) && NoneStranded(s) && CanStep(s, t)
    ensures NoneStranded(Step(s, t))
  {
    hide Any, AnyOther, AtMostOne;
    var pc := Act(s.flags, s.threads[t]).pc;
    OwnersSee(s.threads, t);
    AnyAt(s.threads, t, pc, Owns);
    AnyAt(s.threads, t, pc, SeesAbort);
    AnyAt(s.threads, t, pc, SeesPause);
  }

  lemma OwnersSee(threads: seq<Pc>, t: nat)
    ensures AnyOther(threads, t, Owns) ==> AnyOther(threads, t, SeesAbort) && AnyOther(threads, t, SeesPause)
  {
  }

  ghost predicate Tracked(f: Flags, carried: bool, stale: bool, raising: bool) {
    && (f.pauseAsked ==> f.lastPaused == Some(f.pauseTarget) || f.pauseDropped || f.pauseRequested || carried)
    && (stale ==> f.pauseRequested || raising)
  }

  /** One step seen by its thread, given whether some other thread carries the target, is about to commit a stale value,
      or is about to raise a request. */
  lemma ActTracksTarget(f: Flags, pc: Pc, carried: bool, stale: bool, raising: bool)
    requires pc != Finished && (stale ==> !pc.TakePause? && !pc.DropPause?) && (raising ==> carried)
    requires Tracked(f, IsCarrier(f.pauseTarget, pc) || carried, pc == CommitPause(!f.pauseTarget) || stale,
                     Raising(pc) || raising)
    ensures var e := Act(f, pc);
      if pc.PauseStart? then e.pc == PauseStored
      else e.flags.pauseTarget == f.pauseTarget
           && Tracked(e.flags, IsCarrier(f.pauseTarget, e.pc) || carried, e.pc == CommitPause(!f.pauseTarget) || stale,
                      Raising(e.pc) || raising)
  {
    match pc
    case TakePause =>
    case CommitPause(v) =>
    case LoadTarget =>
    case DropPause =>
    case PauseStored =>
    case _ =>
  }

  lemma StepTracksTarget(s: Shell, t: nat)
    requires OneOwner(s) && TargetTracked(s) && CanStep(s, t)
    ensures TargetTracked(Step(s, t))
  {
    hide Any, AnyOther, AtMostOne, Act, IsCarrier;
    var f, was := s.flags, s.threads[t];
    var e := Act(f, was);
    var target := f.pauseTarget;
    AnyAt(s.threads, t, e.pc, Raising);
    CarriersOwnOrRaise(s.threads, t, target);
    AtMostOneAt(s.threads, t, e.pc, Owns);
    AnyAt(s.threads, t, e.pc, Carries(target));
    AnyAt(s.threads, t, e.pc, CommitsStale(target));
    ActTracksTarget(f, was, AnyOther(s.threads, t, Carries(target)), AnyOther(s.threads, t, CommitsStale(target)),
                    AnyOther(s.threads, t, Raising));
    assert IsCarrier(e.flags.pauseTarget, PauseStored) by { RaisingCarries(e.flags.pauseTarget); }
    AnyAt(s.threads, t, e.pc, Carries(e.flags.pauseTarget));
  }

  lemma RaisingCarries(target: bool)
    ensures IsCarrier(target, PauseStored)
  {
  }

  lemma CarriersOwnOrRaise(threads: seq<Pc>, t: nat, target: bool)
    ensures AnyOther(threads, t, CommitsStale(target)) ==> AnyOther(threads, t, Owns)
    ensures AnyOther(threads, t, Raising) ==> AnyOther(threads, t, Carries(target))
  {
  }

  lemma StepTracksAbort(s: Shell, t: nat)
    requires AbortTracked(s) && OneOwner(s) && CanStep(s, t)
    ensures AbortTracked(Step(s, t))
  {
    hide Any, AnyOther, AtMostOne;
    var pc := Act(s.flags, s.threads[t]).pc;
    AnyAt(s.threads, t, pc, Aborting);
  }

  lemma StepKeepsInv(s: Shell, t: nat)
    requires Inv(s) && CanStep(s, t)
    ensures Inv(Step(s, t))
  {
    hide OneOwner, NoneStranded, TargetTracked, AbortTracked, Step;
    StepKeepsOwner(s, t);
    StepStrandsNone(s, t);
    StepTracksTarget(s, t);
    StepTracksAbort(s, t);
  }

  // ----- every schedule ends

  ghost function Sum(threads: seq<Pc>, weight: Pc -> nat): nat {
    if threads == [] then 0 else Sum(threads[..|threads| - 1], weight) + weight(threads[|threads| - 1])
  }

  lemma {:induction false} SumUpdate(threads: seq<Pc>, weight: Pc -> nat, t: nat, pc: Pc)
    requires t < |threads|
    ensures Sum(threads[t := pc], weight) + weight(threads[t]) == Sum(threads, weight) + weight(pc)
    decreases |threads|
  {
    var k := |threads| - 1;
    if t == k {
      assert threads[t := pc][..k] == threads[..k];
    } else {
      assert threads[t := pc][..k] == threads[..k][t := pc];
      SumUpdate(threads[..k], weight, t, pc);
    }
  }

  lemma {:induction false} SumBound(threads: seq<Pc>, weight: Pc -> nat, most: nat)
    requires forall pc :: weight(pc) <= most
    ensures Sum(threads, weight) <= most * |threads|
    decreases |threads|
  {
    if threads == [] {
    } else {
      SumBound(threads[..|threads| - 1], weight, most);
    }
  }

  /** Requests a thread has still to raise, counted twice. */
  function Unraised(pc: Pc): nat {
    if pc.PauseStart? || pc.PauseStored? || pc.AbortStart? then 2 else 0
  }

  /** Requests still to be raised or taken; it never grows, and every raise and every take lowers it. */
  ghost function Requests(s: Shell): nat {
    Sum(s.threads, Unraised) + (if s.flags.abortRequested then 1 else 0) + if s.flags.pauseRequested then 1 else 0
  }

  /** How far a thread is from taking a request that is up, or from finishing when none is. */
  function Distance(abort: bool, pause: bool, pc: Pc): nat {
    match pc
    case PauseStart(_) => 20
    case PauseStored => 19
    case PauseClaim => 18
    case AbortStart => 20
    case AbortClaim => 18
    case ActionStart => 18
    case Working => 17
    case DropPause => 15
    case CommitAbort => 14
    case LoadTarget => 15
    case CommitPause(_) => 14
    case TakeAbort => if abort then 7 else if pause then 8 else 12
    case Reclaim => if abort then 8 else if pause then 9 else 13
    case CheckPause => if abort then 9 else if pause then 10 else 2
    case CheckAbort => if abort then 10 else if pause then 11 else 3
    case Release => if abort then 11 else if pause then 12 else 4
    case TakePause => if abort then 12 else if pause then 7 else 5
    case Finished => 0
  }

  function Far(abort: bool, pause: bool): Pc -> nat {
    (pc: Pc) => Distance(abort, pause, pc)
  }

  ghost function Measure(s: Shell): nat {
    Requests(s) * (20 * |s.threads| + 1) + Sum(s.threads, Far(s.flags.abortRequested, s.flags.pauseRequested))
  }

  /** A step takes or raises a request, or brings its thread nearer. */
  lemma ActApproaches(f: Flags, pc: Pc)
    requires pc != Finished
    ensures var e := Act(f, pc);
      var raised := Unraised(e.pc) + (if e.flags.abortRequested then 1 else 0)
        + if e.flags.pauseRequested then 1 else 0;
      var before := Unraised(pc) + (if f.abortRequested then 1 else 0) + if f.pauseRequested then 1 else 0;
      || raised < before
      || (&& raised == before
          && e.flags.abortRequested == f.abortRequested && e.flags.pauseRequested == f.pauseRequested
          && Distance(f.abortRequested, f.pauseRequested, e.pc) < Distance(f.abortRequested, f.pauseRequested, pc))
  {
    match pc
    case TakeAbort =>
    case DropPause =>
    case TakePause =>
    case CheckAbort =>
    case CheckPause =>
    case Reclaim =>
    case PauseStored =>
    case AbortStart =>
    case _ =>
  }

  lemma StepLowersMeasure(s: Shell, t: nat)
    requires CanStep(s, t)
    ensures Measure(Step(s, t)) < Measure(s)
  {
    hide Act, Distance, Unraised, Sum;
    var s' := Step(s, t);
    var f := s.flags;
    ActApproaches(f, s.threads[t]);
    SumUpdate(s.threads, Unraised, t, s'.threads[t]);
    FarBound(s'.flags.abortRequested, s'.flags.pauseRequested);
    SumBound(s'.threads, Far(s'.flags.abortRequested, s'.flags.pauseRequested), 20);
    SumUpdate(s.threads, Far(f.abortRequested, f.pauseRequested), t, s'.threads[t]);
    Lexicographic(Requests(s'), Requests(s), 20 * |s.threads| + 1,
                  Sum(s'.threads, Far(s'.flags.abortRequested, s'.flags.pauseRequested)),
                  Sum(s.threads, Far(f.abortRequested, f.pauseRequested)));
  }

  lemma Lexicographic(a': nat, a: nat, unit: nat, b': nat, b: nat)
    requires b' < unit && (a' < a || (a' == a && b' < b))
    ensures a' * unit + b' < a * unit + b
  {
    if a' < a {
      assert a' * unit <= (a - 1) * unit;
      assert (a - 1) * unit == a * unit - unit;
    }
  }

  lemma FarBound(abort: bool, pause: bool)
    ensures forall pc :: Far(abort, pause)(pc) <= 20
  {
  }

  // ----- whole schedules

  /** The state after the threads have stepped in the order of the schedule; only unfinished threads can step. */
  ghost predicate Runs(s: Shell, schedule: seq<nat>, end: Shell)
    decreases |schedule|
  {
    if schedule == [] then end == s
    else CanStep(s, schedule[0]) && Runs(Step(s, schedule[0]), schedule[1..], end)
  }

  /** Every interleaving keeps the invariant and is no longer than the measure of its start. */
  lemma {:induction false} RunKeepsInv(s: Shell, schedule: seq<nat>, end: Shell)
    requires Inv(s) && Runs(s, schedule, end)
    ensures Inv(end) && |end.threads| == |s.threads| && |schedule| + Measure(end) <= Measure(s)
    decreases |schedule|
  {
    hide Inv, Measure, Act;
    if schedule == [] {
    } else {
      StepKeepsInv(s, schedule[0]);
      StepLowersMeasure(s, schedule[0]);
      RunKeepsInv(Step(s, schedule[0]), schedule[1..], end);
    }
  }

  ghost predicate AllFinished(s: Shell) {
    forall t :: 0 <= t < |s.threads| ==> s.threads[t] == Finished
  }

  /** Safety in every interleaving: never two owners, and the in-flight flag tells whether there is one. */
  lemma NeverTwoOwners(s: Shell, schedule: seq<nat>, end: Shell, i: nat, j: nat)
    requires Initial(s) && Runs(s, schedule, end)
    requires i < |end.threads| && j < |end.threads| && Owns(end.threads[i]) && Owns(end.threads[j])
    ensures i == j && end.flags.inFlight
  {
    hide Measure, Runs, NoneStranded, TargetTracked, AbortTracked;
    InitialInv(s);
    RunKeepsInv(s, schedule, end);
  }

  /** When all threads have finished nobody owns the shell, no request is stranded, every abort asked for has been
      committed, and the last pause value committed is the last one requested unless an abort has since dropped it. */
  lemma FinishedMeansServed(s: Shell, schedule: seq<nat>, end: Shell)
    requires Initial(s) && Runs(s, schedule, end) && AllFinished(end)
    ensures var f := end.flags;
      && !f.inFlight && !f.abortRequested && !f.pauseRequested && !f.abortOwed
      && (f.pauseAsked && !f.pauseDropped ==> f.lastPaused == Some(f.pauseTarget))
  {
    hide Measure, Runs;
    InitialInv(s);
    RunKeepsInv(s, schedule, end);
  }

  /** Without abort threads no pause is ever dropped. */
  lemma {:induction false} NoAbortNoDrop(s: Shell, schedule: seq<nat>, end: Shell)
    requires Runs(s, schedule, end) && !s.flags.pauseDropped && !s.flags.abortRequested
    requires forall t :: 0 <= t < |s.threads| ==> !AbortPath(s.threads[t])
    ensures !end.flags.pauseDropped
    decreases |schedule|
  {
    if schedule == [] {
    } else {
      NoAbortNoDrop(Step(s, schedule[0]), schedule[1..], end);
    }
  }

  predicate AbortPath(pc: Pc) {
    pc.AbortStart? || pc.AbortClaim? || pc.DropPause? || pc.CommitAbort?
  }

  /** If no abort occurs, the last pause value committed is the last one requested. */
  lemma LastPauseWins(s: Shell, schedule: seq<nat>, end: Shell)
    requires Initial(s) && Runs(s, schedule, end) && AllFinished(end)
    requires forall t :: 0 <= t < |s.threads| ==> s.threads[t] != AbortStart
    ensures end.flags.pauseAsked ==> end.flags.lastPaused == Some(end.flags.pauseTarget)
  {
    hide Runs, Inv;
    FinishedMeansServed(s, schedule, end);
    NoAbortNoDrop(s, schedule, end);
  }

  /** A schedule that cannot be continued has finished every thread, and `RunKeepsInv` bounds every schedule: so each
      request that is raised is served, whatever the interleaving. */
  lemma StuckMeansFinished(s: Shell)
    requires forall t: nat :: !CanStep(s, t)
    ensures AllFinished(s)
  {
    forall t | 0 <= t < |s.threads| ensures s.threads[t] == Finished {
      assert !CanStep(s, t);
    }
  }

  /** From every state some schedule finishes all threads. */
  lemma {:induction false} CanFinish(s: Shell) returns (schedule: seq<nat>, end: Shell)
    ensures Runs(s, schedule, end) && AllFinished(end)
    decreases Measure(s)
  {
    hide Measure, Act;
    if t: nat :| CanStep(s, t) {
      StepLowersMeasure(s, t);
      var rest;
      rest, end := CanFinish(Step(s, t));
      schedule := [t] + rest;
      assert schedule[1..] == rest;
    } else {
      schedule, end := [], s;
      StuckMeansFinished(s);
    }
  }
}
