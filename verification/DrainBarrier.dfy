/**
 Shutdown of the authorization/cloud worker
 (product/src/cyrene_exchange_product/integrations/authorization_cloud.py,
 `begin_drain` and the claim gate; product/src/cyrene_exchange_product/server.py,
 `stop_runner`). Two threads share a lock, the draining flag and the stop event;
 every read, write and lock operation is a step, and all interleavings are runs.
 */
module DrainBarrier {

  datatype Holder = Free | ByHost | ByWorker

  /** Why the worker entered the gate: to take a claim, or to admit one provider call. */
  datatype Purpose = Claiming | AdmittingCall

  datatype WorkerPc =
    | Roaming
    | InGate(purpose: Purpose)
    | SawNoDrain(purpose: Purpose)
    | Decided(purpose: Purpose, allowed: bool)
    | Acted(purpose: Purpose, allowed: bool)
    | Admitted
    | Calling
    | Exited

  datatype HostPc =
    | Serving
    | FlagSet
    | GateHeld
    | DrainReturned(ok: bool)
    | StopSignalled(ok: bool)
    | Joined(ok: bool)
    | StoppedNormally(ok: bool)
    | ShutdownTimeout(ok: bool)

  datatype System = System(
    draining: bool, stop: bool, gate: Holder, host: HostPc, worker: WorkerPc,
    claims: nat, admissions: nat, callsStarted: nat, callsEnded: nat)

  const START := System(false, false, Free, Serving, Roaming, 0, 0, 0, 0)

  datatype Step =
    | HostSetsDraining
    | HostTakesGate
    | HostTimesOutOnGate
    | HostReleasesGate
    | HostSetsStop
    | HostJoinReturns
    | HostChecksAlive
    | WorkerEntersGate(purpose: Purpose)
    | WorkerReadsDraining
    | WorkerReadsStop
    | WorkerActs(found: bool)
    | WorkerLeavesGate
    | WorkerStartsCall
    | WorkerEndsCall
    | WorkerExits

  /** One step; a step that is not enabled changes nothing. */
  function Apply(s: System, st: Step): System {
    match st
    // begin_drain: set the flag, wait a bounded time for the gate, release it.
    case HostSetsDraining => if s.host == Serving then s.(draining := true, host := FlagSet) else s
    case HostTakesGate => if s.host == FlagSet && s.gate == Free then s.(gate := ByHost, host := GateHeld) else s
    case HostTimesOutOnGate => if s.host == FlagSet then s.(host := DrainReturned(false)) else s
    case HostReleasesGate => if s.host == GateHeld then s.(gate := Free, host := DrainReturned(true)) else s
    // stop_runner: the stop event is set whatever begin_drain returned, then the worker is joined.
    case HostSetsStop => if s.host.DrainReturned? then s.(stop := true, host := StopSignalled(s.host.ok)) else s
    case HostJoinReturns => if s.host.StopSignalled? then s.(host := Joined(s.host.ok)) else s
    case HostChecksAlive =>
      if s.host.Joined?
      then s.(host := if s.worker == Exited then StoppedNormally(s.host.ok) else ShutdownTimeout(s.host.ok)) else s
    // The worker's gate sections: take the lock, read one flag and then the other, act on what was read, release.
    case WorkerEntersGate(purpose) =>
      if s.worker == Roaming && s.gate == Free then s.(gate := ByWorker, worker := InGate(purpose)) else s
    case WorkerReadsDraining =>
      if s.worker.InGate?
      then s.(worker := if s.draining then Decided(s.worker.purpose, false) else SawNoDrain(s.worker.purpose)) else s
    case WorkerReadsStop =>
      if s.worker.SawNoDrain? then s.(worker := Decided(s.worker.purpose, !s.stop)) else s
    case WorkerActs(found) =>
      if !s.worker.Decided? then s
      else
        var w := Acted(s.worker.purpose, s.worker.allowed);
        if !s.worker.allowed then s.(worker := w)
        else if s.worker.purpose == AdmittingCall then s.(worker := w, admissions := s.admissions + 1)
        else if found then s.(worker := w, claims := s.claims + 1)
        else s.(worker := w)
    case WorkerLeavesGate =>
      if s.worker.Acted?
      then s.(gate := Free, worker := if s.worker.purpose == AdmittingCall && s.worker.allowed then Admitted else Roaming) else s
    case WorkerStartsCall => if s.worker == Admitted then s.(worker := Calling, callsStarted := s.callsStarted + 1) else s
    case WorkerEndsCall => if s.worker == Calling then s.(worker := Roaming, callsEnded := s.callsEnded + 1) else s
    case WorkerExits => if s.worker == Roaming then s.(worker := Exited) else s
  }

  function Run(s: System, steps: seq<Step>): System
    decreases |steps|
  {
    if steps == [] then s else Run(Apply(s, steps[0]), steps[1..])
  }

  predicate WorkerInGate(w: WorkerPc) {
    w.InGate? || w.SawNoDrain? || w.Decided? || w.Acted?
  }

  /** The host holds, or has held, the gate after setting the flag. */
  predicate PassedGate(h: HostPc) {
    match h
    case Serving => false
    case FlagSet => false
    case GateHeld => true
    case _ => h.ok
  }

  /** begin_drain has returned true. */
  predicate DrainedTrue(h: HostPc) {
    PassedGate(h) && h != GateHeld
  }

  predicate Inv(s: System) {
    && (s.gate == ByWorker <==> WorkerInGate(s.worker))
    && (s.gate == ByHost <==> s.host == GateHeld)
    && (s.host != Serving ==> s.draining)
    && (PassedGate(s.host) ==>
         && !s.worker.SawNoDrain?
         && !(s.worker.Decided? && s.worker.allowed)
         && !(s.worker.Acted? && s.worker.allowed))
    && s.callsStarted == s.callsEnded + (if s.worker == Calling then 1 else 0)
    && s.admissions == s.callsStarted
         + (if s.worker == Admitted || (s.worker.Acted? && s.worker.purpose == AdmittingCall && s.worker.allowed) then 1 else 0)
    && (s.host.StoppedNormally? ==> s.worker == Exited)
  }

  lemma {:induction false} StepKeepsInv(s: System, st: Step)
    requires Inv(s)
    ensures Inv(Apply(s, st))
  {
  }

  lemma {:induction false} RunKeepsInv(s: System, steps: seq<Step>)
    requires Inv(s)
    ensures Inv(Run(s, steps))
    decreases |steps|
  {
    if steps != [] {
      StepKeepsInv(s, steps[0]);
      RunKeepsInv(Apply(s, steps[0]), steps[1..]);
    }
  }

  /** How many calls were admitted but have not started. */
  function Owed(s: System): nat {
    if s.worker == Admitted then 1 else 0
  }

  /**
   Drain is a real barrier. From any reachable system in which begin_drain has
   returned true, no later step of any interleaving takes a claim or admits a
   provider call, and the only call that may still start is the one admitted
   before, so at most one is ever in flight.
   */
  lemma {:induction false} DrainIsABarrier(before: seq<Step>, after: seq<Step>)
    requires DrainedTrue(Run(START, before).host)
    ensures var s, later := Run(START, before), Run(Run(START, before), after);
      && later.claims == s.claims && later.admissions == s.admissions
      && later.callsStarted + Owed(later) == s.callsStarted + Owed(s)
      && later.callsStarted <= later.callsEnded + 1
  {
    RunKeepsInv(START, before);
    BarrierHolds(Run(START, before), after);
    RunKeepsInv(Run(START, before), after);
  }

  lemma {:induction false} BarrierHolds(s: System, after: seq<Step>)
    requires Inv(s) && PassedGate(s.host)
    ensures var later := Run(s, after);
      && later.claims == s.claims && later.admissions == s.admissions
      && later.callsStarted + Owed(later) == s.callsStarted + Owed(s)
    decreases |after|
  {
    if after != [] {
      StepKeepsInv(s, after[0]);
      BarrierStep(s, after[0]);
      BarrierHolds(Apply(s, after[0]), after[1..]);
    }
  }

  lemma {:induction false} BarrierStep(s: System, st: Step)
    requires Inv(s) && PassedGate(s.host)
    ensures var later := Apply(s, st);
      && PassedGate(later.host) && later.claims == s.claims && later.admissions == s.admissions
      && later.callsStarted + Owed(later) == s.callsStarted + Owed(s)
  {
  }

  /** A gate section that read the flags before they were set may still act once. */
  function Pending(s: System): nat {
    if (s.worker.Decided? && s.worker.allowed) || (s.worker.SawNoDrain? && !s.stop) then 1 else 0
  }

  function Actions(s: System): nat {
    s.claims + s.admissions
  }

  /**
   Even when begin_drain times out: once the flag is set, at most one further
   claim or admission happens in total, and one can happen exactly when a gate
   section had already found the flags clear.
   */
  lemma {:induction false} FlagAloneAllowsOne(before: seq<Step>)
    requires Run(START, before).host != Serving
    ensures var s := Run(START, before);
      && (forall after :: Actions(Run(s, after)) <= Actions(s) + Pending(s))
      && (Pending(s) == 1 <==> exists after :: Actions(Run(s, after)) > Actions(s))
  {
    RunKeepsInv(START, before);
    var s := Run(START, before);
    forall after ensures Actions(Run(s, after)) <= Actions(s) + Pending(s) {
      FlagBounds(s, after);
    }
    if Pending(s) == 1 {
      PendingCanAct(s);
    }
  }

  lemma {:induction false} PendingCanAct(s: System)
    requires Pending(s) == 1
    ensures exists after :: Actions(Run(s, after)) > Actions(s)
  {
    if s.worker.Decided? {
      Unroll(s, [WorkerActs(true)]);
      assert Actions(Run(s, [WorkerActs(true)])) > Actions(s);
    } else {
      var t := Apply(s, WorkerReadsStop);
      Unroll(s, [WorkerReadsStop, WorkerActs(true)]);
      Unroll(t, [WorkerActs(true)]);
      assert [WorkerReadsStop, WorkerActs(true)][1..] == [WorkerActs(true)];
      assert Actions(Run(s, [WorkerReadsStop, WorkerActs(true)])) > Actions(s);
    }
  }

  lemma {:induction false} FlagBounds(s: System, after: seq<Step>)
    requires Inv(s) && s.host != Serving
    ensures var later := Run(s, after);
      Actions(later) + Pending(later) <= Actions(s) + Pending(s)
    decreases |after|
  {
    if after != [] {
      StepKeepsInv(s, after[0]);
      FlagStep(s, after[0]);
      FlagBounds(Apply(s, after[0]), after[1..]);
    }
  }

  lemma {:induction false} FlagStep(s: System, st: Step)
    requires Inv(s) && s.host != Serving
    ensures Apply(s, st).host != Serving
    ensures Actions(Apply(s, st)) + Pending(Apply(s, st)) <= Actions(s) + Pending(s)
  {
  }

  /** A gate section that has found the draining flag clear when the drain times out. */
  const LATE := [WorkerEntersGate(Claiming), WorkerReadsDraining, HostSetsDraining, HostTimesOutOnGate]

  /** So a claim after a drain that returned false is possible, which is why that result keeps the services open. */
  lemma {:induction false} TimedOutDrainIsNoBarrier()
    ensures var s := Run(START, LATE);
      && s.host == DrainReturned(false) && Pending(s) == 1
      && exists after :: Actions(Run(s, after)) > Actions(s)
  {
    var a := Apply(START, WorkerEntersGate(Claiming));
    var b := Apply(a, WorkerReadsDraining);
    var c := Apply(b, HostSetsDraining);
    Unroll(START, LATE);
    Unroll(a, [WorkerReadsDraining, HostSetsDraining, HostTimesOutOnGate]);
    Unroll(b, [HostSetsDraining, HostTimesOutOnGate]);
    Unroll(c, [HostTimesOutOnGate]);
    FlagAloneAllowsOne(LATE);
  }

  lemma {:induction false} Unroll(s: System, steps: seq<Step>)
    requires steps != []
    ensures Run(s, steps) == Run(Apply(s, steps[0]), steps[1..])
  {
  }

  /** stop_runner returns normally only after the worker thread has exited, and it never runs again. */
  lemma {:induction false} NormalStopMeansExited(before: seq<Step>, after: seq<Step>)
    requires Run(START, before).host.StoppedNormally?
    ensures var s, later := Run(START, before), Run(Run(START, before), after);
      && s.worker == Exited && later.worker == Exited && s.stop
      && later.claims == s.claims && later.callsStarted == s.callsStarted == s.callsEnded
  {
    RunKeepsInv(START, before);
    StopIsSet(START, before);
    ExitedStays(Run(START, before), after);
  }

  lemma {:induction false} StopIsSet(s: System, steps: seq<Step>)
    requires s.host.StopSignalled? || s.host.Joined? || s.host.StoppedNormally? || s.host.ShutdownTimeout? ==> s.stop
    ensures var later := Run(s, steps);
      later.host.StopSignalled? || later.host.Joined? || later.host.StoppedNormally? || later.host.ShutdownTimeout? ==> later.stop
    decreases |steps|
  {
    if steps != [] {
      StopIsSet(Apply(s, steps[0]), steps[1..]);
    }
  }

  lemma {:induction false} ExitedStays(s: System, after: seq<Step>)
    requires s.worker == Exited
    ensures var later := Run(s, after);
      later.worker == Exited && later.claims == s.claims && later.callsStarted == s.callsStarted
    decreases |after|
  {
    if after != [] {
      ExitedStays(Apply(s, after[0]), after[1..]);
    }
  }
}
