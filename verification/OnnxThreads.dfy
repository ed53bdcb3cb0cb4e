/** Inferences running in several threads on one loaded model, each step one read or write of the
    fields they share. Nothing locks the model, so the switch to CPU is seen half done. */
module OnnxThreads {
  import opened Basics
  import opened Onnx

  datatype Attempt = First | Retry | Fallback

  /** Where an inference stands: a session run under way, the first one just failed, about to repeat
      it, `done` of the four fields of the switch assigned, or finished. */
  datatype Phase = Ready | Running(attempt: Attempt, session: Session) | Failed(message: string) | Retrying
                 | Switching(done: nat) | Done(result: Result<seq<real>, string>)

  datatype Call = Call(session: Session, result: RunResult)

  /** An inference of `pairs` pairs; `calls` are the session runs that have come back. */
  datatype Thread = Thread(pairs: nat, inputsOk: bool, phase: Phase, calls: seq<Call>)

  predicate Regular(run: RunResult) {
    run.Outputs? ==> forall i :: 0 <= i < |run.outputs| ==> run.outputs[i].Regular()
  }

  /** One step of one inference; `run` is what a session run under way returns. */
  function Advance(m: Model, t: Thread, policy: Policy, index: Option<nat>, run: RunResult): (Model, Thread)
    requires Regular(run)
  {
    match t.phase
    case Ready =>
      if t.pairs == 0 then (m, t.(phase := Done(Ok([]))))
      else if m.session.None? then (m, t.(phase := Done(Error("no session"))))
      else if !t.inputsOk then (m, t.(phase := Done(Error("unsupported inputs"))))
      else (m, t.(phase := Running(First, m.session.value)))
    case Running(attempt, session) =>
      var back := t.(calls := t.calls + [Call(session, run)]);
      (match run
       case Outputs(outputs) => (m, back.(phase := Done(ScoresFromOutputs(outputs, t.pairs, index))))
       case Raised(message) =>
         if attempt.First? then (m, back.(phase := Failed(message)))
         else if attempt.Retry? && IsCudaProviderError(message) then (m, back.(phase := Switching(0)))
         else (m, back.(phase := Done(Error(message)))))
    case Failed(message) =>
      if m.active != CudaProvider || !IsCudaProviderError(message) || !policy.MayFallBack()
      then (m, t.(phase := Done(Error(message))))
      else if IsOutOfMemory(message) then (m, t.(phase := Switching(0)))
      else (m, t.(phase := Retrying))
    case Retrying =>
      if m.session.None? then (m, t.(phase := Done(Error("no session"))))
      else (m, t.(phase := Running(Retry, m.session.value)))
    case Switching(done) =>
      if done == 0 then (m.(session := Some(CpuSession)), t.(phase := Switching(1)))
      else if done == 1 then (m.(active := CpuProvider), t.(phase := Switching(2)))
      else if done == 2 then (m.(fallbackProvider := Some(CpuProvider)), t.(phase := Switching(3)))
      else if done == 3 then (m.(fallbackReason := Some(INFERENCE_FAILED)), t.(phase := Switching(4)))
      else if m.session.None? then (m, t.(phase := Done(Error("no session"))))
      else (m, t.(phase := Running(Fallback, m.session.value)))
    case Done(_) => (m, t)
  }

  /* ---------- an inference on its own ---------- */

  /** The steps an inference still has to take, at most. */
  function StepsLeft(p: Phase): nat {
    match p
    case Ready => 11
    case Running(First, _) => 10
    case Failed(_) => 9
    case Retrying => 8
    case Running(Retry, _) => 7
    case Switching(done) => if done < 4 then 6 - done else 2
    case Running(Fallback, _) => 1
    case Done(_) => 0
  }

  /** An inference whose steps nothing comes between. */
  function RunAlone(m: Model, t: Thread, policy: Policy, index: Option<nat>, attempts: Attempts): (Model, Thread)
    requires AllRegular(attempts)
    decreases StepsLeft(t.phase)
  {
    if t.phase.Done? then (m, t)
    else
      var run := if t.phase.Running? then attempts(|t.calls|, t.phase.session) else Raised("");
      var next := Advance(m, t, policy, index, run);
      RunAlone(next.0, next.1, policy, index, attempts)
  }

  function Sessions(calls: seq<Call>): seq<Session> {
    seq(|calls|, i requires 0 <= i < |calls| => calls[i].session)
  }

  predicate EndsAs(after: (Model, Thread), r: Inference) {
    after.1.phase == Done(r.result) && after.0 == r.model && Sessions(after.1.calls) == r.runs
  }

  lemma SwitchAlone(m: Model, t: Thread, policy: Policy, index: Option<nat>, attempts: Attempts)
    requires AllRegular(attempts)
    requires t.phase == Switching(0)
    ensures EndsAs(RunAlone(m, t, policy, index, attempts),
                   FinishRun(SwitchedToCpu(m), attempts(|t.calls|, CpuSession), Sessions(t.calls) + [CpuSession], t.pairs, index))
  {
    hide ScoresFromOutputs, IsCudaProviderError, IsOutOfMemory;
    var m1, t1 := m.(session := Some(CpuSession)), t.(phase := Switching(1));
    var m2, t2 := m1.(active := CpuProvider), t.(phase := Switching(2));
    var m3, t3 := m2.(fallbackProvider := Some(CpuProvider)), t.(phase := Switching(3));
    var m4, t4 := SwitchedToCpu(m), t.(phase := Switching(4));
    assert RunAlone(m, t, policy, index, attempts) == RunAlone(m1, t1, policy, index, attempts);
    assert RunAlone(m1, t1, policy, index, attempts) == RunAlone(m2, t2, policy, index, attempts);
    assert RunAlone(m2, t2, policy, index, attempts) == RunAlone(m3, t3, policy, index, attempts);
    assert RunAlone(m3, t3, policy, index, attempts) == RunAlone(m4, t4, policy, index, attempts);
    LastRunAlone(m4, t4.(phase := Running(Fallback, CpuSession)), policy, index, attempts);
  }

  /** A run that ends the inference whatever it returns. */
  lemma LastRunAlone(m: Model, t: Thread, policy: Policy, index: Option<nat>, attempts: Attempts)
    requires AllRegular(attempts)
    requires t.phase.Running?
    requires var run := attempts(|t.calls|, t.phase.session);
      t.phase.attempt.Fallback? || run.Outputs? || (t.phase.attempt.Retry? && !IsCudaProviderError(run.message))
    ensures EndsAs(RunAlone(m, t, policy, index, attempts),
                   FinishRun(m, attempts(|t.calls|, t.phase.session), Sessions(t.calls) + [t.phase.session], t.pairs, index))
  {
    hide ScoresFromOutputs, IsCudaProviderError, IsOutOfMemory;
    var run := attempts(|t.calls|, t.phase.session);
    assert Sessions(t.calls + [Call(t.phase.session, run)]) == Sessions(t.calls) + [t.phase.session];
  }

  /** Taken alone, the steps of an inference are the inference of module `Onnx`. */
  lemma AloneIsInfer(m: Model, n: nat, policy: Policy, index: Option<nat>, attempts: Attempts, inputsOk: bool)
    requires AllRegular(attempts)
    ensures EndsAs(RunAlone(m, Thread(n, inputsOk, Ready, []), policy, index, attempts),
                   Infer(m, policy, attempts, n, inputsOk, index))
  {
    hide ScoresFromOutputs, IsCudaProviderError, IsOutOfMemory;
    var t := Thread(n, inputsOk, Ready, []);
    if n > 0 && m.session.Some? && inputsOk {
      var s := m.session.value;
      var first := attempts(0, s);
      var running := t.(phase := Running(First, s));
      assert RunAlone(m, t, policy, index, attempts) == RunAlone(m, running, policy, index, attempts);
      assert Sessions([]) + [s] == [s];
      if first.Outputs? {
        LastRunAlone(m, running, policy, index, attempts);
      } else {
        var failed := t.(phase := Failed(first.message), calls := [Call(s, first)]);
        assert running.calls + [Call(s, first)] == failed.calls;
        assert RunAlone(m, running, policy, index, attempts) == RunAlone(m, failed, policy, index, attempts);
        assert Sessions(failed.calls) == [s];
        FailedAlone(m, failed, s, policy, index, attempts);
      }
    }
  }

  lemma FailedAlone(m: Model, t: Thread, s: Session, policy: Policy, index: Option<nat>, attempts: Attempts)
    requires AllRegular(attempts)
    requires t.pairs > 0 && t.inputsOk && m.session == Some(s)
    requires attempts(0, s).Raised? && t.phase == Failed(attempts(0, s).message) && t.calls == [Call(s, attempts(0, s))]
    ensures EndsAs(RunAlone(m, t, policy, index, attempts), Infer(m, policy, attempts, t.pairs, t.inputsOk, index))
  {
    hide ScoresFromOutputs, IsCudaProviderError, IsOutOfMemory;
    var first, second := attempts(0, s), attempts(1, s);
    assert Sessions(t.calls) == [s] && [s] + [s] == [s, s] && [s] + [CpuSession] == [s, CpuSession];
    if m.active == CudaProvider && IsCudaProviderError(first.message) && policy.MayFallBack() {
      if IsOutOfMemory(first.message) {
        var switching := t.(phase := Switching(0));
        assert RunAlone(m, t, policy, index, attempts) == RunAlone(m, switching, policy, index, attempts);
        SwitchAlone(m, switching, policy, index, attempts);
      } else {
        var retrying, running := t.(phase := Retrying), t.(phase := Running(Retry, s));
        assert RunAlone(m, t, policy, index, attempts) == RunAlone(m, retrying, policy, index, attempts);
        assert RunAlone(m, retrying, policy, index, attempts) == RunAlone(m, running, policy, index, attempts);
        if second.Outputs? || !IsCudaProviderError(second.message) {
          LastRunAlone(m, running, policy, index, attempts);
        } else {
          var switching := t.(phase := Switching(0), calls := t.calls + [Call(s, second)]);
          assert RunAlone(m, running, policy, index, attempts) == RunAlone(m, switching, policy, index, attempts);
          assert Sessions(switching.calls) == [s, s] && [s, s] + [CpuSession] == [s, s, CpuSession];
          SwitchAlone(m, switching, policy, index, attempts);
        }
      }
    }
  }

  /* ---------- all of them, interleaved ---------- */

  datatype State = State(model: Model, threads: seq<Thread>)

  datatype Event = Event(thread: nat, run: RunResult)

  predicate Possible(s: State, e: Event) {
    e.thread < |s.threads| && Regular(e.run)
  }

  function Step(s: State, e: Event, policy: Policy, index: Option<nat>): State
    requires Possible(s, e)
  {
    var next := Advance(s.model, s.threads[e.thread], policy, index, e.run);
    State(next.0, s.threads[e.thread := next.1])
  }

  predicate AllPossible(count: nat, events: seq<Event>) {
    forall i :: 0 <= i < |events| ==> events[i].thread < count && Regular(events[i].run)
  }

  function Run(s: State, events: seq<Event>, policy: Policy, index: Option<nat>): (r: State)
    requires AllPossible(|s.threads|, events)
    ensures |r.threads| == |s.threads|
    decreases |events|
  {
    if events == [] then s else Run(Step(s, events[0], policy, index), events[1..], policy, index)
  }

  /* ---------- what every interleaving keeps ---------- */

  predicate Exhausted(run: RunResult) {
    run.Raised? && IsOutOfMemory(run.message)
  }

  /** The session runs an inference has made, with the one under way. */
  function Attempted(t: Thread): seq<Session> {
    Sessions(t.calls) + (if t.phase.Running? then [t.phase.session] else [])
  }

  /** The calls that lead to a switch: one that ran out of memory, or two CUDA errors. */
  predicate Exhausting(calls: seq<Call>) {
    || (|calls| == 1 && CudaError(calls[0].result) && Exhausted(calls[0].result))
    || (|calls| == 2 && CudaError(calls[0].result) && !Exhausted(calls[0].result) && CudaError(calls[1].result))
  }

  predicate OneRetryable(calls: seq<Call>) {
    |calls| == 1 && CudaError(calls[0].result) && !Exhausted(calls[0].result)
  }

  predicate MaySwitch(policy: Policy) {
    policy.MayFallBack() && policy.device == AutoDevice
  }

  /** What the phase of an inference says about it and the model. */
  predicate PhaseInv(m: Model, t: Thread, policy: Policy) {
    (t.phase.Ready? || t.phase.Done? || t.pairs > 0) &&
    match t.phase
    case Ready => t.calls == []
    case Running(First, _) => t.calls == []
    case Failed(message) => |t.calls| == 1 && t.calls[0].result == Raised(message)
    case Retrying => OneRetryable(t.calls) && MaySwitch(policy)
    case Running(Retry, _) => OneRetryable(t.calls) && MaySwitch(policy)
    case Switching(done) =>
      && done <= 4 && Exhausting(t.calls) && MaySwitch(policy)
      && (done >= 1 ==> m.session == Some(CpuSession))
      && (done >= 2 ==> m.active == CpuProvider)
      && (done >= 3 ==> m.fallbackProvider == Some(CpuProvider))
      && (done >= 4 ==> m.fallbackReason.Some?)
    case Running(Fallback, session) =>
      Exhausting(t.calls) && MaySwitch(policy) && session == CpuSession && m.fallbackReason.Some?
    case Done(result) =>
      && (result.Ok? ==> |result.value| == t.pairs)
      && EndInv(m, t.calls, policy)
  }

  /** How an inference can have ended: after its first run (if that was a CUDA error which may be
      answered, only because another inference had made the switch), after a repeated run, or after
      a run on CPU. */
  predicate EndInv(m: Model, calls: seq<Call>, policy: Policy) {
    || calls == []
    || (|calls| == 1 && (CudaError(calls[0].result) && policy.MayFallBack() ==> m.active == CpuProvider))
    || (|calls| == 2 && OneRetryable(calls[..1]) && !CudaError(calls[1].result))
    || (|calls| > 1 && Exhausting(calls[..|calls| - 1]) && calls[|calls| - 1].session == CpuSession
        && m.active == CpuProvider && m.fallbackReason.Some?)
  }

  predicate ModelInv(m: Model, policy: Policy) {
    && m.session.Some?
    && (m.active == CpuProvider ==> m.session == Some(CpuSession))
    && (m.fallbackReason.Some? ==> m.active == CpuProvider && m.fallbackProvider == Some(CpuProvider))
    && (policy.device == CudaDevice ==> m.active == CudaProvider)
    && (policy.device == CpuDevice ==> m.active == CpuProvider)
    && (!policy.cpuFallback ==> m.fallbackReason.None?)
  }

  /** Some inference has put the CPU session in place and not yet said so. */
  predicate MidSwitch(threads: seq<Thread>) {
    exists i :: 0 <= i < |threads| && threads[i].phase == Switching(1)
  }

  predicate AllPhases(s: State, policy: Policy) {
    forall i :: 0 <= i < |s.threads| ==> PhaseInv(s.model, s.threads[i], policy)
  }

  predicate Inv(s: State, policy: Policy) {
    && ModelInv(s.model, policy)
    && AllPhases(s, policy)
    && (s.model.session == Some(CpuSession) && s.model.active == CudaProvider ==> MidSwitch(s.threads))
  }

  /** From one model to a later one: sessions and the active provider only move to CPU, a reason
      stays once there is one, and nothing moves where the device is not automatic or the fallback is off. */
  predicate OneWay(m: Model, later: Model, policy: Policy) {
    && (m.session == Some(CpuSession) ==> later.session == m.session)
    && (m.active == CpuProvider ==> later.active == CpuProvider)
    && (m.fallbackProvider == Some(CpuProvider) ==> later.fallbackProvider == m.fallbackProvider)
    && (m.fallbackReason.Some? ==> later.fallbackReason.Some?)
    && (!MaySwitch(policy) ==> later == m)
  }

  lemma PhaseStays(m: Model, later: Model, t: Thread, policy: Policy)
    requires PhaseInv(m, t, policy) && OneWay(m, later, policy)
    ensures PhaseInv(later, t, policy)
  {
    hide IsCudaProviderError, IsOutOfMemory;
  }

  /** A step of an inference keeps the model's invariant and moves it one way; only the four
      assignments of the switch move it at all. */
  lemma AdvanceKeepsModel(m: Model, t: Thread, policy: Policy, index: Option<nat>, run: RunResult)
    requires Regular(run)
    requires ModelInv(m, policy) && PhaseInv(m, t, policy)
    ensures var later := Advance(m, t, policy, index, run).0;
      && ModelInv(later, policy) && OneWay(m, later, policy)
      && (later != m ==> t.phase.Switching?)
  {
    hide IsCudaProviderError, IsOutOfMemory, ScoresFromOutputs, Exhausting, OneRetryable, EndInv;
  }

  lemma ScoresCount(outputs: seq<Tensor>, n: nat, index: Option<nat>)
    requires Regular(Outputs(outputs)) && n > 0
    ensures var r := ScoresFromOutputs(outputs, n, index); r.Ok? ==> |r.value| == n
  {
    ScoresMatchPairs(outputs, n, index);
  }

  /** One more call ends an inference as `EndInv` allows, after each kind of run. */
  lemma EndOfRun(m: Model, t: Thread, policy: Policy, run: RunResult)
    requires ModelInv(m, policy) && PhaseInv(m, t, policy) && t.phase.Running?
    requires match t.phase.attempt
      case First => run.Outputs?
      case Retry => !CudaError(run)
      case Fallback => true
    ensures EndInv(m, t.calls + [Call(t.phase.session, run)], policy)
  {
    hide IsCudaProviderError, IsOutOfMemory;
    var calls := t.calls + [Call(t.phase.session, run)];
    assert calls[..|calls| - 1] == t.calls;
    match t.phase.attempt
    case First =>
    case Retry => assert calls[..1] == t.calls;
    case Fallback =>
  }

  /** A session run that comes back leaves its inference where the invariant says. */
  lemma ReturnKeepsPhase(m: Model, t: Thread, policy: Policy, index: Option<nat>, run: RunResult)
    requires Regular(run)
    requires ModelInv(m, policy) && PhaseInv(m, t, policy) && t.phase.Running?
    ensures PhaseInv(m, Advance(m, t, policy, index, run).1, policy)
  {
    hide IsCudaProviderError, IsOutOfMemory, ScoresFromOutputs, EndInv;
    var attempt := t.phase.attempt;
    if run.Outputs? {
      hide Exhausting, OneRetryable, Exhausted;
      ScoresCount(run.outputs, t.pairs, index);
      EndOfRun(m, t, policy, run);
    } else if attempt.Fallback? || (attempt.Retry? && !CudaError(run)) {
      hide Exhausting, OneRetryable, Exhausted;
      EndOfRun(m, t, policy, run);
    }
  }

  lemma AdvanceKeepsPhase(m: Model, t: Thread, policy: Policy, index: Option<nat>, run: RunResult)
    requires Regular(run)
    requires ModelInv(m, policy) && PhaseInv(m, t, policy)
    ensures var next := Advance(m, t, policy, index, run); PhaseInv(next.0, next.1, policy)
  {
    hide IsCudaProviderError, IsOutOfMemory, ScoresFromOutputs;
    if t.phase.Running? {
      ReturnKeepsPhase(m, t, policy, index, run);
    }
  }

  lemma OthersKeepPhase(s: State, next: State, moved: nat, policy: Policy)
    requires AllPhases(s, policy) && OneWay(s.model, next.model, policy)
    requires moved < |s.threads| == |next.threads|
    requires forall i :: 0 <= i < |s.threads| && i != moved ==> next.threads[i] == s.threads[i]
    requires PhaseInv(next.model, next.threads[moved], policy)
    ensures AllPhases(next, policy)
  {
    hide PhaseInv, OneWay;
    forall i | 0 <= i < |next.threads| ensures PhaseInv(next.model, next.threads[i], policy) {
      if i != moved {
        PhaseStays(s.model, next.model, s.threads[i], policy);
      }
    }
  }

  /** A session on CPU that is not yet declared is some inference in mid-switch, step after step. */
  lemma SwitchIsSomeones(s: State, e: Event, policy: Policy, index: Option<nat>)
    requires Inv(s, policy) && Possible(s, e)
    ensures var next := Step(s, e, policy, index);
      next.model.session == Some(CpuSession) && next.model.active == CudaProvider ==> MidSwitch(next.threads)
  {
    hide IsCudaProviderError, IsOutOfMemory, ScoresFromOutputs, PhaseInv;
    var t := s.threads[e.thread];
    var next := Step(s, e, policy, index);
    if next.model.session == Some(CpuSession) && next.model.active == CudaProvider {
      if s.model.session == Some(CpuSession) && s.model.active == CudaProvider {
        var i :| 0 <= i < |s.threads| && s.threads[i].phase == Switching(1);
        assert next.threads[i].phase == Switching(1);
      } else {
        assert next.threads[e.thread].phase == Switching(1);
      }
    }
  }

  lemma StepKeepsInv(s: State, e: Event, policy: Policy, index: Option<nat>)
    requires Inv(s, policy) && Possible(s, e)
    ensures Inv(Step(s, e, policy, index), policy)
    ensures OneWay(s.model, Step(s, e, policy, index).model, policy)
  {
    var t := s.threads[e.thread];
    assert PhaseInv(s.model, t, policy);
    SwitchIsSomeones(s, e, policy, index);
    AdvanceKeepsModel(s.model, t, policy, index, e.run);
    AdvanceKeepsPhase(s.model, t, policy, index, e.run);
    hide Advance, PhaseInv, ModelInv, OneWay, MidSwitch;
    OthersKeepPhase(s, Step(s, e, policy, index), e.thread, policy);
  }

  lemma OneWayComposes(a: Model, b: Model, c: Model, policy: Policy)
    requires OneWay(a, b, policy) && OneWay(b, c, policy)
    ensures OneWay(a, c, policy)
  {
  }

  /** Whatever the interleaving and whatever the session runs return, the invariant holds and the
      provider has only moved from CUDA to CPU. */
  lemma {:induction false} RunKeepsInv(s: State, events: seq<Event>, policy: Policy, index: Option<nat>)
    requires Inv(s, policy) && AllPossible(|s.threads|, events)
    ensures Inv(Run(s, events, policy, index), policy)
    ensures OneWay(s.model, Run(s, events, policy, index).model, policy)
    decreases |events|
  {
    hide Inv, OneWay, Advance;
    if events == [] {
      assert OneWay(s.model, s.model, policy) by { OneWayToItself(s.model, policy); }
    } else {
      assert Possible(s, events[0]);
      var next := Step(s, events[0], policy, index);
      StepKeepsInv(s, events[0], policy, index);
      RunKeepsInv(next, events[1..], policy, index);
      OneWayComposes(s.model, next.model, Run(s, events, policy, index).model, policy);
    }
  }

  lemma OneWayToItself(m: Model, policy: Policy)
    ensures OneWay(m, m, policy)
  {
  }

  /** At most three session runs; one on CUDA after the first only to repeat a CUDA error that was
      not for want of memory; and never a third one on CUDA. */
  predicate RunsBounded(t: Thread) {
    var runs := Attempted(t);
    && |t.calls| <= |runs| <= 3
    && (forall k :: 0 <= k < |t.calls| ==> t.calls[k].session == runs[k])
    && (|runs| > 1 && runs[1] == CudaSession ==> CudaError(t.calls[0].result) && !Exhausted(t.calls[0].result))
    && (|runs| > 2 ==> runs[2] == CpuSession && CudaError(t.calls[1].result))
  }

  lemma PhaseBoundsRuns(m: Model, t: Thread, policy: Policy)
    requires PhaseInv(m, t, policy)
    ensures RunsBounded(t)
  {
    hide IsCudaProviderError, IsOutOfMemory;
    if t.phase.Done? && |t.calls| > 1 {
      var last := |t.calls| - 1;
      assert forall k :: 0 <= k < last ==> t.calls[..last][k] == t.calls[k];
    }
  }

  /** The provider machine over every run of any number of inferences that share a loaded model:
      CPU is declared only with the CPU session in place, and the session is CPU exactly when CPU is
      declared except while some inference stands between those two assignments; CUDA to CPU is one
      way and happens only in automatic mode with the fallback on; a recorded reason implies CPU;
      every inference keeps to its session runs and returns one score per pair. */
  lemma ProviderSafety(s: State, events: seq<Event>, policy: Policy, index: Option<nat>)
    requires Consistent(s.model, policy) && AllPossible(|s.threads|, events)
    requires forall i :: 0 <= i < |s.threads| ==> s.threads[i].phase.Ready? && s.threads[i].calls == []
    ensures var after := Run(s, events, policy, index);
      && (after.model.active == CpuProvider ==> after.model.session == Some(CpuSession))
      && (!MidSwitch(after.threads) ==> Consistent(after.model, policy))
      && (after.model.fallbackReason.Some? ==>
            after.model.active == CpuProvider && after.model.fallbackProvider == Some(CpuProvider))
      && OneWay(s.model, after.model, policy)
      && (forall i :: 0 <= i < |after.threads| ==> RunsBounded(after.threads[i]))
      && (forall i :: 0 <= i < |after.threads| && after.threads[i].phase.Done? && after.threads[i].phase.result.Ok? ==>
            |after.threads[i].phase.result.value| == after.threads[i].pairs)
  {
    hide IsCudaProviderError, IsOutOfMemory, Advance;
    var after := Run(s, events, policy, index);
    assert Inv(s, policy);
    RunKeepsInv(s, events, policy, index);
    hide OneWay, Attempted, RunsBounded, EndInv, Exhausting, OneRetryable;
    forall i | 0 <= i < |after.threads| ensures RunsBounded(after.threads[i]) {
      PhaseBoundsRuns(after.model, after.threads[i], policy);
    }
  }

  /** An inference that ran out of memory makes the first two assignments of the switch while
      another is in its first run. */
  lemma SwitchBegins(m: Model, first: Thread, other: Thread, rest: seq<Event>, policy: Policy, index: Option<nat>)
    returns (events: seq<Event>)
    requires first.phase.Failed? && IsOutOfMemory(first.phase.message) && IsCudaProviderError(first.phase.message)
    requires m.active == CudaProvider && policy.MayFallBack() && AllPossible(2, rest)
    ensures AllPossible(2, events)
    ensures Run(State(m, [first, other]), events, policy, index)
         == Run(State(m.(session := Some(CpuSession), active := CpuProvider), [first.(phase := Switching(2)), other]),
                rest, policy, index)
  {
    hide IsCudaProviderError, IsOutOfMemory, ScoresFromOutputs, Run;
    var m1 := m.(session := Some(CpuSession));
    events := StepFirst(m1, first.(phase := Switching(1)), other, Raised(""), rest, policy, index);
    events := StepFirst(m, first.(phase := Switching(0)), other, Raised(""), events, policy, index);
    events := StepFirst(m, first, other, Raised(""), events, policy, index);
  }

  /** Two inferences start their first run and the first one's comes back with an error. */
  lemma BothStart(m: Model, t: Thread, run: RunResult, rest: seq<Event>, policy: Policy, index: Option<nat>)
    returns (events: seq<Event>)
    requires t.phase.Ready? && t.pairs > 0 && t.inputsOk && t.calls == [] && m.session == Some(CudaSession)
    requires run.Raised? && AllPossible(2, rest)
    ensures AllPossible(2, events)
    ensures Run(State(m, [t, t]), events, policy, index)
         == Run(State(m, [t.(phase := Failed(run.message), calls := [Call(CudaSession, run)]),
                          t.(phase := Running(First, CudaSession))]), rest, policy, index)
  {
    hide IsCudaProviderError, IsOutOfMemory, ScoresFromOutputs, Run;
    var running := t.(phase := Running(First, CudaSession));
    assert [] + [Call(CudaSession, run)] == [Call(CudaSession, run)];
    events := StepFirst(m, running, running, run, rest, policy, index);
    events := StepSecond(m, running, t, Raised(""), events, policy, index);
    events := StepFirst(m, t, t, Raised(""), events, policy, index);
  }

  /** The second inference has ended with an error after a single run, on CUDA. */
  predicate SecondRaises(s: State, message: string) {
    |s.threads| == 2 && s.threads[1].phase == Done(Error(message)) && Attempted(s.threads[1]) == [CudaSession]
  }

  /** A first run on CUDA fails after the switch: its inference ends with that error. */
  lemma LateErrorEnds(m: Model, there: Thread, late: Thread, message: string, policy: Policy, index: Option<nat>)
    returns (events: seq<Event>)
    requires late.phase == Running(First, CudaSession) && late.calls == [] && m.active == CpuProvider
    ensures AllPossible(2, events)
    ensures SecondRaises(Run(State(m, [there, late]), events, policy, index), message)
  {
    hide IsCudaProviderError, IsOutOfMemory, ScoresFromOutputs, Run;
    var failed := late.(phase := Failed(message), calls := [Call(CudaSession, Raised(message))]);
    assert [] + [Call(CudaSession, Raised(message))] == failed.calls;
    events := StepSecond(m, there, failed, Raised(""), [], policy, index);
    events := StepSecond(m, there, late, Raised(message), events, policy, index);
    RunNothing(State(m, [there, failed.(phase := Done(Error(message)))]), policy, index);
  }

  /* ---------- when a single CUDA error reaches the caller ---------- */

  /** An inference that has declared CPU, or had done so before its last run. */
  predicate Declared(t: Thread) {
    || (t.phase.Switching? && t.phase.done >= 2)
    || (t.phase.Running? && t.phase.attempt.Fallback?)
    || (t.phase.Done? && |t.calls| > 1 && Exhausting(t.calls[..|t.calls| - 1]))
  }

  predicate SomeDeclared(threads: seq<Thread>) {
    exists i :: 0 <= i < |threads| && Declared(threads[i])
  }

  /** An inference past its first error, on the way to a second run. */
  predicate Continuing(t: Thread) {
    match t.phase
    case Ready => false
    case Running(attempt, _) => |t.calls| >= 1 && !attempt.First?
    case Failed(_) => false
    case Retrying => |t.calls| >= 1
    case Switching(_) => |t.calls| >= 1
    case Done(_) => |t.calls| >= 2
  }

  lemma ContinuingStays(m: Model, t: Thread, policy: Policy, index: Option<nat>, run: RunResult)
    requires Regular(run) && m.session.Some? && Continuing(t)
    ensures Continuing(Advance(m, t, policy, index, run).1)
  {
    hide IsCudaProviderError, IsOutOfMemory, ScoresFromOutputs;
  }

  lemma DeclaredStays(m: Model, t: Thread, policy: Policy, index: Option<nat>, run: RunResult)
    requires Regular(run) && ModelInv(m, policy) && PhaseInv(m, t, policy) && Declared(t)
    ensures Declared(Advance(m, t, policy, index, run).1)
  {
    hide IsCudaProviderError, IsOutOfMemory, ScoresFromOutputs, EndInv;
    if t.phase.Running? {
      var calls := t.calls + [Call(t.phase.session, run)];
      assert calls[..|calls| - 1] == t.calls;
    }
  }

  /** CPU becomes the active provider only by an inference's second assignment. */
  lemma OnlyDeclaring(m: Model, t: Thread, policy: Policy, index: Option<nat>, run: RunResult)
    requires Regular(run) && m.active == CudaProvider
    ensures var next := Advance(m, t, policy, index, run);
      next.0.active == CpuProvider ==> Declared(next.1)
  {
    hide IsCudaProviderError, IsOutOfMemory, ScoresFromOutputs, Exhausting;
  }

  lemma StepDeclares(s: State, e: Event, policy: Policy, index: Option<nat>)
    requires Inv(s, policy) && Possible(s, e)
    requires s.model.active == CpuProvider ==> SomeDeclared(s.threads)
    ensures var next := Step(s, e, policy, index);
      next.model.active == CpuProvider ==> SomeDeclared(next.threads)
  {
    var t := s.threads[e.thread];
    var next := Step(s, e, policy, index);
    assert PhaseInv(s.model, t, policy);
    assert next.threads[e.thread] == Advance(s.model, t, policy, index, e.run).1;
    if s.model.active == CudaProvider {
      OnlyDeclaring(s.model, t, policy, index, e.run);
      hide Advance, Declared;
      if next.model.active == CpuProvider {
        assert Declared(next.threads[e.thread]);
      }
    } else {
      var i :| 0 <= i < |s.threads| && Declared(s.threads[i]);
      if i == e.thread {
        DeclaredStays(s.model, t, policy, index, e.run);
      }
      hide Advance, Declared;
      assert Declared(next.threads[i]);
    }
  }

  lemma {:induction false} RunDeclares(s: State, events: seq<Event>, policy: Policy, index: Option<nat>)
    requires Inv(s, policy) && AllPossible(|s.threads|, events)
    requires s.model.active == CpuProvider ==> SomeDeclared(s.threads)
    ensures var after := Run(s, events, policy, index);
      after.model.active == CpuProvider ==> SomeDeclared(after.threads)
    decreases |events|
  {
    hide Inv, SomeDeclared, Advance;
    if events != [] {
      assert Possible(s, events[0]);
      StepDeclares(s, events[0], policy, index);
      StepKeepsInv(s, events[0], policy, index);
      RunDeclares(Step(s, events[0], policy, index), events[1..], policy, index);
    }
  }

  lemma DeclaredIsActive(m: Model, t: Thread, policy: Policy)
    requires ModelInv(m, policy) && PhaseInv(m, t, policy) && Declared(t)
    ensures m.active == CpuProvider
  {
    hide IsCudaProviderError, IsOutOfMemory;
    if t.phase.Done? {
      assert |t.calls| == 2 ==> t.calls[..1][0] == t.calls[0];
    }
  }

  /** In any interleaving from a model on CUDA, CPU is active exactly when some inference has made its
      second assignment of the switch. */
  lemma ActiveIffDeclared(s: State, events: seq<Event>, policy: Policy, index: Option<nat>)
    requires Inv(s, policy) && AllPossible(|s.threads|, events) && s.model.active == CudaProvider
    ensures var after := Run(s, events, policy, index);
      after.model.active == CpuProvider <==> SomeDeclared(after.threads)
  {
    hide Advance, Run;
    RunDeclares(s, events, policy, index);
    RunKeepsInv(s, events, policy, index);
    var after := Run(s, events, policy, index);
    if SomeDeclared(after.threads) {
      var i :| 0 <= i < |after.threads| && Declared(after.threads[i]);
      DeclaredIsActive(after.model, after.threads[i], policy);
    }
  }

  lemma UnfoldRun(s: State, events: seq<Event>, policy: Policy, index: Option<nat>)
    requires AllPossible(|s.threads|, events) && events != []
    ensures Run(s, events, policy, index) == Run(Step(s, events[0], policy, index), events[1..], policy, index)
  {
  }

  lemma {:induction false} RunSplits(s: State, events: seq<Event>, k: nat, policy: Policy, index: Option<nat>)
    requires AllPossible(|s.threads|, events) && k <= |events|
    ensures Run(s, events, policy, index) == Run(Run(s, events[..k], policy, index), events[k..], policy, index)
    decreases k
  {
    if k == 0 {
      assert events[0..] == events;
    } else {
      var next := Step(s, events[0], policy, index);
      RunSplits(next, events[1..], k - 1, policy, index);
      assert events[1..][..k - 1] == events[..k][1..] && events[1..][k - 1..] == events[k..];
      assert events[..k][0] == events[0];
    }
  }

  /** Once an inference has ended, or gone on to another run, no interleaving changes that. */
  lemma {:induction false} EndStays(s: State, events: seq<Event>, i: nat, policy: Policy, index: Option<nat>)
    requires Inv(s, policy) && AllPossible(|s.threads|, events) && i < |s.threads|
    ensures s.threads[i].phase.Done? ==> Run(s, events, policy, index).threads[i] == s.threads[i]
    ensures Continuing(s.threads[i]) ==> Continuing(Run(s, events, policy, index).threads[i])
    decreases |events|
  {
    hide Inv;
    if events != [] {
      assert Possible(s, events[0]);
      var next := Step(s, events[0], policy, index);
      StepKeepsInv(s, events[0], policy, index);
      if events[0].thread == i && Continuing(s.threads[i]) {
        assert s.model.session.Some? by { SessionThere(s, policy); }
        ContinuingStays(s.model, s.threads[i], policy, index, events[0].run);
      }
      hide Continuing;
      EndStays(next, events[1..], i, policy, index);
    }
  }

  lemma SessionThere(s: State, policy: Policy)
    requires Inv(s, policy)
    ensures s.model.session.Some?
  {
  }

  /** The first run of inference `i` has failed with a CUDA error that may be answered, and event `k`
      of the run is its next step. In every interleaving of any number of inferences before and
      after, it ends with that error after a single session run if and only if CPU is the active
      provider when that step is taken; that is, if the model was on CUDA to begin with, if and only
      if some inference, which cannot be this one, has by then made its second assignment. */
  lemma RaisedIffOvertaken(s: State, events: seq<Event>, k: nat, i: nat, message: string, policy: Policy, index: Option<nat>)
    requires Inv(s, policy) && AllPossible(|s.threads|, events) && i < |s.threads|
    requires k < |events| && events[k].thread == i
    requires Run(s, events[..k], policy, index).threads[i].phase == Failed(message)
    requires IsCudaProviderError(message) && policy.MayFallBack()
    ensures var overtaken := Run(s, events[..k], policy, index).model.active == CpuProvider;
      var t := Run(s, events, policy, index).threads[i];
      && (overtaken ==> EndsWith(t, message))
      && (t.phase.Done? ==> (EndsWith(t, message) <==> overtaken))
    ensures s.model.active == CudaProvider ==>
      (Run(s, events[..k], policy, index).model.active == CpuProvider <==> SomeDeclared(Run(s, events[..k], policy, index).threads))
  {
    if s.model.active == CudaProvider {
      ActiveIffDeclared(s, events[..k], policy, index);
    }
    hide SomeDeclared;
    var before := Run(s, events[..k], policy, index);
    RunSplits(s, events, k, policy, index);
    RunKeepsInv(s, events[..k], policy, index);
    var rest := events[k..];
    assert rest[0] == events[k] && rest[1..] == events[k + 1..];
    assert Possible(before, rest[0]);
    var next := Step(before, rest[0], policy, index);
    StepKeepsInv(before, rest[0], policy, index);
    FailedHasOneCall(before, i, policy);
    LookAtProvider(before.model, before.threads[i], message, policy, index, rest[0].run);
    UnfoldRun(before, rest, policy, index);
    hide Inv, Advance, Run;
    EndStays(next, rest[1..], i, policy, index);
  }

  /** It ended with this error, after one session run. */
  predicate EndsWith(t: Thread, message: string) {
    t.phase == Done(Error(message)) && |t.calls| == 1
  }

  lemma LookAtProvider(m: Model, t: Thread, message: string, policy: Policy, index: Option<nat>, run: RunResult)
    requires Regular(run) && t.phase == Failed(message) && |t.calls| == 1
    requires IsCudaProviderError(message) && policy.MayFallBack()
    ensures var next := Advance(m, t, policy, index, run).1;
      if m.active == CpuProvider then EndsWith(next, message) else Continuing(next)
  {
    hide IsCudaProviderError, IsOutOfMemory;
  }

  lemma FailedHasOneCall(s: State, i: nat, policy: Policy)
    requires Inv(s, policy) && i < |s.threads| && s.threads[i].phase.Failed?
    ensures |s.threads[i].calls| == 1
  {
    assert PhaseInv(s.model, s.threads[i], policy);
  }

  /** While one inference has its first run on CUDA under way, another runs out of memory and makes
      the switch: the first one's CUDA error then goes to its caller with no run on CPU, although
      the fallback is on. On its own it would have been absorbed. */
  lemma OvertakenErrorIsRaised(m: Model, policy: Policy, pairs: nat, message: string, index: Option<nat>)
    returns (events: seq<Event>)
    requires Consistent(m, policy) && m.active == CudaProvider && policy.device == AutoDevice && policy.cpuFallback
    requires pairs > 0 && IsCudaProviderError(message)
    ensures AllPossible(2, events)
    ensures var t := Thread(pairs, true, Ready, []); SecondRaises(Run(State(m, [t, t]), events, policy, index), message)
  {
    var oom := "out of memory";
    OutOfMemoryIsCuda(oom);
    hide IsCudaProviderError, IsOutOfMemory, ScoresFromOutputs, Run, SecondRaises;
    var t := Thread(pairs, true, Ready, []);
    var running := t.(phase := Running(First, CudaSession));
    var first := t.(phase := Failed(oom), calls := [Call(CudaSession, Raised(oom))]);
    var switched := m.(session := Some(CpuSession), active := CpuProvider);
    events := LateErrorEnds(switched, first.(phase := Switching(2)), running, message, policy, index);
    events := SwitchBegins(m, first, running, events, policy, index);
    hide Advance, RunAlone;
    events := BothStart(m, t, Raised(oom), events, policy, index);
  }

  lemma OutOfMemoryIsCuda(message: string)
    requires "out of memory" <= message
    ensures IsOutOfMemory(message) && IsCudaProviderError(message)
  {
    assert message[0..] == message;
  }

  lemma RunNothing(s: State, policy: Policy, index: Option<nat>)
    ensures Run(s, [], policy, index) == s
  {
  }

  /** Of two inferences the first takes a step, then `rest` happens. */
  lemma StepFirst(m: Model, a: Thread, b: Thread, run: RunResult, rest: seq<Event>, policy: Policy, index: Option<nat>)
    returns (events: seq<Event>)
    requires Regular(run) && AllPossible(2, rest)
    ensures AllPossible(2, events)
    ensures var next := Advance(m, a, policy, index, run);
      Run(State(m, [a, b]), events, policy, index) == Run(State(next.0, [next.1, b]), rest, policy, index)
  {
    events := [Event(0, run)] + rest;
    assert events[1..] == rest;
    hide Advance;
    assert [a, b][0 := Advance(m, a, policy, index, run).1] == [Advance(m, a, policy, index, run).1, b];
  }

  /** Of two inferences the second takes a step, then `rest` happens. */
  lemma StepSecond(m: Model, a: Thread, b: Thread, run: RunResult, rest: seq<Event>, policy: Policy, index: Option<nat>)
    returns (events: seq<Event>)
    requires Regular(run) && AllPossible(2, rest)
    ensures AllPossible(2, events)
    ensures var next := Advance(m, b, policy, index, run);
      Run(State(m, [a, b]), events, policy, index) == Run(State(next.0, [a, next.1]), rest, policy, index)
  {
    events := [Event(1, run)] + rest;
    assert events[1..] == rest;
    hide Advance;
    assert [a, b][1 := Advance(m, b, policy, index, run).1] == [a, Advance(m, b, policy, index, run).1];
  }
}
