/** The ONNX backend: provider selection at load, CUDA-to-CPU fallback during inference, and
    extraction of scores from the model's output. */
module Onnx {
  import opened Basics

  datatype Provider = CudaProvider | CpuProvider
  datatype Device = CpuDevice | CudaDevice | AutoDevice

  /** The two sessions a loaded model can run: the CPU session validated first, and the CUDA one. */
  datatype Session = CpuSession | CudaSession

  datatype Policy = Policy(device: Device, cpuFallback: bool, configured: seq<Provider>, available: seq<Provider>) {
    /** A CUDA failure may be answered by falling back. */
    predicate MayFallBack() { device != CudaDevice && cpuFallback }
  }

  /** The fields of `OnnxLoadedModel` that inference reads and writes; no session once unloaded. */
  datatype Model = Model(session: Option<Session>, active: Provider,
                         fallbackProvider: Option<Provider>, fallbackReason: Option<string>)

  const CUDA_UNAVAILABLE := "cuda_unavailable_using_cpu_fallback"
  const INITIALIZATION_FAILED := "cuda_initialization_failed_using_cpu_fallback"
  const INFERENCE_FAILED := "cuda_inference_failed_using_cpu_fallback"

  /** An output array by its number of dimensions; a matrix has rows of equal length. */
  datatype Tensor = Scalar(item: Float) | Vector(items: seq<Float>) | Matrix(cols: nat, rows: seq<seq<Float>>) | Deeper {
    predicate Regular() {
      Matrix? ==> forall i :: 0 <= i < |rows| ==> |rows[i]| == cols
    }
  }

  /** One `session.run`: the outputs, or an error with its case-folded message. */
  datatype RunResult = Outputs(outputs: seq<Tensor>) | Raised(message: string)

  /* ---------- errors ---------- */

  predicate Contains(s: string, part: string) {
    exists i :: 0 <= i <= |s| && part <= s[i..]
  }

  predicate IsCudaProviderError(message: string) {
    || Contains(message, "cuda") || Contains(message, "cudnn")
    || Contains(message, "cublas") || Contains(message, "out of memory")
  }

  predicate IsOutOfMemory(message: string) {
    Contains(message, "out of memory")
  }

  /** The message has the text somewhere in it. */
  ghost predicate Surrounded(message: string, part: string) {
    exists before: string, after: string :: message == before + part + after
  }

  lemma ContainsIff(message: string, part: string)
    ensures Contains(message, part) <==> Surrounded(message, part)
  {
    if Contains(message, part) {
      var i :| 0 <= i <= |message| && part <= message[i..];
      assert message == message[..i] + part + message[i + |part|..];
    }
    if Surrounded(message, part) {
      var before: string, after: string :| message == before + part + after;
      assert part <= message[|before|..];
    }
  }

  /** CUDA's errors are those with one of four texts anywhere in the message, wherever it comes from. */
  lemma CudaErrorsAreMarked(message: string)
    ensures IsCudaProviderError(message) <==>
      || Surrounded(message, "cuda") || Surrounded(message, "cudnn")
      || Surrounded(message, "cublas") || Surrounded(message, "out of memory")
    ensures IsOutOfMemory(message) <==> Surrounded(message, "out of memory")
  {
    ContainsIff(message, "cuda");
    ContainsIff(message, "cudnn");
    ContainsIff(message, "cublas");
    ContainsIff(message, "out of memory");
    hide Contains, Surrounded;
  }

  /* ---------- scores from outputs ---------- */

  /** The one-dimensional array the output stands for, if there is one. */
  function Column(t: Tensor, n: nat, index: Option<nat>): Option<seq<Float>>
    requires t.Regular()
  {
    match t
    case Scalar(x) => if n == 1 then Some([x]) else None
    case Vector(xs) => Some(xs)
    case Matrix(cols, rows) =>
      if |rows| != n then None
      else if cols == 1 then Some(seq(n, i requires 0 <= i < n => rows[i][0]))
      else if index.Some? && index.value < cols then Some(seq(n, i requires 0 <= i < n => rows[i][index.value]))
      else None
    case Deeper => None
  }

  function ExtractScores(t: Tensor, n: nat, index: Option<nat>): Result<seq<Float>, string>
    requires t.Regular()
  {
    match Column(t, n, index)
    case None => Error("score output shape")
    case Some(xs) => if |xs| == n then Ok(xs) else Error("score output shape")
  }

  function Values(xs: seq<Float>): seq<real>
    requires forall i :: 0 <= i < |xs| ==> xs[i].Finite?
  {
    seq(|xs|, i requires 0 <= i < |xs| => xs[i].value)
  }

  function ScoresFromOutputs(outputs: seq<Tensor>, n: nat, index: Option<nat>): Result<seq<real>, string>
    requires forall i :: 0 <= i < |outputs| ==> outputs[i].Regular()
  {
    if |outputs| != 1 then Error("score outputs") else
    match ExtractScores(outputs[0], n, index)
    case Error(e) => Error(e)
    case Ok(xs) =>
      if forall i :: 0 <= i < |xs| ==> xs[i].Finite? then Ok(Values(xs)) else Error("non-finite scores")
  }

  /** Entry `i` of an output, whatever its accepted shape. */
  predicate IsEntry(t: Tensor, n: nat, index: Option<nat>, i: nat, x: Float)
    requires t.Regular() && i < n
  {
    match t
    case Scalar(y) => n == 1 && x == y
    case Vector(ys) => |ys| == n && x == ys[i]
    case Matrix(cols, rows) =>
      |rows| == n && ((cols == 1 && x == rows[i][0]) || (cols != 1 && index.Some? && index.value < cols && x == rows[i][index.value]))
    case Deeper => false
  }

  ghost predicate HasFiniteEntry(t: Tensor, n: nat, index: Option<nat>, i: nat)
    requires t.Regular() && i < n
  {
    exists v :: IsEntry(t, n, index, i, Finite(v))
  }

  /** Scores come out exactly when there is a single output that has one finite entry per pair, and
      then score i is the entry of pair i. */
  lemma ScoresMatchPairs(outputs: seq<Tensor>, n: nat, index: Option<nat>)
    requires forall i :: 0 <= i < |outputs| ==> outputs[i].Regular()
    requires n > 0
    ensures var r := ScoresFromOutputs(outputs, n, index);
      && (r.Ok? ==> |r.value| == n && forall i :: 0 <= i < n ==> IsEntry(outputs[0], n, index, i, Finite(r.value[i])))
      && (r.Ok? <==> |outputs| == 1 && forall i :: 0 <= i < n ==> HasFiniteEntry(outputs[0], n, index, i))
  {
    if |outputs| == 1 {
      var t := outputs[0];
      var r := ScoresFromOutputs(outputs, n, index);
      if forall i :: 0 <= i < n ==> HasFiniteEntry(t, n, index, i) {
        assert HasFiniteEntry(t, n, index, 0);
        var xs := Column(t, n, index).value;
        forall i | 0 <= i < n ensures xs[i].Finite? {
          assert HasFiniteEntry(t, n, index, i);
          var v :| IsEntry(t, n, index, i, Finite(v));
          assert xs[i] == Finite(v);
        }
      } else if r.Ok? {
        forall i | 0 <= i < n ensures HasFiniteEntry(t, n, index, i) {
          assert IsEntry(t, n, index, i, Finite(r.value[i]));
        }
      }
    }
  }

  /* ---------- one inference on its own ---------- */

  /** The `k`-th session run of an inference, by the session it uses. */
  type Attempts = (nat, Session) -> RunResult

  datatype Inference = Inference(model: Model, result: Result<seq<real>, string>, runs: seq<Session>)

  ghost predicate AllRegular(attempts: Attempts) {
    forall k: nat, s: Session :: attempts(k, s).Outputs? ==>
      forall i :: 0 <= i < |attempts(k, s).outputs| ==> attempts(k, s).outputs[i].Regular()
  }

  function FinishRun(m: Model, run: RunResult, runs: seq<Session>, n: nat, index: Option<nat>): Inference
    requires run.Outputs? ==> forall i :: 0 <= i < |run.outputs| ==> run.outputs[i].Regular()
  {
    match run
    case Outputs(outputs) => Inference(m, ScoresFromOutputs(outputs, n, index), runs)
    case Raised(message) => Inference(m, Error(message), runs)
  }

  function SwitchedToCpu(m: Model): Model {
    m.(session := Some(CpuSession), active := CpuProvider,
       fallbackProvider := Some(CpuProvider), fallbackReason := Some(INFERENCE_FAILED))
  }

  /** `_infer` on a model no other inference touches meanwhile; `n` pairs, and whether the model's
      inputs are supported. */
  function Infer(m: Model, policy: Policy, attempts: Attempts, n: nat, inputsOk: bool, index: Option<nat>): Inference
    requires AllRegular(attempts)
  {
    if n == 0 then Inference(m, Ok([]), [])
    else if m.session.None? then Inference(m, Error("no session"), [])
    else if !inputsOk then Inference(m, Error("unsupported inputs"), [])
    else
      var s := m.session.value;
      var first := attempts(0, s);
      if first.Outputs? || m.active != CudaProvider || !IsCudaProviderError(first.message) || !policy.MayFallBack()
      then FinishRun(m, first, [s], n, index)
      else
        var cpu := SwitchedToCpu(m);
        if IsOutOfMemory(first.message) then FinishRun(cpu, attempts(1, CpuSession), [s, CpuSession], n, index)
        else
          var second := attempts(1, s);
          if second.Outputs? || !IsCudaProviderError(second.message) then FinishRun(m, second, [s, s], n, index)
          else FinishRun(cpu, attempts(2, CpuSession), [s, s, CpuSession], n, index)
  }

  /** What every loaded model satisfies until it is unloaded. */
  predicate Consistent(m: Model, policy: Policy) {
    && m.session.Some?
    && (m.session.value.CpuSession? <==> m.active == CpuProvider)
    && (m.fallbackReason.Some? ==> m.active == CpuProvider && m.fallbackProvider == Some(CpuProvider))
    && (policy.device == CudaDevice ==> m.active == CudaProvider)
    && (policy.device == CpuDevice ==> m.active == CpuProvider)
    && (!policy.cpuFallback ==> m.fallbackReason.None?)
  }

  /** One inference keeps the model consistent, never moves it from CPU to CUDA, and moves it to CPU
      only where falling back is allowed and after a CUDA error; it makes at most three session
      runs, no second CUDA run after running out of memory, and any it makes after a switch is on
      the validated CPU session. Scores, when it returns any, are one per pair. */
  lemma InferenceGuarantees(m: Model, policy: Policy, attempts: Attempts, n: nat, inputsOk: bool, index: Option<nat>)
    requires AllRegular(attempts)
    requires Consistent(m, policy)
    ensures var r := Infer(m, policy, attempts, n, inputsOk, index);
      && Consistent(r.model, policy)
      && (m.active == CpuProvider ==> r.model == m)
      && (r.model != m ==> policy.MayFallBack() && r.model == SwitchedToCpu(m)
                           && attempts(0, CudaSession).Raised? && IsCudaProviderError(attempts(0, CudaSession).message))
      && |r.runs| <= 3
      && (forall k :: 1 <= k < |r.runs| ==> r.runs[k] == CudaSession ==>
            attempts(k - 1, CudaSession).Raised? && !IsOutOfMemory(attempts(k - 1, CudaSession).message))
      && (m.active == CpuProvider ==> |r.runs| <= 1)
      && (r.result.Ok? ==> |r.result.value| == n)
  {
    hide Contains, IsCudaProviderError, IsOutOfMemory, ScoresFromOutputs;
    if n > 0 {
      forall run: RunResult | run.Outputs? && forall i :: 0 <= i < |run.outputs| ==> run.outputs[i].Regular()
        ensures ScoresFromOutputs(run.outputs, n, index).Ok? ==> |ScoresFromOutputs(run.outputs, n, index).value| == n
      {
        ScoresMatchPairs(run.outputs, n, index);
      }
    }
  }

  /** No pairs need no run, and get no scores, of any model; an unloaded model, or one whose inputs are not
      supported, cannot run any. */
  lemma NothingRuns(m: Model, policy: Policy, attempts: Attempts, n: nat, inputsOk: bool, index: Option<nat>)
    requires AllRegular(attempts)
    ensures var r := Infer(m, policy, attempts, n, inputsOk, index);
      && (r.runs == [] <==> n == 0 || m.session.None? || !inputsOk)
      && (r.runs == [] ==> r.model == m && (r.result.Ok? <==> n == 0) && (n == 0 ==> r.result.value == []))
  {
    hide Contains, IsCudaProviderError, IsOutOfMemory, ScoresFromOutputs;
  }

  /** A run that ends in an error which is not CUDA's, or in outputs that are not scores. */
  predicate BadRun(run: RunResult, n: nat, index: Option<nat>)
    requires run.Outputs? ==> forall i :: 0 <= i < |run.outputs| ==> run.outputs[i].Regular()
  {
    match run
    case Raised(message) => !IsCudaProviderError(message)
    case Outputs(outputs) => ScoresFromOutputs(outputs, n, index).Error?
  }

  /** Where falling back is allowed and the CPU session works, an inference on a CUDA model fails if and
      only if one of the runs it made on CUDA failed otherwise than by a CUDA error or returned
      unusable outputs: a CUDA error as such never reaches the caller. */
  lemma CudaErrorsAreAbsorbed(m: Model, policy: Policy, attempts: Attempts, n: nat, index: Option<nat>)
    requires AllRegular(attempts) && Consistent(m, policy)
    requires m.active == CudaProvider && policy.MayFallBack() && n > 0
    requires forall k: nat :: attempts(k, CpuSession).Outputs? && ScoresFromOutputs(attempts(k, CpuSession).outputs, n, index).Ok?
    ensures var r := Infer(m, policy, attempts, n, true, index);
      r.result.Error? <==> exists k :: 0 <= k < |r.runs| && r.runs[k] == CudaSession && BadRun(attempts(k, CudaSession), n, index)
  {
    hide Contains, IsCudaProviderError, IsOutOfMemory, ScoresFromOutputs;
    var r := Infer(m, policy, attempts, n, true, index);
    var first, second := attempts(0, CudaSession), attempts(1, CudaSession);
    assert r.runs[0] == CudaSession;
    if r.result.Error? {
      assert BadRun(attempts(|r.runs| - 1, CudaSession), n, index);
    }
  }

  /* ---------- the program ---------- */

  class OnnxLoadedModel {
    var session: Option<Session>
    const cpuSession: Session
    var activeProvider: Provider
    var fallbackProvider: Option<Provider>
    var fallbackReason: Option<string>

    constructor (m: Model)
      ensures Fields() == m && cpuSession == CpuSession
    {
      session, cpuSession, activeProvider := m.session, CpuSession, m.active;
      fallbackProvider, fallbackReason := m.fallbackProvider, m.fallbackReason;
    }

    function Fields(): Model
      reads this
    {
      Model(session, activeProvider, fallbackProvider, fallbackReason)
    }

    method RunInference(policy: Policy, attempts: Attempts, n: nat, inputsOk: bool, index: Option<nat>)
      returns (result: Result<seq<real>, string>, runs: seq<Session>)
      requires AllRegular(attempts) && cpuSession == CpuSession
      modifies this
      ensures Inference(Fields(), result, runs) == Infer(old(Fields()), policy, attempts, n, inputsOk, index)
    {
      hide Contains, IsCudaProviderError, IsOutOfMemory, ScoresFromOutputs;
      runs := [];
      if n == 0 {
        return Ok([]), runs;
      }
      if session.None? {
        return Error("no session"), runs;
      }
      if !inputsOk {
        return Error("unsupported inputs"), runs;
      }
      var outputs := attempts(0, session.value);
      runs := [session.value];
      if outputs.Raised? {
        if activeProvider != CudaProvider || !IsCudaProviderError(outputs.message) {
          return Error(outputs.message), runs;
        }
        var isOom := IsOutOfMemory(outputs.message);
        if policy.device == CudaDevice || !policy.cpuFallback {
          return Error(outputs.message), runs;
        }
        if !isOom {
          outputs := attempts(1, session.value);
          runs := runs + [session.value];
          if outputs.Raised? && !IsCudaProviderError(outputs.message) {
            return Error(outputs.message), runs;
          }
          if outputs.Outputs? {
            return ScoresFromOutputs(outputs.outputs, n, index), runs;
          }
        }
        session := Some(cpuSession);
        activeProvider := CpuProvider;
        fallbackProvider := Some(CpuProvider);
        fallbackReason := Some(INFERENCE_FAILED);
        outputs := attempts(|runs|, cpuSession);
        runs := runs + [cpuSession];
      }
      if outputs.Raised? {
        return Error(outputs.message), runs;
      }
      result := ScoresFromOutputs(outputs.outputs, n, index);
    }

    method Unload()
      modifies this
      ensures Fields() == old(Fields()).(session := None)
    {
      session := None;
    }
  }

  /* ---------- provider selection at load ---------- */

  /** Everything loading depends on: whether a CPU and a CUDA session can be created, the providers
      the CUDA session reports, and what the warm-up inferences meet. */
  datatype LoadWorld = LoadWorld(cpuAttempts: Attempts, cudaCreated: bool, cudaProviders: seq<Provider>,
                                 cudaAttempts: Attempts, inputsOk: bool, index: Option<nat>)

  const CPU_LOADED := Model(Some(CpuSession), CpuProvider, None, None)
  const CUDA_LOADED := Model(Some(CudaSession), CudaProvider, None, None)

  const UNAVAILABLE := "CUDAExecutionProvider is unavailable"
  const VALIDATION_FAILED := "CUDAExecutionProvider session validation failed"

  /** The CPU model that stands in for CUDA, or an error where the policy forbids it. */
  function FellBack(policy: Policy, reason: string, error: string): Result<Model, string> {
    if policy.MayFallBack()
    then Ok(CPU_LOADED.(fallbackProvider := Some(CpuProvider), fallbackReason := Some(reason)))
    else Error(error)
  }

  predicate CudaSelected(w: LoadWorld) {
    w.cudaCreated && |w.cudaProviders| > 0 && w.cudaProviders[0] == CudaProvider
  }

  function WarmUp(m: Model, policy: Policy, attempts: Attempts, w: LoadWorld): Inference
    requires AllRegular(attempts)
  {
    Infer(m, policy, attempts, 1, w.inputsOk, w.index)
  }

  /** What loading comes to. */
  function Loading(policy: Policy, w: LoadWorld): Result<Model, string>
    requires AllRegular(w.cpuAttempts) && AllRegular(w.cudaAttempts)
  {
    if CpuProvider !in policy.configured || CpuProvider !in policy.available
    then Error("CPUExecutionProvider is required for artifact validation")
    else
      var cpu := WarmUp(CPU_LOADED, policy, w.cpuAttempts, w);
      if cpu.result.Error? then Error(cpu.result.error)
      else if policy.device == CpuDevice then Ok(CPU_LOADED)
      else if CudaProvider !in policy.configured then
        if policy.device == CudaDevice then Error("CUDAExecutionProvider is not configured") else Ok(CPU_LOADED)
      else if CudaProvider !in policy.available then FellBack(policy, CUDA_UNAVAILABLE, UNAVAILABLE)
      else
        var cuda := WarmUp(CUDA_LOADED, policy, w.cudaAttempts, w);
        if CudaSelected(w) && cuda.result.Ok? then Ok(cuda.model)
        else FellBack(policy, INITIALIZATION_FAILED, VALIDATION_FAILED)
  }

  method FallbackOrRaise(policy: Policy, cpuModel: OnnxLoadedModel, reason: string) returns (r: Result<OnnxLoadedModel, string>)
    requires cpuModel.Fields() == CPU_LOADED
    modifies cpuModel
    ensures r.Ok? ==> r.value == cpuModel
    ensures FellBack(policy, reason, UNAVAILABLE) == if r.Ok? then Ok(cpuModel.Fields()) else Error(r.error)
  {
    if policy.device == CudaDevice || !policy.cpuFallback {
      return Error(UNAVAILABLE);
    }
    cpuModel.fallbackProvider := Some(CpuProvider);
    cpuModel.fallbackReason := Some(reason);
    return Ok(cpuModel);
  }

  /** `_load_sync`, from the sessions on. */
  method LoadSync(policy: Policy, w: LoadWorld) returns (r: Result<OnnxLoadedModel, string>)
    requires AllRegular(w.cpuAttempts) && AllRegular(w.cudaAttempts)
    ensures r.Ok? ==> fresh(r.value) && r.value.cpuSession == CpuSession
    ensures Loading(policy, w) == if r.Ok? then Ok(r.value.Fields()) else Error(r.error)
  {
    hide Contains, IsCudaProviderError, IsOutOfMemory, ScoresFromOutputs, Infer;
    if CpuProvider !in policy.configured || CpuProvider !in policy.available {
      return Error("CPUExecutionProvider is required for artifact validation");
    }
    var cpuModel := new OnnxLoadedModel(CPU_LOADED);
    var warm, cpuRuns := cpuModel.RunInference(policy, w.cpuAttempts, 1, w.inputsOk, w.index);
    CpuModelUnchanged(policy, w);
    if warm.Error? {
      return Error(warm.error);
    }
    if policy.device == CpuDevice {
      return Ok(cpuModel);
    }
    if CudaProvider !in policy.configured {
      if policy.device == CudaDevice {
        return Error("CUDAExecutionProvider is not configured");
      }
      return Ok(cpuModel);
    }
    if CudaProvider !in policy.available {
      r := FallbackOrRaise(policy, cpuModel, CUDA_UNAVAILABLE);
      return;
    }
    if w.cudaCreated && |w.cudaProviders| > 0 && w.cudaProviders[0] == CudaProvider {
      var cudaModel := new OnnxLoadedModel(CUDA_LOADED);
      var warmCuda, cudaRuns := cudaModel.RunInference(policy, w.cudaAttempts, 1, w.inputsOk, w.index);
      if warmCuda.Ok? {
        return Ok(cudaModel);
      }
    }
    if policy.device == CudaDevice || !policy.cpuFallback {
      return Error(VALIDATION_FAILED);
    }
    cpuModel.fallbackProvider := Some(CpuProvider);
    cpuModel.fallbackReason := Some(INITIALIZATION_FAILED);
    return Ok(cpuModel);
  }

  lemma CpuModelUnchanged(policy: Policy, w: LoadWorld)
    requires AllRegular(w.cpuAttempts)
    ensures Infer(CPU_LOADED, policy, w.cpuAttempts, 1, w.inputsOk, w.index).model == CPU_LOADED
  {
  }

  /** A run of one pair that yields its score. */
  predicate GoodRun(run: RunResult, index: Option<nat>)
    requires run.Outputs? ==> forall i :: 0 <= i < |run.outputs| ==> run.outputs[i].Regular()
  {
    run.Outputs? && ScoresFromOutputs(run.outputs, 1, index).Ok?
  }

  predicate CudaError(run: RunResult) {
    run.Raised? && IsCudaProviderError(run.message)
  }

  /** A CUDA error that was for want of memory, or one that the same run repeated, and then a good run
      on CPU. */
  predicate WarmsUpOnCpu(policy: Policy, w: LoadWorld)
    requires AllRegular(w.cudaAttempts)
  {
    var first, second := w.cudaAttempts(0, CudaSession), w.cudaAttempts(1, CudaSession);
    && w.inputsOk && policy.MayFallBack() && CudaError(first)
    && if IsOutOfMemory(first.message) then GoodRun(w.cudaAttempts(1, CpuSession), w.index)
       else CudaError(second) && GoodRun(w.cudaAttempts(2, CpuSession), w.index)
  }

  /** A good run on CUDA, or one after a CUDA error that was not for want of memory. */
  predicate WarmsUpOnCuda(policy: Policy, w: LoadWorld)
    requires AllRegular(w.cudaAttempts)
  {
    var first, second := w.cudaAttempts(0, CudaSession), w.cudaAttempts(1, CudaSession);
    && w.inputsOk
    && (GoodRun(first, w.index)
        || (policy.MayFallBack() && CudaError(first) && !IsOutOfMemory(first.message) && GoodRun(second, w.index)))
  }

  /** A model loads if and only if CPU is configured and available, the model's inputs are supported, the
      first run on the CPU session gives the warm-up's score, and the device is served: CUDA works, that
      is it is configured and available, its session is created with CUDA as its first provider and its
      warm-up ends with a score from CUDA, where it is demanded; and in automatic mode it works, is not
      configured or may be replaced. */
  lemma LoadsIff(policy: Policy, w: LoadWorld)
    requires AllRegular(w.cpuAttempts) && AllRegular(w.cudaAttempts)
    ensures var cudaWorks :=
        && CudaProvider in policy.configured && CudaProvider in policy.available
        && w.cudaCreated && |w.cudaProviders| > 0 && w.cudaProviders[0] == CudaProvider
        && WarmsUpOnCuda(policy, w);
      Loading(policy, w).Ok? <==>
        && CpuProvider in policy.configured && CpuProvider in policy.available
        && w.inputsOk && GoodRun(w.cpuAttempts(0, CpuSession), w.index)
        && (policy.device == CudaDevice ==> cudaWorks)
        && (policy.device == AutoDevice ==> CudaProvider !in policy.configured || policy.cpuFallback || cudaWorks)
  {
    hide Contains, IsCudaProviderError, IsOutOfMemory, ScoresFromOutputs;
    CpuWarmsUp(policy, w);
    CudaWarmsUp(policy, w);
    hide Infer, GoodRun, WarmsUpOnCpu, WarmsUpOnCuda, AllRegular;
  }

  lemma CpuWarmsUp(policy: Policy, w: LoadWorld)
    requires AllRegular(w.cpuAttempts)
    ensures WarmUp(CPU_LOADED, policy, w.cpuAttempts, w).result.Ok?
            <==> w.inputsOk && GoodRun(w.cpuAttempts(0, CpuSession), w.index)
  {
    hide Contains, IsCudaProviderError, IsOutOfMemory, ScoresFromOutputs;
  }

  lemma CudaWarmsUp(policy: Policy, w: LoadWorld)
    requires AllRegular(w.cudaAttempts)
    ensures WarmUp(CUDA_LOADED, policy, w.cudaAttempts, w).result.Ok? <==> WarmsUpOnCuda(policy, w) || WarmsUpOnCpu(policy, w)
    ensures WarmsUpOnCpu(policy, w) ==> policy.MayFallBack()
  {
    hide Contains, IsCudaProviderError, IsOutOfMemory, ScoresFromOutputs;
  }

  /** A model that loads is consistent, and its provider and recorded reason say what happened: CUDA,
      or CPU because that is the device or CUDA is not configured (no reason), or CPU because CUDA
      is not available, or because its session could not be validated, or because the first
      inference on it already fell back, which is recorded as a failed inference. */
  lemma LoadingExplained(policy: Policy, w: LoadWorld)
    requires AllRegular(w.cpuAttempts) && AllRegular(w.cudaAttempts)
    requires Loading(policy, w).Ok?
    ensures var m := Loading(policy, w).value;
      var wanted := policy.device != CpuDevice && CudaProvider in policy.configured;
      var tried := wanted && CudaProvider in policy.available;
      && Consistent(m, policy)
      && (m.fallbackReason.None? && m.active == CpuProvider <==> !wanted)
      && (m.fallbackReason == Some(CUDA_UNAVAILABLE) <==> wanted && !tried)
      && (m.fallbackReason == Some(INITIALIZATION_FAILED) <==>
            tried && !(CudaSelected(w) && (WarmsUpOnCpu(policy, w) || WarmsUpOnCuda(policy, w))))
      && (m.fallbackReason == Some(INFERENCE_FAILED) <==> tried && CudaSelected(w) && WarmsUpOnCpu(policy, w))
      && (m.active == CudaProvider <==> tried && CudaSelected(w) && WarmsUpOnCuda(policy, w))
  {
    hide Contains, IsCudaProviderError, IsOutOfMemory, ScoresFromOutputs;
    if policy.device != CpuDevice {
      InferenceGuarantees(CUDA_LOADED, policy, w.cudaAttempts, 1, w.inputsOk, w.index);
      hide Infer;
    }
  }

  /** Device "cuda" yields CUDA or nothing; in automatic mode with the fallback on, a model whose CPU
      session passes its warm-up always loads. */
  lemma LoadingByDevice(policy: Policy, w: LoadWorld)
    requires AllRegular(w.cpuAttempts) && AllRegular(w.cudaAttempts)
    ensures policy.device == CudaDevice && Loading(policy, w).Ok? ==> Loading(policy, w).value == CUDA_LOADED
    ensures (policy.device == AutoDevice && policy.cpuFallback
             && CpuProvider in policy.configured && CpuProvider in policy.available
             && WarmUp(CPU_LOADED, policy, w.cpuAttempts, w).result.Ok?) ==> Loading(policy, w).Ok?
  {
    hide Contains, IsCudaProviderError, IsOutOfMemory, ScoresFromOutputs;
    if policy.device == CudaDevice {
      InferenceGuarantees(CUDA_LOADED, policy, w.cudaAttempts, 1, w.inputsOk, w.index);
      hide Infer;
    }
  }
}
