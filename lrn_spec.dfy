/** The layer's calls as functions from the old layer state to the new one.
    The class in LrnLayer is proved against these; the properties of the
    layer are stated on them. */
module LrnSpec {
  import opened LrnTypes

  /** The layer's fields before any call: scalars zeroed, no plan, nothing logged. */
  const Initial: LayerState :=
    LayerState(0, Scalar(0), Scalar(0), Scalar(0), 0, 0, 0, 0, None, 0, [])

  /** The steps every forward call performs, in order. */
  const Cycle: seq<Event> := [SyncBeforeRead, SyncBeforeWrite, Submit]

  // ---------------------------------------------------------------------------
  // C++ integer semantics

  /** The `int` a `uint32` becomes when assigned to a 32-bit signed field. */
  function Int32Of(x: Uint32): (r: int)
    ensures -0x8000_0000 <= r < 0x8000_0000
    ensures (r - x) % 0x1_0000_0000 == 0
    ensures r >= 0 <==> x < 0x8000_0000
  {
    if x < 0x8000_0000 then x else x - 0x1_0000_0000
  }

  /** C++ `a % b` for a positive divisor: the remainder takes the sign of `a`. */
  function CppRem(a: int, b: int): (r: int)
    requires b > 0
    ensures a >= 0 ==> 0 <= r < b
    ensures a < 0 ==> -b < r <= 0
    ensures (if r < 0 then -r else r) == (if a < 0 then -a else a) % b
  {
    if a >= 0 then a % b else -((-a) % b)
  }

  // ---------------------------------------------------------------------------
  // LayerSetUp

  /** `LayerSetUp`: store `size_`, then demand that it is odd. */
  function SetUpSpec(s: LayerState, param: LrnParam): (r: Configured)
    ensures r.state == s.(size := Int32Of(param.localSize))
    ensures r.status.Success? <==> param.localSize % 2 == 1 && param.localSize < 0x8000_0000
    ensures r.status.Failure? ==> r.status.error == InvalidConfiguration
  {
    var size := Int32Of(param.localSize);
    Configured(s.(size := size),
               if CppRem(size, 2) == 1 then Success else Failure(InvalidConfiguration))
  }

  // ---------------------------------------------------------------------------
  // Reshape

  /** A legacy blob dimension: a missing axis reads as 1. */
  function LegacyDim(shape: seq<int>, i: nat): (d: int)
    ensures i < |shape| ==> d == shape[i]
    ensures i >= |shape| ==> d == 1
  {
    if i < |shape| then shape[i] else 1
  }

  /** The stored dimensions in the order `{num, channels, height, width}`. */
  function Dims(s: LayerState): seq<int>
  {
    [s.num, s.channels, s.height, s.width]
  }

  /** `Reshape`: store the constants and the bottom's dimensions, then demand
      rank 4 and dispatch on the normalization region. */
  function ReshapeSpec(s: LayerState, param: LrnParam, bottom: Tensor, top: Tensor): (r: Outcome)
    // the constants are taken from the parameters, the dimensions from the bottom
    ensures r.state.alpha == param.alpha && r.state.beta == param.beta && r.state.k == param.k
    ensures |bottom.shape| == 4 ==> Dims(r.state) == bottom.shape
    // nothing else in the layer changes, in particular not the plan
    ensures r.state.size == s.size && r.state.plan == s.plan
    ensures r.state.builds == s.builds && r.state.log == s.log
    // the error cases, in the order the code checks them
    ensures r.status.Success? <==> |bottom.shape| == 4 && param.normRegion == AcrossChannels
    ensures |bottom.shape| != 4 ==> r.status == Failure(InvalidShape)
    ensures |bottom.shape| == 4 && param.normRegion == WithinChannel ==>
              r.status == Failure(NotImplemented)
    ensures |bottom.shape| == 4 && param.normRegion.OtherRegion? ==>
              r.status == Failure(UnknownRegion)
    // across channels the output has exactly the input's shape; the layout tag stays
    ensures r.status.Success? ==> r.top.shape == bottom.shape && r.top.prv == top.prv
    ensures r.status.Failure? ==> r.top == top
  {
    var shape := bottom.shape;
    var s1 := s.(alpha := param.alpha, beta := param.beta, k := param.k,
                 width := LegacyDim(shape, 3), height := LegacyDim(shape, 2),
                 num := LegacyDim(shape, 0), channels := LegacyDim(shape, 1));
    if |shape| != 4 then Outcome(s1, top, Failure(InvalidShape))
    else
      match param.normRegion
      case AcrossChannels =>
        Outcome(s1, top.(shape := [s1.num, s1.channels, s1.height, s1.width]), Success)
      case WithinChannel => Outcome(s1, top, Failure(NotImplemented))
      case OtherRegion(_) => Outcome(s1, top, Failure(UnknownRegion))
  }

  // ---------------------------------------------------------------------------
  // InitLRN

  /** Scoring (no state kept for a backward pass) in the test phase, training otherwise. */
  function PropagationFor(phase: Phase): (p: PropKind)
    ensures p == ForwardScoring <==> phase == Test
    ensures p == ForwardTraining <==> phase == Train
  {
    match phase
    case Test => ForwardScoring
    case Train => ForwardTraining
  }

  /** The engine algorithm for a normalization region; other regions are fatal. */
  function AlgorithmFor(region: NormRegion): (r: Result<Algorithm>)
    ensures region == AcrossChannels <==> r == Ok(LrnAcrossChannels)
    ensures region == WithinChannel <==> r == Ok(LrnWithinChannel)
    ensures region.OtherRegion? <==> r == Err(UnknownRegion)
  {
    match region
    case AcrossChannels => Ok(LrnAcrossChannels)
    case WithinChannel => Ok(LrnWithinChannel)
    case OtherRegion(_) => Err(UnknownRegion)
  }

  /** The input descriptor and the user/private layout pair of the data adapters. */
  datatype Negotiated = Negotiated(input: MemDesc, usr: MemDesc, prv: Option<MemDesc>)

  /** Layout negotiation: adopt the bottom's private layout when it has one,
      otherwise a plain `nchw` layout over the given dimensions. */
  function NegotiateLayout(bottom: Tensor, dims: seq<int>): (n: Negotiated)
    ensures bottom.prv.Some? ==>
              n.input == bottom.prv.value.prv && n.usr == bottom.prv.value.usr &&
              n.prv == Some(n.input)
    ensures bottom.prv.None? ==>
              n.input == MemDesc(dims, Nchw) && n.usr == n.input && n.prv == None
  {
    match bottom.prv
    case Some(d) => Negotiated(d.prv, d.usr, Some(d.prv))
    case None =>
      var md := MemDesc(dims, Nchw);
      Negotiated(md, md, None)
  }

  /** The layout tag the output adapter leaves on the top blob when it is
      prepared for writing: the private descriptor pair, if the plan has one. */
  function OutputTag(p: Plan): (t: Option<PrvDescriptor>)
    ensures t.Some? <==> p.prvLayout.Some?
    ensures t.Some? ==> t.value.usr == p.usrLayout && Some(t.value.prv) == p.prvLayout
  {
    match p.prvLayout
    case None => None
    case Some(m) => Some(PrvDescriptor(p.usrLayout, m))
  }

  /** `InitLRN`: the plan built from the configuration, the stored fields and the bottom. */
  function InitPlan(cfg: Config, s: LayerState, bottom: Tensor): (r: Result<Plan>)
    // failure cases
    ensures r.Ok? <==> cfg.precision.F32? && !cfg.param.normRegion.OtherRegion?
    ensures cfg.precision.F64? ==> r == Err(NotImplemented)
    ensures cfg.precision.F32? && cfg.param.normRegion.OtherRegion? ==> r == Err(UnknownRegion)
    // fixed mappings
    ensures r.Ok? ==> (r.value.propagation == ForwardScoring <==> cfg.phase == Test)
    ensures r.Ok? && cfg.param.normRegion == AcrossChannels ==> r.value.algorithm == LrnAcrossChannels
    ensures r.Ok? && cfg.param.normRegion == WithinChannel ==> r.value.algorithm == LrnWithinChannel
    // layout negotiation
    ensures r.Ok? ==> r.value.outputLayout == r.value.inputLayout
    ensures r.Ok? && bottom.prv.Some? ==>
              r.value.inputLayout == bottom.prv.value.prv && r.value.usrLayout == bottom.prv.value.usr
    ensures r.Ok? && bottom.prv.None? ==>
              r.value.inputLayout == MemDesc([s.num, s.channels, s.height, s.width], Nchw) &&
              r.value.usrLayout == r.value.inputLayout &&
              r.value.prvLayout == None
    ensures r.Ok? ==> OutputTag(r.value) == bottom.prv
    // the descriptor's constants: alpha_, beta_ and size_, never k_
    ensures r.Ok? ==> r.value.alpha == s.alpha && r.value.beta == s.beta && r.value.size == s.size
  {
    if cfg.precision == F64 then Err(NotImplemented)
    else
      var propagation := PropagationFor(cfg.phase);
      match AlgorithmFor(cfg.param.normRegion)
      case Err(e) => Err(e)
      case Ok(algorithm) =>
        var n := NegotiateLayout(bottom, Dims(s));
        Ok(Plan(algorithm, propagation, n.input, n.input, s.alpha, s.beta, s.size, n.usr, n.prv))
  }

  /** The layer state once plan `p` has been built. */
  function Built(s: LayerState, p: Plan): LayerState
  {
    s.(plan := Some(p), builds := s.builds + 1, log := s.log + [BuildPlan])
  }

  /** `InitLRN` as a state change: on failure nothing has been written. */
  function InitSpec(cfg: Config, s: LayerState, bottom: Tensor): (r: Configured)
    ensures r.status.Success? <==> InitPlan(cfg, s, bottom).Ok?
    ensures r.status.Success? ==> r.state == Built(s, InitPlan(cfg, s, bottom).value)
    ensures r.status.Failure? ==> r.state == s && r.status.error == InitPlan(cfg, s, bottom).error
  {
    match InitPlan(cfg, s, bottom)
    case Ok(p) => Configured(Built(s, p), Success)
    case Err(e) => Configured(s, Failure(e))
  }

  // ---------------------------------------------------------------------------
  // Forward_cpu

  /** The three steps of a forward call on a layer that has a plan: read-sync
      the input, prepare (and tag) the output for writing, submit. */
  function Fire(s: LayerState, top: Tensor): Outcome
    requires s.plan.Some?
  {
    Outcome(s.(log := s.log + Cycle), top.(prv := OutputTag(s.plan.value)), Success)
  }

  /** `Forward_cpu`: build the plan if there is none, then run the three steps.
      `top` is the value of the output blob the plan's output adapter is bound
      to: the top of the call that builds the plan, and that same blob on every
      later call. */
  function ForwardSpec(s: LayerState, cfg: Config, bottom: Tensor, top: Tensor): (r: Outcome)
    // an existing plan is reused whatever the stored dimensions or the bottom now are
    ensures s.plan.Some? ==> r.status == Success && r.state.plan == s.plan && r.state.builds == s.builds
    // without a plan the call succeeds exactly when one can be built, and builds it once
    ensures s.plan.None? ==> (r.status.Success? <==> InitPlan(cfg, s, bottom).Ok?)
    ensures s.plan.None? && r.status.Success? ==>
              r.state.plan == Some(InitPlan(cfg, s, bottom).value) && r.state.builds == s.builds + 1
    // each successful call logs read-sync, write-sync, submit in that order
    ensures r.status.Success? ==>
              r.state.log == s.log + (if s.plan.None? then [BuildPlan] else []) + Cycle
    // the output is tagged with the plan's layout; a freshly built plan takes the bottom's
    ensures r.status.Success? ==> r.state.plan.Some? && r.top.prv == OutputTag(r.state.plan.value)
    ensures s.plan.None? && r.status.Success? ==> r.top.prv == bottom.prv
    ensures r.top.shape == top.shape
    // only the plan, the counter and the log ever change; a failed call changes nothing
    ensures r.state.(plan := s.plan, builds := s.builds, log := s.log) == s
    ensures r.status.Failure? ==> r.state == s && r.top == top
  {
    if s.plan.Some? then Fire(s, top)
    else
      var init := InitSpec(cfg, s, bottom);
      if init.status.Failure? then Outcome(s, top, init.status)
      else Fire(init.state, top)
  }
}
