/** The layer object: its fields are updated in place by LayerSetUp, Reshape
    and the lazy plan construction in Forward_cpu; each method is proved to
    make exactly the state change its LrnSpec function describes. */
module LrnLayer {
  import opened LrnTypes
  import opened LrnSpec
  import opened LrnProperties

  /** A blob: the layer reads the bottom's shape and private-layout tag,
      reshapes the top in place and tags it when preparing it for writing. */
  class Blob {
    var shape: seq<int>
    var prv: Option<PrvDescriptor>

    constructor (shape: seq<int>, prv: Option<PrvDescriptor>)
      ensures Value() == Tensor(shape, prv)
    {
      this.shape := shape;
      this.prv := prv;
    }

    function Value(): (t: Tensor)
      reads this
    {
      Tensor(shape, prv)
    }

    /** `Blob::Reshape(num, channels, height, width)`. */
    method Reshape4(num: int, channels: int, height: int, width: int)
      modifies this
      ensures Value() == old(Value()).(shape := [num, channels, height, width])
    {
      shape := [num, channels, height, width];
    }

    /** Leave a private-layout tag (or none) on the blob. */
    method SetPrvDescriptor(tag: Option<PrvDescriptor>)
      modifies this
      ensures Value() == old(Value()).(prv := tag)
    {
      prv := tag;
    }
  }

  class MkldnnLrnLayer {
    /** `layer_param_`, `phase_` and the `Dtype` of the instantiation. */
    const config: Config

    var size: int
    var alpha: Scalar
    var beta: Scalar
    var k: Scalar
    var width: int
    var height: int
    var num: int
    var channels: int
    /** The forward primitive and everything bound to it; `None` while `lrnFwd_pd` is null. */
    var plan: Option<Plan>
    /** How many times a plan has been built. */
    ghost var builds: nat
    /** The layer's build and forward steps, in the order they happened. */
    ghost var log: seq<Event>
    /** The blobs the input and output adapters were bound to when the plan was built. */
    var boundBottom: Blob?
    var boundTop: Blob?

    ghost function State(): (s: LayerState)
      reads this
    {
      LayerState(size, alpha, beta, k, width, height, num, channels, plan, builds, log)
    }

    ghost predicate Valid()
      reads this
    {
      Inv(State()) && (plan.Some? ==> boundBottom != null && boundTop != null)
    }

    /** The blob a forward call given `top` writes to: `top` itself when it
        builds the plan, otherwise the top the output adapter was bound to. */
    ghost function WriteTarget(top: Blob): (w: Blob)
      requires Valid()
      reads this
    {
      if plan.None? then top else boundTop
    }

    constructor (config: Config)
      ensures Valid() && this.config == config && State() == Initial
      ensures boundBottom == null && boundTop == null
    {
      this.config := config;
      size, alpha, beta, k := 0, Scalar(0), Scalar(0), Scalar(0);
      width, height, num, channels := 0, 0, 0, 0;
      plan := None;
      builds, log := 0, [];
      boundBottom, boundTop := null, null;
      InitialInv();
    }

    /** `LayerSetUp`: the window size must be odd. */
    method LayerSetUp() returns (st: Status)
      requires Valid()
      modifies this
      ensures Valid()
      ensures Configured(State(), st) == SetUpSpec(old(State()), config.param)
      ensures boundBottom == old(boundBottom) && boundTop == old(boundTop)
    {
      SetUpPreservesInv(State(), config.param);
      size := Int32Of(config.param.localSize);
      if CppRem(size, 2) != 1 {
        return Failure(InvalidConfiguration);
      }
      st := Success;
    }

    /** `Reshape`: store the constants and dimensions, check the rank, shape the top. */
    method Reshape(bottom: Blob, top: Blob) returns (st: Status)
      requires Valid()
      modifies this, top
      ensures Valid()
      ensures Outcome(State(), top.Value(), st) ==
              ReshapeSpec(old(State()), config.param, old(bottom.Value()), old(top.Value()))
      ensures boundBottom == old(boundBottom) && boundTop == old(boundTop)
    {
      ReshapePreservesInv(State(), config.param, bottom.Value(), top.Value());
      var shape := bottom.shape;
      alpha := config.param.alpha;
      beta := config.param.beta;
      k := config.param.k;
      width := LegacyDim(shape, 3);
      height := LegacyDim(shape, 2);
      num := LegacyDim(shape, 0);
      channels := LegacyDim(shape, 1);
      if |shape| != 4 {
        return Failure(InvalidShape);
      }
      match config.param.normRegion
      case AcrossChannels =>
        top.Reshape4(num, channels, height, width);
        st := Success;
      case WithinChannel =>
        st := Failure(NotImplemented);
      case OtherRegion(_) =>
        st := Failure(UnknownRegion);
    }

    /** `InitLRN`: choose propagation kind, algorithm and layouts, and build the plan. */
    method InitLrn(bottom: Blob, top: Blob) returns (st: Status)
      requires Valid() && plan.None?
      modifies this
      ensures Valid()
      ensures Configured(State(), st) == InitSpec(config, old(State()), bottom.Value())
      ensures st.Success? ==> boundBottom == bottom && boundTop == top
      ensures st.Failure? ==> boundBottom == old(boundBottom) && boundTop == old(boundTop)
    {
      InitPreservesInv(config, State(), bottom.Value());
      if config.precision == F64 {
        return Failure(NotImplemented);
      }
      var propagation := if config.phase == Test then ForwardScoring else ForwardTraining;
      var algorithm: Algorithm;
      match config.param.normRegion {
        case AcrossChannels =>
          algorithm := LrnAcrossChannels;
        case WithinChannel =>
          algorithm := LrnWithinChannel;
        case OtherRegion(_) =>
          return Failure(UnknownRegion);
      }
      var inputLayout: MemDesc;
      var usrLayout: MemDesc;
      var prvLayout: Option<MemDesc>;
      if bottom.prv.Some? {
        inputLayout := bottom.prv.value.prv;
        usrLayout := bottom.prv.value.usr;
        prvLayout := Some(bottom.prv.value.prv);
      } else {
        inputLayout := MemDesc([num, channels, height, width], Nchw);
        usrLayout := inputLayout;
        prvLayout := None;
      }
      var outputLayout := inputLayout;
      boundBottom, boundTop := bottom, top;
      plan := Some(Plan(algorithm, propagation, inputLayout, outputLayout,
                        alpha, beta, size, usrLayout, prvLayout));
      builds := builds + 1;
      log := log + [BuildPlan];
      st := Success;
    }

    /** `fwd_bottom_data->sync_before_read`: reorder the input if it arrives in another layout. */
    method SyncBeforeReadStep()
      modifies this`log
      ensures log == old(log) + [SyncBeforeRead]
    {
      log := log + [SyncBeforeRead];
    }

    /** `fwd_top_data->sync_before_write`: the top the output adapter is bound
        to now holds the plan's output layout. */
    method SyncBeforeWriteStep()
      requires plan.Some? && boundTop != null
      modifies this`log, boundTop
      ensures log == old(log) + [SyncBeforeWrite]
      ensures boundTop.Value() == old(boundTop.Value()).(prv := OutputTag(plan.value))
    {
      boundTop.SetPrvDescriptor(OutputTag(plan.value));
      log := log + [SyncBeforeWrite];
    }

    /** `lrnFwd.submit()`: run the engine's primitive. */
    method SubmitStep()
      modifies this`log
      ensures log == old(log) + [Submit]
    {
      log := log + [Submit];
    }

    /** `Forward_cpu`: build the plan while there is none, then read-sync,
        write-sync and submit. The blob written is the one bound when the plan
        was built; a different `top` given later is left alone. */
    method ForwardCpu(bottom: Blob, top: Blob) returns (st: Status)
      requires Valid()
      modifies this, top, boundTop
      ensures Valid()
      ensures var w := old(WriteTarget(top));
              Outcome(State(), w.Value(), st) ==
              ForwardSpec(old(State()), config, old(bottom.Value()), old(w.Value()))
      ensures old(WriteTarget(top)) != top ==> top.Value() == old(top.Value())
      ensures st.Success? ==> boundTop == old(WriteTarget(top))
      ensures old(plan).None? && st.Success? ==> boundBottom == bottom
      ensures old(plan).Some? || st.Failure? ==>
                boundBottom == old(boundBottom) && boundTop == old(boundTop)
    {
      ghost var w := WriteTarget(top);
      ghost var r := ForwardSpec(State(), config, bottom.Value(), w.Value());
      ForwardPreservesInv(State(), config, bottom.Value(), w.Value());
      if plan.None? {
        st := InitLrn(bottom, top);
        if st.Failure? {
          return;
        }
      }
      SyncBeforeReadStep();
      SyncBeforeWriteStep();
      SubmitStep();
      st := Success;
      assert State() == r.state;
    }

    /** `Backward_cpu` is not implemented. */
    method BackwardCpu(top: Blob, propagateDown: seq<bool>, bottom: Blob) returns (st: Status)
      ensures st.Failure? && st.error == NotImplemented
    {
      st := Failure(NotImplemented);
    }

    /** `Forward_gpu` is not implemented. */
    method ForwardGpu(bottom: Blob, top: Blob) returns (st: Status)
      ensures st.Failure? && st.error == NotImplemented
    {
      st := Failure(NotImplemented);
    }

    /** `Backward_gpu` is not implemented. */
    method BackwardGpu(top: Blob, propagateDown: seq<bool>, bottom: Blob) returns (st: Status)
      ensures st.Failure? && st.error == NotImplemented
    {
      st := Failure(NotImplemented);
    }
  }

  /** A client: set up with window 5, reshape to (2, 8, 4, 4) and run forward
      twice; the top keeps the bottom's shape and the plan is built once. */
  method ForwardTwice(alpha: Scalar, beta: Scalar, k: Scalar, phase: Phase)
  {
    var cfg := Config(LrnParam(5, alpha, beta, k, AcrossChannels), phase, F32);
    var layer := new MkldnnLrnLayer(cfg);
    var st := layer.LayerSetUp();
    assert st == Success;
    var bottom := new Blob([2, 8, 4, 4], None);
    var top := new Blob([], None);
    st := layer.Reshape(bottom, top);
    assert st == Success && top.shape == [2, 8, 4, 4];
    st := layer.ForwardCpu(bottom, top);
    assert st == Success && layer.builds == 1;
    st := layer.ForwardCpu(bottom, top);
    assert st == Success && layer.builds == 1;
    assert layer.plan.value.inputLayout == MemDesc([2, 8, 4, 4], Nchw);
    assert layer.log == [BuildPlan] + Cycle + Cycle;
  }

  /** A client: after the plan is built with one top, a forward call given a
      second top writes to the first one and leaves the second untouched. */
  method ForwardToOtherTop(alpha: Scalar, beta: Scalar, k: Scalar, tag: PrvDescriptor)
  {
    var cfg := Config(LrnParam(3, alpha, beta, k, AcrossChannels), Test, F32);
    var layer := new MkldnnLrnLayer(cfg);
    var bottom := new Blob([1, 3, 1, 1], Some(tag));
    var first := new Blob([1, 3, 1, 1], None);
    var second := new Blob([1, 3, 1, 1], None);
    var st := layer.ForwardCpu(bottom, first);
    assert st == Success && first.prv == Some(tag);
    first.SetPrvDescriptor(None);
    st := layer.ForwardCpu(bottom, second);
    assert st == Success && layer.builds == 1;
    assert first.prv == Some(tag) && second.prv == None;
  }
}
