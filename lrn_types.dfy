/** Value types of the MKL-DNN backed Local Response Normalization layer:
    its configuration, the tensors it sees, the memory layouts it negotiates
    and the forward plan it builds once. */
module LrnTypes {

  datatype Option<T> = None | Some(value: T)

  /** The ways a layer call can abort. `CHECK` failures on the configuration
      and on the input rank, `NOT_IMPLEMENTED` and `LOG(FATAL)` each get a kind. */
  datatype Error =
    | InvalidConfiguration   // the window size fails the odd check
    | InvalidShape           // the bottom does not have four axes
    | NotImplemented         // a path the layer deliberately does not provide
    | UnknownRegion          // the normalization region is neither of the two known ones

  datatype Status = Success | Failure(error: Error)

  datatype Result<T> = Ok(value: T) | Err(error: Error)

  /** An unsigned 32-bit protobuf field (`local_size`). */
  type Uint32 = x: int | 0 <= x < 0x1_0000_0000

  /** A floating-point configuration constant, kept as its bit pattern:
      the layer only stores and forwards alpha, beta and k. */
  datatype Scalar = Scalar(bits: int)

  /** `LRNParameter_NormRegion`; any other enum value is `OtherRegion`. */
  datatype NormRegion = AcrossChannels | WithinChannel | OtherRegion(code: int)

  /** The network phase the layer runs in. */
  datatype Phase = Train | Test

  /** The element type `Dtype` the layer template is instantiated with. */
  datatype Precision = F32 | F64

  /** `prop_kind` of the engine's LRN descriptor. */
  datatype PropKind = ForwardTraining | ForwardScoring

  /** `lrn::algorithm` of the engine's LRN descriptor. */
  datatype Algorithm = LrnAcrossChannels | LrnWithinChannel

  /** A memory format: the plain `nchw` layout or a vendor-private one. */
  datatype Format = Nchw | Private(tag: nat)

  /** A memory descriptor: dimensions and format (precision is always f32). */
  datatype MemDesc = MemDesc(dims: seq<int>, format: Format)

  /** The private-layout descriptor a producer leaves on a blob: the user
      (plain) descriptor and the private one its data is actually kept in. */
  datatype PrvDescriptor = PrvDescriptor(usr: MemDesc, prv: MemDesc)

  /** A blob as the layer sees it: its shape and, when it holds private data,
      the descriptor of that data. */
  datatype Tensor = Tensor(shape: seq<int>, prv: Option<PrvDescriptor>)

  /** `lrn_param()` of the layer's configuration. */
  datatype LrnParam = LrnParam(localSize: Uint32, alpha: Scalar, beta: Scalar, k: Scalar,
                               normRegion: NormRegion)

  /** What is fixed when the layer is created: its parameters, the phase and `Dtype`. */
  datatype Config = Config(param: LrnParam, phase: Phase, precision: Precision)

  /** The forward plan built by `InitLRN`: the descriptor's algorithm, propagation
      kind, input and output layouts and constants, and the user/private layout
      pair both data adapters are built from. */
  datatype Plan = Plan(algorithm: Algorithm, propagation: PropKind,
                       inputLayout: MemDesc, outputLayout: MemDesc,
                       alpha: Scalar, beta: Scalar, size: int,
                       usrLayout: MemDesc, prvLayout: Option<MemDesc>)

  /** Observable steps of the layer: a plan build and the three steps of a forward call. */
  datatype Event = BuildPlan | SyncBeforeRead | SyncBeforeWrite | Submit

  /** The layer's fields, with the build counter and the event log. */
  datatype LayerState = LayerState(size: int, alpha: Scalar, beta: Scalar, k: Scalar,
                                   width: int, height: int, num: int, channels: int,
                                   plan: Option<Plan>, builds: nat, log: seq<Event>)

  /** A state change together with the status of the call that made it. */
  datatype Configured = Configured(state: LayerState, status: Status)

  /** A state change, the output blob after the call, and the call's status. */
  datatype Outcome = Outcome(state: LayerState, top: Tensor, status: Status)
}
