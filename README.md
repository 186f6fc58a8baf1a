# MKL-DNN Local Response Normalization layer — lifecycle model

Caffe's `MKLDNNLRNLayer` is a forward-only Local Response Normalization layer.
The normalization itself runs inside the MKL-DNN engine. The layer's own code
is the logic around the engine call:

- `LayerSetUp` validates the window size.
- `Reshape` stores the constants and the bottom's dimensions, checks the rank and shapes the top.
- `InitLRN` builds a forward plan: element precision, propagation kind, algorithm,
  memory-layout negotiation and the LRN descriptor.
- `Forward_cpu` builds that plan lazily, exactly once. On every call it then
  read-syncs the input, write-syncs the output and submits the primitive.
- Backward and the GPU variants always fail.

The project has four modules:

- `LrnTypes` (`lrn_types.dfy`) holds the values: configuration, tensors as
  shape plus optional private-layout descriptor, memory descriptors, the `Plan`
  record, error kinds, and the layer state as a value (`LayerState`).
- `LrnSpec` (`lrn_spec.dfy`) states each call as a function from the old layer
  state to the new one. The functions' contracts give the success and error
  conditions, the fixed mappings and the layout rules.
- `LrnProperties` (`lrn_properties.dfy`) holds the layer invariant and the
  properties that span several calls. A plan is built at most once. Any run of
  forward calls builds it exactly once and logs read-sync, write-sync, submit
  per call. A later reshape never causes a rebuild. `k` never reaches the plan.
- `LrnLayer` (`lrn_layer.dfy`) is the layer object. Class `MkldnnLrnLayer`
  has the source's fields, an `Option<Plan>` in place of the `lrnFwd_pd`
  pointer, a ghost build counter and a ghost event log. It also records the
  bottom and top blobs the data adapters were bound to when the plan was built.
  Class `Blob` stands for the blobs the layer reads and reshapes in place.
  `LayerSetUp`, `Reshape` and `ForwardCpu` are each proved to produce exactly
  the new state and blob that their `LrnSpec` function gives, and to keep the
  invariant. `InitLrn` is proved equal to `LrnSpec.InitSpec`; it is called
  only on a layer without a plan and keeps the invariant too.

Each abort becomes an `Error` kind:

- the window-size `CHECK` becomes `InvalidConfiguration`;
- the rank `CHECK` becomes `InvalidShape`;
- `NOT_IMPLEMENTED` becomes `NotImplemented`;
- `LOG(FATAL)` on an unknown region becomes `UnknownRegion`.

Fields that the code assigns before a failing check stay assigned in the
model:

- `size_` in `LayerSetUp`;
- the constants and dimensions in `Reshape`.

Behaviours of the code worth noting:

- The adapters are bound to the bottom and top blobs of the call that builds
  the plan (lines 106 and 109). The later read-sync and write-sync take no blob
  (lines 126 and 128), so they act on those bound blobs. A forward call given
  a different top therefore tags the first top and leaves the new one alone
  (`ForwardCpu`, and the client `LrnLayer.ForwardToOtherTop`).
- `InitLRN` maps `WITHIN_CHANNEL` to the engine's `within_channel` algorithm.
  It does not fail there; only `Reshape` rejects that region.
- `size_` is a signed `int` and `local_size` an unsigned 32-bit field. These
  types come from the layer header and `caffe.proto`, which are not part of
  this model. The check `size_ % 2 == 1` uses C++'s truncating remainder on
  the converted value. So an odd `local_size` of 2^31 or more wraps negative
  and is rejected too (`SetUpSpec`). Nothing else checks that the size is
  positive.
- After a plan exists, nothing rebuilds it. A `Reshape` to other dimensions, or
  a bottom arriving in another layout, leaves the plan as it was built
  (`PlanOutlivesReshape`, `ForwardsBuildOnce`).

The layer's constructor lives in the header, which is not part of this model.
The model's constructor starts from zeroed fields and no plan (`LrnSpec.Initial`).

## Model

| member | source | states |
|---|---|---|
| LrnSpec.Int32Of | src/caffe/layers/mkldnn_lrn_layer.cpp:18 | storing the unsigned `local_size` in the signed `size_` gives the value congruent to it mod 2^32 in the 32-bit range, non-negative exactly when it is below 2^31 |
| LrnSpec.CppRem | src/caffe/layers/mkldnn_lrn_layer.cpp:19 | C++ `%`: the remainder has the dividend's sign, magnitude abs(a) mod b, and lies strictly between `-b` and `b` |
| LrnSpec.SetUpSpec | src/caffe/layers/mkldnn_lrn_layer.cpp:11-24 | `size_` becomes the configured window size (as a 32-bit int) and nothing else changes; the call succeeds iff `local_size` is odd and below 2^31, otherwise fails with `InvalidConfiguration` |
| LrnSpec.ReshapeSpec | src/caffe/layers/mkldnn_lrn_layer.cpp:27-54 | alpha, beta, k come from the parameters; with 4 axes the stored dims equal the bottom's shape; plan, size, counter and log unchanged; success iff 4 axes and ACROSS_CHANNELS, then the top's shape equals the bottom's and its layout tag is kept; otherwise `InvalidShape` (rank checked first), `NotImplemented` (WITHIN_CHANNEL) or `UnknownRegion`, top untouched |
| LrnSpec.InitPlan | src/caffe/layers/mkldnn_lrn_layer.cpp:57-115 | success iff single precision and a known region; double gives `NotImplemented` first; `forward_scoring` iff TEST; ACROSS_CHANNELS gives `across_channels` and WITHIN_CHANNEL `within_channel`; with private data the input layout is the bottom's private one and the adapters get its user/private pair; otherwise the input is `nchw` over the stored dims and is also the user layout; output layout equals input layout; the top's tag will equal the bottom's; the descriptor carries exactly `alpha_`, `beta_`, `size_` |
| LrnSpec.ForwardSpec | src/caffe/layers/mkldnn_lrn_layer.cpp:118-131 | an existing plan is reused unchanged with no new build; without one the call succeeds iff a plan can be built and builds it once; on success the log gains [build] + read-sync, write-sync, submit and the top carries the plan's layout, which for a fresh plan is the bottom's (the top here is the blob the output adapter is bound to); the top's shape is kept; only plan, counter and log change; failure changes nothing |
| LrnProperties.InitialInv | src/caffe/layers/mkldnn_lrn_layer.cpp:21-23 | a fresh layer has no plan, a zero counter and no build logged |
| LrnProperties.SetUpPreservesInv | src/caffe/layers/mkldnn_lrn_layer.cpp:11-24 | `LayerSetUp` keeps the build-once invariant |
| LrnProperties.ReshapePreservesInv | src/caffe/layers/mkldnn_lrn_layer.cpp:27-54 | `Reshape` keeps the build-once invariant |
| LrnProperties.InitPreservesInv | src/caffe/layers/mkldnn_lrn_layer.cpp:57-115 | building a plan on a layer without one keeps the invariant, whether the build succeeds or fails |
| LrnProperties.ForwardPreservesInv | src/caffe/layers/mkldnn_lrn_layer.cpp:123-124 | a forward call keeps the invariant: counter is 1 iff a plan exists, and the log records exactly that many builds |
| LrnProperties.ForwardsBuildOnce | src/caffe/layers/mkldnn_lrn_layer.cpp:118-131 | any n >= 1 consecutive forward calls succeed iff a plan existed or can be built from the first bottom; then the counter is exactly 1, an existing plan is kept, a new one comes from the first bottom, and the log gains [build] + n copies of read-sync, write-sync, submit |
| LrnProperties.PlanOutlivesReshape | src/caffe/layers/mkldnn_lrn_layer.cpp:123-124 | once a plan exists, a reshape to new dims followed by forward calls keeps the plan and a counter of 1, though the stored dims are the new ones |
| LrnProperties.PlanIgnoresK | src/caffe/layers/mkldnn_lrn_layer.cpp:98-99 | the plan does not depend on the stored `k_` |
| LrnLayer.Blob.Reshape4 | src/caffe/layers/mkldnn_lrn_layer.cpp:46 | the top's shape becomes (num, channels, height, width), its layout tag unchanged |
| LrnLayer.Blob.SetPrvDescriptor | src/caffe/layers/mkldnn_lrn_layer.cpp:128 | the blob's layout tag becomes the given one, its shape unchanged |
| LrnLayer.MkldnnLrnLayer.LayerSetUp | src/caffe/layers/mkldnn_lrn_layer.cpp:11-24 | the new state and status are those of `SetUpSpec`; the invariant is kept |
| LrnLayer.MkldnnLrnLayer.Reshape | src/caffe/layers/mkldnn_lrn_layer.cpp:27-54 | the new state, top blob and status are those of `ReshapeSpec`; the invariant is kept |
| LrnLayer.MkldnnLrnLayer.InitLrn | src/caffe/layers/mkldnn_lrn_layer.cpp:57-115 | on a layer without a plan, the new state and status are those of `InitSpec`: success iff single precision and a known region, then the plan and one logged build, otherwise nothing changes; on success the adapters are bound to the given bottom and top; the invariant is kept |
| LrnLayer.MkldnnLrnLayer.SyncBeforeReadStep | src/caffe/layers/mkldnn_lrn_layer.cpp:126 | logs the read-sync |
| LrnLayer.MkldnnLrnLayer.SyncBeforeWriteStep | src/caffe/layers/mkldnn_lrn_layer.cpp:128 | logs the write-sync and tags the top bound at build time with the plan's output layout |
| LrnLayer.MkldnnLrnLayer.SubmitStep | src/caffe/layers/mkldnn_lrn_layer.cpp:130 | logs the submit |
| LrnLayer.MkldnnLrnLayer.ForwardCpu | src/caffe/layers/mkldnn_lrn_layer.cpp:118-131 | the new state, the blob written and the status are those of `ForwardSpec`; the blob written is the given top when the call builds the plan (which then binds it) and the top bound at build time otherwise, and a different given top is left unchanged; the invariant is kept |
| LrnLayer.MkldnnLrnLayer.BackwardCpu | src/caffe/layers/mkldnn_lrn_layer.cpp:133-137 | always fails with `NotImplemented` |
| LrnLayer.MkldnnLrnLayer.ForwardGpu | src/caffe/layers/mkldnn_lrn_layer.cpp:142-145 | always fails with `NotImplemented` |
| LrnLayer.MkldnnLrnLayer.BackwardGpu | src/caffe/layers/mkldnn_lrn_layer.cpp:146-150 | always fails with `NotImplemented` |

## Left out

- The LRN arithmetic, the engine's primitive descriptor and primitive execution: these run in the MKL-DNN engine. `submit` is a logged step.
- The scratch buffer (lines 102-103): the engine sizes it, so the plan records nothing for it.
- Engine allocation failure: the engine is not part of this model, so no call fails for lack of resources.
- `MKLDNNData` internals (`sync_before_read`, `sync_before_write`, `create_input`, `create_output_memory`) and `get_mkldnn_prv_descriptor`: this is foreign reorder and memory code. The model keeps each of them as a logged step or a layout tag. The top's tag after write-sync is the adapters' user/private pair when there is a private layout, and none otherwise.
- `Blob` internals: a missing axis reads as 1. The blob's own check that the rank is at most 4 is not modelled, so a rank above 4 fails with `InvalidShape`.
- Blob vectors: only `bottom[0]` and `top[0]` are modelled.
- The base class `Layer::LayerSetUp`, which does nothing here.
- `CpuEngine::Instance()`: a process-wide engine singleton.
- `VLOG` and `LOG` output.
- The numeric values of alpha, beta and k: these are floats, kept as opaque bit patterns that are stored and forwarded.
- Thread safety of the check-then-build in `Forward_cpu`: calls are modelled as sequential.
- `STUB_GPU` under `CPU_ONLY` (line 140): it fails like the not-implemented GPU methods, and the model has only the latter.
- LrnLayer.MkldnnLrnLayer.SyncBeforeReadStep: records the step; the reorder it may perform on the data is not modelled.
- LrnLayer.Blob.Reshape4: sets the shape and keeps the layout tag. `Blob::Reshape` is not part of this model; when the element count grows it allocates new storage, which may drop a private descriptor the top held.
