# DorefaConv2d, modelled in Dafny

This project models TensorLayer's `DorefaConv2d` layer, a 2-D convolution with
DoReFa quantization. Its weights are quantized to `bitW` bits and its input
activations to `bitA` bits. The model covers four parts of the layer:

- **Construction.** `__init__` stores its arguments. When `in_channels` is
  truthy it builds the layer at once. Then it rejects `use_gemm`, and then
  `strides` whose length is not 2.
- **Build.** `build` works in this order:
  - it rewrites `channels_last` / `channels_first` to the tag `NHWC` / `NCHW`;
  - it resolves the input channel count, from `in_channels` or from the input shape;
  - it lays the stride and dilation pairs out on four axes;
  - it computes the filter shape `(fh, fw, in_channels, n_filter)`;
  - it registers the "filters" weight, and the "biases" weight when `b_init` is given.
- **Forward.** `forward` is the chain `cabs` → `quantize_active` → `conv2d`
  (with the quantized filter) → `bias_add` → activation.
- **Representation.** `__repr__` picks its template segments.

Files:

- `wrappers.dfy`: `Option` and `Result`.
- `tensors.dfy`: tensors as uninterpreted terms. `cabs`, the quantizers,
  `conv2d`, `bias_add` and the activation only build a term. The module also
  has the functions that read a term back: the path data takes, the convolution
  node, the bias-add node, and the bias operand.
- `dorefa_conv.dfy`: the layer itself.
  - The `DorefaConv2d` class. The arguments `__init__` stores and nothing
    reassigns are the `const args`. The attributes `build` rewrites are `var`
    fields: `data_format`, `in_channels`, `pre_channel`, `_strides`,
    `_dilation_rate`, `filter_shape`, `W`, `b`, `_built`, and the registry of
    `_get_weights` calls.
  - Pure reference functions on a `LayerState` value: `BuildStep` (with
    `LayOut` and `RegisterWeights`) and `Construct`. Each method is proved
    equal to its function, and the properties are proved about the functions.

Python's behaviour is written out explicitly:

- truthiness of `in_channels`: `None` and `0` are false;
- negative indexing, for `inputs_shape[-1]`;
- `None[...]` raises `TypeError`;
- indexing a short `strides`, `dilation_rate` or `filter_size` raises `IndexError`.

An exception becomes an `Error` value: a `Failure` for `New` and
`Forward`, and `Some(err)` returned by `Build`.

A failed `build` is not rolled back. `data_format` has already been rewritten
to its tag, and `in_channels` / `pre_channel` may already be set, when an
`IndexError` is raised from `_strides`, `_dilation_rate` or `filter_size`. A
description of the layer as an all-or-nothing build would be wrong here. The
model follows the code, and `FailedBuildIsPartial` states what is left behind.

## Model

| member | source | states |
|---|---|---|
| DorefaConv.DorefaConv2d.constructor | tensorlayer/layers/convolution/dorefa_conv.py:78-92 | the attribute assignments: public arguments kept, `_strides`/`_dilation_rate` aliasing `strides`/`dilation_rate`, nothing built, no weight registered, and the layer is consistent |
| DorefaConv.DorefaConv2d.New | tensorlayer/layers/convolution/dorefa_conv.py:61-109 | constructing either raises exactly the exception the reference `Construct` names, or yields a fresh, consistent layer whose attributes are those `Construct` computes (eager build when `in_channels` is truthy, then the `use_gemm` and `len(strides)` checks) |
| DorefaConv.DorefaConv2d.GetWeights | tensorlayer/layers/convolution/dorefa_conv.py:152-158 | one weight request appends exactly one (name, shape, initializer) registration and changes nothing else; the handle is the parameter of that name and shape |
| DorefaConv.DorefaConv2d.Build | tensorlayer/layers/convolution/dorefa_conv.py:125-158 | the new attributes and the raised exception are exactly those of the reference build step, whatever the old state, and a consistent layer stays consistent even when the build raises |
| DorefaConv.DorefaConv2d.LayOutAxes | tensorlayer/layers/convolution/dorefa_conv.py:134-135 | after the channel count is known, the strides are expanded and then the dilation, and then the weights are created, with the same partial state on each `IndexError` as the reference |
| DorefaConv.DorefaConv2d.CreateWeights | tensorlayer/layers/convolution/dorefa_conv.py:148-158 | `filter_shape`, then "filters", then "biases" only when `b_init` is given, exactly as the reference registration step; a short `filter_size` raises before anything is registered |
| DorefaConv.DorefaConv2d.Forward | tensorlayer/layers/convolution/dorefa_conv.py:160-181 | forward fails (missing attribute) exactly when `W` is absent, or when `b_init` is given and `b` is absent; otherwise it yields an output |
| DorefaConv.DorefaConv2d.ReprSegments | tensorlayer/layers/convolution/dorefa_conv.py:111-122 | the template opens with the header and closes with ")"; the dilation part appears iff `dilation_rate` is not all ones, "bias=False" iff `b_init` is None, the name part iff `name` is not None; each optional part occurs at most once, the list has exactly those parts plus header, activation and ")"; the dilation part comes right after the header, "bias=False" right before the activation name, and the name part after the activation name |
| DorefaConv.DorefaConv2d.Repr | tensorlayer/layers/convolution/dorefa_conv.py:111-123 | the rendered template starts with the class-name/channels/kernel/strides/padding header and ends with the activation name, then `name='{name}'` when named, then ")" |
| DorefaConv.DilationShownIff | tensorlayer/layers/convolution/dorefa_conv.py:115-116 | `dilation_rate != (1,) * len(dilation_rate)` holds exactly when some dilation entry differs from 1 |
| DorefaConv.ExpandFollowsTag | tensorlayer/layers/convolution/dorefa_conv.py:134-144 | the four-axis strides/dilation put the height and width values on the axes the tag calls 'H' and 'W' and 1 on 'N' and 'C', for both channel orders |
| DorefaConv.BuildKeepsConsistent | tensorlayer/layers/convolution/dorefa_conv.py:125-158 | every build, successful or raising, preserves the layer invariant (tag after any weight, filter shape and weights matching the arguments, internal strides/dilation matching the public ones) |
| DorefaConv.BuildRaises | tensorlayer/layers/convolution/dorefa_conv.py:127-158 | the exception build raises, in Python's order: bad `data_format`; `None` input shape or too few axes (only when `in_channels` is not truthy); short strides, dilation or `filter_size`; and none otherwise |
| DorefaConv.SecondBuildFails | tensorlayer/layers/convolution/dorefa_conv.py:127-146 | any build after any build raises the `data_format` exception and changes nothing, because `data_format` now holds a tag |
| DorefaConv.FailedBuildIsPartial | tensorlayer/layers/convolution/dorefa_conv.py:127-150 | a build that raises after the channel-order check leaves `data_format` rewritten to its tag but registers no weight and sets no `W`, `b` or `filter_shape` |
| DorefaConv.ConfiguredChannelsIgnoreShape | tensorlayer/layers/convolution/dorefa_conv.py:129-130 | with a truthy `in_channels` the input shape is never read (any two shapes give the same outcome) and `pre_channel` becomes `in_channels` |
| DorefaConv.ChannelsReadFromShape | tensorlayer/layers/convolution/dorefa_conv.py:131-142 | otherwise `pre_channel` and `in_channels` become `inputs_shape[-1]` (channels last) or `inputs_shape[1]` (channels first); on a 4-D shape that is the axis the tag names 'C' |
| DorefaConv.BuildLaysOutByTag | tensorlayer/layers/convolution/dorefa_conv.py:127-144 | a successful build maps `channels_last`↔`NHWC` and `channels_first`↔`NCHW` and lays `_strides` and `_dilation_rate` out on the tag's four axes |
| DorefaConv.RegisterWeightsEffect | tensorlayer/layers/convolution/dorefa_conv.py:148-158 | the registration step sets the filter shape from `filter_size`, `pre_channel` and `n_filter`, adds one "filters" registration with `W_init`, and one "biases" registration of shape (n_filter,) with `b_init` exactly when `b_init` is given; the new registry is the old one with exactly these entries appended, in that order |
| DorefaConv.BuildRegistersWeights | tensorlayer/layers/convolution/dorefa_conv.py:125-158 | the same for a whole successful build: filter shape `(fh, fw, channels, n_filter)`, one more "filters" weight, one more "biases" weight iff `b_init` is given, appended in that order to the registry, which otherwise keeps every earlier registration |
| DorefaConv.ConstructBuildsIffInChannels | tensorlayer/layers/convolution/dorefa_conv.py:94-96 | a constructed layer is built iff `in_channels` is truthy; otherwise it is exactly the stored arguments; when built it holds `W`, the configured channel count and a tag |
| DorefaConv.ConstructSucceedsIff | tensorlayer/layers/convolution/dorefa_conv.py:94-109 | construction succeeds iff `use_gemm` is false, `len(strides) == 2`, and, when building eagerly, `data_format` is valid and `dilation_rate` and `filter_size` have two entries |
| DorefaConv.ConstructRaisesInOrder | tensorlayer/layers/convolution/dorefa_conv.py:94-109 | the eager build's exception wins over `use_gemm`, which wins over the strides-length check |
| DorefaConv.ShortStridesFailInBuild | tensorlayer/layers/convolution/dorefa_conv.py:94-109 | strides shorter than 2 raise `IndexError` inside the eager build (before the `ValueError` check); without the eager build, the length check raises |
| DorefaConv.ForwardNeedsBuild | tensorlayer/layers/convolution/dorefa_conv.py:160-181 | on a consistent layer, forward succeeds exactly when the layer has been built |
| DorefaConv.ForwardOrder | tensorlayer/layers/convolution/dorefa_conv.py:162-179 | the data path through the output is cabs, quantize_active, conv2d, then bias_add iff `b_init`, then the activation iff `act` |
| DorefaConv.ForwardOperands | tensorlayer/layers/convolution/dorefa_conv.py:162-179 | the convolution takes the quantized activations (`bitA`), the quantized stored filter (`bitW`), the internal four-axis strides and dilation, `padding`, the tag and the layer name; when `b_init` is given the bias-add adds the stored `b` to that convolution in the layer's `data_format`; the outermost node applies the layer's own `act` exactly when `act` is set |

## Left out

- Numeric semantics: `cabs`, `quantize_active`, `quantize_weight`, `conv2d`, `bias_add` and the activation are uninterpreted constructors. The model states which primitives are applied, in what order and to which operands, not the values they compute, and not the output shape.
- Initializers: `W_init` and `b_init` are opaque values that are recorded in the registration and never evaluated. Every initializer object is taken as truthy, so `if self.b_init` means "is not None".
- Activation: an activation is known only by its `__name__`, and any activation given is taken as truthy.
- The base `Layer` class is not part of this model. Its `_get_weights` is modelled as appending a registration to a registry that starts empty. Its lazy build on the first call (which also sets `_built`) is not modelled; only the eager path sets `built`.
- Logging: the `logging.info` call in `__init__` is left out; it has no effect on the state.
- DorefaConv.DorefaConv2d.Repr: returns the template before `str.format` substitutes the attribute values. Formatting of Python values (tuples, `None`, the class name) is not modelled.
- DorefaConv.DilationShownIff: `dilation_rate` is taken to be a tuple. A list never compares equal to `(1,) * n` in Python, so it would always show the dilation part.
- Input shapes are sequences of known integers. `None` entries of a partially known shape, and non-integer strides or sizes, are not modelled.
