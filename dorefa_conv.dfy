/**
  `DorefaConv2d`: a 2D convolution layer whose input activations are quantized
  to `bitA` bits and whose filters are quantized to `bitW` bits.

  The layer is unbuilt after construction unless `in_channels` is given; `build`
  resolves the channel order and the input-channel count, lays the strides and
  the dilation out over four axes, and registers the filter and bias weights,
  rewriting several of the layer's attributes in place.
*/
module DorefaConv {
  import opened Wrappers
  import opened Tensors

  /** The exceptions the layer raises, or that Python raises inside it. */
  datatype Error =
    | GemmUnsupported    // `use_gemm` was requested
    | StridesArity       // ValueError: `strides` does not have two entries
    | BadDataFormat      // `data_format` is neither "channels_last" nor "channels_first"
    | IndexOutOfRange    // IndexError: a tuple or list subscripted past its end
    | NotSubscriptable   // TypeError: the input shape subscripted is None
    | MissingAttribute   // AttributeError: `W` or `b` read before build assigned it

  /** Weight initializers; only their identity matters to the layer. */
  datatype Initializer = TruncatedNormal(stddev: real) | Constant(value: real) | Custom(name: string)

  /** One call of the base layer's `_get_weights`: the weight's name, shape and initializer. */
  datatype Registration = Registration(name: string, shape: seq<int>, init: Initializer)

  const ChannelsLast := "channels_last"
  const ChannelsFirst := "channels_first"
  const Nhwc := "NHWC"
  const Nchw := "NCHW"
  const FiltersName := "filters"
  const BiasesName := "biases"

  /** The constructor's arguments, with the same defaults. */
  datatype Args = Args(
    bitW: int := 1,
    bitA: int := 3,
    nFilter: int := 32,
    filterSize: seq<int> := [3, 3],
    strides: seq<int> := [1, 1],
    act: Option<Activation> := None,
    padding: string := "SAME",
    useGemm: bool := false,
    dataFormat: string := ChannelsLast,
    dilationRate: seq<int> := [1, 1],
    wInit: Initializer := TruncatedNormal(0.02),
    bInit: Option<Initializer> := Some(Constant(0.0)),
    inChannels: Option<int> := None,
    name: Option<string> := Some("dorefa_cnn2d"))

  /**
    The attributes that build rewrites, as one value: `data_format`, `in_channels`,
    `pre_channel`, `_strides`, `_dilation_rate`, `filter_shape`, `W`, `b`, `_built`,
    and the weights registered so far. An attribute Python has not assigned yet is None.
  */
  datatype LayerState = LayerState(
    dataFormat: string,
    inChannels: Option<int>,
    preChannel: Option<int>,
    stridesInternal: seq<int>,
    dilationInternal: seq<int>,
    filterShape: Option<seq<int>>,
    W: Option<Tensor>,
    b: Option<Tensor>,
    built: bool,
    weights: seq<Registration>)

  /** What a build call leaves behind: the layer's attributes and the exception raised, if any. */
  datatype BuildOutcome = BuildOutcome(state: LayerState, error: Option<Error>)

  /** Python's truth value of `in_channels`: neither None nor 0. */
  predicate Truthy(n: Option<int>)
  {
    n.Some? && n.value != 0
  }

  predicate IsUserFormat(df: string)
  {
    df == ChannelsLast || df == ChannelsFirst
  }

  predicate IsTag(df: string)
  {
    df == Nhwc || df == Nchw
  }

  /** The 4-axis tag of the channel order: channels last or channels first. */
  function Tag(last: bool): (t: string)
    ensures |t| == 4 && IsTag(t)
    ensures (t == Nhwc) == last
    ensures t[0] == 'N' && t[if last then 3 else 1] == 'C'
  {
    if last then Nhwc else Nchw
  }

  /** Python's `s[i]` on a list of ints, negative indices counting from the end. */
  function PyIndex(s: seq<int>, i: int): Result<int, Error>
  {
    if -|s| <= i < |s| then Success(s[if i < 0 then |s| + i else i]) else Failure(IndexOutOfRange)
  }

  /** `inputs_shape[i]`, where `inputs_shape` may be None. */
  function ShapeAt(shape: Option<seq<int>>, i: int): Result<int, Error>
  {
    if shape.None? then Failure(NotSubscriptable) else PyIndex(shape.value, i)
  }

  /** The input-channel count: `in_channels` when truthy, else the channel axis of the input shape. */
  function ResolveChannels(inChannels: Option<int>, shape: Option<seq<int>>, last: bool): Result<int, Error>
  {
    if Truthy(inChannels) then Success(inChannels.value) else ShapeAt(shape, if last then -1 else 1)
  }

  /** A (height, width) pair laid out over the four axes, 1 at the batch and channel axes. */
  function Expand(last: bool, hw: seq<int>): Result<seq<int>, Error>
  {
    if |hw| < 2 then Failure(IndexOutOfRange)
    else if last then Success([1, hw[0], hw[1], 1])
    else Success([1, 1, hw[0], hw[1]])
  }

  /** What the axis named `axis` of a 4-axis tag takes from a (height, width) pair. */
  function AxisValue(axis: char, hw: seq<int>): int
    requires |hw| >= 2
  {
    if axis == 'H' then hw[0] else if axis == 'W' then hw[1] else 1
  }

  /** The attributes right after the constructor's assignments, before any build. */
  function Initial(a: Args): (s: LayerState)
  {
    LayerState(a.dataFormat, a.inChannels, None, a.strides, a.dilationRate, None, None, None, false, [])
  }

  /**
    One call of `build(inputs_shape)` on a layer with attributes `s`, step by step
    as Python runs it: an exception leaves the assignments made before it in place.
    First the channel order is checked and rewritten to its tag, and the channel
    count resolved.
  */
  function BuildStep(a: Args, s: LayerState, shape: Option<seq<int>>): BuildOutcome
  {
    if !IsUserFormat(s.dataFormat) then BuildOutcome(s, Some(BadDataFormat))
    else
      var last := s.dataFormat == ChannelsLast;
      var tagged := s.(dataFormat := Tag(last));
      var pre := ResolveChannels(s.inChannels, shape, last);
      if pre.Failure? then BuildOutcome(tagged, Some(pre.error))
      else
        LayOut(a, tagged.(preChannel := Some(pre.value),
                          inChannels := if Truthy(s.inChannels) then s.inChannels else Some(pre.value)), last)
  }

  /** The second part of build: `_strides`, then `_dilation_rate`, laid out over four axes. */
  function LayOut(a: Args, s: LayerState, last: bool): BuildOutcome
    requires s.preChannel.Some?
  {
    var strides := Expand(last, s.stridesInternal);
    if strides.Failure? then BuildOutcome(s, Some(strides.error))
    else
      var withStrides := s.(stridesInternal := strides.value);
      var dilation := Expand(last, s.dilationInternal);
      if dilation.Failure? then BuildOutcome(withStrides, Some(dilation.error))
      else RegisterWeights(a, withStrides.(dilationInternal := dilation.value))
  }

  /** The last part of build: `filter_shape`, the "filters" weight, and the "biases" weight when `b_init` is given. */
  function RegisterWeights(a: Args, s: LayerState): BuildOutcome
    requires s.preChannel.Some?
  {
    if |a.filterSize| < 2 then BuildOutcome(s, Some(IndexOutOfRange))
    else
      var fs := [a.filterSize[0], a.filterSize[1], s.preChannel.value, a.nFilter];
      var withFilters := s.(filterShape := Some(fs), W := Some(Parameter(FiltersName, fs)),
                            weights := s.weights + [Registration(FiltersName, fs, a.wInit)]);
      if a.bInit.None? then BuildOutcome(withFilters, None)
      else
        var bias := [a.nFilter];
        BuildOutcome(withFilters.(b := Some(Parameter(BiasesName, bias)),
                                  weights := withFilters.weights + [Registration(BiasesName, bias, a.bInit.value)]), None)
  }

  /** The eager build of the constructor: its exception propagates, success sets `_built`. */
  function EagerBuild(o: BuildOutcome): Result<LayerState, Error>
  {
    if o.error.Some? then Failure(o.error.value) else Success(o.state.(built := true))
  }

  /**
    `DorefaConv2d(...)`: the attributes of the layer the constructor returns, or the
    exception it raises. The eager build runs before the two validation checks.
  */
  function Construct(a: Args): Result<LayerState, Error>
  {
    var s := Initial(a);
    var afterBuild := if Truthy(a.inChannels) then EagerBuild(BuildStep(a, s, None)) else Success(s);
    if afterBuild.Failure? then afterBuild
    else if a.useGemm then Failure(GemmUnsupported)
    else if |a.strides| != 2 then Failure(StridesArity)
    else afterBuild
  }

  /**
    What holds of a layer's attributes at all times: it is unbuilt while `data_format`
    still holds the user's string, and once `W` exists the layer is built throughout.
  */
  ghost predicate Consistent(a: Args, s: LayerState)
  {
    && (IsUserFormat(s.dataFormat) ==>
          && s.stridesInternal == a.strides && s.dilationInternal == a.dilationRate
          && s.preChannel.None? && s.filterShape.None? && s.W.None? && s.b.None? && !s.built)
    && (s.b.Some? ==> s.W.Some?)
    && (s.built ==> s.W.Some?)
    && (s.W.Some? ==>
          && IsTag(s.dataFormat)
          && s.preChannel.Some? && s.inChannels == s.preChannel
          && |a.filterSize| >= 2
          && s.filterShape == Some([a.filterSize[0], a.filterSize[1], s.preChannel.value, a.nFilter])
          && s.W == Some(Parameter(FiltersName, s.filterShape.value))
          && s.b == (if a.bInit.Some? then Some(Parameter(BiasesName, [a.nFilter])) else None)
          && Expand(s.dataFormat == Nhwc, a.strides) == Success(s.stridesInternal)
          && Expand(s.dataFormat == Nhwc, a.dilationRate) == Success(s.dilationInternal))
  }

  /** How many registrations carry the name `name`. */
  function CountNamed(ws: seq<Registration>, name: string): (n: nat)
    ensures n <= |ws|
    ensures n == 0 <==> forall i | 0 <= i < |ws| :: ws[i].name != name
    ensures n == |ws| <==> forall i | 0 <= i < |ws| :: ws[i].name == name
  {
    if ws == [] then 0 else (if ws[|ws| - 1].name == name then 1 else 0) + CountNamed(ws[..|ws| - 1], name)
  }

  /** The all-ones tuple of length `n`, `(1,) * n`. */
  function Ones(n: nat): (s: seq<int>)
    ensures |s| == n && forall i | 0 <= i < n :: s[i] == 1
  {
    seq(n, _ => 1)
  }

  // ---------------------------------------------------------------------------
  // The layer object
  // ---------------------------------------------------------------------------

  class DorefaConv2d {
    /** The attributes the constructor assigns and nothing reassigns, public `strides` and `dilation_rate` among them. */
    const args: Args

    var dataFormat: string
    var inChannels: Option<int>
    var preChannel: Option<int>
    var stridesInternal: seq<int>      // `_strides`
    var dilationInternal: seq<int>     // `_dilation_rate`
    var filterShape: Option<seq<int>>
    var W: Option<Tensor>
    var b: Option<Tensor>
    var built: bool                    // `_built`
    var weights: seq<Registration>     // every `_get_weights` call so far

    function State(): LayerState
      reads this
    {
      LayerState(dataFormat, inChannels, preChannel, stridesInternal, dilationInternal,
                 filterShape, W, b, built, weights)
    }

    ghost predicate Valid()
      reads this
    {
      Consistent(args, State())
    }

    /** The attribute assignments of `__init__`, before its eager build and its checks. */
    constructor (args: Args)
      ensures this.args == args && State() == Initial(args) && Valid()
    {
      this.args := args;
      dataFormat := args.dataFormat;
      inChannels := args.inChannels;
      preChannel := None;
      stridesInternal := args.strides;
      dilationInternal := args.dilationRate;
      filterShape := None;
      W := None;
      b := None;
      built := false;
      weights := [];
    }

    /** `DorefaConv2d(...)`: the layer, or the exception `__init__` raises. */
    static method New(a: Args) returns (r: Result<DorefaConv2d, Error>)
      ensures r.Failure? ==> Construct(a) == Failure(r.error)
      ensures r.Success? ==> fresh(r.value) && r.value.args == a && r.value.Valid()
                             && Construct(a) == Success(r.value.State())
    {
      var layer := new DorefaConv2d(a);
      if Truthy(layer.inChannels) {
        var err := layer.Build(None);
        if err.Some? {
          return Failure(err.value);
        }
        layer.built := true;
      }
      if a.useGemm {
        return Failure(GemmUnsupported);
      }
      if |a.strides| != 2 {
        return Failure(StridesArity);
      }
      return Success(layer);
    }

    /** The base layer's weight registration: records the request and returns a handle. */
    method GetWeights(name: string, shape: seq<int>, init: Initializer) returns (t: Tensor)
      modifies this
      ensures State() == old(State()).(weights := old(weights) + [Registration(name, shape, init)])
      ensures t == Parameter(name, shape)
    {
      weights := weights + [Registration(name, shape, init)];
      t := Parameter(name, shape);
    }

    /** `build(inputs_shape)`; the exception raised, if any, is returned. */
    method Build(inputsShape: Option<seq<int>>) returns (err: Option<Error>)
      modifies this
      ensures BuildOutcome(State(), err) == BuildStep(args, old(State()), inputsShape)
      ensures old(Valid()) ==> Valid()
    {
      if Valid() {
        BuildKeepsConsistent(args, State(), inputsShape);
      }
      var last: bool;
      if dataFormat == ChannelsLast {
        dataFormat := Nhwc;
        last := true;
      } else if dataFormat == ChannelsFirst {
        dataFormat := Nchw;
        last := false;
      } else {
        return Some(BadDataFormat);
      }
      if Truthy(inChannels) {
        preChannel := inChannels;
      } else {
        var channels := ShapeAt(inputsShape, if last then -1 else 1);
        if channels.Failure? {
          return Some(channels.error);
        }
        preChannel := Some(channels.value);
        inChannels := preChannel;
      }
      err := LayOutAxes(last);
    }

    /** The rest of build once the channel count is known: `_strides`, `_dilation_rate`, then the weights. */
    method LayOutAxes(last: bool) returns (err: Option<Error>)
      requires preChannel.Some?
      modifies this
      ensures BuildOutcome(State(), err) == LayOut(args, old(State()), last)
    {
      var strides := Expand(last, stridesInternal);
      if strides.Failure? {
        return Some(strides.error);
      }
      stridesInternal := strides.value;
      var dilation := Expand(last, dilationInternal);
      if dilation.Failure? {
        return Some(dilation.error);
      }
      dilationInternal := dilation.value;
      err := CreateWeights();
    }

    /** The end of build: `filter_shape`, then the "filters" weight and, when `b_init` is given, the "biases" weight. */
    method CreateWeights() returns (err: Option<Error>)
      requires preChannel.Some?
      modifies this
      ensures BuildOutcome(State(), err) == RegisterWeights(args, old(State()))
    {
      if |args.filterSize| < 2 {
        return Some(IndexOutOfRange);
      }
      filterShape := Some([args.filterSize[0], args.filterSize[1], preChannel.value, args.nFilter]);
      var filters := GetWeights(FiltersName, filterShape.value, args.wInit);
      W := Some(filters);
      if args.bInit.Some? {
        var bias := GetWeights(BiasesName, [args.nFilter], args.bInit.value);
        b := Some(bias);
      }
      return None;
    }

    /** `forward(inputs)`: the output tensor, built from the primitives in the layer's order. */
    function Forward(inputs: Tensor): (r: Result<Tensor, Error>)
      reads this
      ensures r.Failure? ==> r.error == MissingAttribute
      ensures r.Success? <==> W.Some? && (args.bInit.Some? ==> b.Some?)
    {
      var activations := QuantizeActive(Cabs(inputs), args.bitA);
      if W.None? then Failure(MissingAttribute)
      else
        var outputs := Conv2d(activations, QuantizeWeight(W.value, args.bitW), stridesInternal,
                              args.padding, dataFormat, dilationInternal, args.name);
        if args.bInit.Some? && b.None? then Failure(MissingAttribute)
        else
          var biased := if args.bInit.Some? then BiasAdd(outputs, b.value, dataFormat) else outputs;
          Success(if args.act.Some? then Activate(args.act.value, biased) else biased)
    }

    /** The segments `__repr__` strings together, in order. */
    function ReprSegments(): (gs: seq<Segment>)
      ensures |gs| >= 3 && gs[0] == Header && gs[|gs| - 1] == Close
      ensures Dilation in gs <==> args.dilationRate != Ones(|args.dilationRate|)
      ensures NoBias in gs <==> args.bInit.None?
      ensures LayerName in gs <==> args.name.Some?
      ensures gs[|gs| - (if args.name.Some? then 3 else 2)] == ActName(ActString(args.act))
      ensures args.name.Some? ==> gs[|gs| - 2] == LayerName
      ensures |gs| == 3 + (if Dilation in gs then 1 else 0) + (if NoBias in gs then 1 else 0)
                        + (if LayerName in gs then 1 else 0)
      ensures Dilation in gs ==> gs[1] == Dilation
      ensures NoBias in gs ==> gs[|gs| - (if args.name.Some? then 3 else 2) - 1] == NoBias
    {
      [Header]
      + (if args.dilationRate != Ones(|args.dilationRate|) then [Dilation] else [])
      + (if args.bInit.None? then [NoBias] else [])
      + [ActName(ActString(args.act))]
      + (if args.name.Some? then [LayerName] else [])
      + [Close]
    }

    /**
      `__repr__`, before `str.format` fills in the placeholders: the class-name
      header first, then the activation name, the layer name when there is one,
      and ")" last.
    */
    function Repr(): (r: string)
      ensures var head := SegmentText(Header);
              |head| <= |r| && r[..|head|] == head
      ensures var tail := TailText(ActString(args.act), args.name.Some?);
              |tail| <= |r| && r[|r| - |tail|..] == tail
    {
      var gs := ReprSegments();
      var k := if args.name.Some? then 3 else 2;
      assert gs[|gs| - k..] == [ActName(ActString(args.act))] + (if args.name.Some? then [LayerName] else []) + [Close];
      RenderEnds(gs, ActString(args.act), args.name.Some?);
      Render(gs)
    }
  }

  // ---------------------------------------------------------------------------
  // __repr__ pieces
  // ---------------------------------------------------------------------------

  /** A piece of the `__repr__` template. */
  datatype Segment = Header | Dilation | NoBias | ActName(name: string) | LayerName | Close

  const HeaderText := "{classname}(in_channels={in_channels}, out_channels={n_filter}, kernel_size={filter_size}, strides={strides}, padding={padding}"

  function SegmentText(g: Segment): string
  {
    match g
    case Header => HeaderText
    case Dilation => ", dilation={dilation_rate}"
    case NoBias => ", bias=False"
    case ActName(n) => ", " + n
    case LayerName => ", name='{name}'"
    case Close => ")"
  }

  function Render(gs: seq<Segment>): string
  {
    if gs == [] then "" else SegmentText(gs[0]) + Render(gs[1..])
  }

  /** The activation's `__name__`, or "No Activation". */
  function ActString(act: Option<Activation>): string
  {
    if act.Some? then act.value.name else "No Activation"
  }

  // ---------------------------------------------------------------------------
  // Build: layouts, channels, registration, the single transition
  // ---------------------------------------------------------------------------

  /** The expanded strides (or dilation) put each value at the axis the tag names for it. */
  lemma ExpandFollowsTag(last: bool, hw: seq<int>)
    requires |hw| >= 2
    ensures Expand(last, hw).Success?
    ensures var e := Expand(last, hw).value;
            |e| == 4 && forall i :: 0 <= i < 4 ==> e[i] == AxisValue(Tag(last)[i], hw)
  {
    var e := Expand(last, hw).value;
    var t := Tag(last);
    forall i | 0 <= i < 4 ensures e[i] == AxisValue(t[i], hw) {
      if last {
        assert t == ['N', 'H', 'W', 'C'];
      } else {
        assert t == ['N', 'C', 'H', 'W'];
      }
    }
  }

  /** Whatever build raises, the layer stays consistent. */
  lemma BuildKeepsConsistent(a: Args, s: LayerState, shape: Option<seq<int>>)
    requires Consistent(a, s)
    ensures Consistent(a, BuildStep(a, s, shape).state)
  {
  }

  /**
    The exception build raises, in the order Python meets them: the channel order,
    the input shape (only when `in_channels` is not truthy), then too short
    `_strides`, `_dilation_rate` or `filter_size`.
  */
  lemma BuildRaises(a: Args, s: LayerState, shape: Option<seq<int>>)
    ensures BuildStep(a, s, shape).error ==
      if !IsUserFormat(s.dataFormat) then Some(BadDataFormat)
      else if !Truthy(s.inChannels) && shape.None? then Some(NotSubscriptable)
      else if !Truthy(s.inChannels) && |shape.value| < (if s.dataFormat == ChannelsLast then 1 else 2)
        then Some(IndexOutOfRange)
      else if |s.stridesInternal| < 2 || |s.dilationInternal| < 2 || |a.filterSize| < 2 then Some(IndexOutOfRange)
      else None
  {
  }

  /**
    A build always rewrites a valid `data_format` to its tag, so any build after
    any build raises, and changes nothing.
  */
  lemma SecondBuildFails(a: Args, s: LayerState, shape: Option<seq<int>>, shape': Option<seq<int>>)
    ensures var first := BuildStep(a, s, shape).state;
            BuildStep(a, first, shape') == BuildOutcome(first, Some(BadDataFormat))
  {
    var first := BuildStep(a, s, shape).state;
    assert first.dataFormat == s.dataFormat || IsTag(first.dataFormat);
  }

  /** A build that fails after the channel-order check is not undone: the tag stays, no weight is registered. */
  lemma FailedBuildIsPartial(a: Args, s: LayerState, shape: Option<seq<int>>)
    requires IsUserFormat(s.dataFormat) && BuildStep(a, s, shape).error.Some?
    ensures var o := BuildStep(a, s, shape).state;
            && o.dataFormat == Tag(s.dataFormat == ChannelsLast)
            && o.W == s.W && o.b == s.b && o.filterShape == s.filterShape && o.weights == s.weights
  {
  }

  /** With a truthy `in_channels` the input shape is never read, and becomes the channel count. */
  lemma ConfiguredChannelsIgnoreShape(a: Args, s: LayerState, shape: Option<seq<int>>, shape': Option<seq<int>>)
    requires Truthy(s.inChannels)
    ensures BuildStep(a, s, shape) == BuildStep(a, s, shape')
    ensures var o := BuildStep(a, s, shape);
            o.error.None? ==> o.state.preChannel == s.inChannels && o.state.inChannels == s.inChannels
  {
  }

  /**
    Otherwise the channel count is the last axis of the input shape (channels last)
    or its second (channels first), and `in_channels` is set to it; on a 4-D input
    that is the axis the new tag calls 'C'.
  */
  lemma ChannelsReadFromShape(a: Args, s: LayerState, shape: Option<seq<int>>)
    requires !Truthy(s.inChannels) && BuildStep(a, s, shape).error.None?
    ensures shape.Some?
    ensures var sh := shape.value;
            var o := BuildStep(a, s, shape).state;
            && o.preChannel == Some(if s.dataFormat == ChannelsLast then sh[|sh| - 1] else sh[1])
            && o.inChannels == o.preChannel
    ensures var sh := shape.value;
            var o := BuildStep(a, s, shape).state;
            |sh| == 4 ==> forall i :: 0 <= i < 4 && o.dataFormat[i] == 'C' ==> o.preChannel == Some(sh[i])
  {
    var o := BuildStep(a, s, shape).state;
    if s.dataFormat == ChannelsLast {
      assert o.dataFormat == ['N', 'H', 'W', 'C'];
    } else {
      assert o.dataFormat == ['N', 'C', 'H', 'W'];
    }
  }

  /**
    A successful build tags the layer with its channel order and lays `_strides`
    and `_dilation_rate` out by that tag: 1 on the batch and channel axes, the
    height and width values on the 'H' and 'W' axes.
  */
  lemma BuildLaysOutByTag(a: Args, s: LayerState, shape: Option<seq<int>>)
    requires BuildStep(a, s, shape).error.None?
    ensures var o := BuildStep(a, s, shape).state;
            && |s.stridesInternal| >= 2 && |s.dilationInternal| >= 2
            && (o.dataFormat == Nhwc <==> s.dataFormat == ChannelsLast)
            && (o.dataFormat == Nchw <==> s.dataFormat == ChannelsFirst)
            && |o.dataFormat| == |o.stridesInternal| == |o.dilationInternal| == 4
            && (forall i :: 0 <= i < 4 ==> o.stridesInternal[i] == AxisValue(o.dataFormat[i], s.stridesInternal))
            && (forall i :: 0 <= i < 4 ==> o.dilationInternal[i] == AxisValue(o.dataFormat[i], s.dilationInternal))
  {
    var last := s.dataFormat == ChannelsLast;
    ExpandFollowsTag(last, s.stridesInternal);
    ExpandFollowsTag(last, s.dilationInternal);
  }

  /** Appending one registration adds one to its name's count. */
  lemma {:induction false} CountNamedAppend(ws: seq<Registration>, r: Registration, name: string)
    ensures CountNamed(ws + [r], name) == CountNamed(ws, name) + (if r.name == name then 1 else 0)
  {
    assert (ws + [r])[..|ws|] == ws;
  }

  /** What the last part of build registers, when it succeeds. */
  lemma RegisterWeightsEffect(a: Args, t: LayerState)
    requires t.preChannel.Some? && RegisterWeights(a, t).error.None?
    ensures var o := RegisterWeights(a, t).state;
            && |a.filterSize| >= 2 && o.preChannel == t.preChannel
            && o.filterShape == Some([a.filterSize[0], a.filterSize[1], t.preChannel.value, a.nFilter])
            && o.W == Some(Parameter(FiltersName, o.filterShape.value))
            && o.b == (if a.bInit.Some? then Some(Parameter(BiasesName, [a.nFilter])) else t.b)
    ensures var o := RegisterWeights(a, t).state;
            && CountNamed(o.weights, FiltersName) == CountNamed(t.weights, FiltersName) + 1
            && CountNamed(o.weights, BiasesName) == CountNamed(t.weights, BiasesName) + (if a.bInit.Some? then 1 else 0)
            && Registration(FiltersName, o.filterShape.value, a.wInit) in o.weights
            && (a.bInit.Some? ==> Registration(BiasesName, [a.nFilter], a.bInit.value) in o.weights)
    ensures var o := RegisterWeights(a, t).state;
            o.weights == t.weights + [Registration(FiltersName, o.filterShape.value, a.wInit)]
                         + (if a.bInit.Some? then [Registration(BiasesName, [a.nFilter], a.bInit.value)] else [])
  {
    var o := RegisterWeights(a, t).state;
    var filters := Registration(FiltersName, o.filterShape.value, a.wInit);
    CountNamedAppend(t.weights, filters, FiltersName);
    CountNamedAppend(t.weights, filters, BiasesName);
    if a.bInit.Some? {
      var bias := Registration(BiasesName, [a.nFilter], a.bInit.value);
      CountNamedAppend(t.weights + [filters], bias, FiltersName);
      CountNamedAppend(t.weights + [filters], bias, BiasesName);
      assert o.weights == t.weights + [filters] + [bias];
    } else {
      assert o.weights == t.weights + [filters];
    }
  }

  /**
    A successful build computes the filter shape from `filter_size`, the channel
    count and `n_filter`, registers exactly one "filters" weight of that shape, and
    one "biases" weight of shape (n_filter,) exactly when `b_init` is given.
  */
  lemma BuildRegistersWeights(a: Args, s: LayerState, shape: Option<seq<int>>)
    requires BuildStep(a, s, shape).error.None?
    ensures var o := BuildStep(a, s, shape).state;
            && |a.filterSize| >= 2 && o.preChannel.Some?
            && o.filterShape == Some([a.filterSize[0], a.filterSize[1], o.preChannel.value, a.nFilter])
            && o.W == Some(Parameter(FiltersName, o.filterShape.value))
            && o.b == (if a.bInit.Some? then Some(Parameter(BiasesName, [a.nFilter])) else s.b)
    ensures var o := BuildStep(a, s, shape).state;
            && CountNamed(o.weights, FiltersName) == CountNamed(s.weights, FiltersName) + 1
            && CountNamed(o.weights, BiasesName) == CountNamed(s.weights, BiasesName) + (if a.bInit.Some? then 1 else 0)
            && Registration(FiltersName, o.filterShape.value, a.wInit) in o.weights
            && (a.bInit.Some? ==> Registration(BiasesName, [a.nFilter], a.bInit.value) in o.weights)
    ensures var o := BuildStep(a, s, shape).state;
            o.weights == s.weights + [Registration(FiltersName, o.filterShape.value, a.wInit)]
                         + (if a.bInit.Some? then [Registration(BiasesName, [a.nFilter], a.bInit.value)] else [])
  {
    var last := s.dataFormat == ChannelsLast;
    var pre := ResolveChannels(s.inChannels, shape, last).value;
    var t := s.(dataFormat := Tag(last), preChannel := Some(pre),
                inChannels := if Truthy(s.inChannels) then s.inChannels else Some(pre),
                stridesInternal := Expand(last, s.stridesInternal).value,
                dilationInternal := Expand(last, s.dilationInternal).value);
    assert BuildStep(a, s, shape) == RegisterWeights(a, t);
    RegisterWeightsEffect(a, t);
  }

  // ---------------------------------------------------------------------------
  // Construction: eager build, then the two checks
  // ---------------------------------------------------------------------------

  /**
    A constructed layer is built exactly when `in_channels` is truthy; otherwise it
    holds the arguments untouched. Either way it is consistent.
  */
  lemma ConstructBuildsIffInChannels(a: Args)
    requires Construct(a).Success?
    ensures var s := Construct(a).value;
            && (s.built <==> Truthy(a.inChannels))
            && (!Truthy(a.inChannels) ==> s == Initial(a))
            && (Truthy(a.inChannels) ==> s.W.Some? && s.preChannel == a.inChannels && IsTag(s.dataFormat))
            && Consistent(a, s)
  {
    if Truthy(a.inChannels) {
      BuildKeepsConsistent(a, Initial(a), None);
    }
  }

  /** When the constructor returns a layer rather than raising. */
  lemma ConstructSucceedsIff(a: Args)
    ensures Construct(a).Success? <==>
      && !a.useGemm && |a.strides| == 2
      && (Truthy(a.inChannels) ==> IsUserFormat(a.dataFormat) && |a.dilationRate| >= 2 && |a.filterSize| >= 2)
  {
    if Truthy(a.inChannels) {
      BuildRaises(a, Initial(a), None);
    }
  }

  /**
    The constructor's exceptions come in a fixed order: the eager build's first,
    then `use_gemm`, then the length of `strides`.
  */
  lemma ConstructRaisesInOrder(a: Args)
    ensures var o := BuildStep(a, Initial(a), None);
            Truthy(a.inChannels) && o.error.Some? ==> Construct(a) == Failure(o.error.value)
    ensures var o := BuildStep(a, Initial(a), None);
            !Truthy(a.inChannels) || o.error.None? ==>
              && (a.useGemm ==> Construct(a) == Failure(GemmUnsupported))
              && (!a.useGemm && |a.strides| != 2 ==> Construct(a) == Failure(StridesArity))
  {
  }

  /**
    Too short `strides` fail inside the eager build, with an index error, before
    `use_gemm` or the length check is looked at; without eager build the length
    check catches them.
  */
  lemma ShortStridesFailInBuild(a: Args)
    requires |a.strides| < 2
    ensures Truthy(a.inChannels) && IsUserFormat(a.dataFormat) ==> Construct(a) == Failure(IndexOutOfRange)
    ensures !Truthy(a.inChannels) && !a.useGemm ==> Construct(a) == Failure(StridesArity)
  {
    BuildRaises(a, Initial(a), None);
  }

  // ---------------------------------------------------------------------------
  // Forward
  // ---------------------------------------------------------------------------

  /** On a consistent layer, forward succeeds exactly when the layer has been built. */
  lemma ForwardNeedsBuild(l: DorefaConv2d, x: Tensor)
    requires l.Valid()
    ensures l.Forward(x).Success? <==> l.W.Some?
  {
  }

  /**
    The order of the primitives: cabs, then quantize_active, then conv2d, then
    bias_add when `b_init` is given, then the activation when `act` is given.
  */
  lemma ForwardOrder(l: DorefaConv2d, x: Tensor)
    requires l.W.Some? && (l.args.bInit.Some? ==> l.b.Some?)
    ensures l.Forward(x).Success?
    ensures DataPath(l.Forward(x).value) ==
      (if l.args.act.Some? then [ActivateOp] else [])
      + (if l.args.bInit.Some? then [BiasAddOp] else [])
      + [Conv2dOp, QuantizeActiveOp, CabsOp] + DataPath(x)
  {
    var conv := Conv2d(QuantizeActive(Cabs(x), l.args.bitA), QuantizeWeight(l.W.value, l.args.bitW),
                       l.stridesInternal, l.args.padding, l.dataFormat, l.dilationInternal, l.args.name);
    ConvolutionPath(x, l.args.bitA, conv);
    var biased := if l.args.bInit.Some? then BiasAdd(conv, l.b.value, l.dataFormat) else conv;
    var out := if l.args.act.Some? then Activate(l.args.act.value, biased) else biased;
    assert l.Forward(x) == Success(out);
    WrapPath(conv, l.args.bInit.Some?, biased, l.args.act.Some?, out);
  }

  /**
    The convolution reads the quantized activations and the quantized stored filter,
    with `_strides`, `padding`, `data_format` and `_dilation_rate` as the layer holds
    them; the bias-add adds the stored bias to that convolution in the layer's
    `data_format`; the activation applied last is the layer's own `act`.
  */
  lemma ForwardOperands(l: DorefaConv2d, x: Tensor)
    requires l.W.Some? && (l.args.bInit.Some? <==> l.b.Some?)
    ensures l.Forward(x).Success?
    ensures ConvolutionOf(l.Forward(x).value) ==
      Some(Conv2d(QuantizeActive(Cabs(x), l.args.bitA), QuantizeWeight(l.W.value, l.args.bitW),
                  l.stridesInternal, l.args.padding, l.dataFormat, l.dilationInternal, l.args.name))
    ensures BiasOf(l.Forward(x).value) == l.b
    ensures BiasAddOf(l.Forward(x).value) ==
      if l.args.bInit.Some? then
        Some(BiasAdd(ConvolutionOf(l.Forward(x).value).value, l.b.value, l.dataFormat))
      else None
    ensures var out := l.Forward(x).value;
            if l.args.act.Some? then out.Activate? && out.act == l.args.act.value else !out.Activate?
  {
    var conv := Conv2d(QuantizeActive(Cabs(x), l.args.bitA), QuantizeWeight(l.W.value, l.args.bitW),
                       l.stridesInternal, l.args.padding, l.dataFormat, l.dilationInternal, l.args.name);
    var biased := if l.args.bInit.Some? then BiasAdd(conv, l.b.value, l.dataFormat) else conv;
    assert ConvolutionOf(biased) == Some(conv);
    assert BiasOf(biased) == l.b;
    assert BiasAddOf(biased) == if l.args.bInit.Some? then Some(biased) else None;
  }

  // ---------------------------------------------------------------------------
  // __repr__
  // ---------------------------------------------------------------------------

  /** The dilation segment appears exactly when some dilation value is not 1. */
  lemma DilationShownIff(d: seq<int>)
    ensures d != Ones(|d|) <==> exists i :: 0 <= i < |d| && d[i] != 1
  {
    if d != Ones(|d|) {
      var i :| 0 <= i < |d| && d[i] != Ones(|d|)[i];
    }
  }

  lemma {:induction false} RenderAppend(xs: seq<Segment>, ys: seq<Segment>)
    ensures Render(xs + ys) == Render(xs) + Render(ys)
  {
    if xs == [] {
      assert xs + ys == ys;
    } else {
      assert (xs + ys)[1..] == xs[1..] + ys;
      RenderAppend(xs[1..], ys);
    }
  }

  lemma {:induction false} RenderLast(gs: seq<Segment>, k: nat)
    requires k <= |gs|
    ensures Render(gs) == Render(gs[..|gs| - k]) + Render(gs[|gs| - k..])
  {
    RenderAppend(gs[..|gs| - k], gs[|gs| - k..]);
    assert gs[..|gs| - k] + gs[|gs| - k..] == gs;
  }

  lemma {:induction false} ConcatEnds(head: string, middle: string, tail: string)
    ensures (head + middle + tail)[..|head|] == head
    ensures (head + middle + tail)[|head + middle + tail| - |tail|..] == tail
  {
  }

  /** The text of the closing segments: the activation, the optional name, ")". */
  function TailText(act: string, named: bool): string
  {
    SegmentText(ActName(act)) + (if named then SegmentText(LayerName) else "") + SegmentText(Close)
  }

  lemma {:induction false} RenderTail(last: seq<Segment>, act: string, named: bool)
    requires last == [ActName(act)] + (if named then [LayerName] else []) + [Close]
    ensures Render(last) == TailText(act, named)
  {
    var close := [Close];
    assert Render(close) == SegmentText(Close) by {
      assert close[1..] == [];
    }
    if named {
      assert last[1..][1..] == close;
    } else {
      assert last[1..] == close;
    }
  }

  /** A segment list that opens with the header and closes with the activation, the optional name and ")". */
  lemma {:induction false} RenderEnds(gs: seq<Segment>, act: string, named: bool)
    requires var k := if named then 3 else 2;
             |gs| >= k + 1 && gs[0] == Header
             && gs[|gs| - k..] == [ActName(act)] + (if named then [LayerName] else []) + [Close]
    ensures var r := Render(gs); var head := SegmentText(Header);
            |head| <= |r| && r[..|head|] == head
    ensures var r := Render(gs); var tail := TailText(act, named);
            |tail| <= |r| && r[|r| - |tail|..] == tail
  {
    var k := if named then 3 else 2;
    var body := gs[1..|gs| - k];
    var last := gs[|gs| - k..];
    RenderLast(gs[1..], k);
    assert gs[1..][..|gs| - 1 - k] == body && gs[1..][|gs| - 1 - k..] == last;
    RenderTail(last, act, named);
    assert Render(gs) == SegmentText(Header) + Render(body) + TailText(act, named);
    ConcatEnds(SegmentText(Header), Render(body), TailText(act, named));
  }
}
