/** Construction of EEGResNet: the configuration checks and the ordered list
    of modules the constructor registers. `Plan` is the reference
    description, block by block, in closed form (channel width and temporal
    dilation as functions of the block number); `Build` follows the
    constructor step by step, with its running filter count, its block
    counter and its mutable two-element dilation array, and is proved to
    produce exactly `Plan`. */
module EEGResNet {
  import opened Wrappers
  import opened Residual
  import opened Layers

  /** `final_pool_length`: the string "auto" or a number of samples. */
  datatype PoolLength = Auto | Length(samples: int)

  /** The constructor arguments the plan depends on. The channel, output and
      time counts are those the base mixin resolves from its own arguments;
      `activation` is the class name of the configured nonlinearity. */
  datatype Config = Config(
    nChans: int,
    nOutputs: int,
    nTimes: Option<int>,
    finalPoolLength: PoolLength,
    nFirstFilters: int,
    nLayersPerBlock: int,
    firstFilterLength: int,
    activation: string,
    splitFirstLayer: bool)

  /** The assertions construction can fail, in the order they are checked. */
  datatype ConfigError =
    | MissingNTimes                                      // "auto" pooling without n_times
    | EvenFirstFilterLength                              // first_filter_length % 2 != 1
    | BlockRejected(unit: ModuleName, reason: BlockError) // a residual unit's own assertion

  /** Residual units are always built with the block's default kernel length
      and nonlinearity: the network passes them only channels and dilation. */
  const UnitFilterTimeLength: int := 3
  const UnitNonlinearity: string := "ELU"
  const DimshufflePattern: string := "batch C T 1 -> batch 1 T C"
  const NumBlocks: nat := 7

  function Pow2(k: nat): (p: int)
    ensures p >= 1
  {
    if k == 0 then 1 else 2 * Pow2(k - 1)
  }

  /** Python's int(1.5 * x): three halves of x, truncated toward zero. */
  function OneAndHalf(x: int): int {
    if x >= 0 then 3 * x / 2 else -(3 * -x / 2)
  }

  /** Channels produced by block b (1..7): the first filter count, doubled in
      block 2, times one and a half in block 3, unchanged after that. */
  function Width(n: int, b: nat): int {
    if b <= 1 then n else if b == 2 then 2 * n else OneAndHalf(2 * n)
  }

  /** Number of iterations of Python's range(L). */
  function Count(L: int): nat {
    if L < 0 then 0 else L
  }

  /** The arguments one residual unit is constructed with. */
  datatype UnitArgs = UnitArgs(name: ModuleName, inFilters: int, outFilters: int, dilation: (int, int))

  /** Units res_b_from .. res_b_{L-1}, each keeping `width` channels. */
  function SameWidthArgs(b: nat, from: nat, L: int, width: int, dilation: (int, int)): seq<UnitArgs> {
    seq(Count(L - from), j requires 0 <= j => UnitArgs(Res(b, from + j), width, width, dilation))
  }

  /** The unit that opens block b >= 2: it maps the previous block's width to
      this block's width. */
  function FirstArgs(n: int, b: nat): UnitArgs
    requires b >= 1
  {
    UnitArgs(Res(b, 0), Width(n, b - 1), Width(n, b), (Pow2(b - 1), 1))
  }

  /** The units of block b. Block 1 has L units of n channels; every later
      block has its opening unit, whatever L is, then units 1..L-1. Block b
      uses temporal dilation 2^(b-1). */
  function BlockArgs(n: int, L: int, b: nat): seq<UnitArgs>
    requires b >= 1
  {
    if b == 1 then SameWidthArgs(1, 0, L, n, (1, 1))
    else [FirstArgs(n, b)] + SameWidthArgs(b, 1, L, Width(n, b), (Pow2(b - 1), 1))
  }

  /** The units of blocks 1..b, in order. */
  function ArgsUpTo(n: int, L: int, b: nat): seq<UnitArgs> {
    if b == 0 then [] else ArgsUpTo(n, L, b - 1) + BlockArgs(n, L, b)
  }

  function BuildUnit(u: UnitArgs): Result<ResidualBlock, BlockError> {
    NewResidualBlock(u.inFilters, u.outFilters, u.dilation, UnitFilterTimeLength, UnitNonlinearity)
  }

  /** Constructs the units in order; the first unit whose constructor fails
      stops construction. */
  function BuildUnits(us: seq<UnitArgs>): Result<seq<Entry>, ConfigError> {
    if us == [] then Success([])
    else match BuildUnit(us[0])
      case Failure(e) => Failure(BlockRejected(us[0].name, e))
      case Success(blk) =>
        match BuildUnits(us[1..])
        case Failure(e) => Failure(e)
        case Success(rest) => Success([Entry(us[0].name, ResidualUnit(blk))] + rest)
  }

  /** Sequencing of two construction phases: the first failure wins. */
  function Then(a: Result<seq<Entry>, ConfigError>, b: Result<seq<Entry>, ConfigError>): Result<seq<Entry>, ConfigError> {
    match a
    case Failure(e) => Failure(e)
    case Success(x) =>
      match b
      case Failure(e) => Failure(e)
      case Success(y) => Success(x + y)
  }

  /** A unit that keeps its width: always constructible with kernel length 3. */
  function SameWidthBlock(width: int, dilation: (int, int)): ResidualBlock {
    NewResidualBlock(width, width, dilation, UnitFilterTimeLength, UnitNonlinearity).value
  }

  function SameWidthEntries(b: nat, from: nat, L: int, width: int, dilation: (int, int)): seq<Entry> {
    seq(Count(L - from), j requires 0 <= j => Entry(Res(b, from + j), ResidualUnit(SameWidthBlock(width, dilation))))
  }

  /** The entries of a block after the first: its opening unit, then units
      1..L-1 at the block's width. */
  function OpenedBlock(b: nat, first: ResidualBlock, L: int, width: int, dilation: (int, int)): seq<Entry> {
    [Entry(Res(b, 0), ResidualUnit(first))] + SameWidthEntries(b, 1, L, width, dilation)
  }

  /** Input normalisation, the first convolution (split into a temporal and a
      spatial one, or joint), batch normalisation and the nonlinearity. */
  function Stem(cfg: Config): seq<Entry> {
    var n, k := cfg.nFirstFilters, cfg.firstFilterLength;
    [Entry(Ensuredims, Ensure4d)]
    + (if cfg.splitFirstLayer then
         [Entry(Dimshuffle, Rearrange(DimshufflePattern)),
          Entry(ConvTime, Conv2d(1, n, (k, 1), (1, 1), (k / 2, 0), (1, 1), true)),
          Entry(ConvSpat, Conv2d(n, n, (1, cfg.nChans), (1, 1), (0, 0), (1, 1), false))]
       else
         [Entry(ConvTime, Conv2d(cfg.nChans, n, (k, 1), (1, 1), (k / 2, 0), (1, 1), false))])
    + [Entry(Bnorm, BatchNorm2d(n)), Entry(ConvNonlin, Activation(cfg.activation))]
  }

  function MeanPoolLayer(cfg: Config, dilation: (int, int)): Layer {
    if cfg.finalPoolLength.Auto? then AdaptiveAvgPool2d((1, 1))
    else AvgPool2dWithConv((cfg.finalPoolLength.samples, 1), (1, 1), dilation)
  }

  /** The classifier: a 1x1 convolution with bias, then squeezing. */
  function FinalLayerOf(nIn: int, nOutputs: int): Layer {
    Nested([Entry(ConvClassifier, Conv2d(nIn, nOutputs, (1, 1), (1, 1), (0, 0), (1, 1), true)),
            Entry(Squeeze, SqueezeFinalOutput)])
  }

  /** The pooling layer, with the dilation reached after block 7, and the
      classifier on the width of block 7. */
  function HeadOf(cfg: Config): seq<Entry> {
    [Entry(MeanPool, MeanPoolLayer(cfg, (Pow2(NumBlocks - 1), 1))),
     Entry(FinalLayer, FinalLayerOf(Width(cfg.nFirstFilters, NumBlocks), cfg.nOutputs))]
  }

  /** The reference plan: the configuration checks, then stem, seven blocks
      of residual units, pooling and classifier. */
  function Plan(cfg: Config): Result<seq<Entry>, ConfigError> {
    if cfg.finalPoolLength.Auto? && cfg.nTimes.None? then Failure(MissingNTimes)
    else if cfg.firstFilterLength % 2 != 1 then Failure(EvenFirstFilterLength)
    else
      match BuildUnits(ArgsUpTo(cfg.nFirstFilters, cfg.nLayersPerBlock, NumBlocks))
      case Failure(e) => Failure(e)
      case Success(units) =>
        Success(Stem(cfg) + units + HeadOf(cfg))
  }

  // ---------------------------------------------------------------------
  // Lemmas connecting the construction steps to the reference plan
  // ---------------------------------------------------------------------

  lemma {:induction false} BuildUnitsAppend(a: seq<UnitArgs>, b: seq<UnitArgs>)
    ensures BuildUnits(a + b) == Then(BuildUnits(a), BuildUnits(b))
    decreases |a|
  {
    if a == [] {
      assert a + b == b;
      if BuildUnits(b).Success? {
        assert [] + BuildUnits(b).value == BuildUnits(b).value;
      }
    } else {
      assert (a + b)[0] == a[0];
      assert (a + b)[1..] == a[1..] + b;
      BuildUnitsAppend(a[1..], b);
      match BuildUnit(a[0])
      case Failure(e) =>
      case Success(blk) =>
        var head := [Entry(a[0].name, ResidualUnit(blk))];
        match BuildUnits(a[1..])
        case Failure(e) =>
        case Success(x) =>
          match BuildUnits(b)
          case Failure(e) =>
          case Success(y) =>
            assert head + (x + y) == (head + x) + y;
    }
  }

  lemma {:induction false} BuildSameWidth(b: nat, from: nat, L: int, width: int, dilation: (int, int))
    ensures BuildUnits(SameWidthArgs(b, from, L, width, dilation))
         == Success(SameWidthEntries(b, from, L, width, dilation))
    decreases Count(L - from)
  {
    var us := SameWidthArgs(b, from, L, width, dilation);
    if Count(L - from) > 0 {
      assert us[0] == UnitArgs(Res(b, from), width, width, dilation);
      assert us[1..] == SameWidthArgs(b, from + 1, L, width, dilation);
      BuildSameWidth(b, from + 1, L, width, dilation);
      var es := SameWidthEntries(b, from, L, width, dilation);
      assert es == [Entry(Res(b, from), ResidualUnit(SameWidthBlock(width, dilation)))]
                   + SameWidthEntries(b, from + 1, L, width, dilation);
    } else {
      assert us == [];
      assert BuildUnits(us) == Success([]);
      assert SameWidthEntries(b, from, L, width, dilation) == [];
    }
  }

  /** One more iteration of the unit loop appends one unit. */
  lemma SameWidthEntriesSnoc(b: nat, from: nat, L: nat, width: int, dilation: (int, int))
    requires from <= L
    ensures SameWidthEntries(b, from, L + 1, width, dilation)
         == SameWidthEntries(b, from, L, width, dilation)
            + [Entry(Res(b, L), ResidualUnit(SameWidthBlock(width, dilation)))]
  {
    var long := SameWidthEntries(b, from, L + 1, width, dilation);
    var short := SameWidthEntries(b, from, L, width, dilation);
    assert |long| == |short| + 1;
    forall j | 0 <= j < |short| ensures long[j] == short[j] { }
  }

  /** Block b >= 2 extends a successful prefix, or its opening unit fails and
      that failure is the outcome of the whole plan. */
  lemma BlockStep(n: int, L: int, b: nat, units: seq<Entry>)
    requires 2 <= b <= NumBlocks
    requires BuildUnits(ArgsUpTo(n, L, b - 1)) == Success(units)
    ensures BuildUnit(FirstArgs(n, b)).Failure? ==>
              BuildUnits(ArgsUpTo(n, L, b))
              == Failure(BlockRejected(Res(b, 0), BuildUnit(FirstArgs(n, b)).error))
    ensures BuildUnit(FirstArgs(n, b)).Success? ==>
              BuildUnits(ArgsUpTo(n, L, b))
              == Success(units + OpenedBlock(b, BuildUnit(FirstArgs(n, b)).value, L, Width(n, b), (Pow2(b - 1), 1)))
  {
    var rest := SameWidthArgs(b, 1, L, Width(n, b), (Pow2(b - 1), 1));
    assert ArgsUpTo(n, L, b) == ArgsUpTo(n, L, b - 1) + ([FirstArgs(n, b)] + rest);
    BuildUnitsAppend(ArgsUpTo(n, L, b - 1), [FirstArgs(n, b)] + rest);
    BuildUnitsAppend([FirstArgs(n, b)], rest);
    BuildSameWidth(b, 1, L, Width(n, b), (Pow2(b - 1), 1));
    assert ([FirstArgs(n, b)] + rest)[1..] == rest;
    if BuildUnit(FirstArgs(n, b)).Success? {
      var e := Entry(Res(b, 0), ResidualUnit(BuildUnit(FirstArgs(n, b)).value));
      assert [FirstArgs(n, b)][1..] == [];
      assert BuildUnits([FirstArgs(n, b)]) == Success([e] + []);
      assert [e] + [] == [e];
    }
  }

  lemma AppendAssoc<T>(a: seq<T>, b: seq<T>, c: seq<T>)
    ensures (a + b) + c == a + (b + c)
  {
  }

  /** A failure in blocks 1..b is the outcome of all seven blocks. */
  lemma {:induction false} FailurePropagates(n: int, L: int, b: nat, e: ConfigError)
    requires 1 <= b <= NumBlocks
    requires BuildUnits(ArgsUpTo(n, L, b)) == Failure(e)
    ensures BuildUnits(ArgsUpTo(n, L, NumBlocks)) == Failure(e)
    decreases NumBlocks - b
  {
    if b < NumBlocks {
      BuildUnitsAppend(ArgsUpTo(n, L, b), BlockArgs(n, L, b + 1));
      FailurePropagates(n, L, b + 1, e);
    }
  }

  // ---------------------------------------------------------------------
  // The constructor, step by step
  // ---------------------------------------------------------------------

  /** An ordered module registry (the network itself and its final layer). */
  class Sequential {
    var modules: seq<Entry>

    constructor ()
      ensures modules == []
    {
      modules := [];
    }

    /** Registers `layer` under `name`: replaces a module already registered
        under that name, otherwise appends. */
    method AddModule(name: ModuleName, layer: Layer)
      modifies this
      ensures modules == Registered(old(modules), name, layer)
      ensures AllBefore(old(modules), Key(name)) ==> modules == old(modules) + [Entry(name, layer)]
    {
      ghost var before := modules;
      modules := Registered(modules, name, layer);
      if AllBefore(before, Key(name)) {
        RegisteredFresh(before, name, layer);
      }
    }
  }

  /** Registers the stem on an empty registry. */
  method AddStem(net: Sequential, cfg: Config)
    requires net.modules == []
    modifies net
    ensures net.modules == Stem(cfg)
    ensures AllBefore(net.modules, (1, 0))
  {
    var n := cfg.nFirstFilters;
    net.AddModule(Ensuredims, Ensure4d);
    if cfg.splitFirstLayer {
      AddSplitConvolution(net, cfg);
    } else {
      net.AddModule(ConvTime, Conv2d(cfg.nChans, n, (cfg.firstFilterLength, 1), (1, 1),
                                     (cfg.firstFilterLength / 2, 0), (1, 1), false));
    }
    ghost var front := net.modules;
    var nFiltersConv := n;
    net.AddModule(Bnorm, BatchNorm2d(nFiltersConv));
    net.AddModule(ConvNonlin, Activation(cfg.activation));
    assert net.modules == front + [Entry(Bnorm, BatchNorm2d(n)), Entry(ConvNonlin, Activation(cfg.activation))];
  }

  /** The first convolution split into a temporal and a spatial one, after the
      input is rearranged to put the electrodes on the last axis. */
  method AddSplitConvolution(net: Sequential, cfg: Config)
    requires net.modules == [Entry(Ensuredims, Ensure4d)]
    modifies net
    ensures net.modules == [Entry(Ensuredims, Ensure4d), Entry(Dimshuffle, Rearrange(DimshufflePattern)),
                            Entry(ConvTime, Conv2d(1, cfg.nFirstFilters, (cfg.firstFilterLength, 1), (1, 1),
                                                   (cfg.firstFilterLength / 2, 0), (1, 1), true)),
                            Entry(ConvSpat, Conv2d(cfg.nFirstFilters, cfg.nFirstFilters, (1, cfg.nChans),
                                                   (1, 1), (0, 0), (1, 1), false))]
  {
    var n := cfg.nFirstFilters;
    net.AddModule(Dimshuffle, Rearrange(DimshufflePattern));
    net.AddModule(ConvTime, Conv2d(1, n, (cfg.firstFilterLength, 1), (1, 1),
                                   (cfg.firstFilterLength / 2, 0), (1, 1), true));
    net.AddModule(ConvSpat, Conv2d(n, n, (1, cfg.nChans), (1, 1), (0, 0), (1, 1), false));
  }

  /** The loop `for i_layer in range(from, L)` registering units res_b_i that
      keep `width` channels, each with the dilation the array holds. */
  method AddSameWidthUnits(net: Sequential, iBlock: nat, from: nat, L: int, width: int, dilation: array<int>)
    requires dilation.Length == 2
    requires AllBefore(net.modules, (iBlock, from))
    modifies net
    ensures net.modules == old(net.modules) + SameWidthEntries(iBlock, from, L, width, (dilation[0], dilation[1]))
    ensures AllBefore(net.modules, (iBlock + 1, 0))
  {
    var iLayer: nat := from;
    while iLayer < L
      invariant from <= iLayer && (iLayer <= L || iLayer == from)
      invariant net.modules == old(net.modules) + SameWidthEntries(iBlock, from, iLayer, width, (dilation[0], dilation[1]))
      invariant AllBefore(net.modules, (iBlock, iLayer))
    {
      var block := NewResidualBlock(width, width, (dilation[0], dilation[1]),
                                    UnitFilterTimeLength, UnitNonlinearity).value;
      net.AddModule(Res(iBlock, iLayer), ResidualUnit(block));
      SameWidthEntriesSnoc(iBlock, from, iLayer, width, (dilation[0], dilation[1]));
      iLayer := iLayer + 1;
    }
    assert SameWidthEntries(iBlock, from, iLayer, width, (dilation[0], dilation[1]))
        == SameWidthEntries(iBlock, from, L, width, (dilation[0], dilation[1]));
  }

  /** One block after the first: its opening unit (which may fail its
      assertion), then the loop over the remaining units at the new width. */
  method AddBlock(net: Sequential, iBlock: nat, nIn: int, nOut: int, L: int, dilation: array<int>)
    returns (err: Option<BlockError>)
    requires dilation.Length == 2
    requires AllBefore(net.modules, (iBlock, 0))
    modifies net
    ensures var first := NewResidualBlock(nIn, nOut, (dilation[0], dilation[1]), UnitFilterTimeLength, UnitNonlinearity);
            && (first.Failure? ==> err == Some(first.error) && net.modules == old(net.modules))
            && (first.Success? ==>
                  && err == None
                  && net.modules == old(net.modules) + OpenedBlock(iBlock, first.value, L, nOut, (dilation[0], dilation[1]))
                  && AllBefore(net.modules, (iBlock + 1, 0)))
  {
    var first := NewResidualBlock(nIn, nOut, (dilation[0], dilation[1]), UnitFilterTimeLength, UnitNonlinearity);
    if first.Failure? {
      return Some(first.error);
    }
    ghost var before := net.modules;
    net.AddModule(Res(iBlock, 0), ResidualUnit(first.value));
    AddSameWidthUnits(net, iBlock, 1, L, nOut, dilation);
    assert net.modules == before + OpenedBlock(iBlock, first.value, L, nOut, (dilation[0], dilation[1]));
    err := None;
  }

  /** One block after the first, as the constructor reaches it: the
      registry holds `stem` and the units of blocks 1..b-1, the running filter
      count is the previous block's width and the dilation array holds
      (2^(b-1), 1). Either the block's opening unit fails, and that failure
      is the outcome of all seven blocks, or the registry grows by the block's
      units as the reference plan lists them. */
  method AddPlannedBlock(net: Sequential, iBlock: nat, nIn: int, nOut: int, L: int, dilation: array<int>,
                         ghost n: int, ghost stem: seq<Entry>, ghost units: seq<Entry>)
    returns (err: Option<BlockError>, ghost units': seq<Entry>)
    requires 2 <= iBlock <= NumBlocks
    requires dilation.Length == 2 && dilation[0] == Pow2(iBlock - 1) && dilation[1] == 1
    requires nIn == Width(n, iBlock - 1) && nOut == Width(n, iBlock)
    requires net.modules == stem + units && AllBefore(net.modules, (iBlock, 0))
    requires BuildUnits(ArgsUpTo(n, L, iBlock - 1)) == Success(units)
    modifies net
    ensures err.Some? ==> BuildUnits(ArgsUpTo(n, L, NumBlocks)) == Failure(BlockRejected(Res(iBlock, 0), err.value))
    ensures err.None? ==>
              && net.modules == stem + units'
              && BuildUnits(ArgsUpTo(n, L, iBlock)) == Success(units')
              && AllBefore(net.modules, (iBlock + 1, 0))
  {
    BlockStep(n, L, iBlock, units);
    err := AddBlock(net, iBlock, nIn, nOut, L, dilation);
    if err.Some? {
      FailurePropagates(n, L, iBlock, BlockRejected(Res(iBlock, 0), err.value));
      units' := units;
    } else {
      var added := OpenedBlock(iBlock, BuildUnit(FirstArgs(n, iBlock)).value, L, nOut, (dilation[0], dilation[1]));
      AppendAssoc(stem, units, added);
      units' := units + added;
    }
  }

  /** Once the configuration checks pass, a failing unit is the plan's outcome. */
  lemma PlanFailsWith(cfg: Config, e: ConfigError)
    requires !(cfg.finalPoolLength.Auto? && cfg.nTimes.None?) && cfg.firstFilterLength % 2 == 1
    requires BuildUnits(ArgsUpTo(cfg.nFirstFilters, cfg.nLayersPerBlock, NumBlocks)) == Failure(e)
    ensures Plan(cfg) == Failure(e)
  {
  }

  /** Once the configuration checks pass and all units are built, the plan is
      the stem, the units, pooling and classifier. */
  lemma PlanSucceedsWith(cfg: Config, units: seq<Entry>)
    requires !(cfg.finalPoolLength.Auto? && cfg.nTimes.None?) && cfg.firstFilterLength % 2 == 1
    requires BuildUnits(ArgsUpTo(cfg.nFirstFilters, cfg.nLayersPerBlock, NumBlocks)) == Success(units)
    ensures Plan(cfg) == Success(Stem(cfg) + units + HeadOf(cfg))
  {
  }

  /** Blocks 1 to 3, where the channel count changes: block 1 keeps the first
      filter count n, block 2 doubles it and block 3 takes it to int(1.5 * 2n);
      each block doubles the temporal dilation. */
  method AddWideningBlocks(net: Sequential, n: int, L: int, curDilation: array<int>, ghost stem: seq<Entry>)
    returns (failed: Option<ConfigError>, nCurFilters: int, ghost units: seq<Entry>)
    requires curDilation.Length == 2 && curDilation[0] == 1 && curDilation[1] == 1
    requires net.modules == stem && AllBefore(stem, (1, 0))
    modifies net, curDilation
    ensures failed.Some? ==> BuildUnits(ArgsUpTo(n, L, NumBlocks)) == Failure(failed.value)
    ensures failed.None? ==>
              && BuildUnits(ArgsUpTo(n, L, 3)) == Success(units)
              && net.modules == stem + units && AllBefore(net.modules, (4, 0))
              && nCurFilters == Width(n, 3) && curDilation[0] == Pow2(2) && curDilation[1] == 1
  {
    // Block 1: L units that keep the first filter count, dilation (1, 1).
    nCurFilters := n;
    var iBlock: nat := 1;
    AddSameWidthUnits(net, iBlock, 0, L, nCurFilters, curDilation);
    BuildSameWidth(1, 0, L, n, (1, 1));
    assert ArgsUpTo(n, L, 1) == SameWidthArgs(1, 0, L, n, (1, 1));
    units := SameWidthEntries(1, 0, L, n, (1, 1));

    var err: Option<BlockError>;
    var nOutFilters: int;

    // Block 2: its opening unit doubles the channels.
    iBlock := iBlock + 1;
    curDilation[0] := curDilation[0] * 2;
    nOutFilters := 2 * nCurFilters;
    err, units := AddPlannedBlock(net, iBlock, nCurFilters, nOutFilters, L, curDilation, n, stem, units);
    if err.Some? {
      return Some(BlockRejected(Res(iBlock, 0), err.value)), nCurFilters, units;
    }
    nCurFilters := nOutFilters;

    // Block 3: its opening unit takes the channels to int(1.5 * n_cur).
    iBlock := iBlock + 1;
    curDilation[0] := curDilation[0] * 2;
    nOutFilters := OneAndHalf(nCurFilters);
    err, units := AddPlannedBlock(net, iBlock, nCurFilters, nOutFilters, L, curDilation, n, stem, units);
    if err.Some? {
      return Some(BlockRejected(Res(iBlock, 0), err.value)), nCurFilters, units;
    }
    nCurFilters := nOutFilters;
    failed := None;
  }

  /** Blocks 4 to 7, which keep the channel count and double the temporal
      dilation, from 8 up to 64. */
  method AddDilatingBlocks(net: Sequential, n: int, L: int, nCurFilters: int, curDilation: array<int>,
                           ghost stem: seq<Entry>, ghost units0: seq<Entry>)
    returns (failed: Option<ConfigError>, ghost units: seq<Entry>)
    requires curDilation.Length == 2 && curDilation[0] == Pow2(2) && curDilation[1] == 1
    requires nCurFilters == Width(n, 3)
    requires BuildUnits(ArgsUpTo(n, L, 3)) == Success(units0)
    requires net.modules == stem + units0 && AllBefore(net.modules, (4, 0))
    modifies net, curDilation
    ensures failed.Some? ==> BuildUnits(ArgsUpTo(n, L, NumBlocks)) == Failure(failed.value)
    ensures failed.None? ==>
              && BuildUnits(ArgsUpTo(n, L, NumBlocks)) == Success(units)
              && net.modules == stem + units && AllBefore(net.modules, (NumBlocks + 1, 0))
              && curDilation[0] == Pow2(NumBlocks - 1) && curDilation[1] == 1
  {
    units := units0;
    var iBlock: nat := 3;
    var err: Option<BlockError>;
    iBlock := iBlock + 1;
    curDilation[0] := curDilation[0] * 2;
    err, units := AddPlannedBlock(net, iBlock, nCurFilters, nCurFilters, L, curDilation, n, stem, units);
    if err.Some? {
      return Some(BlockRejected(Res(iBlock, 0), err.value)), units;
    }
    iBlock := iBlock + 1;
    curDilation[0] := curDilation[0] * 2;
    err, units := AddPlannedBlock(net, iBlock, nCurFilters, nCurFilters, L, curDilation, n, stem, units);
    if err.Some? {
      return Some(BlockRejected(Res(iBlock, 0), err.value)), units;
    }
    iBlock := iBlock + 1;
    curDilation[0] := curDilation[0] * 2;
    err, units := AddPlannedBlock(net, iBlock, nCurFilters, nCurFilters, L, curDilation, n, stem, units);
    if err.Some? {
      return Some(BlockRejected(Res(iBlock, 0), err.value)), units;
    }
    iBlock := iBlock + 1;
    curDilation[0] := curDilation[0] * 2;
    err, units := AddPlannedBlock(net, iBlock, nCurFilters, nCurFilters, L, curDilation, n, stem, units);
    if err.Some? {
      return Some(BlockRejected(Res(iBlock, 0), err.value)), units;
    }
    failed := None;
  }

  /** The pooling layer, then the classifier in a registry of its own. */
  method AddHead(net: Sequential, cfg: Config, nCurFilters: int, curDilation: array<int>)
    requires curDilation.Length == 2
    requires AllBefore(net.modules, (NumBlocks + 1, 0))
    modifies net
    ensures net.modules == old(net.modules)
                           + [Entry(MeanPool, MeanPoolLayer(cfg, (curDilation[0], curDilation[1]))),
                              Entry(FinalLayer, FinalLayerOf(nCurFilters, cfg.nOutputs))]
  {
    ghost var before := net.modules;
    // Pooling: global, or of the given length with the final dilation.
    if cfg.finalPoolLength.Auto? {
      net.AddModule(MeanPool, AdaptiveAvgPool2d((1, 1)));
    } else {
      var poolDilation := (curDilation[0], curDilation[1]);
      net.AddModule(MeanPool, AvgPool2dWithConv((cfg.finalPoolLength.samples, 1), (1, 1), poolDilation));
    }
    ghost var pool := Entry(MeanPool, MeanPoolLayer(cfg, (curDilation[0], curDilation[1])));
    assert net.modules == before + [pool];

    // Classifier, in a registry of its own.
    var head := new Sequential();
    head.AddModule(ConvClassifier, Conv2d(nCurFilters, cfg.nOutputs, (1, 1), (1, 1), (0, 0), (1, 1), true));
    head.AddModule(Squeeze, SqueezeFinalOutput);
    assert Nested(head.modules) == FinalLayerOf(nCurFilters, cfg.nOutputs);
    assert AllBefore(net.modules, Key(FinalLayer));
    net.AddModule(FinalLayer, Nested(head.modules));
    ghost var final := Entry(FinalLayer, FinalLayerOf(nCurFilters, cfg.nOutputs));
    AppendAssoc(before, [pool], [final]);
    assert [pool] + [final] == [pool, final];
  }

  /** The constructor of the network: validates the configuration and
      registers every module in order, exactly as the reference plan says. */
  method Build(cfg: Config) returns (r: Result<seq<Entry>, ConfigError>)
    ensures r == Plan(cfg)
  {
    if cfg.finalPoolLength.Auto? {
      if cfg.nTimes.None? {
        return Failure(MissingNTimes);
      }
    }
    if cfg.firstFilterLength % 2 != 1 {
      return Failure(EvenFirstFilterLength);
    }
    var n, L := cfg.nFirstFilters, cfg.nLayersPerBlock;
    var net := new Sequential();
    AddStem(net, cfg);
    ghost var stem := net.modules;

    var curDilation := new int[2];
    curDilation[0], curDilation[1] := 1, 1;
    var failed, nCurFilters, units := AddWideningBlocks(net, n, L, curDilation, stem);
    if failed.Some? {
      PlanFailsWith(cfg, failed.value);
      return Failure(failed.value);
    }
    failed, units := AddDilatingBlocks(net, n, L, nCurFilters, curDilation, stem, units);
    if failed.Some? {
      PlanFailsWith(cfg, failed.value);
      return Failure(failed.value);
    }
    PlanSucceedsWith(cfg, units);

    AddHead(net, cfg, nCurFilters, curDilation);
    r := Success(net.modules);
  }
}
