/** What the construction plan of EEGResNet promises: when construction
    fails and with which assertion, how many residual units there are and
    under which names, how channels and temporal dilation progress from block
    to block, and that registration never overwrites a module. */
module PlanFacts {
  import opened Wrappers
  import opened Residual
  import opened Layers
  import opened EEGResNet

  /** Units in block b: block 1 runs range(L); every later block has its
      opening unit and then range(1, L). */
  function UnitsInBlock(L: int, b: nat): nat {
    if b == 1 then Count(L) else if L >= 1 then L else 1
  }

  function UnitsUpTo(L: int, b: nat): nat {
    if b == 0 then 0 else UnitsUpTo(L, b - 1) + UnitsInBlock(L, b)
  }

  /** The arguments the plan gives the unit with this name: block b >= 1 has
      Width(n, b) output channels and temporal dilation 2^(b-1); only the
      opening unit of a block after the first changes the width. */
  function PlannedArgs(n: int, b: nat, u: nat): UnitArgs
    requires b >= 1
  {
    var out := Width(n, b);
    var inp := if b >= 2 && u == 0 then Width(n, b - 1) else out;
    UnitArgs(Res(b, u), inp, out, (Pow2(b - 1), 1))
  }

  /** The residual unit the plan registers under res_b_u. */
  function PlannedBlock(n: int, b: nat, u: nat): ResidualBlock
    requires b >= 1
  {
    var a := PlannedArgs(n, b, u);
    ResidualBlock(a.inFilters, a.outFilters, a.dilation, UnitFilterTimeLength,
                  Pow2(b - 1), a.outFilters - a.inFilters, UnitNonlinearity)
  }

  function NamesOf(us: seq<UnitArgs>): seq<ModuleName> {
    seq(|us|, i requires 0 <= i < |us| => us[i].name)
  }

  // ---------------------------------------------------------------------
  // Channels and dilation
  // ---------------------------------------------------------------------

  /** Python's int(1.5 * x) on an even x = 2n is exactly 3n. */
  lemma OneAndHalfOfDouble(n: int)
    ensures OneAndHalf(2 * n) == 3 * n
  {
    if n < 0 {
      assert 3 * -(2 * n) == 2 * (-3 * n);
    } else {
      assert 3 * (2 * n) == 2 * (3 * n);
    }
  }

  /** Channels go n -> 2n -> 3n and stay at 3n from block 3 on. */
  lemma WidthProgression(n: int, b: nat)
    ensures b <= 1 ==> Width(n, b) == n
    ensures b == 2 ==> Width(n, b) == 2 * n
    ensures b >= 3 ==> Width(n, b) == 3 * n
  {
    OneAndHalfOfDouble(n);
  }

  /** The units as the source writes them: block 1 keeps n channels, res_2_0
      maps n to 2n, res_3_0 maps 2n to 3n, every other unit keeps its width;
      block b dilates time by 2^(b-1) and never dilates the channel axis; the
      unit pads time by exactly its dilation, so the temporal length is kept;
      the skip path adds n zero channels in res_2_0 and res_3_0, none elsewhere. */
  lemma PlannedBlockShape(n: int, b: nat, u: nat)
    requires 1 <= b
    ensures var blk := PlannedBlock(n, b, u);
            && (b == 1 ==> blk.inFilters == n && blk.outFilters == n)
            && (b == 2 && u == 0 ==> blk.inFilters == n && blk.outFilters == 2 * n)
            && (b == 3 && u == 0 ==> blk.inFilters == 2 * n && blk.outFilters == 3 * n)
            && (!(u == 0 && (b == 2 || b == 3)) ==> blk.inFilters == blk.outFilters)
            && (b >= 3 ==> blk.outFilters == 3 * n)
            && blk.dilation == (Pow2(b - 1), 1)
            && blk.filterTimeLength == 3 && blk.nonlinearity == "ELU"
            && blk.timePadding == Pow2(b - 1)
            && blk.nPadChans == (if u == 0 && (b == 2 || b == 3) then n else 0)
            && forall len :: ConvOutLength(len, blk.timePadding, blk.dilation.0, blk.filterTimeLength, 1) == len
  {
    WidthProgression(n, b);
    WidthProgression(n, b - 1);
  }

  lemma FinalDilation()
    ensures Pow2(NumBlocks - 1) == 64
  {
    assert Pow2(6) == 64;
  }

  /** The forward pass of a planned unit on an input with its in-channels:
      res_2_0 and res_3_0 put n/2 zero channels on each side of the input,
      every other unit adds none; either way the result has the unit's
      out-channels. */
  lemma PlannedForward<C>(n: int, b: nat, u: nat, x: seq<C>, stack2: seq<C>, zero: C,
                          add: (C, C) -> C, nonlin: C -> C)
    requires 1 <= b && n >= 0 && n % 2 == 0
    requires |x| == PlannedBlock(n, b, u).inFilters && |stack2| == PlannedBlock(n, b, u).outFilters
    ensures var blk := PlannedBlock(n, b, u);
            var k := if u == 0 && (b == 2 || b == 3) then n / 2 else 0;
            && SkipPath(blk.nPadChans, x, zero) == Success(Zeros(k, zero) + x + Zeros(k, zero))
            && Forward(blk, x, stack2, zero, add, nonlin).Success?
            && |Forward(blk, x, stack2, zero, add, nonlin).value| == blk.outFilters
  {
    var blk := PlannedBlock(n, b, u);
    PlannedBlockShape(n, b, u);
    PlannedUnitBuilds(n, b, u);
    var k := if u == 0 && (b == 2 || b == 3) then n / 2 else 0;
    assert blk.nPadChans / 2 == k && blk.nPadChans >= 0 && blk.nPadChans % 2 == 0;
    SkipPathEven(blk.nPadChans, x, zero);
    assert WellFormed(blk) && blk.outFilters >= blk.inFilters;
  }

  /** A planned unit constructs unless it changes the width by an odd
      number of channels, which happens exactly in res_2_0 and res_3_0 when n
      is odd; what it constructs is the planned block. */
  lemma PlannedUnitBuilds(n: int, b: nat, u: nat)
    requires 1 <= b
    ensures BuildUnit(PlannedArgs(n, b, u)).Success? <==> (n % 2 == 0 || !(u == 0 && (b == 2 || b == 3)))
    ensures BuildUnit(PlannedArgs(n, b, u)).Failure? ==> BuildUnit(PlannedArgs(n, b, u)).error == OddChannelDelta
    ensures BuildUnit(PlannedArgs(n, b, u)).Success? ==> BuildUnit(PlannedArgs(n, b, u)).value == PlannedBlock(n, b, u)
  {
    var a := PlannedArgs(n, b, u);
    var p := Pow2(b - 1);
    assert a.dilation == (p, 1);
    assert (UnitFilterTimeLength - 1) * a.dilation.0 == 2 * p;
    PlannedDelta(n, b, u);
    var r := BuildUnit(a);
    if u == 0 && (b == 2 || b == 3) {
      assert a.outFilters - a.inFilters == n;
    } else {
      assert a.outFilters - a.inFilters == 0;
    }
    if r.Success? {
      assert r.value.timePadding == p;
    }
  }

  /** Only res_2_0 and res_3_0 change the width, each by n channels. */
  lemma PlannedDelta(n: int, b: nat, u: nat)
    requires 1 <= b
    ensures PlannedArgs(n, b, u).outFilters - PlannedArgs(n, b, u).inFilters
            == if u == 0 && (b == 2 || b == 3) then n else 0
  {
    WidthProgression(n, b);
    WidthProgression(n, b - 1);
  }

  // ---------------------------------------------------------------------
  // The unit list
  // ---------------------------------------------------------------------

  lemma BlockArgsShape(n: int, L: int, b: nat)
    requires 1 <= b
    ensures |BlockArgs(n, L, b)| == UnitsInBlock(L, b)
    ensures forall u :: 0 <= u < |BlockArgs(n, L, b)| ==> BlockArgs(n, L, b)[u] == PlannedArgs(n, b, u)
  {
    var bs := BlockArgs(n, L, b);
    if b >= 2 {
      var rest := SameWidthArgs(b, 1, L, Width(n, b), (Pow2(b - 1), 1));
      assert bs == [FirstArgs(n, b)] + rest;
      forall u | 1 <= u < |bs| ensures bs[u] == PlannedArgs(n, b, u) {
        assert bs[u] == rest[u - 1];
      }
    }
  }

  /** The units of blocks 1..b: their number and their arguments. */
  lemma {:induction false} ArgsUpToArgs(n: int, L: int, b: nat)
    ensures var a := ArgsUpTo(n, L, b);
            && |a| == UnitsUpTo(L, b)
            && forall i :: 0 <= i < |a| ==>
                 && a[i].name.Res? && 1 <= a[i].name.block <= b
                 && a[i] == PlannedArgs(n, a[i].name.block, a[i].name.unit)
  {
    if b > 0 {
      ArgsUpToArgs(n, L, b - 1);
      BlockArgsShape(n, L, b);
      var p := ArgsUpTo(n, L, b - 1);
      var q := BlockArgs(n, L, b);
      var a := ArgsUpTo(n, L, b);
      assert a == p + q;
      forall i | 0 <= i < |a|
        ensures a[i].name.Res? && 1 <= a[i].name.block <= b
        ensures a[i] == PlannedArgs(n, a[i].name.block, a[i].name.unit)
      {
        if i >= |p| {
          assert a[i] == q[i - |p|];
        } else {
          assert a[i] == p[i];
        }
      }
    }
  }

  /** The names alone: block b registers res_b_0, res_b_1, ... in order. */
  lemma BlockNames(n: int, L: int, b: nat)
    requires 1 <= b
    ensures |BlockArgs(n, L, b)| == UnitsInBlock(L, b)
    ensures forall u :: 0 <= u < |BlockArgs(n, L, b)| ==> BlockArgs(n, L, b)[u].name == Res(b, u)
  {
    BlockArgsShape(n, L, b);
  }

  /** The blocks alone: every unit of blocks 1..b is a res_bb_u with bb <= b. */
  lemma ArgsUpToBlocks(n: int, L: int, b: nat)
    ensures forall i :: 0 <= i < |ArgsUpTo(n, L, b)| ==>
              ArgsUpTo(n, L, b)[i].name.Res? && ArgsUpTo(n, L, b)[i].name.block <= b
  {
    ArgsUpToArgs(n, L, b);
  }

  /** The units of blocks 1..b are those of blocks 1..b-1 followed by block b's. */
  lemma ArgsUpToStep(n: int, L: int, b: nat)
    requires 1 <= b
    ensures ArgsUpTo(n, L, b) == ArgsUpTo(n, L, b - 1) + BlockArgs(n, L, b)
  {
  }

  /** Each unit's (block, unit) key is above the previous unit's. */
  predicate NamesIncrease(a: seq<UnitArgs>) {
    forall i :: 1 <= i < |a| ==> KeyLess(Key(a[i - 1].name), Key(a[i].name))
  }

  /** Units of earlier blocks followed by block b's units in unit order stay
      in increasing order. */
  lemma NamesIncreaseJoin(p: seq<UnitArgs>, q: seq<UnitArgs>, b: nat)
    requires NamesIncrease(p)
    requires forall i :: 0 <= i < |p| ==> p[i].name.Res? && p[i].name.block < b
    requires forall u :: 0 <= u < |q| ==> q[u].name == Res(b, u)
    ensures NamesIncrease(p + q)
  {
    var a := p + q;
    forall i | 1 <= i < |a| ensures KeyLess(Key(a[i - 1].name), Key(a[i].name)) {
      if i < |p| {
        assert a[i - 1] == p[i - 1] && a[i] == p[i];
      } else if i == |p| {
        assert a[i - 1] == p[i - 1] && a[i] == q[0];
      } else {
        assert a[i - 1] == q[i - 1 - |p|] && a[i] == q[i - |p|];
      }
    }
  }

  /** Increasing step by step is increasing between any two units. */
  lemma {:induction false} NamesIncreasePairwise(a: seq<UnitArgs>)
    requires NamesIncrease(a)
    ensures forall i, j :: 0 <= i < j < |a| ==> KeyLess(Key(a[i].name), Key(a[j].name))
    decreases |a|
  {
    if |a| > 1 {
      var front := a[..|a| - 1];
      assert NamesIncrease(front) by {
        forall i | 1 <= i < |front| ensures KeyLess(Key(front[i - 1].name), Key(front[i].name)) {
          assert front[i - 1] == a[i - 1] && front[i] == a[i];
        }
      }
      NamesIncreasePairwise(front);
      forall i, j | 0 <= i < j < |a| ensures KeyLess(Key(a[i].name), Key(a[j].name)) {
        if j < |a| - 1 {
          assert a[i] == front[i] && a[j] == front[j];
        } else if i < j - 1 {
          assert a[i] == front[i] && a[j - 1] == front[j - 1];
        }
      }
    }
  }

  /** The units of blocks 1..b are in strictly increasing (block, unit) order. */
  lemma {:induction false} ArgsUpToOrder(n: int, L: int, b: nat)
    ensures NamesIncrease(ArgsUpTo(n, L, b))
  {
    if b > 0 {
      ArgsUpToOrder(n, L, b - 1);
      ArgsUpToBlocks(n, L, b - 1);
      BlockNames(n, L, b);
      ArgsUpToStep(n, L, b);
      NamesIncreaseJoin(ArgsUpTo(n, L, b - 1), BlockArgs(n, L, b), b);
    }
  }

  /** Block b's names are exactly res_b_u for u below its unit count. */
  lemma BlockNamesExactly(q: seq<UnitArgs>, b: nat)
    requires forall u :: 0 <= u < |q| ==> q[u].name == Res(b, u)
    ensures forall bb: nat, u: nat :: Res(bb, u) in NamesOf(q) <==> bb == b && u < |q|
  {
    forall bb: nat, u: nat ensures Res(bb, u) in NamesOf(q) <==> bb == b && u < |q| {
      if bb == b && u < |q| {
        assert NamesOf(q)[u] == Res(bb, u);
      }
      if Res(bb, u) in NamesOf(q) {
        var k :| 0 <= k < |q| && NamesOf(q)[k] == Res(bb, u);
        assert q[k].name == Res(b, k);
      }
    }
  }

  /** The units of blocks 1..b are named exactly res_bb_u for bb <= b and u
      below the block's unit count. */
  lemma {:induction false} ArgsUpToNames(n: int, L: int, b: nat)
    ensures forall bb: nat, u: nat :: Res(bb, u) in NamesOf(ArgsUpTo(n, L, b)) <==> 1 <= bb <= b && u < UnitsInBlock(L, bb)
  {
    if b > 0 {
      var p, q := ArgsUpTo(n, L, b - 1), BlockArgs(n, L, b);
      ArgsUpToNames(n, L, b - 1);
      assert forall bb: nat, u: nat :: Res(bb, u) in NamesOf(q) <==> bb == b && u < UnitsInBlock(L, b) by {
        BlockNames(n, L, b);
        BlockNamesExactly(q, b);
      }
      assert NamesOf(ArgsUpTo(n, L, b)) == NamesOf(p) + NamesOf(q) by {
        assert ArgsUpTo(n, L, b) == p + q;
      }
    }
  }

  /** 7L residual units when L >= 1, and 6 (one per block after the first)
      when L <= 0. */
  lemma {:induction false} UnitCount(L: int, b: nat)
    requires 1 <= b
    ensures UnitsUpTo(L, b) == Count(L) + (b - 1) * (if L >= 1 then L else 1)
  {
    if b > 1 {
      UnitCount(L, b - 1);
    }
  }

  function TotalUnits(L: int): nat {
    if L >= 1 then NumBlocks * L else NumBlocks - 1
  }

  lemma TotalUnitCount(L: int)
    ensures UnitsUpTo(L, NumBlocks) == TotalUnits(L)
  {
    UnitCount(L, NumBlocks);
  }

  /** Building a unit list stops at the first unit whose constructor fails;
      when none fails, it registers one residual unit per argument, in order. */
  lemma {:induction false} BuildUnitsShape(us: seq<UnitArgs>)
    ensures BuildUnits(us).Success? <==> forall i :: 0 <= i < |us| ==> BuildUnit(us[i]).Success?
    ensures BuildUnits(us).Success? ==>
              && |BuildUnits(us).value| == |us|
              && forall i :: 0 <= i < |us| ==>
                   BuildUnits(us).value[i] == Entry(us[i].name, ResidualUnit(BuildUnit(us[i]).value))
    ensures BuildUnits(us).Failure? ==>
              exists i :: && 0 <= i < |us| && BuildUnit(us[i]).Failure?
                          && (forall j :: 0 <= j < i ==> BuildUnit(us[j]).Success?)
                          && BuildUnits(us).error == BlockRejected(us[i].name, BuildUnit(us[i]).error)
    decreases |us|
  {
    if us != [] {
      BuildUnitsShape(us[1..]);
      assert forall i :: 1 <= i < |us| ==> us[i] == us[1..][i - 1];
      if BuildUnit(us[0]).Success? && BuildUnits(us[1..]).Failure? {
        var i :| && 0 <= i < |us[1..]| && BuildUnit(us[1..][i]).Failure?
                 && (forall j :: 0 <= j < i ==> BuildUnit(us[1..][j]).Success?)
                 && BuildUnits(us[1..]).error == BlockRejected(us[1..][i].name, BuildUnit(us[1..][i]).error);
        assert BuildUnit(us[i + 1]).Failure?;
        forall j | 0 <= j < i + 1 ensures BuildUnit(us[j]).Success? {
          if j > 0 {
            assert us[j] == us[1..][j - 1];
          }
        }
      }
      if BuildUnit(us[0]).Success? && BuildUnits(us[1..]).Success? {
        var v := BuildUnits(us).value;
        assert v == [Entry(us[0].name, ResidualUnit(BuildUnit(us[0]).value))] + BuildUnits(us[1..]).value;
        forall i | 1 <= i < |us|
          ensures v[i] == Entry(us[i].name, ResidualUnit(BuildUnit(us[i]).value))
        {
          assert v[i] == BuildUnits(us[1..]).value[i - 1];
        }
      }
    }
  }

  // ---------------------------------------------------------------------
  // The plan as a whole
  // ---------------------------------------------------------------------

  /** With an even first filter count every planned unit constructs. */
  lemma UnitsBuildWhenEven(n: int, L: int)
    requires n % 2 == 0
    ensures BuildUnits(ArgsUpTo(n, L, NumBlocks)).Success?
  {
    var a := ArgsUpTo(n, L, NumBlocks);
    ArgsUpToArgs(n, L, NumBlocks);
    BuildUnitsShape(a);
    forall i | 0 <= i < |a| ensures BuildUnit(a[i]).Success? {
      PlannedUnitBuilds(n, a[i].name.block, a[i].name.unit);
    }
  }

  /** With an odd first filter count the opening unit of block 2 is the
      first to fail, on its channel-delta assertion. */
  lemma UnitsFailWhenOdd(n: int, L: int)
    requires n % 2 != 0
    ensures BuildUnits(ArgsUpTo(n, L, NumBlocks)) == Failure(BlockRejected(Res(2, 0), OddChannelDelta))
  {
    BuildSameWidth(1, 0, L, n, (1, 1));
    assert ArgsUpTo(n, L, 1) == SameWidthArgs(1, 0, L, n, (1, 1));
    var units := SameWidthEntries(1, 0, L, n, (1, 1));
    BlockStep(n, L, 2, units);
    assert FirstArgs(n, 2) == PlannedArgs(n, 2, 0);
    PlannedUnitBuilds(n, 2, 0);
    FailurePropagates(n, L, 2, BlockRejected(Res(2, 0), OddChannelDelta));
  }

  /** Construction fails exactly as the source's assertions fire, in their
      order: "auto" pooling without n_times, then an even first filter length,
      then (from the residual unit res_2_0) an odd first filter count; it
      succeeds exactly when none of these holds. */
  lemma PlanOutcome(cfg: Config)
    ensures cfg.finalPoolLength.Auto? && cfg.nTimes.None? ==> Plan(cfg) == Failure(MissingNTimes)
    ensures !(cfg.finalPoolLength.Auto? && cfg.nTimes.None?) && cfg.firstFilterLength % 2 != 1 ==>
              Plan(cfg) == Failure(EvenFirstFilterLength)
    ensures !(cfg.finalPoolLength.Auto? && cfg.nTimes.None?) && cfg.firstFilterLength % 2 == 1
            && cfg.nFirstFilters % 2 != 0 ==>
              Plan(cfg) == Failure(BlockRejected(Res(2, 0), OddChannelDelta))
    ensures Plan(cfg).Success? <==>
              && !(cfg.finalPoolLength.Auto? && cfg.nTimes.None?)
              && cfg.firstFilterLength % 2 == 1
              && cfg.nFirstFilters % 2 == 0
  {
    if !(cfg.finalPoolLength.Auto? && cfg.nTimes.None?) && cfg.firstFilterLength % 2 == 1 {
      if cfg.nFirstFilters % 2 == 0 {
        UnitsBuildWhenEven(cfg.nFirstFilters, cfg.nLayersPerBlock);
      } else {
        UnitsFailWhenOdd(cfg.nFirstFilters, cfg.nLayersPerBlock);
        PlanFailsWith(cfg, BlockRejected(Res(2, 0), OddChannelDelta));
      }
    }
  }

  function EntryNames(es: seq<Entry>): seq<ModuleName> {
    seq(|es|, i requires 0 <= i < |es| => es[i].name)
  }

  /** All keys of a registry strictly increase, so no name occurs twice. */
  predicate KeysIncrease(ms: seq<Entry>) {
    forall i, j :: 0 <= i < j < |ms| ==> KeyLess(Key(ms[i].name), Key(ms[j].name))
  }

  /** Units built from arguments whose names increase have increasing keys. */
  lemma UnitsIncrease(a: seq<UnitArgs>)
    requires BuildUnits(a).Success? && NamesIncrease(a)
    ensures KeysIncrease(BuildUnits(a).value)
  {
    NamesIncreasePairwise(a);
    BuildUnitsShape(a);
  }

  /** The residual units of a successful plan are residual-block names of
      blocks 1..7, in increasing order. */
  lemma UnitsInRange(n: int, L: int)
    requires BuildUnits(ArgsUpTo(n, L, NumBlocks)).Success?
    ensures var us := BuildUnits(ArgsUpTo(n, L, NumBlocks)).value;
            && (forall i :: 0 <= i < |us| ==> us[i].name.Res? && 1 <= us[i].name.block <= NumBlocks)
            && KeysIncrease(us)
  {
    var a := ArgsUpTo(n, L, NumBlocks);
    ArgsUpToArgs(n, L, NumBlocks);
    ArgsUpToOrder(n, L, NumBlocks);
    UnitsIncrease(a);
    BuildUnitsShape(a);
  }

  /** The residual units of a successful plan: TotalUnits(L) of them, named
      exactly res_b_u for 1 <= b <= 7 and u below the block's unit count, in
      block/unit order, each the planned unit for its name. */
  lemma UnitsShape(n: int, L: int)
    requires BuildUnits(ArgsUpTo(n, L, NumBlocks)).Success?
    ensures var us := BuildUnits(ArgsUpTo(n, L, NumBlocks)).value;
            && |us| == TotalUnits(L)
            && (forall i :: 0 <= i < |us| ==>
                  && us[i].name.Res? && 1 <= us[i].name.block <= NumBlocks
                  && us[i].layer == ResidualUnit(PlannedBlock(n, us[i].name.block, us[i].name.unit)))
            && (forall b: nat, u: nat :: Res(b, u) in EntryNames(us) <==> 1 <= b <= NumBlocks && u < UnitsInBlock(L, b))
            && KeysIncrease(us)
  {
    var a := ArgsUpTo(n, L, NumBlocks);
    ArgsUpToArgs(n, L, NumBlocks);
    UnitsInRange(n, L);
    ArgsUpToNames(n, L, NumBlocks);
    TotalUnitCount(L);
    BuildUnitsShape(a);
    var us := BuildUnits(a).value;
    forall i | 0 <= i < |us|
      ensures us[i].layer == ResidualUnit(PlannedBlock(n, us[i].name.block, us[i].name.unit))
    {
      PlannedUnitBuilds(n, a[i].name.block, a[i].name.unit);
    }
    assert EntryNames(us) == NamesOf(a);
  }

  /** The dilation each registered unit keeps: block 1 does not dilate,
      each block dilates time twice as much as the block before it, up to 64
      in block 7, and no unit dilates the channel axis. Every unit holds the
      value the dilation array had when it was built. */
  lemma DilationProgression(n: int, L: int)
    requires BuildUnits(ArgsUpTo(n, L, NumBlocks)).Success?
    ensures var us := BuildUnits(ArgsUpTo(n, L, NumBlocks)).value;
            && (forall i :: 0 <= i < |us| ==>
                  && us[i].name.Res? && us[i].layer.ResidualUnit? && us[i].layer.block.dilation.1 == 1
                  && (us[i].name.block == 1 ==> us[i].layer.block.dilation.0 == 1)
                  && (us[i].name.block == NumBlocks ==> us[i].layer.block.dilation.0 == 64))
            && (forall i, j :: && 0 <= i < |us| && 0 <= j < |us|
                               && us[i].name.Res? && us[j].name.Res? && us[i].layer.ResidualUnit? && us[j].layer.ResidualUnit?
                               && us[j].name.block == us[i].name.block + 1 ==>
                  us[j].layer.block.dilation.0 == 2 * us[i].layer.block.dilation.0)
  {
    var us := BuildUnits(ArgsUpTo(n, L, NumBlocks)).value;
    UnitsShape(n, L);
    FinalDilation();
    forall i | 0 <= i < |us|
      ensures us[i].layer.ResidualUnit? && us[i].layer.block.dilation == (Pow2(us[i].name.block - 1), 1)
    {
    }
  }

  /** The stem's names come in registration order, all before the residual
      units. */
  lemma StemOrder(cfg: Config)
    ensures KeysIncrease(Stem(cfg)) && AllBefore(Stem(cfg), (1, 0))
  {
  }

  /** A successfully constructed network registers the stem, its residual
      units, the pooling layer (dilated by (64, 1) when its length is given)
      and the classifier on 3n channels. */
  lemma PlanShape(cfg: Config)
    requires Plan(cfg).Success?
    ensures var ms := Plan(cfg).value;
            var k := |Stem(cfg)|;
            && |ms| == k + TotalUnits(cfg.nLayersPerBlock) + 2
            && ms[..k] == Stem(cfg)
            && ms[k..|ms| - 2] == BuildUnits(ArgsUpTo(cfg.nFirstFilters, cfg.nLayersPerBlock, NumBlocks)).value
            && ms[|ms| - 2] == Entry(MeanPool, MeanPoolLayer(cfg, (64, 1)))
            && ms[|ms| - 1] == Entry(FinalLayer, FinalLayerOf(3 * cfg.nFirstFilters, cfg.nOutputs))
  {
    var n, L := cfg.nFirstFilters, cfg.nLayersPerBlock;
    var us := BuildUnits(ArgsUpTo(n, L, NumBlocks)).value;
    var stem := Stem(cfg);
    var ms := Plan(cfg).value;
    assert ms == stem + us + HeadOf(cfg);
    UnitsShape(n, L);
    WidthProgression(n, NumBlocks);
    FinalDilation();
    assert ms[..|stem|] == stem;
    assert ms[|stem|..|ms| - 2] == us;
  }

  /** No registered name comes before `k` in registration order. */
  predicate NoneBefore(ms: seq<Entry>, k: (nat, nat)) {
    forall j :: 0 <= j < |ms| ==> !KeyLess(Key(ms[j].name), k)
  }

  lemma KeysIncreaseJoin(a: seq<Entry>, b: seq<Entry>, k: (nat, nat))
    requires KeysIncrease(a) && KeysIncrease(b) && AllBefore(a, k) && NoneBefore(b, k)
    ensures KeysIncrease(a + b)
  {
    var ab := a + b;
    forall i, j | 0 <= i < j < |ab| ensures KeyLess(Key(ab[i].name), Key(ab[j].name)) {
      if j < |a| {
        assert ab[i] == a[i] && ab[j] == a[j];
      } else if i < |a| {
        assert ab[i] == a[i] && ab[j] == b[j - |a|];
      } else {
        assert ab[i] == b[i - |a|] && ab[j] == b[j - |a|];
      }
    }
  }

  lemma AllBeforeJoin(a: seq<Entry>, b: seq<Entry>, k: (nat, nat))
    requires AllBefore(a, k) && AllBefore(b, k)
    ensures AllBefore(a + b, k)
  {
    var ab := a + b;
    forall j | 0 <= j < |ab| ensures KeyLess(Key(ab[j].name), k) {
      if j < |a| {
        assert ab[j] == a[j];
      } else {
        assert ab[j] == b[j - |a|];
      }
    }
  }

  /** The residual units sit after the stem and before pooling, in order. */
  lemma UnitsKeys(n: int, L: int)
    requires BuildUnits(ArgsUpTo(n, L, NumBlocks)).Success?
    ensures var us := BuildUnits(ArgsUpTo(n, L, NumBlocks)).value;
            KeysIncrease(us) && NoneBefore(us, (1, 0)) && AllBefore(us, (NumBlocks + 1, 0))
  {
    UnitsInRange(n, L);
  }

  /** Every name of a successfully constructed network is registered once,
      in increasing (block, unit) order, so no registration replaced an
      earlier module. */
  lemma PlanKeysIncrease(cfg: Config)
    requires Plan(cfg).Success?
    ensures KeysIncrease(Plan(cfg).value)
  {
    var n, L := cfg.nFirstFilters, cfg.nLayersPerBlock;
    var us := BuildUnits(ArgsUpTo(n, L, NumBlocks)).value;
    var stem := Stem(cfg);
    var tail := HeadOf(cfg);
    assert Plan(cfg).value == stem + us + tail;
    UnitsKeys(n, L);
    StemOrder(cfg);
    KeysIncreaseJoin(stem, us, (1, 0));
    AllBeforeJoin(stem, us, (NumBlocks + 1, 0));
    KeysIncreaseJoin(stem + us, tail, (NumBlocks + 1, 0));
  }
}
