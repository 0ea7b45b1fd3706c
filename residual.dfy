/** The residual unit of EEGResNet: what its constructor checks and records,
    and the channel bookkeeping of its forward pass. The convolutions, batch
    normalisations and nonlinearities are floating-point tensor operations and
    stay abstract: a channel is an opaque value of type C, the branch output is
    given, and the sum and nonlinearity are function parameters. */
module Residual {
  import opened Wrappers

  /** The two assertions the constructor can fail. */
  datatype BlockError =
    | OddTimePadding   // (filter_time_length - 1) * dilation[0] is odd
    | OddChannelDelta  // out_num_filters - in_filters is odd

  /** What a constructed residual unit records: its channel counts, the
      dilation pair it was given (as a value, so later changes to the caller's
      dilation array do not reach it), the temporal kernel length and padding
      of both convolutions, the number of zero channels the skip path adds and
      the class name of its nonlinearity. */
  datatype ResidualBlock = ResidualBlock(
    inFilters: int,
    outFilters: int,
    dilation: (int, int),
    filterTimeLength: int,
    timePadding: int,
    nPadChans: int,
    nonlinearity: string)

  /** The relations a successfully constructed unit satisfies. */
  predicate WellFormed(b: ResidualBlock) {
    && 2 * b.timePadding == (b.filterTimeLength - 1) * b.dilation.0
    && b.nPadChans == b.outFilters - b.inFilters
    && b.nPadChans % 2 == 0
  }

  /** Output length along one axis of a stride-`stride` convolution, by the
      framework's formula floor((len + 2*pad - dil*(k-1) - 1) / stride) + 1. */
  function ConvOutLength(len: int, padding: int, dilation: int, kernel: int, stride: int): int
    requires stride > 0
  {
    (len + 2 * padding - dilation * (kernel - 1) - 1) / stride + 1
  }

  /** The constructor: checks that the temporal padding can be split evenly,
      then that the channel growth can be split evenly, and records the unit.
      On success the padding keeps the temporal length of the input, and the
      channel axis is neither padded nor dilated beyond the given pair. */
  function NewResidualBlock(inFilters: int, outNumFilters: int, dilation: (int, int),
                            filterTimeLength: int, nonlinearity: string): (r: Result<ResidualBlock, BlockError>)
    ensures r.Success? <==>
              (filterTimeLength - 1) * dilation.0 % 2 == 0 && (outNumFilters - inFilters) % 2 == 0
    ensures (filterTimeLength - 1) * dilation.0 % 2 != 0 ==> r == Failure(OddTimePadding)
    ensures (filterTimeLength - 1) * dilation.0 % 2 == 0 && (outNumFilters - inFilters) % 2 != 0 ==>
              r == Failure(OddChannelDelta)
    ensures r.Success? ==>
              && WellFormed(r.value)
              && r.value.inFilters == inFilters && r.value.outFilters == outNumFilters
              && r.value.dilation == dilation && r.value.filterTimeLength == filterTimeLength
              && r.value.nonlinearity == nonlinearity
    ensures r.Success? ==>
              forall len :: ConvOutLength(len, r.value.timePadding, dilation.0, filterTimeLength, 1) == len
  {
    var fullPadding := (filterTimeLength - 1) * dilation.0;
    if fullPadding % 2 != 0 then Failure(OddTimePadding)
    else if (outNumFilters - inFilters) % 2 != 0 then Failure(OddChannelDelta)
    else Success(ResidualBlock(inFilters, outNumFilters, dilation, filterTimeLength,
                               fullPadding / 2, outNumFilters - inFilters, nonlinearity))
  }

  /** Errors the forward pass can raise on channel bookkeeping. */
  datatype ForwardError =
    | ChannelMismatch   // the input does not have the channels the first convolution expects
    | NegativePadding   // a zero block of negative size was requested

  function Zeros<C>(k: nat, zero: C): (z: seq<C>)
    ensures |z| == k && forall i :: 0 <= i < k ==> z[i] == zero
  {
    seq(k, _ => zero)
  }

  /** The skip path: the input channels unchanged when no padding is needed,
      otherwise nPadChans // 2 zero channels, then the input channels in order,
      then nPadChans // 2 zero channels again. */
  function SkipPath<C>(nPadChans: int, x: seq<C>, zero: C): (r: Result<seq<C>, ForwardError>)
    ensures r.Failure? <==> nPadChans < 0
    ensures r.Success? ==> |r.value| == |x| + 2 * (nPadChans / 2)
    ensures r.Success? ==>
              forall i :: 0 <= i < |r.value| ==>
                r.value[i] == if nPadChans / 2 <= i < nPadChans / 2 + |x| then x[i - nPadChans / 2] else zero
  {
    if nPadChans == 0 then Success(x)
    else if nPadChans < 0 then Failure(NegativePadding)
    else
      var pad := Zeros(nPadChans / 2, zero);
      Success(pad + x + pad)
  }

  /** Removing k channels from each end of a padded sequence returns the input:
      the skip path loses nothing and reorders nothing. */
  lemma SkipPathRoundTrip<C>(nPadChans: int, x: seq<C>, zero: C)
    requires nPadChans >= 0
    ensures var r := SkipPath(nPadChans, x, zero).value;
            r[nPadChans / 2..|r| - nPadChans / 2] == x
  {
    var r := SkipPath(nPadChans, x, zero).value;
    var k := nPadChans / 2;
    assert |r[k..|r| - k]| == |x|;
    forall i | 0 <= i < |x| ensures r[k..|r| - k][i] == x[i] {
      assert r[k..|r| - k][i] == r[k + i];
    }
  }

  /** For an even, non-negative channel delta the skip path is uniformly
      "half the delta in zeros, the input, half the delta in zeros"; with no
      delta the zero blocks are empty. */
  lemma SkipPathEven<C>(nPadChans: int, x: seq<C>, zero: C)
    requires nPadChans >= 0 && nPadChans % 2 == 0
    ensures SkipPath(nPadChans, x, zero)
            == Success(Zeros(nPadChans / 2, zero) + x + Zeros(nPadChans / 2, zero))
  {
    if nPadChans == 0 {
      var z := Zeros(0, zero);
      assert z + x + z == x;
    }
  }

  /** A well-formed unit whose output is at least as wide as its input pads an
      input of inFilters channels to exactly outFilters channels, with the
      same number of zero channels on each side. */
  lemma SkipPathMatchesOutput<C>(b: ResidualBlock, x: seq<C>, zero: C)
    requires WellFormed(b) && b.outFilters >= b.inFilters && |x| == b.inFilters
    ensures SkipPath(b.nPadChans, x, zero).Success?
    ensures |SkipPath(b.nPadChans, x, zero).value| == b.outFilters
    ensures 2 * (b.nPadChans / 2) == b.outFilters - b.inFilters
  {
  }

  /** The forward pass on channels. `stack2` stands for the output of the
      second convolution and batch normalisation (it always has outFilters
      channels); `add` is the element-wise sum of two channels and `nonlin`
      the unit's nonlinearity applied to a channel. The first convolution
      rejects an input with the wrong number of channels. */
  function Forward<C>(b: ResidualBlock, x: seq<C>, stack2: seq<C>, zero: C,
                      add: (C, C) -> C, nonlin: C -> C): (r: Result<seq<C>, ForwardError>)
    requires |stack2| == b.outFilters
    ensures |x| != b.inFilters ==> r == Failure(ChannelMismatch)
    ensures |x| == b.inFilters && b.nPadChans < 0 ==> r == Failure(NegativePadding)
    ensures WellFormed(b) && |x| == b.inFilters && b.outFilters >= b.inFilters ==>
              && r.Success?
              && |r.value| == b.outFilters
              && forall i :: 0 <= i < b.outFilters ==>
                   r.value[i] == nonlin(add(SkipPath(b.nPadChans, x, zero).value[i], stack2[i]))
  {
    if |x| != b.inFilters then Failure(ChannelMismatch)
    else match SkipPath(b.nPadChans, x, zero)
      case Failure(e) => Failure(e)
      case Success(skip) =>
        if |skip| != |stack2| then Failure(ChannelMismatch)
        else Success(seq(|skip|, i requires 0 <= i < |skip| => nonlin(add(skip[i], stack2[i]))))
  }
}
