/** The vocabulary of the construction plan: the names modules are
    registered under, and the layers registered under them, recorded with
    the integer hyperparameters the network passes to each. The framework
    classes themselves (and the utility layers Ensure4d, Rearrange,
    AvgPool2dWithConv, SqueezeFinalOutput) are opaque tags. */
module Layers {
  import opened Wrappers
  import opened Text
  import opened Residual

  /** The names under which modules are registered. */
  datatype ModuleName =
    | Ensuredims | Dimshuffle | ConvTime | ConvSpat | Bnorm | ConvNonlin
    | Res(block: nat, unit: nat)
    | MeanPool | FinalLayer
    | ConvClassifier | Squeeze

  /** The registered name as a string; residual units are "res_{block}_{unit}". */
  function NameText(n: ModuleName): string {
    match n
    case Ensuredims => "ensuredims"
    case Dimshuffle => "dimshuffle"
    case ConvTime => "conv_time"
    case ConvSpat => "conv_spat"
    case Bnorm => "bnorm"
    case ConvNonlin => "conv_nonlin"
    case Res(b, u) => "res_" + NatToString(b) + "_" + NatToString(u)
    case MeanPool => "mean_pool"
    case FinalLayer => "final_layer"
    case ConvClassifier => "conv_classifier"
    case Squeeze => "squeeze"
  }

  /** Reads "res_{block}_{unit}" back into its two numbers. */
  function ParseRes(t: string): Option<ModuleName> {
    var k := IndexOf(t, '_');
    if k < |t| && 1 <= k && AllDigits(t[..k]) && k + 1 < |t| && AllDigits(t[k + 1..])
    then Some(Res(StringToNat(t[..k]), StringToNat(t[k + 1..])))
    else None
  }

  /** The fixed name, if any, with the given first and last characters; the
      ten fixed names differ in that pair. */
  function FixedByEnds(first: char, last: char): Option<ModuleName> {
    match (first, last)
    case ('e', 's') => Some(Ensuredims)
    case ('d', 'e') => Some(Dimshuffle)
    case ('c', 'e') => Some(ConvTime)
    case ('c', 't') => Some(ConvSpat)
    case ('b', 'm') => Some(Bnorm)
    case ('c', 'n') => Some(ConvNonlin)
    case ('m', 'l') => Some(MeanPool)
    case ('f', 'r') => Some(FinalLayer)
    case ('c', 'r') => Some(ConvClassifier)
    case ('s', 'e') => Some(Squeeze)
    case _ => None
  }

  /** Reads a registered name back. */
  function ParseName(s: string): Option<ModuleName> {
    if |s| >= 4 && s[0] == 'r' && s[1] == 'e' && s[2] == 's' && s[3] == '_' then ParseRes(s[4..])
    else if |s| == 0 then None
    else match FixedByEnds(s[0], s[|s| - 1])
      case Some(n) => if NameText(n) == s then Some(n) else None
      case None => None
  }

  /** Every name reads back as itself, so distinct names are distinct strings:
      keying the registry by ModuleName is keying it by the string. */
  lemma NameTextRoundTrip(n: ModuleName)
    ensures ParseName(NameText(n)) == Some(n)
  {
    if n.Res? {
      ResNameRoundTrip(n.block, n.unit);
    } else {
      FixedNameRoundTrip(n);
    }
  }

  /** The fixed names read back as themselves: none starts with "res_", and
      each is found by its first and last characters. */
  lemma FixedNameRoundTrip(n: ModuleName)
    requires !n.Res?
    ensures ParseName(NameText(n)) == Some(n)
  {
    assert NameText(n)[0] != 'r';
  }

  lemma ResNameRoundTrip(b: nat, u: nat)
    ensures ParseName(NameText(Res(b, u))) == Some(Res(b, u))
  {
    var d, e := NatToString(b), NatToString(u);
    assert NameText(Res(b, u)) == "res_" + (d + "_" + e);
    ResPrefix(d + "_" + e);
    ParseResJoined(d, e);
    NatToStringRoundTrip(b);
    NatToStringRoundTrip(u);
  }

  lemma ResPrefix(t: string)
    ensures ParseName("res_" + t) == ParseRes(t)
  {
    var s := "res_" + t;
    assert s[0] == 'r' && s[1] == 'e' && s[2] == 's' && s[3] == '_' && s[4..] == t;
  }

  /** Two digit strings joined by '_' read back as the two numbers. */
  lemma ParseResJoined(d: string, e: string)
    requires |d| >= 1 && AllDigits(d) && |e| >= 1 && AllDigits(e)
    ensures ParseRes(d + "_" + e) == Some(Res(StringToNat(d), StringToNat(e)))
  {
    var t := d + "_" + e;
    assert t[|d|] == '_';
    forall i | 0 <= i < |d| ensures t[i] != '_' {
      assert t[i] == d[i] && IsDigit(d[i]);
    }
    assert IndexOf(t, '_') == |d|;
    assert t[..|d|] == d && t[|d| + 1..] == e;
  }

  lemma NameTextInjective(a: ModuleName, b: ModuleName)
    requires NameText(a) == NameText(b)
    ensures a == b
  {
    NameTextRoundTrip(a);
    NameTextRoundTrip(b);
  }

  /** A layer with the integer hyperparameters it is constructed with. */
  datatype Layer =
    | Ensure4d
    | Rearrange(pattern: string)
    | Conv2d(inChannels: int, outChannels: int, kernel: (int, int), stride: (int, int),
             padding: (int, int), dilation: (int, int), bias: bool)
    | BatchNorm2d(numFeatures: int)
    | Activation(className: string)
    | ResidualUnit(block: ResidualBlock)
    | AdaptiveAvgPool2d(outputSize: (int, int))
    | AvgPool2dWithConv(kernel: (int, int), stride: (int, int), dilation: (int, int))
    | Nested(children: seq<Entry>)
    | SqueezeFinalOutput

  /** One registered module. */
  datatype Entry = Entry(name: ModuleName, layer: Layer)

  /** The modules a residual unit registers, in order: conv_1, bn1, conv_2,
      bn2 and its nonlinearity. Both convolutions carry a bias, use the
      unit's temporal kernel and dilation with stride 1, and pad only the time
      axis; a well-formed unit's convolutions keep the temporal length, and
      each layer consumes the channels the previous one produces. */
  function UnitChildren(b: ResidualBlock): (cs: seq<Layer>)
    ensures |cs| == 5
    ensures cs[0].Conv2d? && cs[1].BatchNorm2d? && cs[2].Conv2d? && cs[3].BatchNorm2d?
    ensures cs[4] == Activation(b.nonlinearity)
    ensures cs[0].inChannels == b.inFilters
    ensures cs[0].outChannels == cs[1].numFeatures == cs[2].inChannels
         == cs[2].outChannels == cs[3].numFeatures == b.outFilters
    ensures forall i :: i == 0 || i == 2 ==>
              && cs[i].bias && cs[i].stride == (1, 1) && cs[i].dilation == b.dilation
              && cs[i].kernel == (b.filterTimeLength, 1) && cs[i].padding == (b.timePadding, 0)
              && (WellFormed(b) ==>
                    forall len :: ConvOutLength(len, cs[i].padding.0, cs[i].dilation.0, cs[i].kernel.0, cs[i].stride.0) == len)
  {
    var conv1 := Conv2d(b.inFilters, b.outFilters, (b.filterTimeLength, 1), (1, 1), (b.timePadding, 0), b.dilation, true);
    var conv2 := Conv2d(b.outFilters, b.outFilters, (b.filterTimeLength, 1), (1, 1), (b.timePadding, 0), b.dilation, true);
    [conv1, BatchNorm2d(b.outFilters), conv2, BatchNorm2d(b.outFilters), Activation(b.nonlinearity)]
  }

  /** Registering a module in an ordered registry: a name already present has
      its module replaced in place, a new name is appended at the end. */
  function Registered(ms: seq<Entry>, name: ModuleName, layer: Layer): seq<Entry>
    decreases |ms|
  {
    if ms == [] then [Entry(name, layer)]
    else if ms[0].name == name then [Entry(name, layer)] + ms[1..]
    else [ms[0]] + Registered(ms[1..], name, layer)
  }

  predicate HasName(ms: seq<Entry>, name: ModuleName) {
    exists j :: 0 <= j < |ms| && ms[j].name == name
  }

  /** Registering a name not yet present appends it. */
  lemma {:induction false} RegisteredFresh(ms: seq<Entry>, name: ModuleName, layer: Layer)
    requires !HasName(ms, name)
    ensures Registered(ms, name, layer) == ms + [Entry(name, layer)]
    decreases |ms|
  {
    if ms != [] {
      assert ms[0].name != name;
      assert !HasName(ms[1..], name) by {
        forall j | 0 <= j < |ms[1..]| ensures ms[1..][j].name != name {
          assert ms[1..][j] == ms[j + 1];
        }
      }
      RegisteredFresh(ms[1..], name, layer);
      assert [ms[0]] + (ms[1..] + [Entry(name, layer)]) == ms + [Entry(name, layer)];
    }
  }

  /** Registering a name already present keeps the names and their order. */
  lemma {:induction false} RegisteredPresent(ms: seq<Entry>, name: ModuleName, layer: Layer, j: int)
    requires 0 <= j < |ms| && ms[j].name == name
    requires forall i :: 0 <= i < j ==> ms[i].name != name
    ensures Registered(ms, name, layer) == ms[j := Entry(name, layer)]
    decreases |ms|
  {
    if j > 0 {
      RegisteredPresent(ms[1..], name, layer, j - 1);
      assert [ms[0]] + ms[1..][j - 1 := Entry(name, layer)] == ms[j := Entry(name, layer)];
    }
  }

  /** The order in which the network registers its modules: stem names, then
      residual units by (block, unit), then the pooling and final layers. */
  function Key(n: ModuleName): (nat, nat) {
    match n
    case Ensuredims => (0, 0)
    case Dimshuffle => (0, 1)
    case ConvTime => (0, 2)
    case ConvSpat => (0, 3)
    case Bnorm => (0, 4)
    case ConvNonlin => (0, 5)
    case Res(b, u) => (b, u)
    case MeanPool => (8, 0)
    case FinalLayer => (9, 0)
    case ConvClassifier => (0, 0)
    case Squeeze => (0, 1)
  }

  predicate KeyLess(a: (nat, nat), b: (nat, nat)) {
    a.0 < b.0 || (a.0 == b.0 && a.1 < b.1)
  }

  /** Every registered name comes before `k` in registration order. */
  predicate AllBefore(ms: seq<Entry>, k: (nat, nat)) {
    forall j :: 0 <= j < |ms| ==> KeyLess(Key(ms[j].name), k)
  }
}
