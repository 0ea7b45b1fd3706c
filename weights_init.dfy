/** Weight initialisation of EEGResNet: the class-name dispatch applied to
    every module of the network, children before parents. What a parameter
    holds is abstracted to how it was last set: left as the framework
    constructed it, drawn by the configured convolution initialiser (whose
    random values are not modelled), or filled with a constant. */
module WeightsInit {
  import opened Wrappers
  import opened Text
  import opened Residual
  import opened Layers
  import opened EEGResNet
  import opened PlanFacts

  datatype Param =
    | FrameworkDefault    // as the layer's own constructor left it
    | Drawn               // overwritten by the convolution initialiser
    | Filled(value: int)  // set to a constant

  /** A module as the dispatch sees it: its class name and its `weight` and
      `bias` parameters, None when the module has none. */
  datatype ParamModule = ParamModule(className: string, weight: Option<Param>, bias: Option<Param>)

  /** The dispatch touches a parameter the module does not have. */
  datatype InitError =
    | MissingWeight(className: string)
    | MissingBias(className: string)

  /** Python's `"Conv" in classname and classname != "AvgPool2dWithConv"`. */
  predicate SelectsConv(className: string) {
    Contains(className, "Conv") && className != "AvgPool2dWithConv"
  }

  /** Python's `"BatchNorm" in classname`, consulted only when the convolution test fails. */
  predicate SelectsBatchNorm(className: string) {
    Contains(className, "BatchNorm")
  }

  /** A class the dispatch leaves alone. */
  predicate Untouched(className: string) {
    !SelectsConv(className) && !SelectsBatchNorm(className)
  }

  /** The dispatch on one module. A selected convolution has its weight drawn
      and a bias it has set to 0; a selected batch normalisation has weight 1
      and bias 0; every other module is returned as it was. Touching a
      parameter the module lacks raises. The class name never changes. */
  function InitModule(m: ParamModule): (r: Result<ParamModule, InitError>)
    ensures r.Success? ==> r.value.className == m.className
    ensures SelectsConv(m.className) ==>
              && (r.Success? <==> m.weight.Some?)
              && (r.Success? ==> r.value.weight == Some(Drawn)
                                 && r.value.bias == (if m.bias.Some? then Some(Filled(0)) else None))
    ensures !SelectsConv(m.className) && SelectsBatchNorm(m.className) ==>
              && (r.Success? <==> m.weight.Some? && m.bias.Some?)
              && (r.Success? ==> r.value.weight == Some(Filled(1)) && r.value.bias == Some(Filled(0)))
    ensures Untouched(m.className) ==> r == Success(m)
    ensures r.Failure? ==> r.error == (if m.weight.None? then MissingWeight(m.className) else MissingBias(m.className))
  {
    if SelectsConv(m.className) then
      if m.weight.None? then Failure(MissingWeight(m.className))
      else Success(m.(weight := Some(Drawn), bias := if m.bias.Some? then Some(Filled(0)) else None))
    else if SelectsBatchNorm(m.className) then
      if m.weight.None? then Failure(MissingWeight(m.className))
      else if m.bias.None? then Failure(MissingBias(m.className))
      else Success(m.(weight := Some(Filled(1)), bias := Some(Filled(0))))
    else Success(m)
  }

  /** Applies the dispatch to modules in order; the first failure stops it. */
  function InitAll(ms: seq<ParamModule>): Result<seq<ParamModule>, InitError>
    decreases |ms|
  {
    if ms == [] then Success([])
    else match InitModule(ms[0])
      case Failure(e) => Failure(e)
      case Success(m) =>
        match InitAll(ms[1..])
        case Failure(e) => Failure(e)
        case Success(rest) => Success([m] + rest)
  }

  /** The fold agrees with the module-wise dispatch: it succeeds exactly when
      every module does, then initialises each in place, and otherwise fails
      with the error of the first module that fails. */
  lemma {:induction false} InitAllShape(ms: seq<ParamModule>)
    ensures InitAll(ms).Success? <==> forall i :: 0 <= i < |ms| ==> InitModule(ms[i]).Success?
    ensures InitAll(ms).Success? ==>
              && |InitAll(ms).value| == |ms|
              && forall i :: 0 <= i < |ms| ==> InitAll(ms).value[i] == InitModule(ms[i]).value
    ensures InitAll(ms).Failure? ==>
              exists i :: && 0 <= i < |ms| && InitModule(ms[i]).Failure?
                          && (forall j :: 0 <= j < i ==> InitModule(ms[j]).Success?)
                          && InitAll(ms).error == InitModule(ms[i]).error
    decreases |ms|
  {
    if ms != [] {
      InitAllShape(ms[1..]);
      assert forall i :: 1 <= i < |ms| ==> ms[i] == ms[1..][i - 1];
      if InitModule(ms[0]).Success? && InitAll(ms[1..]).Failure? {
        var i :| && 0 <= i < |ms[1..]| && InitModule(ms[1..][i]).Failure?
                 && (forall j :: 0 <= j < i ==> InitModule(ms[1..][j]).Success?)
                 && InitAll(ms[1..]).error == InitModule(ms[1..][i]).error;
        assert InitModule(ms[i + 1]).Failure?;
        forall j | 0 <= j < i + 1 ensures InitModule(ms[j]).Success? {
          if j > 0 {
            assert ms[j] == ms[1..][j - 1];
          }
        }
      }
      if InitModule(ms[0]).Success? && InitAll(ms[1..]).Success? {
        var v := InitAll(ms).value;
        assert v == [InitModule(ms[0]).value] + InitAll(ms[1..]).value;
        forall i | 1 <= i < |ms| ensures v[i] == InitModule(ms[i]).value {
          assert v[i] == InitAll(ms[1..]).value[i - 1];
        }
      }
    }
  }

  /** One more module extends a successful prefix, or fails with its own error. */
  lemma {:induction false} InitAllSnoc(ms: seq<ParamModule>, m: ParamModule)
    requires InitAll(ms).Success?
    ensures InitModule(m).Success? ==> InitAll(ms + [m]) == Success(InitAll(ms).value + [InitModule(m).value])
    ensures InitModule(m).Failure? ==> InitAll(ms + [m]) == Failure(InitModule(m).error)
    decreases |ms|
  {
    if ms == [] {
      assert ms + [m] == [m];
      assert [m][1..] == [];
      if InitModule(m).Success? {
        assert InitAll([m]) == Success([InitModule(m).value] + []);
        assert [InitModule(m).value] + [] == InitAll(ms).value + [InitModule(m).value];
      }
    } else {
      assert (ms + [m])[0] == ms[0];
      assert (ms + [m])[1..] == ms[1..] + [m];
      InitAllSnoc(ms[1..], m);
      if InitModule(m).Success? {
        var x := InitAll(ms[1..]).value;
        var h := [InitModule(ms[0]).value];
        assert h + (x + [InitModule(m).value]) == (h + x) + [InitModule(m).value];
      }
    }
  }

  /** `self.apply(...)` over the modules in the order it visits them: the
      dispatch runs module by module and overwrites each module's parameters
      in place. If a module fails, the modules before it stay initialised,
      it and the ones after it stay as they were, and its error is raised. */
  method ApplyWeightsInit(a: array<ParamModule>) returns (err: Option<InitError>)
    modifies a
    ensures InitAll(old(a[..])).Success? ==> err.None? && a[..] == InitAll(old(a[..])).value
    ensures InitAll(old(a[..])).Failure? ==>
              && err == Some(InitAll(old(a[..])).error)
              && exists k :: && 0 <= k < a.Length
                             && InitAll(old(a[..])[..k]).Success?
                             && a[..k] == InitAll(old(a[..])[..k]).value
                             && InitModule(old(a[..])[k]).Failure?
                             && a[k..] == old(a[..])[k..]
  {
    ghost var orig := a[..];
    var i := 0;
    while i < a.Length
      invariant 0 <= i <= a.Length
      invariant InitAll(orig[..i]).Success? && a[..i] == InitAll(orig[..i]).value
      invariant a[i..] == orig[i..]
    {
      assert orig[..i + 1] == orig[..i] + [orig[i]];
      assert a[i] == orig[i];
      InitAllSnoc(orig[..i], orig[i]);
      var r := InitModule(a[i]);
      if r.Failure? {
        FailureExtends(orig, i);
        return Some(r.error);
      }
      a[i] := r.value;
      assert a[..i + 1] == a[..i] + [r.value];
      i := i + 1;
    }
    assert orig[..i] == orig;
    assert a[..] == a[..i];
    err := None;
  }

  /** A failure on a prefix is the failure of the whole sequence. */
  lemma {:induction false} FailureExtends(ms: seq<ParamModule>, i: int)
    requires 0 <= i < |ms|
    requires InitAll(ms[..i]).Success? && InitModule(ms[i]).Failure?
    ensures InitAll(ms) == Failure(InitModule(ms[i]).error)
    decreases i
  {
    if i == 0 {
    } else {
      assert ms[..i][0] == ms[0];
      assert ms[..i][1..] == ms[1..][..i - 1];
      assert ms[1..][i - 1] == ms[i];
      FailureExtends(ms[1..], i - 1);
    }
  }

  // ---------------------------------------------------------------------
  // The modules of a network, in the order `apply` visits them
  // ---------------------------------------------------------------------

  /** The class name of the module a layer constructs. */
  function ClassName(l: Layer): string {
    match l
    case Ensure4d => "Ensure4d"
    case Rearrange(_) => "Rearrange"
    case Conv2d(_, _, _, _, _, _, _) => "Conv2d"
    case BatchNorm2d(_) => "BatchNorm2d"
    case Activation(c) => c
    case ResidualUnit(_) => "_ResidualBlock"
    case AdaptiveAvgPool2d(_) => "AdaptiveAvgPool2d"
    case AvgPool2dWithConv(_, _, _) => "AvgPool2dWithConv"
    case Nested(_) => "Sequential"
    case SqueezeFinalOutput => "SqueezeFinalOutput"
  }

  /** A freshly constructed module: a convolution has a weight and, if built
      with one, a bias; a batch normalisation (affine) has both; the others
      register no parameters of their own. */
  function FreshModule(l: Layer): ParamModule {
    match l
    case Conv2d(_, _, _, _, _, _, bias) =>
      ParamModule("Conv2d", Some(FrameworkDefault), if bias then Some(FrameworkDefault) else None)
    case BatchNorm2d(_) => ParamModule("BatchNorm2d", Some(FrameworkDefault), Some(FrameworkDefault))
    case _ => ParamModule(ClassName(l), None, None)
  }

  /** The modules of a layer in post-order: a container's children first,
      then the container itself. */
  function LayerModules(l: Layer): seq<ParamModule>
    decreases l
  {
    match l
    case ResidualUnit(b) =>
      var cs := UnitChildren(b);
      [FreshModule(cs[0]), FreshModule(cs[1]), FreshModule(cs[2]), FreshModule(cs[3]), FreshModule(cs[4]),
       FreshModule(l)]
    case Nested(children) => EntriesModules(children) + [FreshModule(l)]
    case _ => [FreshModule(l)]
  }

  function EntriesModules(es: seq<Entry>): seq<ParamModule>
    decreases es
  {
    if es == [] then []
    else
      assert es[0] in es;
      EntryModules(es[0]) + EntriesModules(es[1..])
  }

  function EntryModules(e: Entry): seq<ParamModule>
    decreases e
  {
    LayerModules(e.layer)
  }

  /** Every module of the network, in the order `self.apply` visits them:
      the registered modules in order, then the network itself. */
  function NetworkModules(ms: seq<Entry>): seq<ParamModule> {
    EntriesModules(ms) + [ParamModule("EEGResNet", None, None)]
  }

  lemma {:induction false} EntriesModulesAppend(a: seq<Entry>, b: seq<Entry>)
    ensures EntriesModules(a + b) == EntriesModules(a) + EntriesModules(b)
    decreases |a|
  {
    if a == [] {
      assert a + b == b;
    } else {
      assert (a + b)[0] == a[0];
      assert (a + b)[1..] == a[1..] + b;
      EntriesModulesAppend(a[1..], b);
    }
  }

  // ---------------------------------------------------------------------
  // Which modules the dispatch selects
  // ---------------------------------------------------------------------

  /** A class name lacking 'C' and some letter of "BatchNorm" is left alone. */
  lemma UntouchedByChars(c: string, d: char)
    requires 'C' !in c && d in "BatchNorm" && d !in c
    ensures Untouched(c)
  {
    ContainsOnlyOwnChars(c, "Conv", 'C');
    ContainsOnlyOwnChars(c, "BatchNorm", d);
  }

  lemma ConvSelected()
    ensures SelectsConv("Conv2d")
  {
  }

  lemma BatchNormSelected()
    ensures !SelectsConv("BatchNorm2d") && SelectsBatchNorm("BatchNorm2d")
  {
    ContainsOnlyOwnChars("BatchNorm2d", "Conv", 'C');
  }

  lemma PoolWithConvUntouched()
    ensures Untouched("AvgPool2dWithConv")
  {
    ContainsOnlyOwnChars("AvgPool2dWithConv", "BatchNorm", 'B');
  }

  /** Every class of the network other than the convolutions, the batch
      normalisations and the configured activation is left alone. */
  lemma OtherClassesUntouched(l: Layer)
    requires !l.Conv2d? && !l.BatchNorm2d? && !l.Activation?
    ensures Untouched(ClassName(l))
  {
    match l
    case Ensure4d => UntouchedByChars("Ensure4d", 'N');
    case Rearrange(_) => UntouchedByChars("Rearrange", 'N');
    case ResidualUnit(_) => UntouchedByChars("_ResidualBlock", 'N');
    case AdaptiveAvgPool2d(_) => UntouchedByChars("AdaptiveAvgPool2d", 'N');
    case AvgPool2dWithConv(_, _, _) => PoolWithConvUntouched();
    case Nested(_) => UntouchedByChars("Sequential", 'N');
    case SqueezeFinalOutput => UntouchedByChars("SqueezeFinalOutput", 'N');
  }

  /** The default nonlinearity of the residual units is left alone. */
  lemma EluUntouched()
    ensures Untouched(UnitNonlinearity)
  {
    UntouchedByChars("ELU", 'N');
  }

  // ---------------------------------------------------------------------
  // Which modules of a network the dispatch can initialise
  // ---------------------------------------------------------------------

  /** Every module in the sequence can be initialised. */
  predicate AllInit(ps: seq<ParamModule>) {
    forall i :: 0 <= i < |ps| ==> InitModule(ps[i]).Success?
  }

  lemma AllInitAppend(a: seq<ParamModule>, b: seq<ParamModule>)
    ensures AllInit(a + b) <==> AllInit(a) && AllInit(b)
  {
    if AllInit(a) && AllInit(b) {
      forall i | 0 <= i < |a + b| ensures InitModule((a + b)[i]).Success? {
        if i >= |a| {
          assert (a + b)[i] == b[i - |a|];
        }
      }
    }
    if AllInit(a + b) {
      forall i | 0 <= i < |a| ensures InitModule(a[i]).Success? {
        assert (a + b)[i] == a[i];
      }
      forall i | 0 <= i < |b| ensures InitModule(b[i]).Success? {
        assert (a + b)[|a| + i] == b[i];
      }
    }
  }

  /** A layer all of whose modules can be initialised. */
  predicate Initialisable(l: Layer) {
    AllInit(LayerModules(l))
  }

  /** The registered modules can all be initialised exactly when each of
      them can. */
  lemma {:induction false} EntriesInit(es: seq<Entry>)
    ensures AllInit(EntriesModules(es)) <==> forall i :: 0 <= i < |es| ==> Initialisable(es[i].layer)
    decreases |es|
  {
    if es != [] {
      AllInitAppend(LayerModules(es[0].layer), EntriesModules(es[1..]));
      EntriesInit(es[1..]);
      assert forall i :: 1 <= i < |es| ==> es[i] == es[1..][i - 1];
      if forall i :: 0 <= i < |es[1..]| ==> Initialisable(es[1..][i].layer) {
        assert forall i :: 1 <= i < |es| ==> Initialisable(es[i].layer);
      }
    }
  }

  /** A module the dispatch leaves alone can be initialised. */
  lemma UntouchedFresh(l: Layer)
    requires FreshModule(l) == ParamModule(ClassName(l), None, None) && Untouched(ClassName(l))
    ensures InitModule(FreshModule(l)).Success?
  {
  }

  /** A fresh convolution has a weight, a fresh batch normalisation both
      parameters, so the dispatch succeeds on either. */
  lemma ConvFresh(l: Layer)
    requires l.Conv2d?
    ensures InitModule(FreshModule(l)).Success?
  {
    ConvSelected();
  }

  lemma BatchNormFresh(l: Layer)
    requires l.BatchNorm2d?
    ensures InitModule(FreshModule(l)).Success?
  {
    BatchNormSelected();
  }

  /** A convolution, a batch normalisation or a layer without parameters
      other than an activation can always be initialised. */
  lemma LeafFresh(l: Layer)
    requires !l.Activation? && !l.ResidualUnit? && !l.Nested?
    ensures InitModule(FreshModule(l)).Success?
  {
    match l
    case Conv2d(_, _, _, _, _, _, _) => ConvFresh(l);
    case BatchNorm2d(_) => BatchNormFresh(l);
    case _ => OtherClassesUntouched(l); UntouchedFresh(l);
  }

  lemma LeafInit(l: Layer)
    requires !l.Activation? && !l.ResidualUnit? && !l.Nested?
    ensures Initialisable(l)
  {
    LeafFresh(l);
    assert LayerModules(l) == [FreshModule(l)];
  }

  /** An activation module has no parameters, so it can be initialised
      exactly when the dispatch leaves its class alone. */
  lemma ActivationInit(c: string)
    ensures Initialisable(Activation(c)) <==> Untouched(c)
  {
    var p := ParamModule(c, None, None);
    assert LayerModules(Activation(c)) == [p];
    assert AllInit([p]) <==> InitModule(p).Success? by {
      assert [p][0] == p;
    }
  }

  /** A residual unit with a harmless nonlinearity can be initialised: its
      convolutions and batch normalisations have every parameter the
      dispatch touches. */
  lemma UnitInit(b: ResidualBlock)
    requires Untouched(b.nonlinearity)
    ensures Initialisable(ResidualUnit(b))
  {
    var cs := UnitChildren(b);
    LeafFresh(cs[0]);
    LeafFresh(cs[1]);
    LeafFresh(cs[2]);
    LeafFresh(cs[3]);
    OtherClassesUntouched(ResidualUnit(b));
    UntouchedFresh(ResidualUnit(b));
    assert FreshModule(cs[4]) == ParamModule(b.nonlinearity, None, None);
    var ps := LayerModules(ResidualUnit(b));
    assert ps == [FreshModule(cs[0]), FreshModule(cs[1]), FreshModule(cs[2]), FreshModule(cs[3]),
                  FreshModule(cs[4]), FreshModule(ResidualUnit(b))];
    assert InitModule(ps[0]).Success? && InitModule(ps[1]).Success? && InitModule(ps[2]).Success?;
    assert InitModule(ps[3]).Success? && InitModule(ps[4]).Success? && InitModule(ps[5]).Success?;
    AllInitByIndex(ps);
  }

  lemma AllInitByIndex(ps: seq<ParamModule>)
    requires |ps| == 6
    requires InitModule(ps[0]).Success? && InitModule(ps[1]).Success? && InitModule(ps[2]).Success?
    requires InitModule(ps[3]).Success? && InitModule(ps[4]).Success? && InitModule(ps[5]).Success?
    ensures AllInit(ps)
  {
    forall i | 0 <= i < |ps| ensures InitModule(ps[i]).Success? {
      if i < 3 {
        assert i == 0 || i == 1 || i == 2;
      } else {
        assert i == 3 || i == 4 || i == 5;
      }
    }
  }

  lemma LeavesInit(es: seq<Entry>)
    requires forall i :: 0 <= i < |es| ==> !es[i].layer.Activation? && !es[i].layer.ResidualUnit? && !es[i].layer.Nested?
    ensures AllInit(EntriesModules(es))
  {
    forall i | 0 <= i < |es| ensures Initialisable(es[i].layer) {
      LeafInit(es[i].layer);
    }
    EntriesInit(es);
  }

  lemma SequentialFresh(es: seq<Entry>)
    ensures AllInit([FreshModule(Nested(es))])
  {
    OtherClassesUntouched(Nested(es));
    var own := FreshModule(Nested(es));
    assert [own][0] == own;
  }

  /** A container of leaf layers can be initialised: the container itself
      is left alone. */
  lemma NestedInit(es: seq<Entry>)
    requires forall i :: 0 <= i < |es| ==> !es[i].layer.Activation? && !es[i].layer.ResidualUnit? && !es[i].layer.Nested?
    ensures Initialisable(Nested(es))
  {
    LeavesInit(es);
    SequentialFresh(es);
    AllInitAppend(EntriesModules(es), [FreshModule(Nested(es))]);
  }

  lemma FinalLayerInit(nIn: int, nOutputs: int)
    ensures Initialisable(FinalLayerOf(nIn, nOutputs))
  {
    NestedInit(FinalLayerOf(nIn, nOutputs).children);
  }

  /** The stem can be initialised exactly when the dispatch leaves the
      configured activation class alone. */
  lemma StemInit(cfg: Config)
    ensures AllInit(EntriesModules(Stem(cfg))) <==> Untouched(cfg.activation)
  {
    var st := Stem(cfg);
    EntriesInit(st);
    ActivationInit(cfg.activation);
    forall i | 0 <= i < |st| - 1 ensures Initialisable(st[i].layer) {
      LeafInit(st[i].layer);
    }
    assert st[|st| - 1].layer == Activation(cfg.activation);
  }

  /** The residual units of a successful plan can all be initialised. */
  lemma UnitsInit(n: int, L: int)
    requires BuildUnits(ArgsUpTo(n, L, NumBlocks)).Success?
    ensures AllInit(EntriesModules(BuildUnits(ArgsUpTo(n, L, NumBlocks)).value))
  {
    var us := BuildUnits(ArgsUpTo(n, L, NumBlocks)).value;
    UnitsShape(n, L);
    EluUntouched();
    forall i | 0 <= i < |us| ensures Initialisable(us[i].layer) {
      UnitInit(PlannedBlock(n, us[i].name.block, us[i].name.unit));
    }
    EntriesInit(us);
  }

  /** Initialising a successfully constructed network succeeds exactly when
      the configured activation class is neither a convolution nor a batch
      normalisation by name: every other module either has the parameters
      the dispatch touches or is left alone. */
  lemma PlanInitialises(cfg: Config)
    requires Plan(cfg).Success?
    ensures InitAll(NetworkModules(Plan(cfg).value)).Success? <==> Untouched(cfg.activation)
  {
    var n, L := cfg.nFirstFilters, cfg.nLayersPerBlock;
    var units := BuildUnits(ArgsUpTo(n, L, NumBlocks)).value;
    var head := HeadOf(cfg);
    assert Plan(cfg).value == Stem(cfg) + units + head;
    NetworkInitSplit(Stem(cfg), units, head);
    StemInit(cfg);
    UnitsInit(n, L);
    HeadInit(cfg);
    InitAllShape(NetworkModules(Plan(cfg).value));
  }

  lemma HeadInit(cfg: Config)
    ensures AllInit(EntriesModules(HeadOf(cfg)))
  {
    var head := HeadOf(cfg);
    LeafInit(head[0].layer);
    FinalLayerInit(Width(cfg.nFirstFilters, NumBlocks), cfg.nOutputs);
    EntriesInit(head);
  }

  /** The whole network initialises exactly when its three parts do. */
  lemma NetworkInitSplit(stem: seq<Entry>, units: seq<Entry>, head: seq<Entry>)
    ensures AllInit(NetworkModules(stem + units + head))
            <==> AllInit(EntriesModules(stem)) && AllInit(EntriesModules(units)) && AllInit(EntriesModules(head))
  {
    EntriesModulesAppend(stem + units, head);
    EntriesModulesAppend(stem, units);
    UntouchedByChars("EEGResNet", 'B');
    AllInitAppend(EntriesModules(stem), EntriesModules(units));
    AllInitAppend(EntriesModules(stem) + EntriesModules(units), EntriesModules(head));
    AllInitAppend(EntriesModules(stem + units + head), [ParamModule("EEGResNet", None, None)]);
    assert AllInit([ParamModule("EEGResNet", None, None)]);
  }

  /** What a successful initialisation leaves behind: every convolution has
      its weight drawn and its bias, if any, set to 0; every batch
      normalisation has weight 1 and bias 0; every other module is as it was. */
  lemma InitAllEffect(ps: seq<ParamModule>)
    requires InitAll(ps).Success?
    ensures |InitAll(ps).value| == |ps|
    ensures forall i :: 0 <= i < |ps| ==>
              var q := InitAll(ps).value[i];
              && (ps[i].className == "Conv2d" ==>
                    q.weight == Some(Drawn) && (q.bias.Some? <==> ps[i].bias.Some?)
                    && (q.bias.Some? ==> q.bias == Some(Filled(0))))
              && (ps[i].className == "BatchNorm2d" ==> q.weight == Some(Filled(1)) && q.bias == Some(Filled(0)))
              && (Untouched(ps[i].className) ==> q == ps[i])
  {
    InitAllShape(ps);
    ConvSelected();
    BatchNormSelected();
  }

  // ---------------------------------------------------------------------
  // The whole constructor: build, then initialise
  // ---------------------------------------------------------------------

  /** Why constructing the network raised. */
  datatype ConstructError =
    | InvalidConfig(config: ConfigError)  // an assertion of the construction
    | InitFailed(init: InitError)         // the weight dispatch touched a missing parameter

  /** The constructor end to end: build the module registry, then run the
      dispatch over every module, children before parents. It fails exactly
      as the plan does; a successfully built network is initialised exactly
      when its activation class is not selected by the dispatch, and the
      result is then the initialised modules. */
  method Construct(cfg: Config) returns (r: Result<(seq<Entry>, seq<ParamModule>), ConstructError>)
    ensures Plan(cfg).Failure? ==> r == Failure(InvalidConfig(Plan(cfg).error))
    ensures Plan(cfg).Success? && InitAll(NetworkModules(Plan(cfg).value)).Failure? ==>
              r == Failure(InitFailed(InitAll(NetworkModules(Plan(cfg).value)).error))
    ensures Plan(cfg).Success? && InitAll(NetworkModules(Plan(cfg).value)).Success? ==>
              r == Success((Plan(cfg).value, InitAll(NetworkModules(Plan(cfg).value)).value))
    ensures r.Success? <==> Plan(cfg).Success? && Untouched(cfg.activation)
  {
    var built := Build(cfg);
    if built.Failure? {
      return Failure(InvalidConfig(built.error));
    }
    var ms := built.value;
    PlanInitialises(cfg);
    var modules := new ParamModule[|NetworkModules(ms)|](i requires 0 <= i < |NetworkModules(ms)| => NetworkModules(ms)[i]);
    assert modules[..] == NetworkModules(ms);
    var err := ApplyWeightsInit(modules);
    if err.Some? {
      return Failure(InitFailed(err.value));
    }
    r := Success((ms, modules[..]));
  }
}
