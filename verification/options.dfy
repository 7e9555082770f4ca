/**
  Configuration of the middleware (`mwOptions` and the `MWOption` overrides
  in ginhttp/server.go): a record of four settings, built once from
  defaults overridden by an ordered list of single-setting options.
*/
module Options {

  /** The parts of an inbound request the middleware reads. `url` is the
      textual form of the request URL. */
  datatype Request = Request(httpMethod: string, requestURI: string, url: string)

  /** A span observer, kept opaque: the model records when it is called,
      not what it does. */
  datatype Observer = NoOpObserver | UserObserver(id: nat)

  datatype MWOptions = MWOptions(
    opNameFunc: Request -> string,
    spanObserver: Observer,
    urlTagFunc: string -> string,
    componentName: string)

  /** One override; each sets exactly one setting. */
  datatype MWOption =
    | OperationNameFunc(f: Request -> string)
    | MWComponentName(name: string)
    | MWSpanObserver(observer: Observer)
    | MWURLTagFunc(g: string -> string)

  /** The four settings, to talk about "the setting an option touches". */
  datatype Setting = OpName | SpanObserver | URLTag | ComponentName

  function SettingOf(opt: MWOption): Setting
  {
    match opt
    case OperationNameFunc(_) => OpName
    case MWComponentName(_) => ComponentName
    case MWSpanObserver(_) => SpanObserver
    case MWURLTagFunc(_) => URLTag
  }

  /** `a` and `b` hold the same value for setting `s`. */
  ghost predicate Agree(a: MWOptions, b: MWOptions, s: Setting)
  {
    match s
    case OpName => a.opNameFunc == b.opNameFunc
    case SpanObserver => a.spanObserver == b.spanObserver
    case URLTag => a.urlTagFunc == b.urlTagFunc
    case ComponentName => a.componentName == b.componentName
  }

  /** `opts` holds the value that `opt` sets, for the setting `opt` names. */
  ghost predicate Holds(opts: MWOptions, opt: MWOption)
  {
    match opt
    case OperationNameFunc(f) => opts.opNameFunc == f
    case MWComponentName(name) => opts.componentName == name
    case MWSpanObserver(observer) => opts.spanObserver == observer
    case MWURLTagFunc(g) => opts.urlTagFunc == g
  }

  /** The default operation name: a fixed literal, the method and the raw URI. */
  function DefaultOperationName(r: Request): (name: string)
    ensures |name| == 15 + |r.httpMethod| + |r.requestURI|
    ensures name[..12] == "HTTP router " && name[12..12 + |r.httpMethod|] == r.httpMethod
    ensures name[12 + |r.httpMethod|..15 + |r.httpMethod|] == " - "
    ensures name[|name| - |r.requestURI|..] == r.requestURI
  {
    "HTTP router " + r.httpMethod + " - " + r.requestURI
  }

  /** The settings in force before any option is applied. */
  function Defaults(): (d: MWOptions)
    ensures forall r :: d.opNameFunc(r) == DefaultOperationName(r)
    ensures d.spanObserver == NoOpObserver
    ensures forall u :: d.urlTagFunc(u) == u
    ensures d.componentName == ""
  {
    MWOptions(DefaultOperationName, NoOpObserver, u => u, "")
  }

  /** Applying one option sets the setting it names to the option's value
      and leaves the other three as they were. */
  function Apply(opts: MWOptions, opt: MWOption): (r: MWOptions)
    ensures forall s :: s != SettingOf(opt) ==> Agree(r, opts, s)
    ensures Holds(r, opt)
  {
    match opt
    case OperationNameFunc(f) => opts.(opNameFunc := f)
    case MWComponentName(name) => opts.(componentName := name)
    case MWSpanObserver(observer) => opts.(spanObserver := observer)
    case MWURLTagFunc(g) => opts.(urlTagFunc := g)
  }

  /** Reference definition: the options applied to `base` in list order. */
  function Resolve(base: MWOptions, options: seq<MWOption>): MWOptions
    decreases |options|
  {
    if options == [] then base else Resolve(Apply(base, options[0]), options[1..])
  }

  /** A setting that no option in the list touches keeps its value. */
  lemma {:induction false} ResolveUntouched(base: MWOptions, options: seq<MWOption>, s: Setting)
    requires forall j :: 0 <= j < |options| ==> SettingOf(options[j]) != s
    ensures Agree(Resolve(base, options), base, s)
    decreases |options|
  {
    if options != [] {
      ResolveUntouched(Apply(base, options[0]), options[1..], s);
    }
  }

  /** The last option that touches a setting decides that setting. */
  lemma {:induction false} ResolveLastWins(base: MWOptions, options: seq<MWOption>, i: nat)
    requires i < |options|
    requires forall j :: i < j < |options| ==> SettingOf(options[j]) != SettingOf(options[i])
    ensures Holds(Resolve(base, options), options[i])
    decreases i
  {
    if i == 0 {
      ResolveUntouched(Apply(base, options[0]), options[1..], SettingOf(options[0]));
    } else {
      ResolveLastWins(Apply(base, options[0]), options[1..], i - 1);
    }
  }

  /**
    The constructor part of `Middleware`: start from the defaults and let
    each option, in the order given, overwrite its setting.
  */
  method ResolveOptions(options: seq<MWOption>) returns (opts: MWOptions)
    ensures opts == Resolve(Defaults(), options)
  {
    opts := Defaults();
    for i := 0 to |options|
      invariant Resolve(opts, options[i..]) == Resolve(Defaults(), options)
    {
      assert options[i..][1..] == options[i + 1..];
      opts := Apply(opts, options[i]);
    }
    assert options[|options|..] == [];
  }

  /** With no operation-name option the span is named by the default format. */
  lemma DefaultNameWithoutOverride(options: seq<MWOption>, r: Request)
    requires forall j :: 0 <= j < |options| ==> !options[j].OperationNameFunc?
    ensures Resolve(Defaults(), options).opNameFunc(r) == "HTTP router " + r.httpMethod + " - " + r.requestURI
  {
    ResolveUntouched(Defaults(), options, OpName);
  }

  /** With operation-name options, the last one names the span. */
  lemma OverriddenName(options: seq<MWOption>, i: nat, r: Request)
    requires i < |options| && options[i].OperationNameFunc?
    requires forall j :: i < j < |options| ==> !options[j].OperationNameFunc?
    ensures Resolve(Defaults(), options).opNameFunc(r) == options[i].f(r)
  {
    ResolveLastWins(Defaults(), options, i);
  }

  /** Settings no option touches keep their defaults: the no-op observer,
      the URL's own text as URL tag, and an empty component name. */
  lemma DefaultsWithoutOverride(options: seq<MWOption>, u: string)
    ensures (forall j :: 0 <= j < |options| ==> !options[j].MWSpanObserver?)
            ==> Resolve(Defaults(), options).spanObserver == NoOpObserver
    ensures (forall j :: 0 <= j < |options| ==> !options[j].MWURLTagFunc?)
            ==> Resolve(Defaults(), options).urlTagFunc(u) == u
    ensures (forall j :: 0 <= j < |options| ==> !options[j].MWComponentName?)
            ==> Resolve(Defaults(), options).componentName == ""
  {
    if forall j :: 0 <= j < |options| ==> !options[j].MWSpanObserver? {
      ResolveUntouched(Defaults(), options, SpanObserver);
    }
    if forall j :: 0 <= j < |options| ==> !options[j].MWURLTagFunc? {
      ResolveUntouched(Defaults(), options, URLTag);
    }
    if forall j :: 0 <= j < |options| ==> !options[j].MWComponentName? {
      ResolveUntouched(Defaults(), options, ComponentName);
    }
  }
}
