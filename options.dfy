/**
 * The options of the transform controller
 * (pkg/controller/generic/transform/options.go): a configuration record and
 * the functional options that change it in place.
 */
module TransformOptions {
  import opened Wrappers

  /** Identities of values the options only store: a wake channel, a shutdown callback, a list option. */
  datatype ChannelRef = ChannelRef(id: nat)
  datatype CallbackRef = CallbackRef(id: nat)
  datatype ListOption = ListOption(id: nat)

  /** Extra inputs and outputs a controller declares. */
  datatype Input = Input(namespace: string, typ: string)
  datatype Output = Output(typ: string)

  /** `controller.OutputKind`, an integer enumeration. */
  datatype OutputKind = OutputKind(value: int)

  /** A snapshot of `ControllerOptions`; a nil channel or callback is None. */
  datatype Config = Config(
    extraEventCh: Option<ChannelRef>,
    onShutdownCallback: Option<CallbackRef>,
    inputListOptions: seq<ListOption>,
    extraInputs: seq<Input>,
    extraOutputs: seq<Output>,
    primaryOutputKind: OutputKind,
    requeueInterval: int,
    inputFinalizers: bool,
    ignoreTearingDownInputs: bool)

  /** The zero value `ControllerOptions{}`. */
  const Zero: Config := Config(None, None, [], [], [], OutputKind(0), 0, false, false)

  /** One `ControllerOption`, the closure returned by the `With...` function of the same name. */
  datatype ControllerOption =
    | WithInputListOptions(opts: seq<ListOption>)
    | WithExtraInputs(inputs: seq<Input>)
    | WithExtraOutputs(outputs: seq<Output>)
    | WithInputFinalizers
    | WithIgnoreTearingDownInputs
    | WithExtraEventChannel(ch: Option<ChannelRef>)
    | WithOnShutdownCallback(callback: Option<CallbackRef>)
    | WithOutputKind(kind: OutputKind)
    | WithRequeueInterval(interval: int)

  /** The fields of `ControllerOptions`. */
  datatype Field =
    | ExtraEventChField | OnShutdownCallbackField | InputListOptionsField | ExtraInputsField
    | ExtraOutputsField | PrimaryOutputKindField | RequeueIntervalField | InputFinalizersField
    | IgnoreTearingDownInputsField

  /** The one field each option names. */
  function FieldOf(o: ControllerOption): Field
  {
    match o
    case WithInputListOptions(_) => InputListOptionsField
    case WithExtraInputs(_) => ExtraInputsField
    case WithExtraOutputs(_) => ExtraOutputsField
    case WithInputFinalizers => InputFinalizersField
    case WithIgnoreTearingDownInputs => IgnoreTearingDownInputsField
    case WithExtraEventChannel(_) => ExtraEventChField
    case WithOnShutdownCallback(_) => OnShutdownCallbackField
    case WithOutputKind(_) => PrimaryOutputKindField
    case WithRequeueInterval(_) => RequeueIntervalField
  }

  /** Field f holds the same value in both snapshots. */
  predicate SameField(a: Config, b: Config, f: Field)
  {
    match f
    case ExtraEventChField => a.extraEventCh == b.extraEventCh
    case OnShutdownCallbackField => a.onShutdownCallback == b.onShutdownCallback
    case InputListOptionsField => a.inputListOptions == b.inputListOptions
    case ExtraInputsField => a.extraInputs == b.extraInputs
    case ExtraOutputsField => a.extraOutputs == b.extraOutputs
    case PrimaryOutputKindField => a.primaryOutputKind == b.primaryOutputKind
    case RequeueIntervalField => a.requeueInterval == b.requeueInterval
    case InputFinalizersField => a.inputFinalizers == b.inputFinalizers
    case IgnoreTearingDownInputsField => a.ignoreTearingDownInputs == b.ignoreTearingDownInputs
  }

  /** The two finalizer policies are not both chosen. */
  predicate Exclusive(c: Config)
  {
    !(c.inputFinalizers && c.ignoreTearingDownInputs)
  }

  /** Applying o to c panics: a flag option finds the other flag already set. */
  predicate Panics(c: Config, o: ControllerOption)
  {
    (o.WithInputFinalizers? && c.ignoreTearingDownInputs) ||
    (o.WithIgnoreTearingDownInputs? && c.inputFinalizers)
  }

  /**
   * Applying one option; None when it panics. It panics exactly in the
   * mutual-exclusion case, changes no field but its own and keeps the two
   * policies exclusive.
   */
  function Applied(c: Config, o: ControllerOption): (r: Option<Config>)
    ensures r.None? <==> Panics(c, o)
    ensures r.Some? ==> forall f :: f != FieldOf(o) ==> SameField(c, r.value, f)
    ensures r.Some? && Exclusive(c) ==> Exclusive(r.value)
  {
    match o
    case WithInputListOptions(opts) => Some(c.(inputListOptions := c.inputListOptions + opts))
    case WithExtraInputs(inputs) => Some(c.(extraInputs := c.extraInputs + inputs))
    case WithExtraOutputs(outputs) => Some(c.(extraOutputs := c.extraOutputs + outputs))
    case WithInputFinalizers =>
      if c.ignoreTearingDownInputs then None else Some(c.(inputFinalizers := true))
    case WithIgnoreTearingDownInputs =>
      if c.inputFinalizers then None else Some(c.(ignoreTearingDownInputs := true))
    case WithExtraEventChannel(ch) => Some(c.(extraEventCh := ch))
    case WithOnShutdownCallback(callback) => Some(c.(onShutdownCallback := callback))
    case WithOutputKind(kind) => Some(c.(primaryOutputKind := kind))
    case WithRequeueInterval(interval) => Some(c.(requeueInterval := interval))
  }

  /** Applying options in order, stopping at the first panic. */
  function ApplyAll(c: Config, os: seq<ControllerOption>): Option<Config>
    decreases |os|
  {
    if os == [] then Some(c)
    else
      match Applied(c, os[0])
      case None => None
      case Some(c') => ApplyAll(c', os[1..])
  }

  /** Each flag option is idempotent: applying it twice is applying it once. */
  lemma FlagOptionsIdempotent(c: Config, o: ControllerOption)
    requires o == WithInputFinalizers || o == WithIgnoreTearingDownInputs
    ensures ApplyAll(c, [o, o]) == Applied(c, o)
  {
    if Applied(c, o).Some? {
      var c' := Applied(c, o).value;
      assert [o, o][1..] == [o];
      assert Applied(c', o) == Some(c');
      assert ApplyAll(c', [o]) == ApplyAll(c', []);
    }
  }

  /** The options applied after the first panic never run: a panic anywhere makes the whole sequence panic. */
  lemma {:induction false} PanicIsFinal(c: Config, os: seq<ControllerOption>, rest: seq<ControllerOption>)
    requires ApplyAll(c, os).None?
    ensures ApplyAll(c, os + rest).None?
    decreases |os|
  {
    assert os != [];
    assert (os + rest)[0] == os[0] && (os + rest)[1..] == os[1..] + rest;
    if Applied(c, os[0]).Some? {
      PanicIsFinal(Applied(c, os[0]).value, os[1..], rest);
    }
  }

  /** Applying options never breaks the exclusivity of the two policies. */
  lemma {:induction false} ApplyAllPreservesExclusive(c: Config, os: seq<ControllerOption>)
    requires Exclusive(c)
    requires ApplyAll(c, os).Some?
    ensures Exclusive(ApplyAll(c, os).value)
    decreases |os|
  {
    if os != [] {
      ApplyAllPreservesExclusive(Applied(c, os[0]).value, os[1..]);
    }
  }

  /** From the zero value, no sequence of options that completes sets both policies. */
  lemma NeverBothPolicies(os: seq<ControllerOption>)
    requires ApplyAll(Zero, os).Some?
    ensures !(ApplyAll(Zero, os).value.inputFinalizers && ApplyAll(Zero, os).value.ignoreTearingDownInputs)
  {
    ApplyAllPreservesExclusive(Zero, os);
  }

  /** Requesting both policies, in either order and whatever comes between, panics. */
  lemma {:induction false} BothPoliciesPanic(c: Config, os: seq<ControllerOption>, i: nat, j: nat)
    requires i < |os| && j < |os|
    requires os[i] == WithInputFinalizers && os[j] == WithIgnoreTearingDownInputs
    ensures ApplyAll(c, os).None?
    decreases |os|
  {
    if Applied(c, os[0]).Some? {
      var c' := Applied(c, os[0]).value;
      if i == 0 {
        assert c'.inputFinalizers;
        SetFlagPanics(c', os[1..], j - 1, WithIgnoreTearingDownInputs);
      } else if j == 0 {
        assert c'.ignoreTearingDownInputs;
        SetFlagPanics(c', os[1..], i - 1, WithInputFinalizers);
      } else {
        BothPoliciesPanic(c', os[1..], i - 1, j - 1);
      }
    }
  }

  /** Once one policy is set, a later request for the other panics. */
  lemma {:induction false} SetFlagPanics(c: Config, os: seq<ControllerOption>, j: nat, o: ControllerOption)
    requires j < |os| && os[j] == o
    requires (o == WithIgnoreTearingDownInputs && c.inputFinalizers) ||
             (o == WithInputFinalizers && c.ignoreTearingDownInputs)
    ensures ApplyAll(c, os).None?
    decreases |os|
  {
    if j > 0 && Applied(c, os[0]).Some? {
      SetFlagPanics(Applied(c, os[0]).value, os[1..], j - 1, o);
    }
  }

  /** The arguments of all list-appending options of one kind, in order. */
  function ListOptionsIn(os: seq<ControllerOption>): seq<ListOption>
  {
    if os == [] then []
    else (if os[0].WithInputListOptions? then os[0].opts else []) + ListOptionsIn(os[1..])
  }

  function ExtraInputsIn(os: seq<ControllerOption>): seq<Input>
  {
    if os == [] then []
    else (if os[0].WithExtraInputs? then os[0].inputs else []) + ExtraInputsIn(os[1..])
  }

  function ExtraOutputsIn(os: seq<ControllerOption>): seq<Output>
  {
    if os == [] then []
    else (if os[0].WithExtraOutputs? then os[0].outputs else []) + ExtraOutputsIn(os[1..])
  }

  /**
   * The last option in os that names field f: there is one exactly when some
   * option names f, and no later option names f.
   */
  function LastFor(os: seq<ControllerOption>, f: Field): (r: Option<ControllerOption>)
    ensures r.Some? ==> FieldOf(r.value) == f
    ensures r.Some? <==> exists k :: 0 <= k < |os| && FieldOf(os[k]) == f
    ensures r.Some? ==> exists k :: 0 <= k < |os| && os[k] == r.value && forall j :: k < j < |os| ==> FieldOf(os[j]) != f
    decreases |os|
  {
    if os == [] then None
    else if FieldOf(os[|os| - 1]) == f then Some(os[|os| - 1])
    else LastFor(os[..|os| - 1], f)
  }

  /** The value of each scalar field after os, from the last option naming it. */
  function EventChannelAfter(c: Config, os: seq<ControllerOption>): Option<ChannelRef>
  {
    match LastFor(os, ExtraEventChField)
    case Some(o) => if o.WithExtraEventChannel? then o.ch else c.extraEventCh
    case None => c.extraEventCh
  }

  function ShutdownCallbackAfter(c: Config, os: seq<ControllerOption>): Option<CallbackRef>
  {
    match LastFor(os, OnShutdownCallbackField)
    case Some(o) => if o.WithOnShutdownCallback? then o.callback else c.onShutdownCallback
    case None => c.onShutdownCallback
  }

  function OutputKindAfter(c: Config, os: seq<ControllerOption>): OutputKind
  {
    match LastFor(os, PrimaryOutputKindField)
    case Some(o) => if o.WithOutputKind? then o.kind else c.primaryOutputKind
    case None => c.primaryOutputKind
  }

  function RequeueIntervalAfter(c: Config, os: seq<ControllerOption>): int
  {
    match LastFor(os, RequeueIntervalField)
    case Some(o) => if o.WithRequeueInterval? then o.interval else c.requeueInterval
    case None => c.requeueInterval
  }

  /**
   * The configuration a completed sequence of options produces, stated
   * without replaying it: each list is the initial list followed by the
   * arguments of its options in order, each scalar field holds the value of
   * the last option naming it (the initial value when none does), and a flag
   * is set when it was set or some option requested it.
   */
  function Summary(c: Config, os: seq<ControllerOption>): Config
  {
    Config(
      EventChannelAfter(c, os),
      ShutdownCallbackAfter(c, os),
      c.inputListOptions + ListOptionsIn(os),
      c.extraInputs + ExtraInputsIn(os),
      c.extraOutputs + ExtraOutputsIn(os),
      OutputKindAfter(c, os),
      RequeueIntervalAfter(c, os),
      c.inputFinalizers || LastFor(os, InputFinalizersField).Some?,
      c.ignoreTearingDownInputs || LastFor(os, IgnoreTearingDownInputsField).Some?)
  }

  /** The last option naming f in o :: rest is the last in rest, or o itself when rest has none. */
  lemma {:induction false} LastForCons(o: ControllerOption, rest: seq<ControllerOption>, f: Field)
    ensures LastFor([o] + rest, f) ==
            if LastFor(rest, f).Some? then LastFor(rest, f)
            else if FieldOf(o) == f then Some(o) else None
    decreases |rest|
  {
    var os := [o] + rest;
    if rest != [] {
      assert os[|os| - 1] == rest[|rest| - 1];
      assert os[..|os| - 1] == [o] + rest[..|rest| - 1];
      LastForCons(o, rest[..|rest| - 1], f);
    }
  }

  /** Each scalar field after o :: rest is that field after rest, starting from the effect of o. */
  lemma EventChannelCons(c: Config, o: ControllerOption, rest: seq<ControllerOption>)
    requires Applied(c, o).Some?
    ensures EventChannelAfter(c, [o] + rest) == EventChannelAfter(Applied(c, o).value, rest)
  {
    LastForCons(o, rest, ExtraEventChField);
  }

  lemma ShutdownCallbackCons(c: Config, o: ControllerOption, rest: seq<ControllerOption>)
    requires Applied(c, o).Some?
    ensures ShutdownCallbackAfter(c, [o] + rest) == ShutdownCallbackAfter(Applied(c, o).value, rest)
  {
    LastForCons(o, rest, OnShutdownCallbackField);
  }

  lemma OutputKindCons(c: Config, o: ControllerOption, rest: seq<ControllerOption>)
    requires Applied(c, o).Some?
    ensures OutputKindAfter(c, [o] + rest) == OutputKindAfter(Applied(c, o).value, rest)
  {
    LastForCons(o, rest, PrimaryOutputKindField);
  }

  lemma RequeueIntervalCons(c: Config, o: ControllerOption, rest: seq<ControllerOption>)
    requires Applied(c, o).Some?
    ensures RequeueIntervalAfter(c, [o] + rest) == RequeueIntervalAfter(Applied(c, o).value, rest)
  {
    LastForCons(o, rest, RequeueIntervalField);
  }

  /** The three lists after o :: rest are those after rest, starting from the effect of o. */
  lemma ListsCons(c: Config, o: ControllerOption, rest: seq<ControllerOption>)
    requires Applied(c, o).Some?
    ensures var c' := Applied(c, o).value;
            && c.inputListOptions + ListOptionsIn([o] + rest) == c'.inputListOptions + ListOptionsIn(rest)
            && c.extraInputs + ExtraInputsIn([o] + rest) == c'.extraInputs + ExtraInputsIn(rest)
            && c.extraOutputs + ExtraOutputsIn([o] + rest) == c'.extraOutputs + ExtraOutputsIn(rest)
  {
    var os := [o] + rest;
    assert os[0] == o && os[1..] == rest;
    assert ListOptionsIn(os) == (if o.WithInputListOptions? then o.opts else []) + ListOptionsIn(rest);
    assert ExtraInputsIn(os) == (if o.WithExtraInputs? then o.inputs else []) + ExtraInputsIn(rest);
    assert ExtraOutputsIn(os) == (if o.WithExtraOutputs? then o.outputs else []) + ExtraOutputsIn(rest);
  }

  /** Summary of o :: rest is the summary of rest after the effect of o. */
  lemma SummaryCons(c: Config, o: ControllerOption, rest: seq<ControllerOption>)
    requires Applied(c, o).Some?
    ensures Summary(c, [o] + rest) == Summary(Applied(c, o).value, rest)
  {
    EventChannelCons(c, o, rest);
    ShutdownCallbackCons(c, o, rest);
    OutputKindCons(c, o, rest);
    RequeueIntervalCons(c, o, rest);
    ListsCons(c, o, rest);
    LastForCons(o, rest, InputFinalizersField);
    LastForCons(o, rest, IgnoreTearingDownInputsField);
  }

  /**
   * A sequence of options that completes yields its summary: list options
   * append in order keeping the earlier entries, and for every scalar the
   * last application wins.
   */
  lemma {:induction false} ApplyAllIsSummary(c: Config, os: seq<ControllerOption>)
    requires ApplyAll(c, os).Some?
    ensures ApplyAll(c, os).value == Summary(c, os)
    decreases |os|
  {
    if os == [] {
      assert Summary(c, os) == c;
    } else {
      var c' := Applied(c, os[0]).value;
      ApplyAllIsSummary(c', os[1..]);
      assert [os[0]] + os[1..] == os;
      SummaryCons(c, os[0], os[1..]);
    }
  }

  /** `ControllerOptions`, updated in place by the options. */
  class ControllerOptions {
    var extraEventCh: Option<ChannelRef>
    var onShutdownCallback: Option<CallbackRef>
    var inputListOptions: seq<ListOption>
    var extraInputs: seq<Input>
    var extraOutputs: seq<Output>
    var primaryOutputKind: OutputKind
    var requeueInterval: int
    var inputFinalizers: bool
    var ignoreTearingDownInputs: bool

    function Value(): Config
      reads this
    {
      Config(extraEventCh, onShutdownCallback, inputListOptions, extraInputs, extraOutputs,
             primaryOutputKind, requeueInterval, inputFinalizers, ignoreTearingDownInputs)
    }

    /** The zero value. */
    constructor ()
      ensures Value() == Zero
    {
      extraEventCh, onShutdownCallback := None, None;
      inputListOptions, extraInputs, extraOutputs := [], [], [];
      primaryOutputKind, requeueInterval := OutputKind(0), 0;
      inputFinalizers, ignoreTearingDownInputs := false, false;
    }

    method AddInputListOptions(opts: seq<ListOption>)
      modifies this`inputListOptions
      ensures inputListOptions == old(inputListOptions) + opts
      ensures Value() == Applied(old(Value()), WithInputListOptions(opts)).value
    {
      inputListOptions := inputListOptions + opts;
    }

    method AddExtraInputs(inputs: seq<Input>)
      modifies this`extraInputs
      ensures extraInputs == old(extraInputs) + inputs
      ensures Value() == Applied(old(Value()), WithExtraInputs(inputs)).value
    {
      extraInputs := extraInputs + inputs;
    }

    method AddExtraOutputs(outputs: seq<Output>)
      modifies this`extraOutputs
      ensures extraOutputs == old(extraOutputs) + outputs
      ensures Value() == Applied(old(Value()), WithExtraOutputs(outputs)).value
    {
      extraOutputs := extraOutputs + outputs;
    }

    /** Panics, touching nothing, when the other policy is already chosen. */
    method EnableInputFinalizers() returns (panicked: bool)
      modifies this`inputFinalizers
      ensures panicked == old(ignoreTearingDownInputs)
      ensures inputFinalizers == (old(inputFinalizers) || !panicked)
      ensures Applied(old(Value()), WithInputFinalizers) == if panicked then None else Some(Value())
    {
      if ignoreTearingDownInputs {
        return true;
      }
      inputFinalizers := true;
      panicked := false;
    }

    /** Panics, touching nothing, when the other policy is already chosen. */
    method EnableIgnoreTearingDownInputs() returns (panicked: bool)
      modifies this`ignoreTearingDownInputs
      ensures panicked == old(inputFinalizers)
      ensures ignoreTearingDownInputs == (old(ignoreTearingDownInputs) || !panicked)
      ensures Applied(old(Value()), WithIgnoreTearingDownInputs) == if panicked then None else Some(Value())
    {
      if inputFinalizers {
        return true;
      }
      ignoreTearingDownInputs := true;
      panicked := false;
    }

    method SetExtraEventChannel(ch: Option<ChannelRef>)
      modifies this`extraEventCh
      ensures extraEventCh == ch
      ensures Value() == Applied(old(Value()), WithExtraEventChannel(ch)).value
    {
      extraEventCh := ch;
    }

    method SetOnShutdownCallback(callback: Option<CallbackRef>)
      modifies this`onShutdownCallback
      ensures onShutdownCallback == callback
      ensures Value() == Applied(old(Value()), WithOnShutdownCallback(callback)).value
    {
      onShutdownCallback := callback;
    }

    method SetOutputKind(kind: OutputKind)
      modifies this`primaryOutputKind
      ensures primaryOutputKind == kind
      ensures Value() == Applied(old(Value()), WithOutputKind(kind)).value
    {
      primaryOutputKind := kind;
    }

    method SetRequeueInterval(interval: int)
      modifies this`requeueInterval
      ensures requeueInterval == interval
      ensures Value() == Applied(old(Value()), WithRequeueInterval(interval)).value
    {
      requeueInterval := interval;
    }

    /** Calling an option on these options: `o(&options)`. */
    method Apply(o: ControllerOption) returns (panicked: bool)
      modifies this
      ensures panicked <==> Applied(old(Value()), o).None?
      ensures Value() == if panicked then old(Value()) else Applied(old(Value()), o).value
    {
      panicked := false;
      match o {
        case WithInputListOptions(opts) => AddInputListOptions(opts);
        case WithExtraInputs(inputs) => AddExtraInputs(inputs);
        case WithExtraOutputs(outputs) => AddExtraOutputs(outputs);
        case WithInputFinalizers => panicked := EnableInputFinalizers();
        case WithIgnoreTearingDownInputs => panicked := EnableIgnoreTearingDownInputs();
        case WithExtraEventChannel(ch) => SetExtraEventChannel(ch);
        case WithOnShutdownCallback(callback) => SetOnShutdownCallback(callback);
        case WithOutputKind(kind) => SetOutputKind(kind);
        case WithRequeueInterval(interval) => SetRequeueInterval(interval);
      }
    }
  }
}
