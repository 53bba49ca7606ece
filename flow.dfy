/** The flow orchestrator (flow/create.go, flow/input.go, flow/output.go,
    flow/updateconfig.go): building a flow from its configuration, binding
    input and output adapters by URL, and applying a new configuration to
    a running flow.

    Everything the orchestrator asks of the outside world (statistics, the
    RIST receiver, adapter constructors, `Close`, `Stop`) is a call recorded
    in a `World` log; whether a fallible call succeeds is decided by an
    `Env` given as a parameter. */
module Flow {
  import opened Wrappers
  import opened Urls
  import Config

  type Uint16 = x: int | 0 <= x < 0x1_0000

  /** Latency used when the configuration leaves it at zero. */
  const DefaultLatency: int := 1000

  /** librist's `RIST_PROFILE_SIMPLE`. */
  const RistProfileSimple: int := 0

  /** The adapters a URL scheme can select. */
  datatype AdapterKind = RistInput | UdpInput | UdpOutput | SrtOutput | DekTecOutput
  {
    /** The kinds `setupInput` builds; the others are built by `setupOutput`. */
    predicate ForInput() {
      RistInput? || UdpInput?
    }
  }

  /** An adapter handle: the kind, the URL it was built for and the number
      of the constructor call that produced it. */
  datatype Adapter = Adapter(kind: AdapterKind, url: string, serial: nat)

  /** `outhandle`: an output adapter with the configuration it was built
      from. */
  datatype OutHandle = OutHandle(out: Adapter, conf: Config.Output)

  /** A call the orchestrator makes to the outside world. */
  datatype Call =
    | SetupStats
    | SetupReceiver(profile: int, latency: int)
    | Construct(kind: AdapterKind, url: string)
    | StartReceiver
    | ConfigureFlow(port: Uint16)
    | StartMainloop
    | StartUdpInputs
    | Close(adapter: Adapter)
    | StopFlow

  datatype FlowError =
    | ConfigValidation(cause: Config.ConfigError)
    | StatsSetup
    | ReceiverSetup
    | InvalidInputUrl(url: string)
    | UnsupportedInputScheme(scheme: string)
    | InvalidOutputUrl(url: string)
    | UnsupportedOutputScheme(scheme: string)
    | AdapterSetup(kind: AdapterKind, url: string)
    | InputSetup(input: Config.Input, inner: FlowError)
    | ReceiverStart
    | ConfigureRistFlow
    | UdpInputsStart
    | OutputSetup(output: Config.Output, inner: FlowError)

  /** The outcome of every fallible call to the outside world. `adapterOk`
      is indexed by the number of the constructor call. */
  datatype Env = Env(
    parse: Parser,
    statsOk: bool,
    receiverOk: bool,
    startOk: bool,
    configureOk: bool,
    udpStartOk: bool,
    adapterOk: nat -> bool)

  /** The outside world: the calls made so far, in order, and the number of
      adapter constructor calls among them. */
  class World {
    var calls: seq<Call>
    var constructed: nat

    constructor ()
      ensures calls == [] && constructed == 0
    {
      calls := [];
      constructed := 0;
    }

    /** Makes a call that returns no adapter. */
    method Invoke(call: Call)
      modifies this
      ensures calls == old(calls) + [call] && constructed == old(constructed)
    {
      calls := calls + [call];
    }

    /** Calls the constructor of a `kind` adapter for `url`. */
    method Construct(kind: AdapterKind, url: string, ok: nat -> bool) returns (a: Option<Adapter>)
      modifies this
      ensures calls == old(calls) + [Call.Construct(kind, url)] && constructed == old(constructed) + 1
      ensures a == if ok(old(constructed)) then Some(Adapter(kind, url, old(constructed))) else None
    {
      a := if ok(constructed) then Some(Adapter(kind, url, constructed)) else None;
      calls := calls + [Call.Construct(kind, url)];
      constructed := constructed + 1;
    }
  }

  // ---------------------------------------------------------------------
  // Scheme dispatch and the small computations of CreateFlow
  // ---------------------------------------------------------------------

  /** The input adapter a scheme selects. */
  function InputAdapterKind(scheme: string): (k: Option<AdapterKind>)
    ensures k.Some? <==> scheme in Config.InputSchemes
    ensures k.Some? ==> k.value.ForInput()
    ensures k == Some(RistInput) <==> scheme == "rist"
    ensures k == Some(UdpInput) <==> scheme in {"udp", "rtp"}
  {
    match scheme
    case "rist" => Some(RistInput)
    case "udp" => Some(UdpInput)
    case "rtp" => Some(UdpInput)
    case _ => None
  }

  /** The output adapter a scheme selects. */
  function OutputAdapterKind(scheme: string): (k: Option<AdapterKind>)
    ensures k.Some? <==> scheme in Config.OutputSchemes
    ensures k.Some? ==> !k.value.ForInput()
    ensures k == Some(UdpOutput) <==> scheme in {"udp", "rtp"}
    ensures k == Some(SrtOutput) <==> scheme == "srt"
    ensures k == Some(DekTecOutput) <==> scheme == "dektecasi"
  {
    match scheme
    case "udp" => Some(UdpOutput)
    case "rtp" => Some(UdpOutput)
    case "srt" => Some(SrtOutput)
    case "dektecasi" => Some(DekTecOutput)
    case _ => None
  }

  /** What `setupInput` decides before calling a constructor: the adapter
      kind, or the parse or scheme error. */
  function InputPlan(parse: Parser, url: string): Result<AdapterKind, FlowError> {
    match parse(url)
    case None => Failure(InvalidInputUrl(url))
    case Some(u) =>
      match InputAdapterKind(u.scheme)
      case None => Failure(UnsupportedInputScheme(u.scheme))
      case Some(k) => Success(k)
  }

  /** What `setupOutput` decides before calling a constructor. */
  function OutputPlan(parse: Parser, url: string): Result<AdapterKind, FlowError> {
    match parse(url)
    case None => Failure(InvalidOutputUrl(url))
    case Some(u) =>
      match OutputAdapterKind(u.scheme)
      case None => Failure(UnsupportedOutputScheme(u.scheme))
      case Some(k) => Success(k)
  }

  /** An input the flow validator accepts always reaches a constructor. */
  lemma ValidatedInputsDispatch(c: Config.Flow, parse: Parser, i: nat)
    requires Config.ValidateFlowConfig(c, parse).Pass? && i < |c.inputs|
    ensures InputPlan(parse, c.inputs[i].url).Success?
  {
  }

  /** An output the flow validator accepts always reaches a constructor. */
  lemma ValidatedOutputsDispatch(c: Config.Flow, parse: Parser, i: nat)
    requires Config.ValidateFlowConfig(c, parse).Pass? && i < |c.outputs|
    ensures OutputPlan(parse, c.outputs[i].url).Success?
  {
  }

  /** `StartInput`: a missing input starts trivially; otherwise the result
      of its own `Start`. */
  function StartInput(input: Option<Adapter>, start: Adapter -> Outcome<FlowError>): (r: Outcome<FlowError>)
    ensures input.None? ==> r.Pass?
    ensures input.Some? ==> r == start(input.value)
  {
    match input
    case None => Pass
    case Some(a) => start(a)
  }

  /** The latency the receiver is set up with. */
  function EffectiveLatency(latency: int): (r: int)
    ensures r != 0
    ensures latency == 0 ==> r == DefaultLatency
    ensures latency != 0 ==> r == latency
  {
    if latency == 0 then DefaultLatency else latency
  }

  /** The caller's configuration after `CreateFlow` rewrote its latency. */
  function WithDefaultLatency(c: Config.Flow): Config.Flow {
    c.(latency := EffectiveLatency(c.latency))
  }

  /** The RIST destination port: 0 for the simple profile, otherwise the
      stream id converted to `uint16` (two's-complement truncation). */
  function DestinationPort(profile: int, streamId: int): (port: Uint16)
    ensures profile == RistProfileSimple ==> port == 0
    ensures profile != RistProfileSimple ==> (port - streamId) % 0x1_0000 == 0
    ensures profile != RistProfileSimple && 0 <= streamId < 0x1_0000 ==> port == streamId
  {
    if profile == RistProfileSimple then 0 else streamId % 0x1_0000
  }

  /** A critical RIST setting changed, which forces a rebuild. */
  predicate RebuildNeeded(current: Config.Flow, next: Config.Flow) {
    next.latency != current.latency || next.ristProfile != current.ristProfile || next.streamId != current.streamId
  }

  /** A flow built from a configuration with latency 0 stores 0, while the
      caller's configuration now says 1000: handing that same configuration
      back to `UpdateConfig` is a rebuild, not a no-op. */
  lemma RewrittenLatencyForcesRebuild(c: Config.Flow)
    requires c.latency == 0
    ensures RebuildNeeded(c, WithDefaultLatency(c))
  {
  }

  // ---------------------------------------------------------------------
  // URL sets and binding tables
  // ---------------------------------------------------------------------

  function InputUrls(ins: seq<Config.Input>): set<string> {
    set i | 0 <= i < |ins| :: ins[i].url
  }

  function OutputUrls(outs: seq<Config.Output>): set<string> {
    set i | 0 <= i < |outs| :: outs[i].url
  }

  lemma InputUrlsSnoc(ins: seq<Config.Input>, i: nat)
    requires i < |ins|
    ensures InputUrls(ins[..i + 1]) == InputUrls(ins[..i]) + {ins[i].url}
  {
    assert ins[..i + 1][i] == ins[i];
    forall u | u in InputUrls(ins[..i + 1]) ensures u in InputUrls(ins[..i]) + {ins[i].url} {
      var j :| 0 <= j < i + 1 && ins[..i + 1][j].url == u;
      if j < i {
        assert ins[..i][j] == ins[j];
      }
    }
    forall u | u in InputUrls(ins[..i]) ensures u in InputUrls(ins[..i + 1]) {
      var j :| 0 <= j < i && ins[..i][j].url == u;
      assert ins[..i + 1][j] == ins[j];
    }
  }

  lemma OutputUrlsSnoc(outs: seq<Config.Output>, i: nat)
    requires i < |outs|
    ensures OutputUrls(outs[..i + 1]) == OutputUrls(outs[..i]) + {outs[i].url}
  {
    assert outs[..i + 1][i] == outs[i];
    forall u | u in OutputUrls(outs[..i + 1]) ensures u in OutputUrls(outs[..i]) + {outs[i].url} {
      var j :| 0 <= j < i + 1 && outs[..i + 1][j].url == u;
      if j < i {
        assert outs[..i][j] == outs[j];
      }
    }
    forall u | u in OutputUrls(outs[..i]) ensures u in OutputUrls(outs[..i + 1]) {
      var j :| 0 <= j < i && outs[..i][j].url == u;
      assert outs[..i + 1][j] == outs[j];
    }
  }

  /** The last output entry with a given URL: the one whose configuration
      ends up stored under that URL. */
  function LastWithUrl(outs: seq<Config.Output>, url: string): (r: Option<Config.Output>)
    ensures r.None? <==> url !in OutputUrls(outs)
    ensures r.Some? ==> r.value.url == url && r.value in outs
    decreases |outs|
  {
    if |outs| == 0 then None
    else
      OutputUrlsSnoc(outs, |outs| - 1);
      assert outs[..|outs|] == outs;
      if outs[|outs| - 1].url == url then Some(outs[|outs| - 1])
      else LastWithUrl(outs[..|outs| - 1], url)
  }

  /** Entry `k` is the last one with URL `url`. */
  predicate IsLastWithUrl(outs: seq<Config.Output>, url: string, k: int) {
    0 <= k < |outs| && outs[k].url == url && forall j :: k < j < |outs| ==> outs[j].url != url
  }

  /** `LastWithUrl` finds the entry no later entry overrides. */
  lemma {:induction false} LastWithUrlIsLast(outs: seq<Config.Output>, url: string)
    requires url in OutputUrls(outs)
    ensures exists k :: IsLastWithUrl(outs, url, k) && LastWithUrl(outs, url) == Some(outs[k])
    decreases |outs|
  {
    var n := |outs| - 1;
    if outs[n].url == url {
      assert LastWithUrl(outs, url) == Some(outs[n]);
      assert IsLastWithUrl(outs, url, n);
    } else {
      OutputUrlsSnoc(outs, n);
      assert outs[..n + 1] == outs;
      assert LastWithUrl(outs, url) == LastWithUrl(outs[..n], url);
      LastWithUrlIsLast(outs[..n], url);
      var k :| IsLastWithUrl(outs[..n], url, k) && LastWithUrl(outs[..n], url) == Some(outs[..n][k]);
      assert outs[..n][k] == outs[k];
      assert IsLastWithUrl(outs, url, k) && LastWithUrl(outs, url) == Some(outs[k]);
    }
  }

  /** Extending the entries by one. */
  lemma LastWithUrlSnoc(outs: seq<Config.Output>, i: nat, url: string)
    requires i < |outs|
    ensures LastWithUrl(outs[..i + 1], url)
            == if outs[i].url == url then Some(outs[i]) else LastWithUrl(outs[..i], url)
  {
    assert outs[..i + 1][..i] == outs[..i];
    assert outs[..i + 1][i] == outs[i];
  }

  /** The call `setupInput` makes for one entry: the constructor of the
      kind its scheme selects, or none when the URL is refused. */
  function InputSetupCalls(parse: Parser, x: Config.Input): seq<Call> {
    match InputPlan(parse, x.url)
    case Success(k) => [Construct(k, x.url)]
    case Failure(_) => []
  }

  function OutputSetupCalls(parse: Parser, x: Config.Output): seq<Call> {
    match OutputPlan(parse, x.url)
    case Success(k) => [Construct(k, x.url)]
    case Failure(_) => []
  }

  /** `setupInput` succeeds for `x` when its URL selects an adapter and the
      constructor call numbered `n` succeeds. */
  predicate InputOk(x: Config.Input, env: Env, n: nat) {
    InputPlan(env.parse, x.url).Success? && env.adapterOk(n)
  }

  predicate OutputOk(x: Config.Output, env: Env, n: nat) {
    OutputPlan(env.parse, x.url).Success? && env.adapterOk(n)
  }

  /** The error `setupInput` reports for `x` when it does not succeed. */
  function InputFault(x: Config.Input, env: Env): FlowError {
    match InputPlan(env.parse, x.url)
    case Failure(e) => e
    case Success(k) => AdapterSetup(k, x.url)
  }

  function OutputFault(x: Config.Output, env: Env): FlowError {
    match OutputPlan(env.parse, x.url)
    case Failure(e) => e
    case Success(k) => AdapterSetup(k, x.url)
  }

  /** The error of the first entry of `ins` that does not set up, the
      `i`-th entry being built by constructor call `base + i`; `None` when
      every entry sets up. */
  function InputsFault(ins: seq<Config.Input>, env: Env, base: nat): (r: Option<FlowError>)
    ensures r.Some? ==> r.value.InputSetup? && r.value.input in ins
    decreases |ins|
  {
    if |ins| == 0 then None
    else
      var x := ins[|ins| - 1];
      var front := InputsFault(ins[..|ins| - 1], env, base);
      if front.Some? then front
      else if InputOk(x, env, base + |ins| - 1) then None
      else Some(InputSetup(x, InputFault(x, env)))
  }

  function OutputsFault(outs: seq<Config.Output>, env: Env, base: nat): (r: Option<FlowError>)
    ensures r.Some? ==> r.value.OutputSetup? && r.value.output in outs
    decreases |outs|
  {
    if |outs| == 0 then None
    else
      var x := outs[|outs| - 1];
      var front := OutputsFault(outs[..|outs| - 1], env, base);
      if front.Some? then front
      else if OutputOk(x, env, base + |outs| - 1) then None
      else Some(OutputSetup(x, OutputFault(x, env)))
  }

  /** Every entry of `ins` sets up, the `i`-th one with constructor call
      `base + i`. */
  predicate InputsOk(ins: seq<Config.Input>, env: Env, base: nat) {
    forall i :: 0 <= i < |ins| ==> InputOk(ins[i], env, base + i)
  }

  predicate OutputsOk(outs: seq<Config.Output>, env: Env, base: nat) {
    forall i :: 0 <= i < |outs| ==> OutputOk(outs[i], env, base + i)
  }

  /** Entry `k` is the first of `ins` that does not set up. */
  predicate FirstBadInput(ins: seq<Config.Input>, env: Env, base: nat, k: int) {
    && 0 <= k < |ins| && !InputOk(ins[k], env, base + k)
    && forall j :: 0 <= j < k ==> InputOk(ins[j], env, base + j)
  }

  predicate FirstBadOutput(outs: seq<Config.Output>, env: Env, base: nat, k: int) {
    && 0 <= k < |outs| && !OutputOk(outs[k], env, base + k)
    && forall j :: 0 <= j < k ==> OutputOk(outs[j], env, base + j)
  }

  /** A fault among the first `n` entries is the fault of them all. */
  lemma {:induction false} InputsFaultPrefix(ins: seq<Config.Input>, env: Env, base: nat, n: nat)
    requires n <= |ins| && InputsFault(ins[..n], env, base).Some?
    ensures InputsFault(ins, env, base) == InputsFault(ins[..n], env, base)
    decreases |ins|
  {
    if n == |ins| {
      assert ins[..n] == ins;
    } else {
      var front := ins[..|ins| - 1];
      assert front[..n] == ins[..n];
      InputsFaultPrefix(front, env, base, n);
    }
  }

  lemma {:induction false} OutputsFaultPrefix(outs: seq<Config.Output>, env: Env, base: nat, n: nat)
    requires n <= |outs| && OutputsFault(outs[..n], env, base).Some?
    ensures OutputsFault(outs, env, base) == OutputsFault(outs[..n], env, base)
    decreases |outs|
  {
    if n == |outs| {
      assert outs[..n] == outs;
    } else {
      var front := outs[..|outs| - 1];
      assert front[..n] == outs[..n];
      OutputsFaultPrefix(front, env, base, n);
    }
  }

  /** `InputsFault` is `None` exactly when every entry sets up. */
  lemma {:induction false} InputsFaultNone(ins: seq<Config.Input>, env: Env, base: nat)
    ensures InputsFault(ins, env, base).None? <==> InputsOk(ins, env, base)
    decreases |ins|
  {
    if |ins| > 0 {
      var front := ins[..|ins| - 1];
      InputsFaultNone(front, env, base);
      assert forall i :: 0 <= i < |front| ==> front[i] == ins[i];
    }
  }

  lemma {:induction false} OutputsFaultNone(outs: seq<Config.Output>, env: Env, base: nat)
    ensures OutputsFault(outs, env, base).None? <==> OutputsOk(outs, env, base)
    decreases |outs|
  {
    if |outs| > 0 {
      var front := outs[..|outs| - 1];
      OutputsFaultNone(front, env, base);
      assert forall i :: 0 <= i < |front| ==> front[i] == outs[i];
    }
  }

  /** The fault is the error of the first entry that does not set up. */
  lemma InputsFaultFirst(ins: seq<Config.Input>, env: Env, base: nat, k: int)
    requires FirstBadInput(ins, env, base, k)
    ensures InputsFault(ins, env, base) == Some(InputSetup(ins[k], InputFault(ins[k], env)))
  {
    InputsFaultNone(ins[..k], env, base);
    assert InputsOk(ins[..k], env, base);
    assert ins[..k + 1][..k] == ins[..k];
    InputsFaultPrefix(ins, env, base, k + 1);
  }

  lemma OutputsFaultFirst(outs: seq<Config.Output>, env: Env, base: nat, k: int)
    requires FirstBadOutput(outs, env, base, k)
    ensures OutputsFault(outs, env, base) == Some(OutputSetup(outs[k], OutputFault(outs[k], env)))
  {
    OutputsFaultNone(outs[..k], env, base);
    assert OutputsOk(outs[..k], env, base);
    assert outs[..k + 1][..k] == outs[..k];
    OutputsFaultPrefix(outs, env, base, k + 1);
  }

  /** A fault comes from some first entry that does not set up. */
  lemma {:induction false} InputsFaultExists(ins: seq<Config.Input>, env: Env, base: nat)
    requires InputsFault(ins, env, base).Some?
    ensures exists k :: FirstBadInput(ins, env, base, k)
    decreases |ins|
  {
    var m := |ins| - 1;
    var front := ins[..m];
    if InputsFault(front, env, base).Some? {
      InputsFaultExists(front, env, base);
      var k :| FirstBadInput(front, env, base, k);
      assert forall j :: 0 <= j <= k ==> front[j] == ins[j];
      assert FirstBadInput(ins, env, base, k);
    } else {
      InputsFaultNone(front, env, base);
      assert forall j :: 0 <= j < m ==> front[j] == ins[j];
      assert FirstBadInput(ins, env, base, m);
    }
  }

  lemma {:induction false} OutputsFaultExists(outs: seq<Config.Output>, env: Env, base: nat)
    requires OutputsFault(outs, env, base).Some?
    ensures exists k :: FirstBadOutput(outs, env, base, k)
    decreases |outs|
  {
    var m := |outs| - 1;
    var front := outs[..m];
    if OutputsFault(front, env, base).Some? {
      OutputsFaultExists(front, env, base);
      var k :| FirstBadOutput(front, env, base, k);
      assert forall j :: 0 <= j <= k ==> front[j] == outs[j];
      assert FirstBadOutput(outs, env, base, k);
    } else {
      OutputsFaultNone(front, env, base);
      assert forall j :: 0 <= j < m ==> front[j] == outs[j];
      assert FirstBadOutput(outs, env, base, m);
    }
  }

  /** When the entries before `i` set up and entry `i` does not, its error
      is the fault of the whole sequence and `i` is the only first failing
      entry. */
  lemma FirstBadInputAt(ins: seq<Config.Input>, env: Env, base: nat, i: nat)
    requires i < |ins| && InputsFault(ins[..i], env, base).None? && !InputOk(ins[i], env, base + i)
    ensures InputsFault(ins, env, base) == Some(InputSetup(ins[i], InputFault(ins[i], env)))
    ensures forall k :: FirstBadInput(ins, env, base, k) ==> k == i
  {
    assert ins[..i + 1][..i] == ins[..i];
    InputsFaultPrefix(ins, env, base, i + 1);
    InputsFaultNone(ins[..i], env, base);
  }

  lemma FirstBadOutputAt(outs: seq<Config.Output>, env: Env, base: nat, i: nat)
    requires i < |outs| && OutputsFault(outs[..i], env, base).None? && !OutputOk(outs[i], env, base + i)
    ensures OutputsFault(outs, env, base) == Some(OutputSetup(outs[i], OutputFault(outs[i], env)))
    ensures forall k :: FirstBadOutput(outs, env, base, k) ==> k == i
  {
    assert outs[..i + 1][..i] == outs[..i];
    OutputsFaultPrefix(outs, env, base, i + 1);
    OutputsFaultNone(outs[..i], env, base);
  }

  /** The constructor calls made while setting up `ins` one after the
      other. */
  function InputCalls(ins: seq<Config.Input>, parse: Parser): seq<Call>
    decreases |ins|
  {
    if |ins| == 0 then []
    else InputCalls(ins[..|ins| - 1], parse) + InputSetupCalls(parse, ins[|ins| - 1])
  }

  /** Binding one more input keeps the input table bound to the entries
      seen so far, and adds its constructor call to the log. */
  lemma InputsBoundSnoc(table: map<string, Adapter>, ins: seq<Config.Input>, i: nat, a: Adapter, parse: Parser)
    requires i < |ins| && InputPlan(parse, ins[i].url) == Success(a.kind)
    requires InputsBound(table, ins[..i], parse)
    ensures InputsBound(table[ins[i].url := a], ins[..i + 1], parse)
    ensures InputCalls(ins[..i + 1], parse) == InputCalls(ins[..i], parse) + [Construct(a.kind, ins[i].url)]
  {
    assert ins[..i + 1][..i] == ins[..i];
    InputUrlsSnoc(ins, i);
  }

  function OutputCalls(outs: seq<Config.Output>, parse: Parser): seq<Call>
    decreases |outs|
  {
    if |outs| == 0 then []
    else OutputCalls(outs[..|outs| - 1], parse) + OutputSetupCalls(parse, outs[|outs| - 1])
  }

  /** The calls of a successful `CreateFlow` once the receiver exists:
      the input constructors, the receiver start, the RIST flow on the
      destination port, the main loop, the UDP inputs, then the output
      constructors. */
  function WireCalls(c: Config.Flow, parse: Parser): seq<Call> {
    InputCalls(c.inputs, parse)
    + [StartReceiver, ConfigureFlow(DestinationPort(c.ristProfile, c.streamId)), StartMainloop, StartUdpInputs]
    + OutputCalls(c.outputs, parse)
  }

  /** The first failure among the steps after the receiver setup: the
      inputs (constructor calls from `base` on), the receiver start, the
      RIST flow configuration, the UDP inputs, then the outputs. */
  function WireFault(c: Config.Flow, env: Env, base: nat): Option<FlowError> {
    if InputsFault(c.inputs, env, base).Some? then InputsFault(c.inputs, env, base)
    else if !env.startOk then Some(ReceiverStart)
    else if !env.configureOk then Some(ConfigureRistFlow)
    else if !env.udpStartOk then Some(UdpInputsStart)
    else OutputsFault(c.outputs, env, base + |c.inputs|)
  }

  /** The steps after the receiver setup depend on the entries, the profile
      and the stream id only, not on the latency. */
  lemma WireSameEntries(c: Config.Flow, c': Config.Flow, env: Env)
    requires c'.inputs == c.inputs && c'.outputs == c.outputs
    requires c'.ristProfile == c.ristProfile && c'.streamId == c.streamId
    ensures WireCalls(c', env.parse) == WireCalls(c, env.parse)
    ensures forall base :: WireFault(c', env, base) == WireFault(c, env, base)
  {
  }

  /** No step fails exactly when every input and output constructor call
      and every receiver step succeeds; the inputs take constructor calls
      `base` on, the outputs the calls after them. */
  lemma WireFaultNone(c: Config.Flow, env: Env, base: nat)
    ensures WireFault(c, env, base).None? <==>
              && InputsOk(c.inputs, env, base) && env.startOk && env.configureOk && env.udpStartOk
              && OutputsOk(c.outputs, env, base + |c.inputs|)
  {
    InputsFaultNone(c.inputs, env, base);
    OutputsFaultNone(c.outputs, env, base + |c.inputs|);
  }

  /** The first of the steps before the receiver exists that fails:
      validation, statistics, receiver setup. */
  function EarlyFailure(c: Config.Flow, env: Env): (r: Option<FlowError>)
    ensures r.None? <==> Config.ValidateFlowConfig(c, env.parse).Pass? && env.statsOk && env.receiverOk
    ensures Config.ValidateFlowConfig(c, env.parse).Fail? ==>
              r == Some(ConfigValidation(Config.ValidateFlowConfig(c, env.parse).error))
  {
    var verdict := Config.ValidateFlowConfig(c, env.parse);
    if verdict.Fail? then Some(ConfigValidation(verdict.error))
    else if !env.statsOk then Some(StatsSetup)
    else if !env.receiverOk then Some(ReceiverSetup)
    else None
  }

  /** The calls made up to the receiver setup: none when validation fails,
      since nothing is built before it. */
  function EarlyCalls(c: Config.Flow, env: Env): (calls: seq<Call>)
    ensures Config.ValidateFlowConfig(c, env.parse).Fail? ==> calls == []
  {
    if Config.ValidateFlowConfig(c, env.parse).Fail? then []
    else if !env.statsOk then [SetupStats]
    else [SetupStats, SetupReceiver(c.ristProfile, EffectiveLatency(c.latency))]
  }

  /** The caller's configuration after `CreateFlow`: the latency default is
      written back once validation and statistics setup have passed. */
  function CallerConfigAfter(c: Config.Flow, env: Env): Config.Flow {
    if Config.ValidateFlowConfig(c, env.parse).Pass? && env.statsOk then WithDefaultLatency(c) else c
  }

  /** Every adapter is stored under its own URL, and every output handle
      under the URL of its configuration; input tables hold input adapters
      and output tables output adapters. */
  predicate InputsKeyed(table: map<string, Adapter>) {
    forall u :: u in table ==> table[u].url == u && table[u].kind.ForInput()
  }

  predicate OutputsKeyed(table: map<string, OutHandle>) {
    forall u :: u in table ==> table[u].out.url == u && table[u].conf.url == u && !table[u].out.kind.ForInput()
  }

  /** The input table of a configuration: one adapter per URL, of the kind
      the URL's scheme selects. */
  predicate InputsBound(table: map<string, Adapter>, ins: seq<Config.Input>, parse: Parser) {
    && table.Keys == InputUrls(ins)
    && forall u :: u in table ==> InputPlan(parse, u) == Success(table[u].kind)
  }

  /** The output table of a configuration: one handle per URL, holding the
      last entry with that URL. */
  predicate OutputsBound(table: map<string, OutHandle>, outs: seq<Config.Output>) {
    && table.Keys == OutputUrls(outs)
    && forall u :: u in table ==> LastWithUrl(outs, u) == Some(table[u].conf)
  }

  /** Every output handle holds an adapter of the kind its URL selects. */
  predicate OutputKinds(table: map<string, OutHandle>, parse: Parser) {
    forall u :: u in table ==> OutputPlan(parse, u) == Success(table[u].out.kind)
  }

  /** Binding one more entry keeps the output table bound to the entries
      seen so far. */
  lemma OutputsBoundSnoc(table: map<string, OutHandle>, outs: seq<Config.Output>, i: nat, h: OutHandle, parse: Parser)
    requires i < |outs| && h.conf == outs[i] && OutputPlan(parse, outs[i].url) == Success(h.out.kind)
    requires OutputsBound(table, outs[..i]) && OutputKinds(table, parse)
    ensures OutputsBound(table[outs[i].url := h], outs[..i + 1]) && OutputKinds(table[outs[i].url := h], parse)
    ensures OutputCalls(outs[..i + 1], parse) == OutputCalls(outs[..i], parse) + [Construct(h.out.kind, outs[i].url)]
  {
    assert outs[..i + 1][..i] == outs[..i];
    OutputUrlsSnoc(outs, i);
    var next := table[outs[i].url := h];
    forall u | u in next
      ensures LastWithUrl(outs[..i + 1], u) == Some(next[u].conf)
    {
      LastWithUrlSnoc(outs, i, u);
    }
  }

  /** The state of `CreateFlow`'s input loop after the first `i` entries
      of `ins` set up: the table, the call log that started as `log0`, and
      the constructor count that started at `base`. */
  ghost predicate InputsSetUp(table: map<string, Adapter>, log: seq<Call>, n: nat, ins: seq<Config.Input>, i: nat,
                              env: Env, log0: seq<Call>, base: nat)
  {
    && i <= |ins| && InputsBound(table, ins[..i], env.parse)
    && log == log0 + InputCalls(ins[..i], env.parse) && n == base + i && InputsFault(ins[..i], env, base).None?
  }

  lemma InputsSetUpSnoc(table: map<string, Adapter>, log: seq<Call>, n: nat, ins: seq<Config.Input>, i: nat,
                        env: Env, log0: seq<Call>, base: nat)
    requires InputsSetUp(table, log, n, ins, i, env, log0, base) && i < |ins| && InputOk(ins[i], env, n)
    ensures InputsSetUp(table[ins[i].url := Adapter(InputPlan(env.parse, ins[i].url).value, ins[i].url, n)],
                        log + InputSetupCalls(env.parse, ins[i]), n + 1, ins, i + 1, env, log0, base)
  {
    var a := Adapter(InputPlan(env.parse, ins[i].url).value, ins[i].url, n);
    assert ins[..i + 1][..i] == ins[..i];
    assert InputsFault(ins[..i + 1], env, base).None?;
    InputsBoundSnoc(table, ins, i, a, env.parse);
    assert InputSetupCalls(env.parse, ins[i]) == [Construct(a.kind, ins[i].url)];
    LogAssoc(log0, InputCalls(ins[..i], env.parse), InputSetupCalls(env.parse, ins[i]));
  }

  /** The state of `CreateFlow`'s output loop after the first `i` entries
      of `outs` set up. */
  ghost predicate OutputsSetUp(table: map<string, OutHandle>, log: seq<Call>, n: nat, outs: seq<Config.Output>, i: nat,
                               env: Env, log0: seq<Call>, base: nat)
  {
    && i <= |outs| && OutputsBound(table, outs[..i]) && OutputKinds(table, env.parse)
    && log == log0 + OutputCalls(outs[..i], env.parse) && n == base + i && OutputsFault(outs[..i], env, base).None?
  }

  lemma OutputsSetUpSnoc(table: map<string, OutHandle>, log: seq<Call>, n: nat, outs: seq<Config.Output>, i: nat,
                         env: Env, log0: seq<Call>, base: nat)
    requires OutputsSetUp(table, log, n, outs, i, env, log0, base) && i < |outs| && OutputOk(outs[i], env, n)
    ensures OutputsSetUp(table[outs[i].url := OutHandle(Adapter(OutputPlan(env.parse, outs[i].url).value, outs[i].url, n), outs[i])],
                         log + OutputSetupCalls(env.parse, outs[i]), n + 1, outs, i + 1, env, log0, base)
  {
    var h := OutHandle(Adapter(OutputPlan(env.parse, outs[i].url).value, outs[i].url, n), outs[i]);
    assert outs[..i + 1][..i] == outs[..i];
    assert OutputsFault(outs[..i + 1], env, base).None?;
    OutputsBoundSnoc(table, outs, i, h, env.parse);
    assert OutputSetupCalls(env.parse, outs[i]) == [Construct(h.out.kind, outs[i].url)];
    LogAssoc(log0, OutputCalls(outs[..i], env.parse), OutputSetupCalls(env.parse, outs[i]));
  }

  /** The adapters closed for the URLs in `order`, in that order. */
  function InputCloses(order: seq<string>, table: map<string, Adapter>): seq<Call>
    requires forall i :: 0 <= i < |order| ==> order[i] in table
  {
    seq(|order|, i requires 0 <= i < |order| => Close(table[order[i]]))
  }

  function OutputCloses(order: seq<string>, table: map<string, OutHandle>): seq<Call>
    requires forall i :: 0 <= i < |order| ==> order[i] in table
  {
    seq(|order|, i requires 0 <= i < |order| => Close(table[order[i]].out))
  }

  /** Every entry among the first `n` with URL `u` equals `conf`. */
  predicate AllAgree(outs: seq<Config.Output>, n: nat, u: string, conf: Config.Output)
    requires n <= |outs|
  {
    forall j :: 0 <= j < n && outs[j].url == u ==> outs[j] == conf
  }

  /** The output table after the reconfigure loop has handled the first `n`
      entries, starting from `start`: every URL seen holds the last entry
      with it, the rest is as it was, and an entry whose configuration every
      entry seen repeats is the very same handle. */
  predicate SyncedUpTo(table: map<string, OutHandle>, start: map<string, OutHandle>, outs: seq<Config.Output>, n: nat)
    requires n <= |outs|
  {
    && table.Keys == start.Keys + OutputUrls(outs[..n])
    && (forall u :: u in table && u in OutputUrls(outs[..n]) ==> LastWithUrl(outs[..n], u) == Some(table[u].conf))
    && (forall u :: u in table && u !in OutputUrls(outs[..n]) ==> table[u] == start[u])
    && (forall u :: u in start && AllAgree(outs, n, u, start[u].conf) ==> table[u] == start[u])
  }

  /** One turn of the reconfigure loop: entry `n` is bound to a handle `h`
      with its configuration, which is the old handle when that already
      had the same configuration. */
  lemma SyncStep(table: map<string, OutHandle>, start: map<string, OutHandle>, outs: seq<Config.Output>, n: nat, h: OutHandle)
    requires n < |outs| && SyncedUpTo(table, start, outs, n)
    requires h.conf == outs[n]
    requires outs[n].url in table && table[outs[n].url].conf == outs[n] ==> h == table[outs[n].url]
    ensures SyncedUpTo(table[outs[n].url := h], start, outs, n + 1)
  {
    var next := table[outs[n].url := h];
    OutputUrlsSnoc(outs, n);
    forall u | u in next && u in OutputUrls(outs[..n + 1])
      ensures LastWithUrl(outs[..n + 1], u) == Some(next[u].conf)
    {
      LastWithUrlSnoc(outs, n, u);
    }
    forall u | u in next && u !in OutputUrls(outs[..n + 1])
      ensures next[u] == start[u]
    {
      assert u != outs[n].url && u !in OutputUrls(outs[..n]);
    }
    forall u | u in start && AllAgree(outs, n + 1, u, start[u].conf)
      ensures next[u] == start[u]
    {
      assert AllAgree(outs, n, u, start[u].conf);
    }
    assert next.Keys == start.Keys + OutputUrls(outs[..n + 1]);
  }

  /** Every handle of `start` whose configuration some entry among the
      first `n` contradicts has had its adapter closed in `log`. */
  predicate ClosedChanged(log: seq<Call>, start: map<string, OutHandle>, outs: seq<Config.Output>, n: nat)
    requires n <= |outs|
  {
    forall u :: u in start && !AllAgree(outs, n, u, start[u].conf) ==> Close(start[u].out) in log
  }

  /** One turn of the reconfigure loop keeps `ClosedChanged`, provided the
      turn closes a bound handle whose configuration differs from the
      entry. */
  lemma ClosedStep(log: seq<Call>, closes: seq<Call>, setup: seq<Call>, table: map<string, OutHandle>,
                   start: map<string, OutHandle>, outs: seq<Config.Output>, n: nat)
    requires n < |outs| && SyncedUpTo(table, start, outs, n) && ClosedChanged(log, start, outs, n)
    requires outs[n].url in table && table[outs[n].url].conf != outs[n] ==> closes == [Close(table[outs[n].url].out)]
    ensures ClosedChanged(log + (closes + setup), start, outs, n + 1)
  {
    forall u | u in start && !AllAgree(outs, n + 1, u, start[u].conf)
      ensures Close(start[u].out) in log + (closes + setup)
    {
      if AllAgree(outs, n, u, start[u].conf) {
        assert u == outs[n].url;
      } else {
        assert Close(start[u].out) in log;
      }
    }
  }

  /** No handle of `start` whose configuration every entry among the first
      `n` repeats has had its adapter closed in `log`. */
  predicate KeptOpen(log: seq<Call>, start: map<string, OutHandle>, outs: seq<Config.Output>, n: nat)
    requires n <= |outs|
  {
    forall u :: u in start && AllAgree(outs, n, u, start[u].conf) ==> Close(start[u].out) !in log
  }

  /** One turn of the reconfigure loop keeps `KeptOpen`, provided the only
      adapter the turn closes is a bound one whose configuration differs
      from the entry. */
  lemma KeptOpenStep(log: seq<Call>, closes: seq<Call>, setup: seq<Call>, table: map<string, OutHandle>,
                     start: map<string, OutHandle>, outs: seq<Config.Output>, n: nat)
    requires n < |outs| && SyncedUpTo(table, start, outs, n) && KeptOpen(log, start, outs, n)
    requires OutputsKeyed(start) && OutputsKeyed(table) && OnlyConstructs(setup, 0)
    requires closes == [] ||
             (outs[n].url in table && table[outs[n].url].conf != outs[n] && closes == [Close(table[outs[n].url].out)])
    ensures KeptOpen(log + (closes + setup), start, outs, n + 1)
  {
    forall u | u in start && AllAgree(outs, n + 1, u, start[u].conf)
      ensures Close(start[u].out) !in log + (closes + setup)
    {
      assert AllAgree(outs, n, u, start[u].conf);
    }
  }

  /** The state of the reconfigure loop after the first `n` entries, which
      started from the table `start` and the call log `log0`. */
  ghost predicate Synced(table: map<string, OutHandle>, log: seq<Call>, start: map<string, OutHandle>, log0: seq<Call>,
                         outs: seq<Config.Output>, n: nat, parse: Parser)
    requires n <= |outs|
  {
    && SyncedUpTo(table, start, outs, n) && Extends(log, log0)
    && ClosedChanged(log[|log0|..], start, outs, n) && KeptOpen(log[|log0|..], start, outs, n)
    && KindsFrom(start, table, parse)
  }

  /** One successful turn of the reconfigure loop: entry `n`'s URL is bound
      to a handle with its configuration, the same handle when the stored
      configuration already matched, and a mismatching one was closed
      first. */
  lemma SyncTurn(table: map<string, OutHandle>, log: seq<Call>, table': map<string, OutHandle>, log': seq<Call>,
                 start: map<string, OutHandle>, log0: seq<Call>, outs: seq<Config.Output>, n: nat, parse: Parser)
    requires n < |outs| && Synced(table, log, start, log0, outs, n, parse)
    requires OutputsKeyed(start) && OutputsKeyed(table)
    requires outs[n].url in table' && table'[outs[n].url].conf == outs[n]
    requires table' == table[outs[n].url := table'[outs[n].url]]
    requires outs[n].url in table && table[outs[n].url].conf == outs[n] ==> table' == table && log' == log
    requires outs[n].url !in table ==> log' == log + OutputSetupCalls(parse, outs[n])
    requires outs[n].url in table && table[outs[n].url].conf != outs[n] ==>
               log' == log + [Close(table[outs[n].url].out)] + OutputSetupCalls(parse, outs[n])
    requires KindsFrom(table, table', parse)
    ensures Synced(table', log', start, log0, outs, n + 1, parse)
  {
    SyncLogTurn(table, log, log', start, log0, outs, n, parse);
    SyncStep(table, start, outs, n, table'[outs[n].url]);
    KindsFromTrans(start, table, table', parse);
  }

  /** The calls of one turn of the reconfigure loop close the adapter of
      entry `n`'s URL exactly when its stored configuration differs. */
  lemma SyncLogTurn(table: map<string, OutHandle>, log: seq<Call>, log': seq<Call>, start: map<string, OutHandle>,
                    log0: seq<Call>, outs: seq<Config.Output>, n: nat, parse: Parser)
    requires n < |outs| && SyncedUpTo(table, start, outs, n) && Extends(log, log0)
    requires ClosedChanged(log[|log0|..], start, outs, n) && KeptOpen(log[|log0|..], start, outs, n)
    requires OutputsKeyed(start) && OutputsKeyed(table)
    requires outs[n].url in table && table[outs[n].url].conf == outs[n] ==> log' == log
    requires outs[n].url !in table ==> log' == log + OutputSetupCalls(parse, outs[n])
    requires outs[n].url in table && table[outs[n].url].conf != outs[n] ==>
               log' == log + [Close(table[outs[n].url].out)] + OutputSetupCalls(parse, outs[n])
    ensures Extends(log', log0)
    ensures ClosedChanged(log'[|log0|..], start, outs, n + 1) && KeptOpen(log'[|log0|..], start, outs, n + 1)
  {
    var w := outs[n].url;
    var closes := if w in table && table[w].conf != outs[n] then [Close(table[w].out)] else [];
    var setup := if w in table && table[w].conf == outs[n] then [] else OutputSetupCalls(parse, outs[n]);
    assert log' == log + (closes + setup);
    ExtendsAppend(log, log0, closes + setup);
    ClosedStep(log[|log0|..], closes, setup, table, start, outs, n);
    KeptOpenStep(log[|log0|..], closes, setup, table, start, outs, n);
  }

  lemma InputClosesHas(order: seq<string>, table: map<string, Adapter>, u: string)
    requires forall i :: 0 <= i < |order| ==> order[i] in table
    requires u in order
    ensures u in table && Close(table[u]) in InputCloses(order, table)
  {
    var i :| 0 <= i < |order| && order[i] == u;
    assert InputCloses(order, table)[i] == Close(table[u]);
  }

  lemma OutputClosesHas(order: seq<string>, table: map<string, OutHandle>, u: string)
    requires forall i :: 0 <= i < |order| ==> order[i] in table
    requires u in order
    ensures u in table && Close(table[u].out) in OutputCloses(order, table)
  {
    var i :| 0 <= i < |order| && order[i] == u;
    assert OutputCloses(order, table)[i] == Close(table[u].out);
  }

  /** The closes of the removal loop leave alone an adapter whose URL it
      does not visit. */
  lemma OutputClosesLacks(order: seq<string>, table: map<string, OutHandle>, u: string)
    requires forall i :: 0 <= i < |order| ==> order[i] in table
    requires OutputsKeyed(table) && u in table && u !in order
    ensures Close(table[u].out) !in OutputCloses(order, table)
  {
    forall i | 0 <= i < |order| ensures OutputCloses(order, table)[i] != Close(table[u].out) {
      assert table[order[i]].out.url == order[i] != u;
    }
  }

  /** Closing inputs of a keyed table closes input adapters only. */
  lemma InputClosesOnlyInputs(order: seq<string>, table: map<string, Adapter>, more: seq<Call>)
    requires forall i :: 0 <= i < |order| ==> order[i] in table
    requires InputsKeyed(table) && OnlyConstructs(more, 0)
    ensures ClosesOnlyInputs(InputCloses(order, table) + more)
  {
  }

  /** `log` continues `prefix`. */
  predicate Extends(log: seq<Call>, prefix: seq<Call>) {
    |log| >= |prefix| && log[..|prefix|] == prefix
  }

  /** Regrouping a log written in three parts. */
  lemma LogAssoc(a: seq<Call>, b: seq<Call>, c: seq<Call>)
    ensures a + b + c == a + (b + c)
  {
  }

  /** Continuing is transitive. */
  lemma ExtendsTrans(log: seq<Call>, mid: seq<Call>, prefix: seq<Call>)
    requires Extends(log, mid) && Extends(mid, prefix)
    ensures Extends(log, prefix)
  {
    assert log[..|prefix|] == log[..|mid|][..|prefix|];
  }

  /** Appending to a log that continues `prefix` appends to what follows it. */
  lemma ExtendsAppend(log: seq<Call>, prefix: seq<Call>, more: seq<Call>)
    requires Extends(log, prefix)
    ensures Extends(log + more, prefix) && (log + more)[|prefix|..] == log[|prefix|..] + more
  {
    assert (log + more)[..|prefix|] == log[..|prefix|];
  }

  /** What follows `prefix` in a log that continues `mid`, itself a
      continuation of `prefix`. */
  lemma ExtendsSplit(log: seq<Call>, mid: seq<Call>, prefix: seq<Call>)
    requires Extends(log, mid) && Extends(mid, prefix)
    ensures Extends(log, prefix) && log[|prefix|..] == mid[|prefix|..] + log[|mid|..]
  {
    ExtendsTrans(log, mid, prefix);
    assert log == mid + log[|mid|..];
  }

  /** A log that continues `prefix + [call]` continues `prefix` with `call`. */
  lemma ExtendsSnoc(log: seq<Call>, prefix: seq<Call>, call: Call)
    requires Extends(log, prefix + [call])
    ensures Extends(log, prefix) && |log| > |prefix| && log[|prefix|] == call
  {
    assert log[..|prefix|] == log[..|prefix| + 1][..|prefix|];
  }

  /** `after` keeps every binding of `before`, and every URL it adds is
      bound to an adapter of the kind that URL selects. */
  predicate InputsGrown(before: map<string, Adapter>, after: map<string, Adapter>, parse: Parser) {
    && (forall u :: u in before ==> u in after && after[u] == before[u])
    && (forall u :: u in after && u !in before ==> InputPlan(parse, u) == Success(after[u].kind))
  }

  lemma InputsGrownTrans(a: map<string, Adapter>, b: map<string, Adapter>, c: map<string, Adapter>, parse: Parser)
    requires InputsGrown(a, b, parse) && InputsGrown(b, c, parse)
    ensures InputsGrown(a, c, parse)
  {
  }

  /** Every call of `log` from position `from` on is an adapter constructor. */
  predicate OnlyConstructs(log: seq<Call>, from: nat) {
    forall k :: from <= k < |log| ==> log[k].Construct?
  }

  lemma OnlyConstructsSnoc(log: seq<Call>, from: nat, call: Call)
    requires OnlyConstructs(log, from) && call.Construct?
    ensures OnlyConstructs(log + [call], from)
  {
  }

  /** After the input diff: every input whose URL disappeared is gone and
      its adapter was closed in `log`; every input whose URL stays is the
      very same adapter; no URL outside the configuration is bound. */
  predicate InputsReconciled(before: map<string, Adapter>, after: map<string, Adapter>, ins: seq<Config.Input>, log: seq<Call>) {
    && (forall u :: u in before && u !in InputUrls(ins) ==> u !in after && Close(before[u]) in log)
    && (forall u :: u in before && u in InputUrls(ins) ==> u in after && after[u] == before[u])
    && after.Keys <= InputUrls(ins)
  }

  /** A diff that keeps the surviving inputs, binds exactly the new URLs
      and gives every new adapter the kind its URL selects leaves the table
      bound to the new entries, when it was bound to the old ones. */
  lemma InputsReconciledBound(before: map<string, Adapter>, after: map<string, Adapter>, oldIns: seq<Config.Input>,
                              ins: seq<Config.Input>, log: seq<Call>, parse: Parser)
    requires InputsBound(before, oldIns, parse) && InputsReconciled(before, after, ins, log)
    requires after.Keys == InputUrls(ins)
    requires forall u :: u in after && u !in before ==> InputPlan(parse, u) == Success(after[u].kind)
    ensures InputsBound(after, ins, parse)
  {
  }

  lemma InputsReconciledExtends(before: map<string, Adapter>, after: map<string, Adapter>, ins: seq<Config.Input>,
                                log: seq<Call>, more: seq<Call>)
    requires InputsReconciled(before, after, ins, log)
    ensures InputsReconciled(before, after, ins, log + more)
  {
    forall u | u in before && u !in InputUrls(ins) ensures Close(before[u]) in log + more {
      assert Close(before[u]) in log;
    }
  }

  /** Every output whose URL disappeared is gone and its adapter was closed
      in `log`. */
  predicate StaleOutputsClosed(before: map<string, OutHandle>, after: map<string, OutHandle>, outs: seq<Config.Output>, log: seq<Call>) {
    forall u :: u in before && u !in OutputUrls(outs) ==> u !in after && Close(before[u].out) in log
  }

  /** Every handle of `after` is either carried over unchanged from
      `before` or holds an adapter of the kind its URL selects. */
  predicate KindsFrom(before: map<string, OutHandle>, after: map<string, OutHandle>, parse: Parser) {
    forall u :: u in after ==> (u in before && after[u] == before[u]) || OutputPlan(parse, u) == Success(after[u].out.kind)
  }

  lemma KindsFromTrans(a: map<string, OutHandle>, b: map<string, OutHandle>, c: map<string, OutHandle>, parse: Parser)
    requires KindsFrom(a, b, parse) && KindsFrom(b, c, parse)
    ensures KindsFrom(a, c, parse)
  {
  }

  /** A table whose handles all have the kinds their URLs select keeps that
      property through changes that only carry handles over or add ones of
      the right kind. */
  lemma OutputKindsKept(before: map<string, OutHandle>, after: map<string, OutHandle>, parse: Parser)
    requires OutputKinds(before, parse) && KindsFrom(before, after, parse)
    ensures OutputKinds(after, parse)
  {
  }

  /** After a successful output diff: the table is bound to `outs`, stale
      outputs were closed, an output every entry with its URL agrees with
      is the very same handle, and one that some entry contradicts was
      closed. */
  predicate OutputsReconciled(before: map<string, OutHandle>, after: map<string, OutHandle>, outs: seq<Config.Output>,
                             parse: Parser, log: seq<Call>) {
    && OutputsBound(after, outs) && KindsFrom(before, after, parse)
    && StaleOutputsClosed(before, after, outs, log)
    && (forall u :: u in before && u in OutputUrls(outs) && AllAgree(outs, |outs|, u, before[u].conf)
          ==> after[u] == before[u])
    && (forall u :: u in before && u in OutputUrls(outs) && !AllAgree(outs, |outs|, u, before[u].conf)
          ==> Close(before[u].out) in log)
    && (forall u :: u in before && u in OutputUrls(outs) && AllAgree(outs, |outs|, u, before[u].conf)
          ==> Close(before[u].out) !in log)
  }

  /** Every adapter closed in `log` is an input adapter. */
  predicate ClosesOnlyInputs(log: seq<Call>) {
    forall k :: 0 <= k < |log| && log[k].Close? ==> log[k].adapter.kind.ForInput()
  }

  /** Calls made before, which closed input adapters only, keep the output
      diff's record. */
  lemma OutputsReconciledExtends(before: map<string, OutHandle>, after: map<string, OutHandle>, outs: seq<Config.Output>,
                                 parse: Parser, log: seq<Call>, more: seq<Call>)
    requires OutputsReconciled(before, after, outs, parse, more)
    requires OutputsKeyed(before) && ClosesOnlyInputs(log)
    ensures OutputsReconciled(before, after, outs, parse, log + more)
  {
    forall u | u in before && u in OutputUrls(outs) && AllAgree(outs, |outs|, u, before[u].conf)
      ensures Close(before[u].out) !in log + more
    {
      forall k | 0 <= k < |log| ensures log[k] != Close(before[u].out) {
      }
    }
    forall u | u in before && u !in OutputUrls(outs) ensures Close(before[u].out) in log + more {
      assert Close(before[u].out) in more;
    }
    forall u | u in before && u in OutputUrls(outs) && !AllAgree(outs, |outs|, u, before[u].conf)
      ensures Close(before[u].out) in log + more
    {
      assert Close(before[u].out) in more;
    }
  }

  /** The first `n` entries' URLs are among all the URLs. */
  lemma InputUrlsPrefix(ins: seq<Config.Input>, n: nat)
    requires n <= |ins|
    ensures InputUrls(ins[..n]) <= InputUrls(ins)
  {
    forall u | u in InputUrls(ins[..n]) ensures u in InputUrls(ins) {
      var j :| 0 <= j < n && ins[..n][j].url == u;
      assert ins[j].url == u;
    }
  }

  lemma OutputUrlsPrefix(outs: seq<Config.Output>, n: nat)
    requires n <= |outs|
    ensures OutputUrls(outs[..n]) <= OutputUrls(outs)
  {
    forall u | u in OutputUrls(outs[..n]) ensures u in OutputUrls(outs) {
      var j :| 0 <= j < n && outs[..n][j].url == u;
      assert outs[j].url == u;
    }
  }

  // ---------------------------------------------------------------------
  // When the diff of UpdateConfig fails, and with which error
  // ---------------------------------------------------------------------

  /** Input entry `i` still has to be set up when the add loop reaches it:
      its URL was bound to none of `keys` and no earlier entry has it. */
  predicate AddNeeded(ins: seq<Config.Input>, keys: set<string>, i: nat)
    requires i < |ins|
  {
    ins[i].url !in keys && ins[i].url !in InputUrls(ins[..i])
  }

  /** The number of the first `n` inputs the add loop sets up, starting
      from a table bound to `keys`. */
  function AddCount(ins: seq<Config.Input>, keys: set<string>, n: nat): nat
    requires n <= |ins|
    decreases n
  {
    if n == 0 then 0
    else AddCount(ins, keys, n - 1) + if AddNeeded(ins, keys, n - 1) then 1 else 0
  }

  /** The error of the add loop of `UpdateConfig` over the first `n`
      entries of `ins`, starting from a table bound to `keys` and from
      constructor call `base`: the error `setupInput` reports for the first
      input that has to be set up and does not, unwrapped; `None` when all
      of them set up. */
  function AddFault(ins: seq<Config.Input>, keys: set<string>, env: Env, base: nat, n: nat): Option<FlowError>
    requires n <= |ins|
    decreases n
  {
    if n == 0 then None
    else
      var front := AddFault(ins, keys, env, base, n - 1);
      if front.Some? then front
      else if !AddNeeded(ins, keys, n - 1) || InputOk(ins[n - 1], env, base + AddCount(ins, keys, n - 1)) then None
      else Some(InputFault(ins[n - 1], env))
  }

  /** A fault is the error of one of the entries. */
  lemma {:induction false} AddFaultIsEntryError(ins: seq<Config.Input>, keys: set<string>, env: Env, base: nat, n: nat)
    requires n <= |ins| && AddFault(ins, keys, env, base, n).Some?
    ensures exists i :: 0 <= i < n && AddFault(ins, keys, env, base, n).value == InputFault(ins[i], env)
    decreases n
  {
    if AddFault(ins, keys, env, base, n - 1).Some? {
      AddFaultIsEntryError(ins, keys, env, base, n - 1);
    }
  }

  /** Every one of the first `n` inputs the add loop has to set up does, the
      one at `i` with constructor call `base` plus the number set up before
      it. */
  predicate AddsOk(ins: seq<Config.Input>, keys: set<string>, env: Env, base: nat, n: nat)
    requires n <= |ins|
  {
    forall i :: 0 <= i < n ==> AddOkAt(ins, keys, env, base, i)
  }

  /** Entry `i` of the add loop, if it has to be set up, sets up with the
      constructor call its turn reaches. */
  predicate AddOkAt(ins: seq<Config.Input>, keys: set<string>, env: Env, base: nat, i: nat)
    requires i < |ins|
  {
    AddNeeded(ins, keys, i) ==> InputOk(ins[i], env, base + AddCount(ins, keys, i))
  }

  /** A fault among the first `n` entries is the fault of the first `m`. */
  lemma {:induction false} AddFaultPrefix(ins: seq<Config.Input>, keys: set<string>, env: Env, base: nat, n: nat, m: nat)
    requires n <= m <= |ins| && AddFault(ins, keys, env, base, n).Some?
    ensures AddFault(ins, keys, env, base, m) == AddFault(ins, keys, env, base, n)
    decreases m
  {
    if n < m {
      AddFaultPrefix(ins, keys, env, base, n, m - 1);
    }
  }

  /** The add loop passes exactly when every input it has to set up does. */
  lemma {:induction false} AddFaultNone(ins: seq<Config.Input>, keys: set<string>, env: Env, base: nat, n: nat)
    requires n <= |ins|
    ensures AddFault(ins, keys, env, base, n).None? <==> AddsOk(ins, keys, env, base, n)
    decreases n
  {
    if n > 0 {
      AddFaultNone(ins, keys, env, base, n - 1);
      AddsOkSnoc(ins, keys, env, base, n - 1);
    }
  }

  lemma AddsOkSnoc(ins: seq<Config.Input>, keys: set<string>, env: Env, base: nat, i: nat)
    requires i < |ins|
    ensures AddsOk(ins, keys, env, base, i + 1)
            <==> AddsOk(ins, keys, env, base, i) && AddOkAt(ins, keys, env, base, i)
  {
  }

  /** One more entry of the add loop, after a prefix without fault. */
  lemma AddFaultStep(ins: seq<Config.Input>, keys: set<string>, i: nat, env: Env, base: nat)
    requires i < |ins| && AddFault(ins, keys, env, base, i).None?
    ensures AddCount(ins, keys, i + 1) == AddCount(ins, keys, i) + if AddNeeded(ins, keys, i) then 1 else 0
    ensures AddFault(ins, keys, env, base, i + 1)
            == if AddNeeded(ins, keys, i) && !InputOk(ins[i], env, base + AddCount(ins, keys, i))
               then Some(InputFault(ins[i], env)) else None
  {
  }

  /** Only whether each entry's URL is among `keys` matters. */
  lemma {:induction false} AddFaultKeys(ins: seq<Config.Input>, keys: set<string>, keys': set<string>, env: Env,
                                        base: nat, n: nat)
    requires n <= |ins|
    requires forall i :: 0 <= i < |ins| ==> (ins[i].url in keys <==> ins[i].url in keys')
    ensures AddCount(ins, keys', n) == AddCount(ins, keys, n)
    ensures AddFault(ins, keys', env, base, n) == AddFault(ins, keys, env, base, n)
    decreases n
  {
    if n > 0 {
      AddFaultKeys(ins, keys, keys', env, base, n - 1);
    }
  }

  /** The configuration stored under `u` once the reconfigure loop has
      handled the first `n` entries, starting from the table `start`. */
  function StoredConf(start: map<string, OutHandle>, outs: seq<Config.Output>, n: nat, u: string): Option<Config.Output>
    requires n <= |outs|
    decreases n
  {
    if n == 0 then (if u in start then Some(start[u].conf) else None)
    else if outs[n - 1].url == u then Some(outs[n - 1])
    else StoredConf(start, outs, n - 1, u)
  }

  /** Output entry `i` has to be set up (again) when the reconfigure loop
      reaches it: nothing with its configuration is stored under its URL. */
  predicate SyncNeeded(start: map<string, OutHandle>, outs: seq<Config.Output>, i: nat)
    requires i < |outs|
  {
    StoredConf(start, outs, i, outs[i].url) != Some(outs[i])
  }

  /** The number of the first `n` outputs the reconfigure loop sets up. */
  function SyncCount(outs: seq<Config.Output>, start: map<string, OutHandle>, n: nat): nat
    requires n <= |outs|
    decreases n
  {
    if n == 0 then 0
    else SyncCount(outs, start, n - 1) + if SyncNeeded(start, outs, n - 1) then 1 else 0
  }

  /** The error of the reconfigure loop over the first `n` entries: the
      error `setupOutput` reports for the first output that has to be set
      up and does not, unwrapped; `None` when all of them set up. */
  function SyncFault(outs: seq<Config.Output>, start: map<string, OutHandle>, env: Env, base: nat, n: nat): Option<FlowError>
    requires n <= |outs|
    decreases n
  {
    if n == 0 then None
    else
      var front := SyncFault(outs, start, env, base, n - 1);
      if front.Some? then front
      else if !SyncNeeded(start, outs, n - 1) || OutputOk(outs[n - 1], env, base + SyncCount(outs, start, n - 1)) then None
      else Some(OutputFault(outs[n - 1], env))
  }

  /** A fault is the error of one of the entries. */
  lemma {:induction false} SyncFaultIsEntryError(outs: seq<Config.Output>, start: map<string, OutHandle>, env: Env, base: nat, n: nat)
    requires n <= |outs| && SyncFault(outs, start, env, base, n).Some?
    ensures exists i :: 0 <= i < n && SyncFault(outs, start, env, base, n).value == OutputFault(outs[i], env)
    decreases n
  {
    if SyncFault(outs, start, env, base, n - 1).Some? {
      SyncFaultIsEntryError(outs, start, env, base, n - 1);
    }
  }

  /** Every one of the first `n` outputs the reconfigure loop has to set up
      does. */
  predicate SyncsOk(outs: seq<Config.Output>, start: map<string, OutHandle>, env: Env, base: nat, n: nat)
    requires n <= |outs|
  {
    forall i :: 0 <= i < n ==> SyncOkAt(outs, start, env, base, i)
  }

  /** Entry `i` of the reconfigure loop, if it has to be set up, sets up
      with the constructor call its turn reaches. */
  predicate SyncOkAt(outs: seq<Config.Output>, start: map<string, OutHandle>, env: Env, base: nat, i: nat)
    requires i < |outs|
  {
    SyncNeeded(start, outs, i) ==> OutputOk(outs[i], env, base + SyncCount(outs, start, i))
  }

  lemma {:induction false} SyncFaultPrefix(outs: seq<Config.Output>, start: map<string, OutHandle>, env: Env, base: nat,
                                           n: nat, m: nat)
    requires n <= m <= |outs| && SyncFault(outs, start, env, base, n).Some?
    ensures SyncFault(outs, start, env, base, m) == SyncFault(outs, start, env, base, n)
    decreases m
  {
    if n < m {
      SyncFaultPrefix(outs, start, env, base, n, m - 1);
    }
  }

  /** The reconfigure loop passes exactly when every output it has to set
      up does. */
  lemma {:induction false} SyncFaultNone(outs: seq<Config.Output>, start: map<string, OutHandle>, env: Env, base: nat, n: nat)
    requires n <= |outs|
    ensures SyncFault(outs, start, env, base, n).None? <==> SyncsOk(outs, start, env, base, n)
    decreases n
  {
    if n > 0 {
      SyncFaultNone(outs, start, env, base, n - 1);
      SyncsOkSnoc(outs, start, env, base, n - 1);
      if SyncFault(outs, start, env, base, n - 1).None? {
        SyncFaultStep(start, outs, n - 1, env, base);
      }
    }
  }

  lemma SyncsOkSnoc(outs: seq<Config.Output>, start: map<string, OutHandle>, env: Env, base: nat, i: nat)
    requires i < |outs|
    ensures SyncsOk(outs, start, env, base, i + 1)
            <==> SyncsOk(outs, start, env, base, i) && SyncOkAt(outs, start, env, base, i)
  {
  }

  /** `StoredConf` is the last entry with the URL, and otherwise what
      `start` holds. */
  lemma {:induction false} StoredConfLast(start: map<string, OutHandle>, outs: seq<Config.Output>, n: nat, u: string)
    requires n <= |outs|
    ensures StoredConf(start, outs, n, u)
            == if LastWithUrl(outs[..n], u).Some? then LastWithUrl(outs[..n], u)
               else if u in start then Some(start[u].conf) else None
    decreases n
  {
    if n > 0 {
      StoredConfLast(start, outs, n - 1, u);
      LastWithUrlSnoc(outs, n - 1, u);
    }
  }

  /** Only the configurations stored under the entries' URLs matter. */
  lemma {:induction false} SyncFaultRestrict(outs: seq<Config.Output>, start: map<string, OutHandle>,
                                             start': map<string, OutHandle>, env: Env, base: nat, n: nat)
    requires n <= |outs|
    requires forall i :: 0 <= i < |outs| ==> (outs[i].url in start <==> outs[i].url in start')
    requires forall i :: 0 <= i < |outs| && outs[i].url in start ==> start'[outs[i].url].conf == start[outs[i].url].conf
    ensures SyncCount(outs, start', n) == SyncCount(outs, start, n)
    ensures SyncFault(outs, start', env, base, n) == SyncFault(outs, start, env, base, n)
    decreases n
  {
    if n > 0 {
      SyncFaultRestrict(outs, start, start', env, base, n - 1);
      SyncNeededRestrict(outs, start, start', n - 1);
    }
  }

  lemma SyncNeededRestrict(outs: seq<Config.Output>, start: map<string, OutHandle>, start': map<string, OutHandle>, i: nat)
    requires i < |outs|
    requires forall j :: 0 <= j < |outs| ==> (outs[j].url in start <==> outs[j].url in start')
    requires forall j :: 0 <= j < |outs| && outs[j].url in start ==> start'[outs[j].url].conf == start[outs[j].url].conf
    ensures SyncNeeded(start', outs, i) == SyncNeeded(start, outs, i)
  {
    StoredConfLast(start, outs, i, outs[i].url);
    StoredConfLast(start', outs, i, outs[i].url);
  }

  /** While the reconfigure loop keeps its table in step, the entry it
      reaches is kept exactly when it need not be set up. */
  lemma SyncNeededAt(table: map<string, OutHandle>, start: map<string, OutHandle>, outs: seq<Config.Output>, n: nat)
    requires n < |outs| && SyncedUpTo(table, start, outs, n)
    ensures outs[n].url in table && table[outs[n].url].conf == outs[n] <==> !SyncNeeded(start, outs, n)
  {
    StoredConfLast(start, outs, n, outs[n].url);
  }

  /** The state of the add loop of `UpdateConfig` after the first `i`
      entries of `ins`, started from the table `start`, the call log `log0`
      and constructor call `base`: the table grew by the URLs seen, each new
      adapter of its URL's kind, and only constructors were called, one per
      input set up. */
  ghost predicate InputsAdded(start: map<string, Adapter>, table: map<string, Adapter>, log: seq<Call>, n: nat,
                              ins: seq<Config.Input>, i: nat, env: Env, log0: seq<Call>, base: nat)
  {
    && i <= |ins| && InputsGrown(start, table, env.parse) && table.Keys == start.Keys + InputUrls(ins[..i])
    && Extends(log, log0) && OnlyConstructs(log, |log0|)
    && AddFault(ins, start.Keys, env, base, i).None? && n == base + AddCount(ins, start.Keys, i)
  }

  /** A turn of the add loop that finds the URL bound changes nothing. */
  lemma AddSkip(start: map<string, Adapter>, table: map<string, Adapter>, log: seq<Call>, n: nat,
                ins: seq<Config.Input>, i: nat, env: Env, log0: seq<Call>, base: nat)
    requires InputsAdded(start, table, log, n, ins, i, env, log0, base) && i < |ins| && ins[i].url in table
    ensures InputsAdded(start, table, log, n, ins, i + 1, env, log0, base)
  {
    InputUrlsSnoc(ins, i);
    assert !AddNeeded(ins, start.Keys, i);
  }

  /** A turn of the add loop that sets up an unbound URL with constructor
      call `n`. */
  lemma AddSetUp(start: map<string, Adapter>, table: map<string, Adapter>, log: seq<Call>, n: nat,
                 ins: seq<Config.Input>, i: nat, env: Env, log0: seq<Call>, base: nat)
    requires InputsAdded(start, table, log, n, ins, i, env, log0, base) && i < |ins|
    requires ins[i].url !in table && InputOk(ins[i], env, n)
    ensures InputsAdded(start, table[ins[i].url := Adapter(InputPlan(env.parse, ins[i].url).value, ins[i].url, n)],
                        log + InputSetupCalls(env.parse, ins[i]), n + 1, ins, i + 1, env, log0, base)
  {
    InputUrlsSnoc(ins, i);
    assert AddNeeded(ins, start.Keys, i);
    AddFaultStep(ins, start.Keys, i, env, base);
    var call := Construct(InputPlan(env.parse, ins[i].url).value, ins[i].url);
    assert InputSetupCalls(env.parse, ins[i]) == [call];
    OnlyConstructsSnoc(log, |log0|, call);
    ExtendsAppend(log, log0, [call]);
  }

  /** A turn of the add loop whose `setupInput` fails ends the loop with
      that input's error, which is the fault of the whole loop. */
  lemma AddFails(start: map<string, Adapter>, table: map<string, Adapter>, log: seq<Call>, n: nat, log': seq<Call>,
                 ins: seq<Config.Input>, i: nat, env: Env, log0: seq<Call>, base: nat)
    requires InputsAdded(start, table, log, n, ins, i, env, log0, base) && i < |ins|
    requires ins[i].url !in table && !InputOk(ins[i], env, n) && log' == log + InputSetupCalls(env.parse, ins[i])
    ensures AddFault(ins, start.Keys, env, base, |ins|) == Some(InputFault(ins[i], env))
    ensures Extends(log', log0) && OnlyConstructs(log', |log0|)
    ensures table.Keys <= start.Keys + InputUrls(ins) && ins[i].url !in table
  {
    assert AddNeeded(ins, start.Keys, i);
    AddFaultPrefix(ins, start.Keys, env, base, i + 1, |ins|);
    InputUrlsPrefix(ins, i);
    if InputSetupCalls(env.parse, ins[i]) != [] {
      OnlyConstructsSnoc(log, |log0|, log'[|log|]);
      assert Extends(log', log);
      ExtendsTrans(log', log, log0);
    }
  }

  /** One turn of the reconfigure loop that does not fail: an entry that
      need not be set up costs no constructor call, one that must be costs
      one, which succeeds. */
  lemma SyncCounted(start: map<string, OutHandle>, outs: seq<Config.Output>, i: nat, env: Env, base: nat, n: nat, n': nat)
    requires i < |outs| && SyncFault(outs, start, env, base, i).None? && n == base + SyncCount(outs, start, i)
    requires !SyncNeeded(start, outs, i) ==> n' == n
    requires SyncNeeded(start, outs, i) ==> OutputOk(outs[i], env, n) && n' == n + |OutputSetupCalls(env.parse, outs[i])|
    ensures SyncFault(outs, start, env, base, i + 1).None? && n' == base + SyncCount(outs, start, i + 1)
  {
    SyncFaultStep(start, outs, i, env, base);
  }

  /** One more entry of the reconfigure loop, after a prefix without fault. */
  lemma SyncFaultStep(start: map<string, OutHandle>, outs: seq<Config.Output>, i: nat, env: Env, base: nat)
    requires i < |outs| && SyncFault(outs, start, env, base, i).None?
    ensures SyncCount(outs, start, i + 1) == SyncCount(outs, start, i) + if SyncNeeded(start, outs, i) then 1 else 0
    ensures SyncFault(outs, start, env, base, i + 1)
            == if SyncNeeded(start, outs, i) && !OutputOk(outs[i], env, base + SyncCount(outs, start, i))
               then Some(OutputFault(outs[i], env)) else None
  {
  }

  /** A turn of the reconfigure loop whose `setupOutput` fails ends the loop
      with that output's error, which is the fault of the whole loop. */
  lemma SyncFails(start: map<string, OutHandle>, outs: seq<Config.Output>, i: nat, env: Env, base: nat, n: nat)
    requires i < |outs| && SyncFault(outs, start, env, base, i).None? && n == base + SyncCount(outs, start, i)
    requires SyncNeeded(start, outs, i) && !OutputOk(outs[i], env, n)
    ensures SyncFault(outs, start, env, base, |outs|) == Some(OutputFault(outs[i], env))
  {
    SyncFaultStep(start, outs, i, env, base);
    SyncFaultPrefix(outs, start, env, base, i + 1, |outs|);
  }

  /** The state of the reconfigure loop after `i` entries, with the
      constructor calls numbered from `base`: `Synced`, no fault so far, and
      one constructor call per output set up. */
  ghost predicate SyncLoop(table: map<string, OutHandle>, log: seq<Call>, n: nat, start: map<string, OutHandle>,
                           log0: seq<Call>, outs: seq<Config.Output>, i: nat, env: Env, base: nat)
    requires i <= |outs|
  {
    && Synced(table, log, start, log0, outs, i, env.parse)
    && SyncFault(outs, start, env, base, i).None? && n == base + SyncCount(outs, start, i)
  }

  /** A turn of the reconfigure loop that passes, as `syncOutput` reports
      it, keeps `SyncLoop`. */
  lemma SyncAdvance(table: map<string, OutHandle>, log: seq<Call>, n: nat, table': map<string, OutHandle>,
                    log': seq<Call>, n': nat, start: map<string, OutHandle>, log0: seq<Call>, outs: seq<Config.Output>,
                    i: nat, env: Env, base: nat)
    requires i < |outs| && SyncLoop(table, log, n, start, log0, outs, i, env, base)
    requires OutputsKeyed(start) && OutputsKeyed(table)
    requires outs[i].url in table' && table'[outs[i].url].conf == outs[i]
    requires table' == table[outs[i].url := table'[outs[i].url]]
    requires outs[i].url in table && table[outs[i].url].conf == outs[i] ==> table' == table && log' == log && n' == n
    requires outs[i].url !in table ==> log' == log + OutputSetupCalls(env.parse, outs[i])
    requires outs[i].url in table && table[outs[i].url].conf != outs[i] ==>
               log' == log + [Close(table[outs[i].url].out)] + OutputSetupCalls(env.parse, outs[i])
    requires !(outs[i].url in table && table[outs[i].url].conf == outs[i]) ==>
               OutputOk(outs[i], env, n) && n' == n + |OutputSetupCalls(env.parse, outs[i])|
    requires KindsFrom(table, table', env.parse)
    ensures SyncLoop(table', log', n', start, log0, outs, i + 1, env, base)
  {
    SyncNeededAt(table, start, outs, i);
    SyncCounted(start, outs, i, env, base, n, n');
    SyncTurn(table, log, table', log', start, log0, outs, i, env.parse);
  }

  /** A turn of the reconfigure loop that fails ends it with the fault of
      the whole loop, the table and the log as far as they got. */
  lemma SyncAbort(table: map<string, OutHandle>, log: seq<Call>, n: nat, table': map<string, OutHandle>,
                  log': seq<Call>, start: map<string, OutHandle>, log0: seq<Call>, outs: seq<Config.Output>,
                  i: nat, env: Env, base: nat, e: FlowError)
    requires i < |outs| && SyncLoop(table, log, n, start, log0, outs, i, env, base)
    requires !(outs[i].url in table && table[outs[i].url].conf == outs[i]) && !OutputOk(outs[i], env, n)
    requires e == OutputFault(outs[i], env)
    requires Extends(log', log) && table'.Keys <= table.Keys + {outs[i].url} && KindsFrom(table, table', env.parse)
    ensures SyncFault(outs, start, env, base, |outs|) == Some(e)
    ensures Extends(log', log0) && table'.Keys <= start.Keys + OutputUrls(outs) && KindsFrom(start, table', env.parse)
  {
    SyncNeededAt(table, start, outs, i);
    SyncFails(start, outs, i, env, base, n);
    KindsFromTrans(start, table, table', env.parse);
    ExtendsTrans(log', log, log0);
    OutputUrlsSnoc(outs, i);
    OutputUrlsPrefix(outs, i + 1);
  }

  /** The error of the table diff of `UpdateConfig` from `current` to `c`,
      the input table bound to `inKeys` and the output table `outs`: the
      add loop's, when the inputs changed, then the reconfigure loop's,
      when the outputs changed, with its constructor calls numbered after
      the add loop's. */
  function DiffFault(current: Config.Flow, c: Config.Flow, inKeys: set<string>, outs: map<string, OutHandle>,
                     env: Env, base: nat): Option<FlowError>
  {
    var inputsChanged := c.inputs != current.inputs;
    var inputsFault := AddFault(c.inputs, inKeys, env, base, |c.inputs|);
    if inputsChanged && inputsFault.Some? then inputsFault
    else if c.outputs == current.outputs then None
    else SyncFault(c.outputs, outs, env, base + (if inputsChanged then AddCount(c.inputs, inKeys, |c.inputs|) else 0), |c.outputs|)
  }

  /** The diff fails in its add loop exactly as that loop does. */
  lemma DiffFaultInputs(current: Config.Flow, c: Config.Flow, inKeys: set<string>, outs: map<string, OutHandle>,
                        env: Env, base: nat)
    requires c.inputs != current.inputs && AddFault(c.inputs, inKeys, env, base, |c.inputs|).Some?
    ensures DiffFault(current, c, inKeys, outs, env, base) == AddFault(c.inputs, inKeys, env, base, |c.inputs|)
  {
  }

  /** Past the add loop, the diff fails as its reconfigure loop does, whose
      constructor calls start at `mid`. */
  lemma DiffFaultOutputs(current: Config.Flow, c: Config.Flow, inKeys: set<string>, outs: map<string, OutHandle>,
                         env: Env, base: nat, mid: nat)
    requires c.inputs != current.inputs ==>
               AddFault(c.inputs, inKeys, env, base, |c.inputs|).None? && mid == base + AddCount(c.inputs, inKeys, |c.inputs|)
    requires c.inputs == current.inputs ==> mid == base
    ensures DiffFault(current, c, inKeys, outs, env, base)
            == if c.outputs == current.outputs then None else SyncFault(c.outputs, outs, env, mid, |c.outputs|)
  {
  }

  /** Every input sets up when every URL selects an adapter and every
      constructor call succeeds. */
  lemma AddsOkWhenAllSetUp(ins: seq<Config.Input>, keys: set<string>, env: Env, base: nat)
    requires forall i :: 0 <= i < |ins| ==> InputPlan(env.parse, ins[i].url).Success?
    requires forall n: nat :: env.adapterOk(n)
    ensures AddsOk(ins, keys, env, base, |ins|)
  {
    forall i | 0 <= i < |ins| ensures AddOkAt(ins, keys, env, base, i) {
      assert env.adapterOk(base + AddCount(ins, keys, i));
    }
  }

  lemma SyncsOkWhenAllSetUp(outs: seq<Config.Output>, start: map<string, OutHandle>, env: Env, base: nat)
    requires forall i :: 0 <= i < |outs| ==> OutputPlan(env.parse, outs[i].url).Success?
    requires forall n: nat :: env.adapterOk(n)
    ensures SyncsOk(outs, start, env, base, |outs|)
  {
    forall i | 0 <= i < |outs| ensures SyncOkAt(outs, start, env, base, i) {
      assert env.adapterOk(base + SyncCount(outs, start, i));
    }
  }

  /** The diff cannot fail when every entry's URL selects an adapter and
      every constructor call succeeds. */
  lemma DiffPassesWhenAllSetUp(current: Config.Flow, c: Config.Flow, inKeys: set<string>, outs: map<string, OutHandle>,
                               env: Env, base: nat)
    requires forall i :: 0 <= i < |c.inputs| ==> InputPlan(env.parse, c.inputs[i].url).Success?
    requires forall i :: 0 <= i < |c.outputs| ==> OutputPlan(env.parse, c.outputs[i].url).Success?
    requires forall n: nat :: env.adapterOk(n)
    ensures DiffFault(current, c, inKeys, outs, env, base).None?
  {
    var n := base + if c.inputs != current.inputs then AddCount(c.inputs, inKeys, |c.inputs|) else 0;
    AddsOkWhenAllSetUp(c.inputs, inKeys, env, base);
    AddFaultNone(c.inputs, inKeys, env, base, |c.inputs|);
    SyncsOkWhenAllSetUp(c.outputs, outs, env, n);
    SyncFaultNone(c.outputs, outs, env, n, |c.outputs|);
  }

  /** The error `CreateFlow` returns, if any, when its constructor calls
      start at `base`: the first failure before the receiver exists, then
      the first one after it. */
  function CreateFault(c: Config.Flow, env: Env, base: nat): Option<FlowError> {
    if EarlyFailure(c, env).Some? then EarlyFailure(c, env) else WireFault(c, env, base)
  }

  /** `CreateFlow` succeeds exactly when the configuration validates and
      every call to the outside world it makes succeeds. */
  lemma CreateFaultNone(c: Config.Flow, env: Env, base: nat)
    ensures CreateFault(c, env, base).None? <==>
              && Config.ValidateFlowConfig(c, env.parse).Pass? && env.statsOk && env.receiverOk
              && InputsOk(c.inputs, env, base) && env.startOk && env.configureOk && env.udpStartOk
              && OutputsOk(c.outputs, env, base + |c.inputs|)
  {
    WireFaultNone(c, env, base);
  }

  // ---------------------------------------------------------------------
  // The flow
  // ---------------------------------------------------------------------

  class Flow {
    var identifier: string
    var config: Config.Flow
    var configuredInputs: map<string, Adapter>
    var configuredOutputs: map<string, OutHandle>
    /** `Stop` has been called. */
    var stopped: bool

    ghost predicate Valid()
      reads this
    {
      InputsKeyed(configuredInputs) && OutputsKeyed(configuredOutputs)
    }

    /** The flow is running `c`: its tables hold exactly the adapters the
        configuration asks for, each of the kind its URL selects. */
    ghost predicate Serves(c: Config.Flow, parse: Parser)
      reads this
    {
      Valid() && !stopped && identifier == c.identifier && config == c && Tables(c, parse)
    }

    /** The tables hold exactly the adapters `c` asks for, each of the kind
        its URL selects. */
    ghost predicate Tables(c: Config.Flow, parse: Parser)
      reads this
    {
      && InputsBound(configuredInputs, c.inputs, parse)
      && OutputsBound(configuredOutputs, c.outputs) && OutputKinds(configuredOutputs, parse)
    }

    /** The fields `CreateFlow` fills before validating. */
    constructor (c: Config.Flow)
      ensures Valid() && identifier == c.identifier && config == c
      ensures configuredInputs == map[] && configuredOutputs == map[] && !stopped
    {
      identifier := c.identifier;
      config := c;
      configuredInputs := map[];
      configuredOutputs := map[];
      stopped := false;
    }

    /** `setupInput`: parse, select the adapter by scheme, construct it and
        bind it under the URL, replacing any adapter already there. */
    method SetupInput(c: Config.Input, env: Env, world: World) returns (err: Outcome<FlowError>)
      requires Valid()
      modifies this`configuredInputs, world
      ensures Valid()
      ensures world.calls == old(world.calls) + InputSetupCalls(env.parse, c)
      ensures world.constructed == old(world.constructed) + |InputSetupCalls(env.parse, c)|
      ensures err.Pass? <==> InputOk(c, env, old(world.constructed))
      ensures err.Pass? ==>
                configuredInputs == old(configuredInputs)[c.url := Adapter(InputPlan(env.parse, c.url).value, c.url, old(world.constructed))]
      ensures err.Fail? ==> err.error == InputFault(c, env) && configuredInputs == old(configuredInputs)
    {
      var parsed := env.parse(c.url);
      if parsed.None? {
        return Fail(InvalidInputUrl(c.url));
      }
      var kind := InputAdapterKind(parsed.value.scheme);
      if kind.None? {
        return Fail(UnsupportedInputScheme(parsed.value.scheme));
      }
      var a := world.Construct(kind.value, c.url, env.adapterOk);
      if a.None? {
        return Fail(AdapterSetup(kind.value, c.url));
      }
      configuredInputs := configuredInputs[c.url := a.value];
      err := Pass;
    }

    /** `setupOutput`: parse, select the adapter by scheme, construct it and
        bind it with its configuration under the URL. */
    method SetupOutput(c: Config.Output, env: Env, world: World) returns (err: Outcome<FlowError>)
      requires Valid()
      modifies this`configuredOutputs, world
      ensures Valid()
      ensures world.calls == old(world.calls) + OutputSetupCalls(env.parse, c)
      ensures world.constructed == old(world.constructed) + |OutputSetupCalls(env.parse, c)|
      ensures err.Pass? <==> OutputOk(c, env, old(world.constructed))
      ensures err.Pass? ==>
                configuredOutputs == old(configuredOutputs)[c.url := OutHandle(Adapter(OutputPlan(env.parse, c.url).value, c.url, old(world.constructed)), c)]
      ensures err.Fail? ==> err.error == OutputFault(c, env) && configuredOutputs == old(configuredOutputs)
    {
      var parsed := env.parse(c.url);
      if parsed.None? {
        return Fail(InvalidOutputUrl(c.url));
      }
      var kind := OutputAdapterKind(parsed.value.scheme);
      if kind.None? {
        return Fail(UnsupportedOutputScheme(parsed.value.scheme));
      }
      var a := world.Construct(kind.value, c.url, env.adapterOk);
      if a.None? {
        return Fail(AdapterSetup(kind.value, c.url));
      }
      configuredOutputs := configuredOutputs[c.url := OutHandle(a.value, c)];
      err := Pass;
    }

    /** The input loop of `CreateFlow`: every entry is set up in order; the
        first failure is wrapped with its entry and ends the loop. */
    method SetupInputs(ins: seq<Config.Input>, env: Env, world: World) returns (err: Outcome<FlowError>)
      requires Valid() && configuredInputs == map[]
      modifies this`configuredInputs, world
      ensures Valid()
      ensures err.Pass? <==> InputsFault(ins, env, old(world.constructed)).None?
      ensures err.Fail? ==> Some(err.error) == InputsFault(ins, env, old(world.constructed))
      ensures err.Pass? ==> InputsBound(configuredInputs, ins, env.parse)
      ensures Extends(world.calls, old(world.calls))
      ensures err.Pass? ==> world.calls == old(world.calls) + InputCalls(ins, env.parse)
      ensures err.Pass? ==> world.constructed == old(world.constructed) + |ins|
      ensures err.Fail? ==> err.error.InputSetup? && err.error.input in ins
      ensures err.Fail? ==> forall k :: FirstBadInput(ins, env, old(world.constructed), k) ==>
                world.calls == old(world.calls) + InputCalls(ins[..k], env.parse) + InputSetupCalls(env.parse, ins[k])
    {
      err := Pass;
      ghost var base := world.constructed;
      for i := 0 to |ins|
        invariant Valid()
        invariant InputsSetUp(configuredInputs, world.calls, world.constructed, ins, i, env, old(world.calls), base)
      {
        ghost var table, log, n := configuredInputs, world.calls, world.constructed;
        var e := SetupInput(ins[i], env, world);
        if e.Fail? {
          FirstBadInputAt(ins, env, base, i);
          return Fail(InputSetup(ins[i], e.error));
        }
        InputsSetUpSnoc(table, log, n, ins, i, env, old(world.calls), base);
      }
      assert ins[..|ins|] == ins;
    }

    /** The output loop of `CreateFlow`. */
    method SetupOutputs(outs: seq<Config.Output>, env: Env, world: World) returns (err: Outcome<FlowError>)
      requires Valid() && configuredOutputs == map[]
      modifies this`configuredOutputs, world
      ensures Valid()
      ensures err.Pass? <==> OutputsFault(outs, env, old(world.constructed)).None?
      ensures err.Fail? ==> Some(err.error) == OutputsFault(outs, env, old(world.constructed))
      ensures err.Pass? ==> OutputsBound(configuredOutputs, outs)
      ensures err.Pass? ==> OutputKinds(configuredOutputs, env.parse)
      ensures Extends(world.calls, old(world.calls))
      ensures err.Pass? ==> world.calls == old(world.calls) + OutputCalls(outs, env.parse)
      ensures err.Fail? ==> err.error.OutputSetup? && err.error.output in outs
      ensures err.Fail? ==> forall k :: FirstBadOutput(outs, env, old(world.constructed), k) ==>
                world.calls == old(world.calls) + OutputCalls(outs[..k], env.parse) + OutputSetupCalls(env.parse, outs[k])
    {
      err := Pass;
      ghost var base := world.constructed;
      for i := 0 to |outs|
        invariant Valid()
        invariant OutputsSetUp(configuredOutputs, world.calls, world.constructed, outs, i, env, old(world.calls), base)
      {
        ghost var table, log, n := configuredOutputs, world.calls, world.constructed;
        var e := SetupOutput(outs[i], env, world);
        if e.Fail? {
          FirstBadOutputAt(outs, env, base, i);
          return Fail(OutputSetup(outs[i], e.error));
        }
        OutputsSetUpSnoc(table, log, n, outs, i, env, old(world.calls), base);
      }
      assert outs[..|outs|] == outs;
    }

    /** Removes the inputs whose URL is not in `keep`, closing each removed
        adapter once; the table is visited in Go's unspecified map order,
        returned as `order`. */
    method RemoveStaleInputs(keep: set<string>, world: World) returns (ghost order: seq<string>)
      requires Valid()
      modifies this`configuredInputs, world
      ensures Valid()
      ensures configuredInputs.Keys == old(configuredInputs).Keys * keep
      ensures forall u :: u in configuredInputs ==> configuredInputs[u] == old(configuredInputs)[u]
      ensures Config.Distinct(order)
      ensures forall u :: u in order <==> u in old(configuredInputs) && u !in keep
      ensures world.calls == old(world.calls) + InputCloses(order, old(configuredInputs))
      ensures world.constructed == old(world.constructed)
    {
      ghost var table := configuredInputs;
      order := [];
      var pending := configuredInputs.Keys;
      while pending != {}
        invariant pending <= table.Keys
        invariant configuredInputs.Keys == (table.Keys * keep) + pending
        invariant forall u :: u in configuredInputs ==> configuredInputs[u] == table[u]
        invariant Config.Distinct(order)
        invariant forall u :: u in order <==> u in table && u !in keep && u !in pending
        invariant world.calls == old(world.calls) + InputCloses(order, table)
        invariant world.constructed == old(world.constructed)
        decreases pending
      {
        var url :| url in pending;
        if url !in keep {
          world.Invoke(Close(configuredInputs[url]));
          assert InputCloses(order + [url], table) == InputCloses(order, table) + [Close(table[url])];
          LogAssoc(old(world.calls), InputCloses(order, table), [Close(table[url])]);
          configuredInputs := configuredInputs - {url};
          order := order + [url];
        }
        pending := pending - {url};
      }
    }

    /** Sets up, in configuration order, every input whose URL is not bound
        yet; a bound URL is kept as it is. The first failure is returned as
        `setupInput` reported it. */
    method AddMissingInputs(ins: seq<Config.Input>, env: Env, world: World) returns (err: Outcome<FlowError>)
      requires Valid()
      modifies this`configuredInputs, world
      ensures Valid()
      ensures InputsGrown(old(configuredInputs), configuredInputs, env.parse)
      ensures configuredInputs.Keys <= old(configuredInputs).Keys + InputUrls(ins)
      ensures err.Pass? ==> configuredInputs.Keys == old(configuredInputs).Keys + InputUrls(ins)
      ensures err.Fail? ==> exists i :: 0 <= i < |ins| && ins[i].url !in configuredInputs
      ensures Extends(world.calls, old(world.calls))
      ensures OnlyConstructs(world.calls, |old(world.calls)|)
      ensures AddFault(ins, old(configuredInputs).Keys, env, old(world.constructed), |ins|)
              == if err.Pass? then None else Some(err.error)
      ensures err.Pass? ==> world.constructed == old(world.constructed) + AddCount(ins, old(configuredInputs).Keys, |ins|)
    {
      err := Pass;
      ghost var keys, base := configuredInputs.Keys, world.constructed;
      for i := 0 to |ins|
        invariant err.Pass? && Valid()
        invariant InputsAdded(old(configuredInputs), configuredInputs, world.calls, world.constructed, ins, i, env,
                              old(world.calls), base)
      {
        ghost var table, log, n := configuredInputs, world.calls, world.constructed;
        if ins[i].url !in configuredInputs {
          err := SetupInput(ins[i], env, world);
          if err.Fail? {
            AddFails(old(configuredInputs), table, log, n, world.calls, ins, i, env, old(world.calls), base);
            assert ins[i].url !in configuredInputs;
            return;
          }
          AddSetUp(old(configuredInputs), table, log, n, ins, i, env, old(world.calls), base);
        } else {
          AddSkip(old(configuredInputs), table, log, n, ins, i, env, old(world.calls), base);
        }
      }
      assert ins[..|ins|] == ins;
    }

    /** Removes the outputs whose URL is not in `keep`, closing each removed
        adapter once, in Go's unspecified map order. */
    method RemoveStaleOutputs(keep: set<string>, world: World) returns (ghost order: seq<string>)
      requires Valid()
      modifies this`configuredOutputs, world
      ensures Valid()
      ensures configuredOutputs.Keys == old(configuredOutputs).Keys * keep
      ensures forall u :: u in configuredOutputs ==> configuredOutputs[u] == old(configuredOutputs)[u]
      ensures Config.Distinct(order)
      ensures forall u :: u in order <==> u in old(configuredOutputs) && u !in keep
      ensures world.calls == old(world.calls) + OutputCloses(order, old(configuredOutputs))
      ensures world.constructed == old(world.constructed)
    {
      ghost var table := configuredOutputs;
      order := [];
      var pending := configuredOutputs.Keys;
      while pending != {}
        invariant pending <= table.Keys
        invariant configuredOutputs.Keys == (table.Keys * keep) + pending
        invariant forall u :: u in configuredOutputs ==> configuredOutputs[u] == table[u]
        invariant Config.Distinct(order)
        invariant forall u :: u in order <==> u in table && u !in keep && u !in pending
        invariant world.calls == old(world.calls) + OutputCloses(order, table)
        invariant world.constructed == old(world.constructed)
        decreases pending
      {
        var url :| url in pending;
        if url !in keep {
          world.Invoke(Close(configuredOutputs[url].out));
          assert OutputCloses(order + [url], table) == OutputCloses(order, table) + [Close(table[url].out)];
          LogAssoc(old(world.calls), OutputCloses(order, table), [Close(table[url].out)]);
          configuredOutputs := configuredOutputs - {url};
          order := order + [url];
        }
        pending := pending - {url};
      }
    }

    /** One entry of the reconfigure loop: an unbound URL is set up; a
        bound one whose stored configuration differs is closed, removed and
        set up again; a bound one with the same configuration is kept. */
    method SyncOutput(oc: Config.Output, env: Env, world: World) returns (err: Outcome<FlowError>)
      requires Valid()
      modifies this`configuredOutputs, world
      ensures Valid()
      ensures Extends(world.calls, old(world.calls))
      ensures configuredOutputs.Keys <= old(configuredOutputs).Keys + {oc.url}
      ensures err.Pass? ==> oc.url in configuredOutputs && configuredOutputs[oc.url].conf == oc
      ensures err.Pass? ==> configuredOutputs == old(configuredOutputs)[oc.url := configuredOutputs[oc.url]]
      ensures oc.url in old(configuredOutputs) && old(configuredOutputs)[oc.url].conf == oc ==>
                err.Pass? && configuredOutputs == old(configuredOutputs) && world.calls == old(world.calls)
      ensures oc.url in old(configuredOutputs) && old(configuredOutputs)[oc.url].conf != oc ==>
                |world.calls| > |old(world.calls)| && world.calls[|old(world.calls)|] == Close(old(configuredOutputs)[oc.url].out)
      ensures oc.url !in old(configuredOutputs) ==> configuredOutputs == old(configuredOutputs) || err.Pass?
      ensures KindsFrom(old(configuredOutputs), configuredOutputs, env.parse)
      ensures oc.url in old(configuredOutputs) && old(configuredOutputs)[oc.url].conf == oc ==>
                world.constructed == old(world.constructed)
      ensures oc.url !in old(configuredOutputs) ==> world.calls == old(world.calls) + OutputSetupCalls(env.parse, oc)
      ensures oc.url in old(configuredOutputs) && old(configuredOutputs)[oc.url].conf != oc ==>
                world.calls == old(world.calls) + [Close(old(configuredOutputs)[oc.url].out)] + OutputSetupCalls(env.parse, oc)
      ensures !(oc.url in old(configuredOutputs) && old(configuredOutputs)[oc.url].conf == oc) ==>
                && world.constructed == old(world.constructed) + |OutputSetupCalls(env.parse, oc)|
                && (err.Pass? <==> OutputOk(oc, env, old(world.constructed)))
                && (err.Pass? ==> configuredOutputs == old(configuredOutputs)[oc.url :=
                                    OutHandle(Adapter(OutputPlan(env.parse, oc.url).value, oc.url, old(world.constructed)), oc)])
                && (err.Fail? ==> err.error == OutputFault(oc, env) && configuredOutputs == old(configuredOutputs) - {oc.url})
    {
      err := Pass;
      if oc.url !in configuredOutputs {
        err := SetupOutput(oc, env, world);
      } else {
        var oh := configuredOutputs[oc.url];
        if oh.conf != oc {
          world.Invoke(Close(oh.out));
          configuredOutputs := configuredOutputs - {oc.url};
          err := SetupOutput(oc, env, world);
        }
      }
    }

    /** Sets up, in configuration order, every output whose URL is not bound
        yet, and closes and sets up again every bound one whose stored
        configuration differs from the entry; the first failure is
        returned as `setupOutput` reported it. */
    method SyncOutputs(outs: seq<Config.Output>, env: Env, world: World) returns (err: Outcome<FlowError>)
      requires Valid() && configuredOutputs.Keys <= OutputUrls(outs)
      modifies this`configuredOutputs, world
      ensures Valid()
      ensures err.Pass? ==> OutputsBound(configuredOutputs, outs)
      ensures err.Pass? ==> forall u :: u in old(configuredOutputs) && AllAgree(outs, |outs|, u, old(configuredOutputs)[u].conf)
                              ==> configuredOutputs[u] == old(configuredOutputs)[u]
      ensures Extends(world.calls, old(world.calls))
      ensures configuredOutputs.Keys <= old(configuredOutputs).Keys + OutputUrls(outs)
      ensures err.Pass? ==> ClosedChanged(world.calls[|old(world.calls)|..], old(configuredOutputs), outs, |outs|)
      ensures err.Pass? ==> KeptOpen(world.calls[|old(world.calls)|..], old(configuredOutputs), outs, |outs|)
      ensures KindsFrom(old(configuredOutputs), configuredOutputs, env.parse)
      ensures SyncFault(outs, old(configuredOutputs), env, old(world.constructed), |outs|)
              == if err.Pass? then None else Some(err.error)
      ensures err.Pass? ==> world.constructed == old(world.constructed) + SyncCount(outs, old(configuredOutputs), |outs|)
    {
      err := Pass;
      ghost var base := world.constructed;
      for i := 0 to |outs|
        invariant err.Pass? && Valid()
        invariant SyncLoop(configuredOutputs, world.calls, world.constructed, old(configuredOutputs), old(world.calls),
                           outs, i, env, base)
      {
        var oc := outs[i];
        ghost var table, before, n := configuredOutputs, world.calls, world.constructed;
        err := SyncOutput(oc, env, world);
        if err.Fail? {
          SyncAbort(table, before, n, configuredOutputs, world.calls, old(configuredOutputs), old(world.calls),
                    outs, i, env, base, err.error);
          return;
        }
        SyncAdvance(table, before, n, configuredOutputs, world.calls, world.constructed, old(configuredOutputs),
                    old(world.calls), outs, i, env, base);
      }
      assert outs[..|outs|] == outs;
    }

    /** The part of `CreateFlow` after the receiver exists: set up the
        inputs, start the receiver, configure the RIST flow on the
        destination port, create the main loop, start the UDP inputs and
        set up the outputs, stopping at the first failure. */
    method Wire(c: Config.Flow, env: Env, world: World) returns (err: Outcome<FlowError>)
      requires Valid() && configuredInputs == map[] && configuredOutputs == map[]
      modifies this`configuredInputs, this`configuredOutputs, world
      ensures Valid()
      ensures Extends(world.calls, old(world.calls))
      ensures err.Fail? && err.error.InputSetup? ==> err.error.input in c.inputs
      ensures err.Fail? && err.error.OutputSetup? ==> err.error.output in c.outputs
      ensures err.Pass? ==>
                && env.startOk && env.configureOk && env.udpStartOk && Tables(c, env.parse)
                && world.calls == old(world.calls) + WireCalls(c, env.parse)
      ensures err.Pass? <==> WireFault(c, env, old(world.constructed)).None?
      ensures err.Fail? ==> Some(err.error) == WireFault(c, env, old(world.constructed))
    {
      ghost var base := world.constructed;
      err := SetupInputs(c.inputs, env, world);
      if err.Fail? {
        assert WireFault(c, env, base) == InputsFault(c.inputs, env, base);
        return;
      }
      assert InputsFault(c.inputs, env, base).None? && world.constructed == base + |c.inputs|;
      ghost var mid := world.calls;
      err := StartReceiving(DestinationPort(c.ristProfile, c.streamId), env, world);
      if err.Fail? {
        ExtendsTrans(world.calls, mid, old(world.calls));
        return;
      }
      assert WireFault(c, env, base) == OutputsFault(c.outputs, env, world.constructed);
      ghost var started := world.calls;
      err := SetupOutputs(c.outputs, env, world);
      ExtendsTrans(world.calls, started, old(world.calls));
      if err.Pass? {
        ghost var middle := [StartReceiver, ConfigureFlow(DestinationPort(c.ristProfile, c.streamId)), StartMainloop, StartUdpInputs];
        LogAssoc(old(world.calls), InputCalls(c.inputs, env.parse), middle);
        LogAssoc(old(world.calls), InputCalls(c.inputs, env.parse) + middle, OutputCalls(c.outputs, env.parse));
      }
    }

    /** The input part of `UpdateConfig`: remove and close the inputs whose
        URL disappeared, then set up the new ones. */
    method UpdateInputs(ins: seq<Config.Input>, env: Env, world: World) returns (err: Outcome<FlowError>)
      requires Valid()
      modifies this`configuredInputs, world
      ensures Valid()
      ensures Extends(world.calls, old(world.calls))
      ensures InputsReconciled(old(configuredInputs), configuredInputs, ins, world.calls[|old(world.calls)|..])
      ensures err.Pass? ==> configuredInputs.Keys == InputUrls(ins)
      ensures forall u :: u in configuredInputs && u !in old(configuredInputs) ==>
                InputPlan(env.parse, u) == Success(configuredInputs[u].kind)
      ensures ClosesOnlyInputs(world.calls[|old(world.calls)|..])
      ensures AddFault(ins, old(configuredInputs).Keys, env, old(world.constructed), |ins|)
              == if err.Pass? then None else Some(err.error)
      ensures err.Pass? ==> world.constructed == old(world.constructed) + AddCount(ins, old(configuredInputs).Keys, |ins|)
    {
      ghost var start := configuredInputs;
      ghost var order := RemoveStaleInputs(InputUrls(ins), world);
      ghost var afterRemoval, kept := world.calls, configuredInputs;
      err := AddMissingInputs(ins, env, world);
      assert afterRemoval[..|old(world.calls)|] == old(world.calls);
      ExtendsSplit(world.calls, afterRemoval, old(world.calls));
      assert afterRemoval[|old(world.calls)|..] == InputCloses(order, start);
      forall u | u in start && u !in InputUrls(ins)
        ensures Close(start[u]) in world.calls[|old(world.calls)|..]
      {
        InputClosesHas(order, start, u);
      }
      InputClosesOnlyInputs(order, start, world.calls[|afterRemoval|..]);
      forall i | 0 <= i < |ins| ensures ins[i].url in kept.Keys <==> ins[i].url in start.Keys {
        assert ins[i].url in InputUrls(ins);
      }
      AddFaultKeys(ins, kept.Keys, start.Keys, env, old(world.constructed), |ins|);
    }

    /** The output part of `UpdateConfig`: remove and close the outputs whose
        URL disappeared, then set up the new ones and rebuild the changed
        ones. */
    method UpdateOutputs(outs: seq<Config.Output>, env: Env, world: World) returns (err: Outcome<FlowError>)
      requires Valid()
      modifies this`configuredOutputs, world
      ensures Valid()
      ensures Extends(world.calls, old(world.calls))
      ensures StaleOutputsClosed(old(configuredOutputs), configuredOutputs, outs, world.calls[|old(world.calls)|..])
      ensures KindsFrom(old(configuredOutputs), configuredOutputs, env.parse)
      ensures err.Pass? ==>
                OutputsReconciled(old(configuredOutputs), configuredOutputs, outs, env.parse, world.calls[|old(world.calls)|..])
      ensures SyncFault(outs, old(configuredOutputs), env, old(world.constructed), |outs|)
              == if err.Pass? then None else Some(err.error)
      ensures err.Pass? ==> world.constructed == old(world.constructed) + SyncCount(outs, old(configuredOutputs), |outs|)
    {
      ghost var order := RemoveStaleOutputs(OutputUrls(outs), world);
      ghost var kept := configuredOutputs;
      ghost var afterRemoval := world.calls;
      err := SyncOutputs(outs, env, world);
      forall i | 0 <= i < |outs| ensures outs[i].url in kept <==> outs[i].url in old(configuredOutputs) {
        assert outs[i].url in OutputUrls(outs);
      }
      SyncFaultRestrict(outs, kept, old(configuredOutputs), env, old(world.constructed), |outs|);
      KindsFromTrans(old(configuredOutputs), kept, configuredOutputs, env.parse);
      assert afterRemoval[..|old(world.calls)|] == old(world.calls);
      ExtendsSplit(world.calls, afterRemoval, old(world.calls));
      assert afterRemoval[|old(world.calls)|..] == OutputCloses(order, old(configuredOutputs));
      forall u | u in old(configuredOutputs) && u !in OutputUrls(outs)
        ensures u !in configuredOutputs && Close(old(configuredOutputs)[u].out) in world.calls[|old(world.calls)|..]
      {
        OutputClosesHas(order, old(configuredOutputs), u);
      }
      if err.Pass? {
        forall u | u in old(configuredOutputs) && u in OutputUrls(outs)
                   && !AllAgree(outs, |outs|, u, old(configuredOutputs)[u].conf)
          ensures Close(old(configuredOutputs)[u].out) in world.calls[|old(world.calls)|..]
        {
          assert kept[u] == old(configuredOutputs)[u];
          assert Close(kept[u].out) in world.calls[|afterRemoval|..];
        }
        forall u | u in old(configuredOutputs) && u in OutputUrls(outs)
                   && AllAgree(outs, |outs|, u, old(configuredOutputs)[u].conf)
          ensures Close(old(configuredOutputs)[u].out) !in world.calls[|old(world.calls)|..]
        {
          assert kept[u] == old(configuredOutputs)[u];
          OutputClosesLacks(order, old(configuredOutputs), u);
          assert Close(kept[u].out) !in world.calls[|afterRemoval|..];
        }
      }
    }

    /** The table diff of `UpdateConfig`, once neither a no-op nor a
        rebuild applies: inputs first when they changed, then the stored
        inputs; done if the configurations now agree; otherwise outputs
        when they changed, then the whole configuration. */
    method Reconcile(c: Config.Flow, env: Env, world: World) returns (err: Outcome<FlowError>)
      requires Valid()
      modifies this`configuredInputs, this`configuredOutputs, this`config, world
      ensures Valid()
      ensures Extends(world.calls, old(world.calls))
      ensures err.Pass? ==> config == c
      ensures err.Fail? ==>
                || (config == old(config) && configuredOutputs == old(configuredOutputs))
                || (config == old(config).(inputs := c.inputs) && c.outputs != old(config).outputs
                    && (c.inputs != old(config).inputs ==> configuredInputs.Keys == InputUrls(c.inputs)))
      ensures c.inputs == old(config).inputs ==> configuredInputs == old(configuredInputs)
      ensures c.inputs != old(config).inputs ==>
                InputsReconciled(old(configuredInputs), configuredInputs, c.inputs, world.calls[|old(world.calls)|..])
      ensures err.Pass? && c.inputs != old(config).inputs ==> configuredInputs.Keys == InputUrls(c.inputs)
      ensures c.outputs == old(config).outputs ==> configuredOutputs == old(configuredOutputs)
      ensures err.Pass? && c.outputs != old(config).outputs ==>
                OutputsReconciled(old(configuredOutputs), configuredOutputs, c.outputs, env.parse, world.calls[|old(world.calls)|..])
      ensures old(Tables(config, env.parse)) && err.Pass? ==> Tables(c, env.parse)
      ensures DiffFault(old(config), c, old(configuredInputs).Keys, old(configuredOutputs), env, old(world.constructed))
              == if err.Pass? then None else Some(err.error)
    {
      err := Pass;
      ghost var current, inKeys, outputs, base := config, configuredInputs.Keys, configuredOutputs, world.constructed;
      assert OutputsKeyed(outputs);
      if c.inputs != config.inputs {
        err := UpdateInputs(c.inputs, env, world);
        if err.Fail? {
          DiffFaultInputs(current, c, inKeys, outputs, env, base);
          return;
        }
        if old(Tables(config, env.parse)) {
          InputsReconciledBound(old(configuredInputs), configuredInputs, old(config).inputs, c.inputs,
                                world.calls[|old(world.calls)|..], env.parse);
        }
      }
      ghost var afterInputs := world.calls;
      assert ClosesOnlyInputs(afterInputs[|old(world.calls)|..]);
      DiffFaultOutputs(current, c, inKeys, outputs, env, base, world.constructed);
      config := config.(inputs := c.inputs);
      if config == c {
        return;
      }
      if c.outputs != config.outputs {
        err := UpdateOutputs(c.outputs, env, world);
        if c.inputs != old(config).inputs {
          InputsReconciledExtends(old(configuredInputs), configuredInputs, c.inputs,
                                  afterInputs[|old(world.calls)|..], world.calls[|afterInputs|..]);
        }
        ExtendsSplit(world.calls, afterInputs, old(world.calls));
        if err.Fail? {
          return;
        }
        OutputsReconciledExtends(old(configuredOutputs), configuredOutputs, c.outputs, env.parse,
                                 afterInputs[|old(world.calls)|..], world.calls[|afterInputs|..]);
        if old(Tables(config, env.parse)) {
          OutputKindsKept(old(configuredOutputs), configuredOutputs, env.parse);
        }
      }
      config := c;
    }

    /** `*f = *newflow`: take over every field of `other`. */
    method Adopt(other: Flow, c: Config.Flow, parse: Parser)
      requires other.Serves(c, parse)
      modifies this
      ensures Serves(c, parse)
    {
      var ins, outs := other.configuredInputs, other.configuredOutputs;
      assert InputsKeyed(ins) && InputsBound(ins, c.inputs, parse);
      assert OutputsKeyed(outs) && OutputsBound(outs, c.outputs) && OutputKinds(outs, parse);
      identifier, config, stopped := other.identifier, other.config, other.stopped;
      configuredInputs, configuredOutputs := ins, outs;
    }

    /** The rebuild of `UpdateConfig`: stop this flow, create a new one from
        `c` and, when that succeeds, take over all of its fields. */
    method Rebuild(c: Config.Flow, env: Env, world: World) returns (err: Outcome<FlowError>, c': Config.Flow)
      requires Valid()
      modifies this, world
      ensures Valid()
      ensures Extends(world.calls, old(world.calls))
      ensures |world.calls| > |old(world.calls)| && world.calls[|old(world.calls)|] == StopFlow
      ensures err.Fail? ==>
                && stopped && config == old(config) && identifier == old(identifier)
                && configuredInputs == old(configuredInputs) && configuredOutputs == old(configuredOutputs)
      ensures err.Pass? ==> Serves(c, env.parse) && c' == WithDefaultLatency(c)
      ensures c' == CallerConfigAfter(c, env)
      ensures CreateFault(c, env, old(world.constructed)) == if err.Pass? then None else Some(err.error)
      ensures EarlyFailure(c, env).Some? ==> world.calls == old(world.calls) + [StopFlow] + EarlyCalls(c, env)
      ensures err.Pass? ==> world.calls == old(world.calls) + [StopFlow] + EarlyCalls(c, env) + WireCalls(c, env.parse)
    {
      stopped := true;
      world.Invoke(StopFlow);
      var newflow;
      newflow, err, c' := CreateFlow(c, env, world);
      ExtendsSnoc(world.calls, old(world.calls), StopFlow);
      if err.Fail? {
        return;
      }
      Adopt(newflow, c, env.parse);
    }

    /** `UpdateConfig`: nothing to do when the configuration is unchanged;
        a change of latency, profile or stream id stops the flow and
        replaces it by a newly created one; otherwise `Reconcile` brings
        the tables in line with the new configuration. */
    method UpdateConfig(c: Config.Flow, env: Env, world: World) returns (err: Outcome<FlowError>, c': Config.Flow)
      requires Valid()
      modifies this, world
      ensures Valid()
      ensures Extends(world.calls, old(world.calls))
      ensures old(config) == c ==>
                && err == Pass && c' == c && world.calls == old(world.calls)
                && config == old(config) && identifier == old(identifier) && stopped == old(stopped)
                && configuredInputs == old(configuredInputs) && configuredOutputs == old(configuredOutputs)
      ensures old(config) != c && RebuildNeeded(old(config), c) ==>
                && |world.calls| > |old(world.calls)| && world.calls[|old(world.calls)|] == StopFlow
                && (err.Fail? ==>
                      && stopped && config == old(config) && identifier == old(identifier)
                      && configuredInputs == old(configuredInputs) && configuredOutputs == old(configuredOutputs))
                && (err.Pass? ==> Serves(c, env.parse) && c' == WithDefaultLatency(c))
                && c' == CallerConfigAfter(c, env)
                && CreateFault(c, env, old(world.constructed)) == (if err.Pass? then None else Some(err.error))
                && (EarlyFailure(c, env).Some? ==> world.calls == old(world.calls) + [StopFlow] + EarlyCalls(c, env))
                && (err.Pass? ==>
                      world.calls == old(world.calls) + [StopFlow] + EarlyCalls(c, env) + WireCalls(c, env.parse))
      ensures old(config) != c && !RebuildNeeded(old(config), c) ==>
                && c' == c && identifier == old(identifier) && stopped == old(stopped)
                && (err.Pass? ==> config == c)
                && (err.Fail? ==>
                      || (config == old(config) && configuredOutputs == old(configuredOutputs))
                      || (config == old(config).(inputs := c.inputs) && c.outputs != old(config).outputs))
                && (c.inputs == old(config).inputs ==> configuredInputs == old(configuredInputs))
                && (c.inputs != old(config).inputs ==>
                      InputsReconciled(old(configuredInputs), configuredInputs, c.inputs, world.calls[|old(world.calls)|..]))
                && (err.Pass? && c.inputs != old(config).inputs ==> configuredInputs.Keys == InputUrls(c.inputs))
                && (c.outputs == old(config).outputs ==> configuredOutputs == old(configuredOutputs))
                && (err.Pass? && c.outputs != old(config).outputs ==>
                      OutputsReconciled(old(configuredOutputs), configuredOutputs, c.outputs, env.parse,
                                        world.calls[|old(world.calls)|..]))
                && (old(Tables(config, env.parse)) && err.Pass? ==> Tables(c, env.parse))
                && DiffFault(old(config), c, old(configuredInputs).Keys, old(configuredOutputs), env, old(world.constructed))
                   == (if err.Pass? then None else Some(err.error))
    {
      c' := c;
      err := Pass;
      if config == c {
        return;
      }
      if RebuildNeeded(config, c) {
        err, c' := Rebuild(c, env, world);
        return;
      }
      err := Reconcile(c, env, world);
    }
  }

  /** The steps of `CreateFlow` between the inputs and the outputs: start
      the receiver, configure the RIST flow on `port`, start the main
      loop, start the UDP inputs; the first failure ends them. */
  method StartReceiving(port: Uint16, env: Env, world: World) returns (err: Outcome<FlowError>)
    modifies world
    ensures Extends(world.calls, old(world.calls))
    ensures !env.startOk ==> err == Fail(ReceiverStart) && world.calls == old(world.calls) + [StartReceiver]
    ensures env.startOk && !env.configureOk ==>
              err == Fail(ConfigureRistFlow) && world.calls == old(world.calls) + [StartReceiver, ConfigureFlow(port)]
    ensures env.startOk && env.configureOk && !env.udpStartOk ==>
              && err == Fail(UdpInputsStart)
              && world.calls == old(world.calls) + [StartReceiver, ConfigureFlow(port), StartMainloop, StartUdpInputs]
    ensures err.Pass? <==> env.startOk && env.configureOk && env.udpStartOk
    ensures err.Pass? ==> world.calls == old(world.calls) + [StartReceiver, ConfigureFlow(port), StartMainloop, StartUdpInputs]
    ensures world.constructed == old(world.constructed)
  {
    world.Invoke(StartReceiver);
    if !env.startOk {
      return Fail(ReceiverStart);
    }
    world.Invoke(ConfigureFlow(port));
    if !env.configureOk {
      return Fail(ConfigureRistFlow);
    }
    world.Invoke(StartMainloop);
    world.Invoke(StartUdpInputs);
    if !env.udpStartOk {
      return Fail(UdpInputsStart);
    }
    err := Pass;
  }

  /** The steps of `CreateFlow` before the receiver exists: validate the
      configuration, set up statistics, default the caller's latency, set up
      the receiver. */
  method Prepare(c: Config.Flow, env: Env, world: World) returns (early: Option<FlowError>, c': Config.Flow)
    modifies world
    ensures early == EarlyFailure(c, env)
    ensures world.calls == old(world.calls) + EarlyCalls(c, env)
    ensures c' == CallerConfigAfter(c, env)
    ensures world.constructed == old(world.constructed)
  {
    c' := c;
    var verdict := Config.ValidateFlowConfig(c, env.parse);
    if verdict.Fail? {
      return Some(ConfigValidation(verdict.error)), c';
    }
    world.Invoke(SetupStats);
    if !env.statsOk {
      return Some(StatsSetup), c';
    }
    if c'.latency == 0 {
      c' := c'.(latency := DefaultLatency);
    }
    world.Invoke(SetupReceiver(c'.ristProfile, c'.latency));
    if !env.receiverOk {
      return Some(ReceiverSetup), c';
    }
    early := None;
  }

  /** `CreateFlow`: validate, then set up statistics, the receiver (with
      the default latency), the inputs, start the receiver, configure the
      RIST flow, create the main loop, start the UDP inputs and set up the
      outputs, stopping at the first failure. The flow stores the
      configuration as given; `c'` is the caller's configuration after
      the latency rewrite. */
  method CreateFlow(c: Config.Flow, env: Env, world: World) returns (flow: Flow?, err: Outcome<FlowError>, c': Config.Flow)
    modifies world
    ensures Extends(world.calls, old(world.calls))
    ensures flow != null <==> err.Pass?
    ensures c' == CallerConfigAfter(c, env)
    ensures EarlyFailure(c, env).Some? ==>
              err == Fail(EarlyFailure(c, env).value) && world.calls == old(world.calls) + EarlyCalls(c, env)
    ensures err.Fail? && err.error.InputSetup? ==> err.error.input in c.inputs
    ensures err.Fail? && err.error.OutputSetup? ==> err.error.output in c.outputs
    ensures err.Pass? ==>
              && EarlyFailure(c, env).None? && env.startOk && env.configureOk && env.udpStartOk
              && world.calls == old(world.calls) + EarlyCalls(c, env) + WireCalls(c, env.parse)
    ensures err.Pass? ==>
              fresh(flow) && flow.Serves(c, env.parse)
    ensures err.Pass? <==> EarlyFailure(c, env).None? && WireFault(c, env, old(world.constructed)).None?
    ensures EarlyFailure(c, env).None? && err.Fail? ==> Some(err.error) == WireFault(c, env, old(world.constructed))
    ensures CreateFault(c, env, old(world.constructed)) == if err.Pass? then None else Some(err.error)
  {
    var f := new Flow(c);
    var early;
    early, c' := Prepare(c, env, world);
    if early.Some? {
      return null, Fail(early.value), c';
    }
    WireSameEntries(c, c', env);
    ghost var beforeWire := world.calls;
    err := f.Wire(c', env, world);
    ExtendsTrans(world.calls, beforeWire, old(world.calls));
    if err.Fail? {
      return null, err, c';
    }
    LogAssoc(old(world.calls), EarlyCalls(c, env), WireCalls(c, env.parse));
    flow := f;
  }
}
