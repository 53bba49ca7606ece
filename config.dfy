/** Configuration records of a relay flow and the validators that check them
    (config/config.go, config/flow.go, config/influxdb.go,
    config/validatehelpers.go). Every validator is a pure verdict: `Pass`
    when the record is acceptable, otherwise the error of the first check
    that fails, in the order the source runs its checks. */
module Config {
  import opened Wrappers
  import opened Urls

  datatype Input = Input(identifier: string, url: string)

  datatype Output = Output(identifier: string, url: string)

  /** One flow of the configuration file. `flowType`, `minimalBitrate` and
      `maxPacketTimeMs` are carried but never checked. */
  datatype Flow = Flow(
    identifier: string,
    flowType: string,
    ristProfile: int,
    latency: int,
    streamId: int,
    inputs: seq<Input>,
    outputs: seq<Output>,
    minimalBitrate: int,
    maxPacketTimeMs: int)
  {
    /** The strict validator that loading a configuration file applies to
        each flow: per-input checks, then duplicate input identifiers, then
        per-output checks (scheme `srt` only), then duplicate output
        identifiers. The result is the verdict of `StrictVerdict`. */
    method ValidateFlowConfig(parse: Parser) returns (err: Outcome<ConfigError>)
      ensures err == StrictVerdict(this, parse)
      ensures err.Pass? <==> StrictlyValid(this, parse)
    {
      if identifier == "" {
        return Fail(FlowIdentifierMissing);
      }
      var inErr, inIds := ScanInputs(parse);
      if inErr.Some? {
        return Fail(inErr.value);
      }
      err := CheckDuplicates("input identifier", inIds);
      if err.Fail? {
        return;
      }
      var outErr, outIds := ScanOutputs(parse);
      if outErr.Some? {
        return Fail(outErr.value);
      }
      err := CheckDuplicates("output identifier", outIds);
    }

    /** The input loop of `ValidateFlowConfig`: the first bad entry, and
        the identifiers collected when there is none. */
    method ScanInputs(parse: Parser) returns (e: Option<ConfigError>, ids: seq<string>)
      ensures e == FirstFailure(inputs, InputCheck(identifier, parse))
      ensures e.None? ==> ids == InputIds(inputs)
    {
      var check := InputCheck(identifier, parse);
      ids := [];
      for i := 0 to |inputs|
        invariant ids == InputIds(inputs[..i])
        invariant FirstFailure(inputs[..i], check).None?
      {
        var inp := inputs[i];
        assert inputs[..i + 1] == inputs[..i] + [inp];
        assert check(inp) == InputEntryError(identifier, parse, inp);
        if inp.identifier == "" {
          e := Some(InputIdentifierMissing(identifier));
          FirstFailureStops(inputs, i + 1, check);
          return;
        }
        ids := ids + [inp.identifier];
        var u := parse(inp.url);
        if u.None? {
          e := Some(InvalidInputUrl(inp.url));
          FirstFailureStops(inputs, i + 1, check);
          return;
        }
        if u.value.scheme !in InputSchemes {
          e := Some(UnsupportedInputScheme(u.value.scheme));
          FirstFailureStops(inputs, i + 1, check);
          return;
        }
      }
      assert inputs[..|inputs|] == inputs;
      e := None;
    }

    /** The output loop of `ValidateFlowConfig`, which admits only the
        strict output scheme. */
    method ScanOutputs(parse: Parser) returns (e: Option<ConfigError>, ids: seq<string>)
      ensures e == FirstFailure(outputs, OutputCheck(identifier, parse, {StrictOutputScheme}))
      ensures e.None? ==> ids == OutputIds(outputs)
    {
      var check := OutputCheck(identifier, parse, {StrictOutputScheme});
      ids := [];
      for i := 0 to |outputs|
        invariant ids == OutputIds(outputs[..i])
        invariant FirstFailure(outputs[..i], check).None?
      {
        var out := outputs[i];
        assert outputs[..i + 1] == outputs[..i] + [out];
        assert check(out) == OutputEntryError(identifier, parse, {StrictOutputScheme}, out);
        if out.identifier == "" {
          e := Some(OutputIdentifierMissing(identifier));
          FirstFailureStops(outputs, i + 1, check);
          return;
        }
        ids := ids + [out.identifier];
        var u := parse(out.url);
        if u.None? {
          e := Some(InvalidOutputUrl(out.url));
          FirstFailureStops(outputs, i + 1, check);
          return;
        }
        if u.value.scheme != StrictOutputScheme {
          e := Some(UnsupportedOutputScheme(u.value.scheme));
          FirstFailureStops(outputs, i + 1, check);
          return;
        }
      }
      assert outputs[..|outputs|] == outputs;
      e := None;
    }
  }

  datatype ConfigError =
    | FlowIdentifierMissing
    | NoInputs(flow: string)
    | NoOutputs(flow: string)
    | InputIdentifierMissing(flow: string)
    | OutputIdentifierMissing(flow: string)
    | InvalidInputUrl(url: string)
    | InvalidOutputUrl(url: string)
    | UnsupportedInputScheme(scheme: string)
    | UnsupportedOutputScheme(scheme: string)
    | Duplicate(what: string, value: string)
    | InfluxUrlRequired
    | InvalidInfluxUrl(url: string)
    | UrlEmpty
    | InvalidUrl(url: string)
    | UrlNil
    | InvalidHostPort(target: Url)
    | MissingHostOrPort(target: Url)
    | NotASlice
    | UnsupportedItem
    | InvalidInputUrlIn(list: string, cause: ConfigError)
    | InvalidOutputUrlIn(list: string, cause: ConfigError)
    | DuplicateIdentifier(key: string, list: string)
    | DuplicateHost(host: string, list: string)

  /** Input schemes a flow may use. */
  const InputSchemes: set<string> := {"rist", "udp", "rtp"}

  /** Output schemes the flow-level validator accepts. */
  const OutputSchemes: set<string> := {"srt", "udp", "rtp", "dektecasi"}

  /** The only output scheme the strict validator accepts. */
  const StrictOutputScheme: string := "srt"

  // ---------------------------------------------------------------------
  // Sequences without repeats, and the first repeat of a sequence
  // ---------------------------------------------------------------------

  predicate Distinct<T(==)>(s: seq<T>) {
    forall i, j :: 0 <= i < j < |s| ==> s[i] != s[j]
  }

  lemma DistinctCons<T>(a: T, s: seq<T>)
    ensures Distinct([a] + s) <==> a !in s && Distinct(s)
  {
    var t := [a] + s;
    assert t[1..] == s;
    if a !in s && Distinct(s) {
      forall i, j | 0 <= i < j < |t| ensures t[i] != t[j] {
        if i == 0 {
          assert t[j] == s[j - 1];
        }
      }
    }
    if a in s {
      var k :| 0 <= k < |s| && s[k] == a;
      assert t[0] == t[k + 1];
    }
    if Distinct(t) {
      forall i, j | 0 <= i < j < |s| ensures s[i] != s[j] {
        assert t[i + 1] == s[i] && t[j + 1] == s[j];
      }
    }
  }

  /** The index of the first element that already occurred earlier. */
  function FirstRepeat(s: seq<string>): (r: Option<nat>)
    ensures r.None? <==> Distinct(s)
    ensures r.Some? ==> r.value < |s| && s[r.value] in s[..r.value] && Distinct(s[..r.value])
    decreases |s|
  {
    if |s| == 0 then None
    else
      var init := s[..|s| - 1];
      match FirstRepeat(init)
      case Some(k) =>
        assert init[..k] == s[..k];
        assert !Distinct(s) by {
          var p :| 0 <= p < k && init[p] == init[k];
          assert s[p] == s[k];
        }
        Some(k)
      case None =>
        if s[|s| - 1] in init then
          assert !Distinct(s) by {
            var p :| 0 <= p < |init| && init[p] == s[|s| - 1];
            assert s[p] == s[|s| - 1];
          }
          Some(|s| - 1)
        else
          assert Distinct(s) by {
            forall i, j | 0 <= i < j < |s| ensures s[i] != s[j] {
              if j < |s| - 1 {
                assert s[i] == init[i] && s[j] == init[j];
              } else {
                assert s[i] == init[i];
              }
            }
          }
          None
  }

  /** A repeat at `j` after a repeat-free prefix is the first repeat. */
  lemma {:induction false} FirstRepeatIsFirst(s: seq<string>, j: nat)
    requires j < |s| && Distinct(s[..j]) && s[j] in s[..j]
    ensures FirstRepeat(s) == Some(j)
    decreases |s|
  {
    var init := s[..|s| - 1];
    if j < |s| - 1 {
      assert init[..j] == s[..j];
      FirstRepeatIsFirst(init, j);
    } else {
      assert init == s[..j];
    }
  }

  /** The verdict of a duplicate check over `items`. */
  function DuplicatesVerdict(what: string, items: seq<string>): Outcome<ConfigError> {
    match FirstRepeat(items)
    case None => Pass
    case Some(k) => Fail(Duplicate(what, items[k]))
  }

  /** `checkDuplicates`: fails on the first item seen a second time. */
  method CheckDuplicates(what: string, items: seq<string>) returns (err: Outcome<ConfigError>)
    ensures err.Pass? <==> Distinct(items)
    ensures err.Fail? ==> exists j :: 0 <= j < |items| && err == Fail(Duplicate(what, items[j]))
                                      && items[j] in items[..j] && Distinct(items[..j])
    ensures err == DuplicatesVerdict(what, items)
  {
    var seen: set<string> := {};
    for i := 0 to |items|
      invariant seen == set k | 0 <= k < i :: items[k]
      invariant Distinct(items[..i])
    {
      if items[i] in seen {
        assert items[i] in items[..i];
        FirstRepeatIsFirst(items, i);
        return Fail(Duplicate(what, items[i]));
      }
      assert Distinct(items[..i + 1]) by {
        forall p, q | 0 <= p < q < i + 1 ensures items[p] != items[q] {
          if q == i {
            assert items[p] in seen;
          } else {
            assert items[..i][p] == items[p] && items[..i][q] == items[q];
          }
        }
      }
      seen := seen + {items[i]};
    }
    assert items[..|items|] == items;
    return Pass;
  }

  // ---------------------------------------------------------------------
  // The first failing entry of a list
  // ---------------------------------------------------------------------

  /** The error of the first entry that `check` rejects, or `None`. */
  function FirstFailure<T, E>(s: seq<T>, check: T -> Option<E>): (r: Option<E>)
    ensures r.None? <==> forall i :: 0 <= i < |s| ==> check(s[i]).None?
    ensures r.Some? ==> exists i :: 0 <= i < |s| && r == check(s[i])
                                    && forall j :: 0 <= j < i ==> check(s[j]).None?
    decreases |s|
  {
    if |s| == 0 then None
    else
      var init := s[..|s| - 1];
      match FirstFailure(init, check)
      case Some(e) =>
        assert forall j :: 0 <= j < |init| ==> init[j] == s[j];
        Some(e)
      case None =>
        assert forall j :: 0 <= j < |init| ==> init[j] == s[j];
        check(s[|s| - 1])
  }

  /** Once a prefix holds a failing entry, later entries do not matter. */
  lemma {:induction false} FirstFailureStops<T, E>(s: seq<T>, n: nat, check: T -> Option<E>)
    requires 0 < n <= |s|
    requires FirstFailure(s[..n - 1], check).None? && check(s[n - 1]).Some?
    ensures FirstFailure(s, check) == check(s[n - 1])
    decreases |s|
  {
    var init := s[..|s| - 1];
    if n < |s| {
      assert init[..n - 1] == s[..n - 1];
      FirstFailureStops(init, n, check);
    } else {
      assert init == s[..n - 1];
    }
  }

  // ---------------------------------------------------------------------
  // Entry checks
  // ---------------------------------------------------------------------

  predicate InputUrlAccepted(parse: Parser, url: string) {
    parse(url).Some? && parse(url).value.scheme in InputSchemes
  }

  predicate OutputUrlAccepted(parse: Parser, url: string, schemes: set<string>) {
    parse(url).Some? && parse(url).value.scheme in schemes
  }

  /** URL checks of one input (config/flow.go:30-42, config/config.go:118-128). */
  function InputUrlError(parse: Parser, x: Input): Option<ConfigError> {
    match parse(x.url)
    case None => Some(InvalidInputUrl(x.url))
    case Some(u) => if u.scheme in InputSchemes then None else Some(UnsupportedInputScheme(u.scheme))
  }

  /** URL checks of one output against the accepted `schemes`. */
  function OutputUrlError(parse: Parser, schemes: set<string>, x: Output): Option<ConfigError> {
    match parse(x.url)
    case None => Some(InvalidOutputUrl(x.url))
    case Some(u) => if u.scheme in schemes then None else Some(UnsupportedOutputScheme(u.scheme))
  }

  /** Per-input checks of the strict validator: identifier, then URL. */
  function InputEntryError(flowId: string, parse: Parser, x: Input): Option<ConfigError> {
    if x.identifier == "" then Some(InputIdentifierMissing(flowId)) else InputUrlError(parse, x)
  }

  function OutputEntryError(flowId: string, parse: Parser, schemes: set<string>, x: Output): Option<ConfigError> {
    if x.identifier == "" then Some(OutputIdentifierMissing(flowId)) else OutputUrlError(parse, schemes, x)
  }

  function InputCheck(flowId: string, parse: Parser): Input -> Option<ConfigError> {
    (x: Input) => InputEntryError(flowId, parse, x)
  }

  function OutputCheck(flowId: string, parse: Parser, schemes: set<string>): Output -> Option<ConfigError> {
    (x: Output) => OutputEntryError(flowId, parse, schemes, x)
  }

  function InputIds(ins: seq<Input>): (ids: seq<string>)
    ensures |ids| == |ins| && forall i :: 0 <= i < |ins| ==> ids[i] == ins[i].identifier
  {
    seq(|ins|, i requires 0 <= i < |ins| => ins[i].identifier)
  }

  function OutputIds(outs: seq<Output>): (ids: seq<string>)
    ensures |ids| == |outs| && forall i :: 0 <= i < |outs| ==> ids[i] == outs[i].identifier
  {
    seq(|outs|, i requires 0 <= i < |outs| => outs[i].identifier)
  }

  // ---------------------------------------------------------------------
  // The strict validator (config/config.go)
  // ---------------------------------------------------------------------

  /** What the strict validator accepts, stated without its check order. */
  predicate StrictlyValid(f: Flow, parse: Parser) {
    && f.identifier != ""
    && (forall i :: 0 <= i < |f.inputs| ==>
          f.inputs[i].identifier != "" && InputUrlAccepted(parse, f.inputs[i].url))
    && Distinct(InputIds(f.inputs))
    && (forall i :: 0 <= i < |f.outputs| ==>
          f.outputs[i].identifier != "" && OutputUrlAccepted(parse, f.outputs[i].url, {StrictOutputScheme}))
    && Distinct(OutputIds(f.outputs))
  }

  /** The verdict of the strict validator, check by check in source order. */
  function StrictVerdict(f: Flow, parse: Parser): (r: Outcome<ConfigError>)
    ensures r.Pass? <==> StrictlyValid(f, parse)
    ensures f.identifier == "" ==> r == Fail(FlowIdentifierMissing)
  {
    if f.identifier == "" then Fail(FlowIdentifierMissing)
    else match FirstFailure(f.inputs, InputCheck(f.identifier, parse))
      case Some(e) => Fail(e)
      case None =>
        if DuplicatesVerdict("input identifier", InputIds(f.inputs)).Fail? then
          DuplicatesVerdict("input identifier", InputIds(f.inputs))
        else match FirstFailure(f.outputs, OutputCheck(f.identifier, parse, {StrictOutputScheme}))
          case Some(e) => Fail(e)
          case None => DuplicatesVerdict("output identifier", OutputIds(f.outputs))
  }

  /** A failing input entry wins over any duplicate identifier, even when
      the failing entry comes after the duplicate. */
  lemma StrictEntryErrorsComeFirst(f: Flow, parse: Parser, k: nat)
    requires f.identifier != "" && k < |f.inputs|
    requires forall j :: 0 <= j < k ==> InputEntryError(f.identifier, parse, f.inputs[j]).None?
    requires InputEntryError(f.identifier, parse, f.inputs[k]).Some?
    ensures StrictVerdict(f, parse) == Fail(InputEntryError(f.identifier, parse, f.inputs[k]).value)
  {
    var check := InputCheck(f.identifier, parse);
    var ff := FirstFailure(f.inputs, check);
    assert check(f.inputs[k]).Some?;
    var i :| 0 <= i < |f.inputs| && ff == check(f.inputs[i]) && forall j :: 0 <= j < i ==> check(f.inputs[j]).None?;
    assert !(i < k) && !(k < i);
  }

  /** The strict validator accepts no output whose scheme is not `srt`,
      so `udp`, `rtp` and `dektecasi` outputs are refused. */
  lemma StrictRejectsNonSrtOutputs(f: Flow, parse: Parser, k: nat)
    requires k < |f.outputs| && parse(f.outputs[k].url).Some?
    requires parse(f.outputs[k].url).value.scheme != StrictOutputScheme
    ensures StrictVerdict(f, parse).Fail?
  {
  }

  // ---------------------------------------------------------------------
  // The flow-level validator (config/flow.go)
  // ---------------------------------------------------------------------

  function InputUrlCheck(parse: Parser): Input -> Option<ConfigError> {
    (x: Input) => InputUrlError(parse, x)
  }

  function OutputUrlCheck(parse: Parser): Output -> Option<ConfigError> {
    (x: Output) => OutputUrlError(parse, OutputSchemes, x)
  }

  /** `ValidateFlowConfig`, the check `CreateFlow` runs: an identifier, at
      least one input and one output, and every URL parseable with an
      accepted scheme. Identifiers of entries and duplicates are not
      checked. */
  function ValidateFlowConfig(c: Flow, parse: Parser): (r: Outcome<ConfigError>)
    ensures r.Pass? <==>
      && c.identifier != "" && |c.inputs| > 0 && |c.outputs| > 0
      && (forall i :: 0 <= i < |c.inputs| ==> InputUrlAccepted(parse, c.inputs[i].url))
      && (forall i :: 0 <= i < |c.outputs| ==> OutputUrlAccepted(parse, c.outputs[i].url, OutputSchemes))
    ensures c.identifier == "" ==> r == Fail(FlowIdentifierMissing)
    ensures c.identifier != "" && |c.inputs| == 0 ==> r == Fail(NoInputs(c.identifier))
    ensures c.identifier != "" && |c.inputs| > 0 && |c.outputs| == 0 ==> r == Fail(NoOutputs(c.identifier))
  {
    if c.identifier == "" then Fail(FlowIdentifierMissing)
    else if |c.inputs| == 0 then Fail(NoInputs(c.identifier))
    else if |c.outputs| == 0 then Fail(NoOutputs(c.identifier))
    else match FirstFailure(c.inputs, InputUrlCheck(parse))
      case Some(e) => Fail(e)
      case None =>
        match FirstFailure(c.outputs, OutputUrlCheck(parse))
        case Some(e) => Fail(e)
        case None => Pass
  }

  /** The two flow validators are incomparable: each accepts a flow the
      other refuses. */
  lemma ValidatorsDisagree(parse: Parser)
    requires parse("udp://a:1") == Some(Url("udp", "a:1"))
    ensures var c := Flow("f", "", 0, 0, 0, [Input("i", "udp://a:1")], [Output("o", "udp://a:1")], 0, 0);
            ValidateFlowConfig(c, parse).Pass? && StrictVerdict(c, parse).Fail?
    ensures var c := Flow("f", "", 0, 0, 0, [], [], 0, 0);
            ValidateFlowConfig(c, parse).Fail? && StrictVerdict(c, parse).Pass?
  {
    var c := Flow("f", "", 0, 0, 0, [Input("i", "udp://a:1")], [Output("o", "udp://a:1")], 0, 0);
    assert OutputUrlAccepted(parse, c.outputs[0].url, OutputSchemes);
    StrictRejectsNonSrtOutputs(c, parse, 0);
    var e := Flow("f", "", 0, 0, 0, [], [], 0, 0);
    assert Distinct(InputIds(e.inputs)) && Distinct(OutputIds(e.outputs));
  }

  // ---------------------------------------------------------------------
  // InfluxDB section (config/config.go and config/influxdb.go)
  // ---------------------------------------------------------------------

  datatype InfluxDB = InfluxDB(url: string)

  /** `InfluxDB.Validate`; `None` stands for a nil receiver. */
  function ValidateInfluxDB(c: Option<InfluxDB>, parse: Parser): (r: Outcome<ConfigError>)
    ensures r.Pass? <==> c.None? || (c.value.url != "" && parse(c.value.url).Some?)
    ensures c.Some? && c.value.url == "" ==> r == Fail(InfluxUrlRequired)
    ensures c.Some? && c.value.url != "" && parse(c.value.url).None? ==> r == Fail(InvalidInfluxUrl(c.value.url))
  {
    match c
    case None => Pass
    case Some(db) =>
      if db.url == "" then Fail(InfluxUrlRequired)
      else if parse(db.url).None? then Fail(InvalidInfluxUrl(db.url))
      else Pass
  }

  // ---------------------------------------------------------------------
  // Helpers of config/validatehelpers.go
  // ---------------------------------------------------------------------

  /** `validateURL`: the empty text is refused before parsing. */
  function ValidateUrl(raw: string, parse: Parser): (r: Result<Url, ConfigError>)
    ensures raw == "" ==> r == Failure(UrlEmpty)
    ensures raw != "" && parse(raw).Some? ==> r == Success(parse(raw).value)
    ensures raw != "" && parse(raw).None? ==> r == Failure(InvalidUrl(raw))
  {
    if raw == "" then Failure(UrlEmpty)
    else match parse(raw)
      case None => Failure(InvalidUrl(raw))
      case Some(u) => Success(u)
  }

  /** `validateHostPort`: `None` stands for a nil URL. */
  function ValidateHostPort(u: Option<Url>, split: HostPortSplitter): (r: Outcome<ConfigError>)
    ensures r.Pass? <==> u.Some? && split(u.value.host).Some?
                         && split(u.value.host).value.0 != "" && split(u.value.host).value.1 != ""
    ensures u.None? ==> r == Fail(UrlNil)
    ensures u.Some? && split(u.value.host).None? ==> r == Fail(InvalidHostPort(u.value))
  {
    match u
    case None => Fail(UrlNil)
    case Some(url) =>
      match split(url.host)
      case None => Fail(InvalidHostPort(url))
      case Some(hp) => if hp.0 == "" || hp.1 == "" then Fail(MissingHostOrPort(url)) else Pass
  }

  /** An element of the list given to `validateUnique`. */
  datatype Item = InputItem(input: Input) | OutputItem(output: Output) | OtherItem

  /** The argument of `validateUnique`: a slice, or any other value. */
  datatype Argument = SliceArg(items: seq<Item>) | NonSliceArg

  /** The identifier and parsed URL of one element, or why it is refused. */
  function ItemKeyAndUrl(item: Item, name: string, parse: Parser): Result<(string, Url), ConfigError> {
    match item
    case InputItem(x) =>
      (match ValidateUrl(x.url, parse)
       case Failure(e) => Failure(InvalidInputUrlIn(name, e))
       case Success(u) => Success((x.identifier, u)))
    case OutputItem(x) =>
      (match ValidateUrl(x.url, parse)
       case Failure(e) => Failure(InvalidOutputUrlIn(name, e))
       case Success(u) => Success((x.identifier, u)))
    case OtherItem => Failure(UnsupportedItem)
  }

  predicate WellFormedItem(item: Item, parse: Parser) {
    match item
    case InputItem(x) => x.url != "" && parse(x.url).Some?
    case OutputItem(x) => x.url != "" && parse(x.url).Some?
    case OtherItem => false
  }

  /** The keys an element puts into the shared `check` map: its identifier,
      then its URL's host. */
  function ItemKeys(item: Item, parse: Parser): seq<string> {
    match item
    case InputItem(x) => if x.url != "" && parse(x.url).Some? then [x.identifier, parse(x.url).value.host] else []
    case OutputItem(x) => if x.url != "" && parse(x.url).Some? then [x.identifier, parse(x.url).value.host] else []
    case OtherItem => []
  }

  /** id0, host0, id1, host1, ... of a list. */
  function UniqueKeys(items: seq<Item>, parse: Parser): seq<string>
    decreases |items|
  {
    if |items| == 0 then [] else ItemKeys(items[0], parse) + UniqueKeys(items[1..], parse)
  }

  /** The verdict of `validateUnique` on `items` when the keys in `seen`
      have already been recorded. */
  function UniqueFrom(items: seq<Item>, name: string, parse: Parser, seen: set<string>): Outcome<ConfigError>
    decreases |items|
  {
    if |items| == 0 then Pass
    else match ItemKeyAndUrl(items[0], name, parse)
      case Failure(e) => Fail(e)
      case Success(ku) =>
        if ku.0 in seen then Fail(DuplicateIdentifier(ku.0, name))
        else if ku.1.host in seen + {ku.0} then Fail(DuplicateHost(ku.1.host, name))
        else UniqueFrom(items[1..], name, parse, seen + {ku.0, ku.1.host})
  }

  function UniqueVerdict(arg: Argument, name: string, parse: Parser): Outcome<ConfigError> {
    match arg
    case NonSliceArg => Fail(NotASlice)
    case SliceArg(items) => UniqueFrom(items, name, parse, {})
  }

  /** `validateUnique` passes a list exactly when every element is an input
      or output with a parseable URL and identifiers and hosts, drawn from
      one shared pool, never repeat. */
  lemma {:induction false} UniqueFromPassIff(items: seq<Item>, name: string, parse: Parser, seen: set<string>)
    ensures UniqueFrom(items, name, parse, seen).Pass? <==>
      && (forall i :: 0 <= i < |items| ==> WellFormedItem(items[i], parse))
      && Distinct(UniqueKeys(items, parse))
      && (forall k :: k in UniqueKeys(items, parse) ==> k !in seen)
    decreases |items|
  {
    if |items| > 0 {
      var rest := items[1..];
      assert forall i :: 0 <= i < |rest| ==> rest[i] == items[i + 1];
      var item := items[0];
      if WellFormedItem(item, parse) {
        var key := ItemKeys(item, parse)[0];
        var host := ItemKeys(item, parse)[1];
        var seen' := seen + {key, host};
        assert ItemKeyAndUrl(item, name, parse).Success?;
        assert ItemKeyAndUrl(item, name, parse).value.0 == key;
        assert ItemKeyAndUrl(item, name, parse).value.1.host == host;
        assert UniqueFrom(items, name, parse, seen).Pass? <==>
          key !in seen && host !in seen + {key} && UniqueFrom(rest, name, parse, seen').Pass?;
        UniqueFromPassIff(rest, name, parse, seen');
        var ks := UniqueKeys(rest, parse);
        assert UniqueKeys(items, parse) == [key] + ([host] + ks);
        DistinctCons(key, [host] + ks);
        DistinctCons(host, ks);
        if UniqueFrom(items, name, parse, seen).Pass? {
          forall i | 0 <= i < |items| ensures WellFormedItem(items[i], parse) {
            if i > 0 { assert items[i] == rest[i - 1]; }
          }
        }
      } else {
        assert !(forall i :: 0 <= i < |items| ==> WellFormedItem(items[i], parse));
      }
    }
  }

  /** `validateUnique`: walks the list once, recording each element's
      identifier and then its host in one shared set. */
  method ValidateUnique(arg: Argument, name: string, parse: Parser) returns (err: Outcome<ConfigError>)
    ensures err == UniqueVerdict(arg, name, parse)
    ensures err.Pass? <==> arg.SliceArg?
                           && (forall i :: 0 <= i < |arg.items| ==> WellFormedItem(arg.items[i], parse))
                           && Distinct(UniqueKeys(arg.items, parse))
  {
    if arg.NonSliceArg? {
      return Fail(NotASlice);
    }
    var items := arg.items;
    UniqueFromPassIff(items, name, parse, {});
    var check: set<string> := {};
    for i := 0 to |items|
      invariant UniqueFrom(items, name, parse, {}) == UniqueFrom(items[i..], name, parse, check)
    {
      assert items[i..][0] == items[i] && items[i..][1..] == items[i + 1..];
      var key := "";
      var u: Url;
      match items[i] {
        case InputItem(x) =>
        key := x.identifier;
        var r := ValidateUrl(x.url, parse);
        if r.Failure? {
          return Fail(InvalidInputUrlIn(name, r.error));
        }
        u := r.value;
        case OutputItem(x) =>
        key := x.identifier;
        var r := ValidateUrl(x.url, parse);
        if r.Failure? {
          return Fail(InvalidOutputUrlIn(name, r.error));
        }
        u := r.value;
        case OtherItem =>
          return Fail(UnsupportedItem);
      }
      assert ItemKeyAndUrl(items[i], name, parse) == Success((key, u));
      ghost var before := check;
      if key in check {
        return Fail(DuplicateIdentifier(key, name));
      }
      check := check + {key};
      if u.host in check {
        return Fail(DuplicateHost(u.host, name));
      }
      check := check + {u.host};
      assert check == before + {key, u.host};
      assert UniqueFrom(items[i..], name, parse, before) == UniqueFrom(items[i + 1..], name, parse, check);
    }
    assert items[|items|..] == [];
    return Pass;
  }
}
