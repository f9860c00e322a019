/** Checks of static camera metadata, and of stream configurations against it. */
module StaticProperties {
  import opened Wrappers

  newtype int32 = x: int | -0x8000_0000 <= x < 0x8000_0000

  const FORMAT_RGBA_8888: int32 := 1
  const FORMAT_IMPLEMENTATION_DEFINED: int32 := 0x22
  const FORMAT_RAW16: int32 := 0x20
  const FORMAT_RAW_OPAQUE: int32 := 0x24
  const FORMAT_RAW10: int32 := 0x25
  const FORMAT_RAW12: int32 := 0x26

  datatype Spec = Spec(format: int32, width: int32, height: int32)

  datatype Capabilities = Capabilities(stall: int, input: bool, output: bool)

  const NoCapabilities := Capabilities(-1, false, false)

  type CapabilitiesMap = map<Spec, Capabilities>

  type ReprocessMap = map<int32, set<int32>>

  datatype Direction = OutputDirection | InputDirection | UnknownDirection

  datatype Config = Config(spec: Spec, direction: Direction)

  datatype Stall = Stall(spec: Spec, duration: int)

  // ---------------------------------------------------------------- building the capabilities

  function CapabilityOf(caps: CapabilitiesMap, spec: Spec): Capabilities {
    if spec in caps then caps[spec] else NoCapabilities
  }

  /** The duration of the last stall given for a spec, -1 if there is none. */
  function LastStall(stalls: seq<Stall>, spec: Spec): int {
    if stalls == [] then -1
    else if stalls[|stalls| - 1].spec == spec then stalls[|stalls| - 1].duration
    else LastStall(stalls[..|stalls| - 1], spec)
  }

  /** Of several stalls given for a spec the last one counts. */
  lemma {:induction false} LastStallIsLast(stalls: seq<Stall>, spec: Spec)
    ensures if exists k :: 0 <= k < |stalls| && stalls[k].spec == spec then
              exists k :: && 0 <= k < |stalls| && stalls[k] == Stall(spec, LastStall(stalls, spec))
                          && forall j | k < j < |stalls| :: stalls[j].spec != spec
            else LastStall(stalls, spec) == -1
  {
    if stalls != [] {
      var n := |stalls| - 1;
      if stalls[n].spec == spec {
        assert stalls[n] == Stall(spec, LastStall(stalls, spec));
      } else {
        LastStallIsLast(stalls[..n], spec);
        assert forall k | 0 <= k < n :: stalls[..n][k] == stalls[k];
      }
    }
  }

  predicate Lists(configs: seq<Config>, spec: Spec, direction: Direction) {
    exists c :: c in configs && c == Config(spec, direction)
  }

  /** `caps` is what the configurations and stall durations say about each spec. */
  ghost predicate Describes(caps: CapabilitiesMap, configs: seq<Config>, stalls: seq<Stall>) {
    && (forall spec :: spec in caps <==>
      (exists c :: c in configs && c.spec == spec) || (exists s :: s in stalls && s.spec == spec))
    && (forall spec | spec in caps ::
          caps[spec]
            == Capabilities(LastStall(stalls, spec), Lists(configs, spec, InputDirection),
              Lists(configs, spec, OutputDirection)))
  }

  lemma DescribesConfig(caps: CapabilitiesMap, configs: seq<Config>, c: Config)
    requires Describes(caps, configs, []) && c.direction != UnknownDirection
    ensures var old_ := CapabilityOf(caps, c.spec);
            Describes(caps[c.spec := if c.direction == InputDirection then old_.(input := true)
              else old_.(output := true)], configs + [c], [])
  {
    var old_ := CapabilityOf(caps, c.spec);
    var after := caps[c.spec := if c.direction == InputDirection then old_.(input := true) else old_.(output := true)];
    var all := configs + [c];
    forall spec
      ensures spec in after <==> (exists d :: d in all && d.spec == spec)
      ensures spec in after ==>
              after[spec] == Capabilities(-1, Lists(all, spec, InputDirection), Lists(all, spec, OutputDirection))
    {
      assert c in all && forall d :: d in all <==> d in configs || d == c;
      forall direction
        ensures Lists(all, spec, direction) <==> Lists(configs, spec, direction) || c == Config(spec, direction)
      {
        assert Config(spec, direction) in all <==> Config(spec, direction) in configs || c == Config(spec, direction);
      }
    }
  }

  lemma DescribesStall(caps: CapabilitiesMap, configs: seq<Config>, stalls: seq<Stall>, s: Stall)
    requires Describes(caps, configs, stalls)
    ensures Describes(caps[s.spec := CapabilityOf(caps, s.spec).(stall := s.duration)], configs, stalls + [s])
  {
    var after := caps[s.spec := CapabilityOf(caps, s.spec).(stall := s.duration)];
    var all := stalls + [s];
    assert all[..|stalls|] == stalls;
    forall spec
      ensures spec in after <==>
              (exists c :: c in configs && c.spec == spec) || (exists t :: t in all && t.spec == spec)
      ensures spec in after ==>
                after[spec]
                  == Capabilities(LastStall(all, spec), Lists(configs, spec, InputDirection),
                    Lists(configs, spec, OutputDirection))
    {
      assert s in all && forall t :: t in all <==> t in stalls || t == s;
    }
  }

  method ConstructStreamCapabilities(configs: seq<Config>, stalls: seq<Stall>) returns (ok: bool, caps: CapabilitiesMap)
    ensures ok <==> forall c | c in configs :: c.direction != UnknownDirection
    ensures ok ==> Describes(caps, configs, stalls)
  {
    caps := map[];
    for i := 0 to |configs|
      invariant Describes(caps, configs[..i], []) && forall c | c in configs[..i] :: c.direction != UnknownDirection
    {
      var c := configs[i];
      assert configs[..i + 1] == configs[..i] + [c];
      match c.direction
      case OutputDirection =>
        DescribesConfig(caps, configs[..i], c);
        caps := caps[c.spec := CapabilityOf(caps, c.spec).(output := true)];
      case InputDirection =>
        DescribesConfig(caps, configs[..i], c);
        caps := caps[c.spec := CapabilityOf(caps, c.spec).(input := true)];
      case UnknownDirection => return false, caps;
    }
    assert configs[..|configs|] == configs;
    for i := 0 to |stalls|
      invariant Describes(caps, configs, stalls[..i])
    {
      var s := stalls[i];
      assert stalls[..i + 1] == stalls[..i] + [s];
      DescribesStall(caps, configs, stalls[..i], s);
      caps := caps[s.spec := CapabilityOf(caps, s.spec).(stall := s.duration)];
    }
    assert stalls[..|stalls|] == stalls;
    ok := true;
  }

  /** Every output spec must have a stall duration. */
  method ValidateStreamCapabilities(caps: CapabilitiesMap) returns (ok: bool)
    ensures ok <==> forall spec | spec in caps && caps[spec].output :: caps[spec].stall >= 0
  {
    var todo := caps.Keys;
    while todo != {}
      invariant todo <= caps.Keys
      invariant forall spec | spec in caps && spec !in todo && caps[spec].output :: caps[spec].stall >= 0
      decreases todo
    {
      var spec :| spec in todo;
      if caps[spec].output && caps[spec].stall < 0 {
        return false;
      }
      todo := todo - {spec};
    }
    ok := true;
  }

  // ---------------------------------------------------------------- reprocessing

  ghost function InputFormats(caps: CapabilitiesMap): set<int32> {
    set spec | spec in caps && caps[spec].input :: spec.format
  }

  ghost function OutputFormats(caps: CapabilitiesMap): set<int32> {
    set spec | spec in caps && caps[spec].output :: spec.format
  }

  /** The reprocess map takes exactly the input formats to output formats. */
  ghost predicate Matches(caps: CapabilitiesMap, reprocess: ReprocessMap) {
    && reprocess.Keys == InputFormats(caps)
    && forall f | f in reprocess :: reprocess[f] <= OutputFormats(caps)
  }

  /** A set inside another of the same size is that set. */
  lemma {:induction false} SubsetOfSameSize<T>(a: set<T>, b: set<T>)
    requires a <= b && |a| == |b|
    ensures a == b
  {
    if a != {} {
      var x :| x in a;
      SubsetOfSameSize(a - {x}, b - {x});
    }
  }

  method CollectFormats(caps: CapabilitiesMap) returns (inputs: set<int32>, outputs: set<int32>)
    ensures inputs == InputFormats(caps) && outputs == OutputFormats(caps)
  {
    inputs, outputs := {}, {};
    var todo := caps.Keys;
    while todo != {}
      invariant todo <= caps.Keys
      invariant inputs == set spec | spec in caps && spec !in todo && caps[spec].input :: spec.format
      invariant outputs == set spec | spec in caps && spec !in todo && caps[spec].output :: spec.format
      decreases todo
    {
      var spec :| spec in todo;
      if caps[spec].input {
        inputs := inputs + {spec.format};
      }
      if caps[spec].output {
        outputs := outputs + {spec.format};
      }
      todo := todo - {spec};
    }
  }

  /** Accepts a reprocess map exactly when there is an input format and the map matches. */
  method ValidateReprocessFormats(caps: CapabilitiesMap, reprocess: ReprocessMap) returns (ok: bool)
    ensures ok <==> InputFormats(caps) != {} && Matches(caps, reprocess)
  {
    var inputs, outputs := CollectFormats(caps);
    if |inputs| < 1 {
      return false;
    }
    if |inputs| != |reprocess.Keys| {
      return false;
    }
    var todo := inputs;
    while todo != {}
      invariant todo <= inputs
      invariant forall f | f in inputs && f !in todo :: f in reprocess && reprocess[f] <= outputs
      decreases todo
    {
      var f :| f in todo;
      if f !in reprocess {
        return false;
      }
      if !(reprocess[f] <= outputs) {
        return false;
      }
      todo := todo - {f};
    }
    SubsetOfSameSize(inputs, reprocess.Keys);
    ok := true;
  }

  // ---------------------------------------------------------------- the accepted properties

  /** What the metadata reader finds; None where reading fails. */
  datatype Reader = Reader(
    scalars: bool,     // facing, orientation and request capabilities are readable
    maxInput: Option<int32>, maxOutput: Option<(int32, int32, int32)>,
    configs: Option<seq<Config>>, stalls: Option<seq<Stall>>, reprocess: Option<ReprocessMap>)

  datatype Properties = Properties(maxInput: int32, maxRaw: int32, maxNonStalling: int32, maxStalling: int32,
                                   capabilities: CapabilitiesMap, reprocess: ReprocessMap)

  /** What accepted properties guarantee. */
  ghost predicate WellBuilt(p: Properties) {
    && (forall spec | spec in p.capabilities && p.capabilities[spec].output :: p.capabilities[spec].stall >= 0)
    && (p.maxInput > 0 ==> InputFormats(p.capabilities) != {} && Matches(p.capabilities, p.reprocess))
  }

  /** Accepts metadata exactly when all of it is readable and consistent. */
  method NewStaticProperties(r: Reader) returns (p: Option<Properties>)
    ensures p.Some? ==> WellBuilt(p.value) && r.configs.Some? && r.stalls.Some? && r.maxInput == Some(p.value.maxInput)
                        && Describes(p.value.capabilities, r.configs.value, r.stalls.value)
                        && r.maxOutput == Some((p.value.maxRaw, p.value.maxNonStalling, p.value.maxStalling))
                        && (if p.value.maxInput > 0 then r.reprocess == Some(p.value.reprocess)
                          else p.value.reprocess == map[])
    ensures p.None? ==> !r.scalars || r.maxInput.None? || r.maxOutput.None? || r.configs.None? || r.stalls.None?
                        || (exists c :: c in r.configs.value && c.direction == UnknownDirection)
                        || forall caps: CapabilitiesMap | Describes(caps, r.configs.value, r.stalls.value) ::
                             || (exists spec: Spec :: spec in caps && caps[spec].output && caps[spec].stall < 0)
                             || (r.maxInput.value > 0
                               && (r.reprocess.None? || InputFormats(caps) == {} || !Matches(caps, r.reprocess.value)))
  {
    if !r.scalars || r.maxInput.None? || r.maxOutput.None? || r.configs.None? || r.stalls.None? {
      return None;
    }
    var ok, caps := ConstructStreamCapabilities(r.configs.value, r.stalls.value);
    if !ok {
      return None;
    }
    forall other: CapabilitiesMap | Describes(other, r.configs.value, r.stalls.value)
      ensures other == caps
    {
      DescriptionIsUnique(caps, other, r.configs.value, r.stalls.value);
    }
    ok := ValidateStreamCapabilities(caps);
    if !ok {
      return None;
    }
    var reprocess: ReprocessMap := map[];
    if r.maxInput.value > 0 {
      if r.reprocess.None? {
        return None;
      }
      reprocess := r.reprocess.value;
      ok := ValidateReprocessFormats(caps, reprocess);
      if !ok {
        return None;
      }
    }
    var (raw, nonStalling, stalling) := r.maxOutput.value;
    p := Some(Properties(r.maxInput.value, raw, nonStalling, stalling, caps, reprocess));
  }

  lemma DescriptionIsUnique(a: CapabilitiesMap, b: CapabilitiesMap, configs: seq<Config>, stalls: seq<Stall>)
    requires Describes(a, configs, stalls) && Describes(b, configs, stalls)
    ensures a == b
  {
    assert forall spec :: spec in a <==> spec in b;
  }

  // ---------------------------------------------------------------- checking a stream configuration

  datatype StreamType = OutputStream | InputStream | Bidirectional | OtherStream

  class Stream {
    const kind: StreamType
    const width: int32
    const height: int32
    var format: int32

    constructor (kind: StreamType, width: int32, height: int32, format: int32)
      ensures this.kind == kind && this.width == width && this.height == height && this.format == format
    {
      this.kind, this.width, this.height, this.format := kind, width, height, format;
    }

    function SpecWith(f: int32): Spec {
      Spec(f, width, height)
    }

    function Config(): StreamConfig
      reads this
    {
      StreamConfig(kind, SpecWith(format))
    }
  }

  /** A stream as the caller of a configuration passes it. */
  datatype StreamConfig = StreamConfig(kind: StreamType, spec: Spec)

  ghost function Configs(streams: seq<Stream>): (r: seq<StreamConfig>)
    reads streams
    ensures |r| == |streams|
  {
    seq(|streams|, i requires 0 <= i < |streams| reads streams => streams[i].Config())
  }

  predicate IsInputType(kind: StreamType) {
    kind.InputStream? || kind.Bidirectional?
  }

  predicate IsOutputType(kind: StreamType) {
    kind.OutputStream? || kind.Bidirectional?
  }

  /** Why a configuration's input streams are refused. */
  datatype InputCheck = Supported | UnsupportedInput | TooManyInputs | NoOutputsForInput | NoMatchingOutput

  ghost function InputIndexes(streams: seq<Stream>): set<nat> {
    set i: nat | i < |streams| && IsInputType(streams[i].kind)
  }

  predicate InputSupported(p: Properties, s: Stream)
    reads s
  {
    s.SpecWith(s.format) in p.capabilities && p.capabilities[s.SpecWith(s.format)].input
  }

  /** The input streams of a configuration are supported when each is a supported input, there is at
    most one, and then some output stream has a format it can be reprocessed to. For accepted
    properties the case of an input format without outputs never happens. */
  method InputStreamsSupported(p: Properties, streams: seq<Stream>) returns (r: InputCheck)
    ensures WellBuilt(p) ==> r != NoOutputsForInput
    ensures r.Supported? ==>
              && (forall s | s in streams && IsInputType(s.kind) :: InputSupported(p, s))
              && |InputIndexes(streams)| <= 1
                && |InputIndexes(streams)| <= (if p.maxInput < 0 then 0 else p.maxInput as int)
              && forall i | i in InputIndexes(streams) :: Reprocessable(p, streams, streams[i].format)
    ensures r.UnsupportedInput? ==> exists s :: s in streams && IsInputType(s.kind) && !InputSupported(p, s)
    ensures r.TooManyInputs? ==> |InputIndexes(streams)| > 1 || |InputIndexes(streams)| > p.maxInput as int
    ensures r.NoOutputsForInput? ==> exists i :: i in InputIndexes(streams) && streams[i].format !in p.reprocess
    ensures r.NoMatchingOutput? ==>
            exists i :: i in InputIndexes(streams) && !Reprocessable(p, streams, streams[i].format)
  {
    var numInputs := 0;
    var inputFormat: int32 := -1;
    ghost var last := 0;
    for i := 0 to |streams|
      invariant numInputs == |InputIndexes(streams[..i])|
      invariant forall s | s in streams[..i] && IsInputType(s.kind) :: InputSupported(p, s)
      invariant numInputs > 0 ==> last < i && IsInputType(streams[last].kind) && streams[last].format == inputFormat
    {
      var s := streams[i];
      assert streams[..i + 1] == streams[..i] + [s];
      InputIndexesExtend(streams[..i], s);
      if IsInputType(s.kind) {
        if s.SpecWith(s.format) !in p.capabilities || !p.capabilities[s.SpecWith(s.format)].input {
          assert s in streams;
          return UnsupportedInput;
        }
        numInputs := numInputs + 1;
        inputFormat := s.format;
        last := i;
      }
    }
    assert streams[..|streams|] == streams;
    if numInputs > p.maxInput as int {
      return TooManyInputs;
    }
    if numInputs > 1 {
      return TooManyInputs;
    }
    if numInputs > 0 {
      assert last in InputIndexes(streams) && InputSupported(p, streams[last]) by {
        assert streams[last] in streams;
      }
      OnlyInput(streams, last);
      if inputFormat !in p.reprocess {
        return NoOutputsForInput;
      }
      var found := false;
      for i := 0 to |streams|
        invariant !found && forall j | 0 <= j < i ::
                  !(IsOutputType(streams[j].kind) && streams[j].format in p.reprocess[inputFormat])
      {
        if IsOutputType(streams[i].kind) && streams[i].format in p.reprocess[inputFormat] {
          assert streams[i] in streams;
          found := true;
          break;
        }
      }
      if !found {
        return NoMatchingOutput;
      }
    }
    r := Supported;
  }

  /** Some output stream has a format the given input format can be reprocessed to. */
  ghost predicate Reprocessable(p: Properties, streams: seq<Stream>, inputFormat: int32)
    reads streams
  {
    inputFormat in p.reprocess && exists s ::
      s in streams && IsOutputType(s.kind) && s.format in p.reprocess[inputFormat]
  }

  lemma InputIndexesExtend(streams: seq<Stream>, s: Stream)
    ensures |InputIndexes(streams + [s])| == |InputIndexes(streams)| + if IsInputType(s.kind) then 1 else 0
  {
    assert InputIndexes(streams + [s]) == InputIndexes(streams) + if IsInputType(s.kind) then {|streams|} else {};
  }

  lemma OnlyInput(streams: seq<Stream>, i: nat)
    requires i in InputIndexes(streams) && |InputIndexes(streams)| == 1
    ensures InputIndexes(streams) == {i}
  {
    SubsetOfSameSize({i}, InputIndexes(streams));
  }

  /** The format an output stream is looked up with, and the one it is left with. */
  function LookupFormat(f: int32): int32 {
    if f == FORMAT_RGBA_8888 then FORMAT_IMPLEMENTATION_DEFINED else f
  }

  function FinalFormat(f: int32): int32 {
    if LookupFormat(f) == FORMAT_IMPLEMENTATION_DEFINED then FORMAT_RGBA_8888 else f
  }

  predicate IsRawFormat(f: int32) {
    f == FORMAT_RAW10 || f == FORMAT_RAW12 || f == FORMAT_RAW16 || f == FORMAT_RAW_OPAQUE
  }

  function LookupSpec(spec: Spec): Spec {
    spec.(format := LookupFormat(spec.format))
  }

  predicate OutputSupported(p: Properties, spec: Spec) {
    LookupSpec(spec) in p.capabilities && p.capabilities[LookupSpec(spec)].output
  }

  /** Two-way streams are inputs and outputs. An input is supported if its spec is listed as one; an output if its
    spec is, where RGBA stands for the format left to the device. */
  lemma SupportIff(p: Properties, c: StreamConfig, s: Stream)
    ensures IsInputType(c.kind) <==> c.kind == InputStream || c.kind == Bidirectional
    ensures IsOutputType(c.kind) <==> c.kind == OutputStream || c.kind == Bidirectional
    ensures InputSupported(p, s) <==>
            var spec := Spec(s.format, s.width, s.height); spec in p.capabilities && p.capabilities[spec].input
    ensures OutputSupported(p, c.spec) <==>
            var spec := c.spec.(format := if c.spec.format == 1 then 0x22 else c.spec.format);
            spec in p.capabilities && p.capabilities[spec].output
  {
  }

  /** Every output stream of a configuration is a supported output. */
  ghost predicate Accepts(p: Properties, configs: seq<StreamConfig>) {
    forall c | c in configs && IsOutputType(c.kind) :: OutputSupported(p, c.spec)
  }

  /** Looking a stream up again after its format was rewritten gives the same answer, and rewriting makes
    no format raw or not raw. */
  lemma LookupIsStable(f: int32)
    ensures LookupFormat(FinalFormat(f)) == LookupFormat(f) && FinalFormat(FinalFormat(f)) == FinalFormat(f)
    ensures IsRawFormat(FinalFormat(f)) <==> IsRawFormat(f)
  {
  }

  // ---------------------------------------------------------------- the limits on output streams

  datatype OutputClass = NotOutput | Raw | Stalling | NonStalling

  /** The limit a stream counts against, as the caller passes it. */
  function ClassOf(p: Properties, c: StreamConfig): OutputClass {
    if !IsOutputType(c.kind) then NotOutput
    else if IsRawFormat(c.spec.format) then Raw
    else if CapabilityOf(p.capabilities, LookupSpec(c.spec)).stall > 0 then Stalling
    else NonStalling
  }

  /** The four raw formats are those limited as such; the format left to the device and RGBA stand for each other:
    looked up as the first, left as the second. */
  lemma FormatsIff(f: int32)
    ensures IsRawFormat(f) <==> f == 0x20 || f == 0x24 || f == 0x25 || f == 0x26
    ensures LookupFormat(f) == if f == 1 then 0x22 else f
    ensures FinalFormat(f) == if f == 0x22 then 1 else f
  {
  }

  /** Which limit a stream counts against: an output or two-way stream in a raw format against the raw one, in
    another against that for stalling streams if its capability has a stall, else against the last. */
  lemma ClassIff(p: Properties, c: StreamConfig)
    ensures var output := c.kind == OutputStream || c.kind == Bidirectional;
            var raw := c.spec.format in {0x20, 0x24, 0x25, 0x26};
            var spec := c.spec.(format := if c.spec.format == 1 then 0x22 else c.spec.format);
            var stalls := spec in p.capabilities && p.capabilities[spec].stall > 0;
            && (ClassOf(p, c) == NotOutput <==> !output)
            && (ClassOf(p, c) == Raw <==> output && raw)
            && (ClassOf(p, c) == Stalling <==> output && !raw && stalls)
            && (ClassOf(p, c) == NonStalling <==> output && !raw && !stalls)
  {
    FormatsIff(c.spec.format);
  }

  function CountOf(p: Properties, configs: seq<StreamConfig>, k: OutputClass): nat {
    if configs == [] then 0
    else CountOf(p, configs[..|configs| - 1], k) + if ClassOf(p, configs[|configs| - 1]) == k then 1 else 0
  }

  predicate RespectsLimits(p: Properties, configs: seq<StreamConfig>) {
    && CountOf(p, configs, Raw) <= p.maxRaw as int
    && CountOf(p, configs, Stalling) <= p.maxStalling as int
    && CountOf(p, configs, NonStalling) <= p.maxNonStalling as int
  }

  /** What is logged about the limits. */
  datatype LimitReport = WithinLimits | TooManyRaw | TooManyStalling | TooManyNonStalling

  /** Output streams are supported when each is a supported output under its lookup format; the streams
    looked at are left with their final formats. The limits on their number are reported, not enforced:
    the counters taken from the rewritten streams are those of the configuration as it was passed, and
    an accepted configuration respects the limits exactly when nothing is reported. */
  method OutputStreamsSupported(p: Properties, streams: seq<Stream>) returns (ok: bool, report: LimitReport)
    modifies streams
    ensures ok <==> Accepts(p, old(Configs(streams)))
    ensures ok ==> (report == WithinLimits <==> RespectsLimits(p, old(Configs(streams))))
    ensures ok ==> (report == TooManyRaw <==> CountOf(p, old(Configs(streams)), Raw) > p.maxRaw as int)
    ensures ok ==> (report == TooManyStalling <==>
              CountOf(p, old(Configs(streams)), Raw) <= p.maxRaw as int &&
              CountOf(p, old(Configs(streams)), Stalling) > p.maxStalling as int)
    ensures ok ==> forall s | s in streams ::
                     s.format == if IsOutputType(s.kind) then FinalFormat(old(s.format)) else old(s.format)
    ensures forall s | s in streams ::
              s.format == old(s.format) || (IsOutputType(s.kind) && s.format == FinalFormat(old(s.format)))
  {
    ghost var configs := Configs(streams);
    var numRaw, numStalling, numNonStalling;
    ok, numRaw, numStalling, numNonStalling := CountOutputs(p, streams);
    report := WithinLimits;
    if !ok {
      return;
    }
    if numRaw > p.maxRaw as int {
      report := TooManyRaw;
    } else if numStalling > p.maxStalling as int {
      report := TooManyStalling;
    } else if numNonStalling > p.maxNonStalling as int {
      report := TooManyNonStalling;
    }
    assert forall j {:trigger streams[j]} | 0 <= j < |streams| ::
             configs[j].kind == streams[j].kind && configs[j].spec.format == old(streams[j].format);
  }

  /** The loop over the output streams: it ends early at one that is not supported. */
  method CountOutputs(p: Properties, streams: seq<Stream>)
    returns (ok: bool, numRaw: nat, numStalling: nat, numNonStalling: nat)
    modifies streams
    ensures ok <==> Accepts(p, old(Configs(streams)))
    ensures ok ==> Counted(p, old(Configs(streams)), numRaw, numStalling, numNonStalling)
    ensures ok ==> Rewritten(streams, old(Configs(streams)), |streams|)
    ensures exists n: nat :: n <= |streams| && Rewritten(streams, old(Configs(streams)), n)
  {
    ghost var configs := Configs(streams);
    numRaw, numStalling, numNonStalling := 0, 0, 0;
    for i := 0 to |streams|
      invariant Rewritten(streams, configs, i) && Accepts(p, configs[..i])
      invariant Counted(p, configs[..i], numRaw, numStalling, numNonStalling)
    {
      CountStep(p, configs, i);
      if IsOutputType(streams[i].kind) {
        var k := CheckOutput(p, streams, i, configs);
        assert k != NotOutput ==> k == ClassOf(p, configs[i]);
        match k
        case Raw => numRaw := numRaw + 1;
        case Stalling => numStalling := numStalling + 1;
        case NonStalling => numNonStalling := numNonStalling + 1;
        case NotOutput => return false, numRaw, numStalling, numNonStalling;
      }
    }
    assert configs[..|streams|] == configs;
    ok := true;
  }

  /** The counters are those of the configuration. */
  predicate Counted(p: Properties, configs: seq<StreamConfig>, numRaw: nat, numStalling: nat, numNonStalling: nat) {
    && numRaw == CountOf(p, configs, Raw) && numStalling == CountOf(p, configs, Stalling)
    && numNonStalling == CountOf(p, configs, NonStalling)
  }

  lemma CountStep(p: Properties, configs: seq<StreamConfig>, i: nat)
    requires i < |configs|
    ensures forall k ::
            CountOf(p, configs[..i + 1], k) == CountOf(p, configs[..i], k) + if ClassOf(p, configs[i]) == k then 1
              else 0
    ensures Accepts(p, configs[..i + 1]) <==>
            Accepts(p, configs[..i]) && (IsOutputType(configs[i].kind) ==> OutputSupported(p, configs[i].spec))
    ensures IsOutputType(configs[i].kind) && !OutputSupported(p, configs[i].spec) ==> !Accepts(p, configs)
  {
    assert configs[..i + 1] == configs[..i] + [configs[i]] && configs[..i + 1][..i] == configs[..i];
    assert configs[i] in configs;
  }

  /** The first `n` streams passed as `configs` are left with their final formats; a stream may be listed
    more than once. */
  ghost predicate Rewritten(streams: seq<Stream>, configs: seq<StreamConfig>, n: nat)
    reads streams
  {
    && |configs| == |streams| && n <= |streams|
    && forall j {:trigger streams[j]} {:trigger configs[j]} | 0 <= j < |streams| ::
         && streams[j].Config() == configs[j].(spec := streams[j].SpecWith(streams[j].format))
         && streams[j].SpecWith(configs[j].spec.format) == configs[j].spec
         && (forall i | 0 <= i < |streams| && streams[i] == streams[j] :: configs[i] == configs[j])
         && (streams[j].format == configs[j].spec.format
             || (IsOutputType(configs[j].kind) && streams[j].format == FinalFormat(configs[j].spec.format)))
         && (j < n && IsOutputType(configs[j].kind) ==> streams[j].format == FinalFormat(configs[j].spec.format))
  }

  /** Looks an output stream up, leaves it with its final format and tells which limit it counts against,
    or that it is not supported. */
  method CheckOutput(p: Properties, streams: seq<Stream>, i: nat, ghost configs: seq<StreamConfig>)
    returns (k: OutputClass)
    requires Rewritten(streams, configs, i) && i < |streams| && IsOutputType(streams[i].kind)
    modifies streams[i]
    ensures Rewritten(streams, configs, i + 1)
    ensures k == if OutputSupported(p, configs[i].spec) then ClassOf(p, configs[i]) else NotOutput
  {
    var spec := RewriteFormat(streams, i, configs);
    if spec !in p.capabilities || !p.capabilities[spec].output {
      return NotOutput;
    }
    LookupIsStable(configs[i].spec.format);
    k := if IsRawFormat(streams[i].format) then Raw
         else if p.capabilities[spec].stall > 0 then Stalling
         else NonStalling;
  }

  /** Looks a stream up under its lookup format and leaves it with its final one. */
  method RewriteFormat(streams: seq<Stream>, i: nat, ghost configs: seq<StreamConfig>) returns (spec: Spec)
    requires Rewritten(streams, configs, i) && i < |streams| && IsOutputType(streams[i].kind)
    modifies streams[i]
    ensures Rewritten(streams, configs, i + 1) && spec == LookupSpec(configs[i].spec)
    ensures streams[i].format == FinalFormat(configs[i].spec.format)
  {
    var s := streams[i];
    LookupIsStable(configs[i].spec.format);
    if s.format == FORMAT_RGBA_8888 {
      s.format := FORMAT_IMPLEMENTATION_DEFINED;
    }
    spec := s.SpecWith(s.format);
    if s.format == FORMAT_IMPLEMENTATION_DEFINED {
      s.format := FORMAT_RGBA_8888;
    }
  }

  function Copies(c: StreamConfig, n: nat): (r: seq<StreamConfig>)
    ensures |r| == n && forall d | d in r :: d == c
  {
    seq(n, _ => c)
  }

  lemma {:induction false} CountOfCopies(p: Properties, c: StreamConfig, n: nat, k: OutputClass)
    ensures CountOf(p, Copies(c, n), k) == if ClassOf(p, c) == k then n else 0
  {
    if n > 0 {
      assert Copies(c, n)[..n - 1] == Copies(c, n - 1);
      CountOfCopies(p, c, n - 1, k);
    }
  }

  /** Any number of streams of a supported output is accepted, whatever limit they count against. */
  lemma AcceptedAboveLimit(p: Properties, c: StreamConfig, limit: int32) returns (configs: seq<StreamConfig>)
    requires IsOutputType(c.kind) && OutputSupported(p, c.spec)
    ensures Accepts(p, configs) && CountOf(p, configs, ClassOf(p, c)) > limit as int
  {
    var n := if limit < 0 then 0 else limit as nat + 1;
    configs := Copies(c, n);
    CountOfCopies(p, c, n, ClassOf(p, c));
  }

  /** Exact condition: acceptance enforces the limits for all configurations if and only if no limit is
    negative and nothing at all is a supported output. */
  lemma LimitsEnforcedIff(p: Properties)
    ensures (forall configs | Accepts(p, configs) :: RespectsLimits(p, configs))
            <==> (p.maxRaw >= 0 && p.maxStalling >= 0 && p.maxNonStalling >= 0 &&
                  forall c: StreamConfig | IsOutputType(c.kind) :: !OutputSupported(p, c.spec))
  {
    if c: StreamConfig :| IsOutputType(c.kind) && OutputSupported(p, c.spec) {
      var k := ClassOf(p, c);
      var limit := if k == Raw then p.maxRaw else if k == Stalling then p.maxStalling else p.maxNonStalling;
      var configs := AcceptedAboveLimit(p, c, limit);
      assert Accepts(p, configs) && !RespectsLimits(p, configs);
    } else {
      assert Accepts(p, [])
        && (RespectsLimits(p, []) <==> p.maxRaw >= 0 && p.maxStalling >= 0 && p.maxNonStalling >= 0);
      forall configs | Accepts(p, configs)
        ensures RespectsLimits(p, configs) <==> RespectsLimits(p, [])
      {
        NoOutputsCounted(p, configs);
      }
    }
  }

  lemma {:induction false} NoOutputsCounted(p: Properties, configs: seq<StreamConfig>)
    requires Accepts(p, configs) && forall c | c in configs && IsOutputType(c.kind) :: !OutputSupported(p, c.spec)
    ensures forall k | k != NotOutput :: CountOf(p, configs, k) == 0
  {
    if configs != [] {
      var n := |configs| - 1;
      assert configs[n] in configs;
      NoOutputsCounted(p, configs[..n]);
    }
  }

  /** For any limits there are accepted properties and, for each limit, an accepted configuration above it. */
  lemma EachLimitIsExceeded(maxRaw: int32, maxStalling: int32, maxNonStalling: int32)
    returns (p: Properties, raw: seq<StreamConfig>, stalling: seq<StreamConfig>, nonStalling: seq<StreamConfig>)
    ensures WellBuilt(p) && p.maxRaw == maxRaw && p.maxStalling == maxStalling && p.maxNonStalling == maxNonStalling
    ensures Accepts(p, raw) && CountOf(p, raw, Raw) > maxRaw as int
    ensures Accepts(p, stalling) && CountOf(p, stalling, Stalling) > maxStalling as int
    ensures Accepts(p, nonStalling) && CountOf(p, nonStalling, NonStalling) > maxNonStalling as int
  {
    var rawSpec, slow, fast := Spec(FORMAT_RAW16, 640, 480), Spec(33, 640, 480), Spec(35, 640, 480);
    var output := Capabilities(0, false, true);
    p := Properties(0, maxRaw, maxNonStalling, maxStalling,
                    map[rawSpec := output, slow := output.(stall := 1), fast := output], map[]);
    raw := AcceptedAboveLimit(p, StreamConfig(OutputStream, rawSpec), maxRaw);
    stalling := AcceptedAboveLimit(p, StreamConfig(OutputStream, slow), maxStalling);
    nonStalling := AcceptedAboveLimit(p, StreamConfig(OutputStream, fast), maxNonStalling);
  }
}
