/** Encoder and zap-option selection from a logging configuration
    (logger/formats.go). Encoders and options are tags. */
module Formats {
  import opened Wrappers
  import opened Zap

  /** The sampling section of the logging configuration. */
  datatype SamplingConfig = SamplingConfig(enabled: bool, initial: int, thereafter: int)

  /** The parts of the logging configuration getEncoder and createZapOptions read. */
  datatype LoggingConfig = LoggingConfig(
    format: string,
    includeCaller: bool,
    includeStacktrace: bool,
    development: bool,
    sampling: SamplingConfig)

  /** The time layout development mode formats timestamps with. */
  const DevelopmentTimeLayout: string := "2006-01-02 15:04:05.000"

  /** The encoder configuration getEncoder builds before choosing an encoder. */
  function EncoderConfigFor(development: bool): (e: EncoderConfig)
    ensures && e.timeKey == "timestamp" && e.levelKey == "level"
            && e.nameKey == "logger" && e.callerKey == "caller"
            && e.messageKey == "message" && e.stacktraceKey == "stacktrace"
            && e.lineEnding == DefaultLineEnding
    ensures !development ==>
              && e.encodeLevel == LowercaseLevelEncoder
              && e.encodeTime == ISO8601TimeEncoder
              && e.encodeDuration == SecondsDurationEncoder
              && e.encodeCaller == ShortCallerEncoder
    ensures development ==>
              && e.encodeLevel == CapitalColorLevelEncoder
              && e.encodeTime == LayoutTimeEncoder(DevelopmentTimeLayout)
              && e.encodeDuration == StringDurationEncoder
              && e.encodeCaller == FullCallerEncoder
  {
    var base := EncoderConfig(
      "timestamp", "level", "logger", "caller", "message", "stacktrace", DefaultLineEnding,
      LowercaseLevelEncoder, ISO8601TimeEncoder, SecondsDurationEncoder, ShortCallerEncoder);
    if development then
      base.(encodeLevel := CapitalColorLevelEncoder,
            encodeTime := LayoutTimeEncoder(DevelopmentTimeLayout),
            encodeDuration := StringDurationEncoder,
            encodeCaller := FullCallerEncoder)
    else base
  }

  /** getEncoder: console only for the format "console"; the keys never depend
      on the mode, and development mode swaps exactly the four encoders. */
  function GetEncoder(c: LoggingConfig): (e: Encoder)
    ensures e.ConsoleEncoder? <==> c.format == "console"
    ensures e.JSONEncoder? <==> c.format != "console"
    ensures e.config == EncoderConfigFor(c.development)
    ensures && e.config.timeKey == "timestamp" && e.config.levelKey == "level"
            && e.config.nameKey == "logger" && e.config.callerKey == "caller"
            && e.config.messageKey == "message" && e.config.stacktraceKey == "stacktrace"
            && e.config.lineEnding == DefaultLineEnding
    ensures !c.development ==>
              && e.config.encodeLevel == LowercaseLevelEncoder
              && e.config.encodeTime == ISO8601TimeEncoder
              && e.config.encodeDuration == SecondsDurationEncoder
              && e.config.encodeCaller == ShortCallerEncoder
    ensures c.development ==>
              && e.config.encodeLevel == CapitalColorLevelEncoder
              && e.config.encodeTime == LayoutTimeEncoder(DevelopmentTimeLayout)
              && e.config.encodeDuration == StringDurationEncoder
              && e.config.encodeCaller == FullCallerEncoder
  {
    var cfg := EncoderConfigFor(c.development);
    if c.format == "json" then JSONEncoder(cfg)
    else if c.format == "console" then ConsoleEncoder(cfg)
    else JSONEncoder(cfg)
  }

  /** The format picks the encoder and nothing else: two configurations in
      the same mode get the same encoder configuration. */
  lemma FormatOnlyPicksEncoder(a: LoggingConfig, b: LoggingConfig)
    requires a.development == b.development
    ensures GetEncoder(a).config == GetEncoder(b).config
    ensures GetEncoder(a) == GetEncoder(b) <==> (a.format == "console" <==> b.format == "console")
  {
  }

  /** Development mode changes the four encoders and leaves every key alone. */
  lemma DevelopmentSwapsOnlyEncoders(c: LoggingConfig)
    ensures GetEncoder(c.(development := true)).config
         == GetEncoder(c.(development := false)).config.(
              encodeLevel := CapitalColorLevelEncoder,
              encodeTime := LayoutTimeEncoder(DevelopmentTimeLayout),
              encodeDuration := StringDurationEncoder,
              encodeCaller := FullCallerEncoder)
  {
  }

  /** The sampler createZapOptions wraps the core in. */
  function SamplerFor(s: SamplingConfig): Sampler
  {
    Sampler(Second, s.initial, s.thereafter)
  }

  /** `[o]` when `cond` holds, nothing otherwise. */
  function OptionIf(cond: bool, o: ZapOption): seq<ZapOption>
  {
    if cond then [o] else []
  }

  /** `opts` with `o` appended when `cond` holds. */
  function AppendIf(opts: seq<ZapOption>, cond: bool, o: ZapOption): seq<ZapOption>
  {
    opts + OptionIf(cond, o)
  }

  /** The position of each kind of option in createZapOptions' fixed order. */
  function Rank(o: ZapOption): nat
  {
    match o
    case AddCallerSkip(_) => 0
    case AddCaller => 1
    case AddStacktrace(_) => 2
    case Development => 3
    case WrapCore(_) => 4
  }

  function BoolToNat(b: bool): nat
  {
    if b then 1 else 0
  }

  /** The options appear in strictly increasing rank, so none appears twice. */
  predicate RankOrdered(opts: seq<ZapOption>)
  {
    forall i, j :: 0 <= i < j < |opts| ==> Rank(opts[i]) < Rank(opts[j])
  }

  /** One conditional append keeps the list rank-ordered and adds one option
      exactly when the condition holds. */
  lemma AppendIfStep(opts: seq<ZapOption>, cond: bool, o: ZapOption)
    requires RankOrdered(opts)
    requires |opts| > 0 && Rank(opts[|opts| - 1]) < Rank(o)
    ensures RankOrdered(AppendIf(opts, cond, o))
    ensures |AppendIf(opts, cond, o)| == |opts| + BoolToNat(cond)
    ensures AppendIf(opts, cond, o)[0] == opts[0]
    ensures Rank(AppendIf(opts, cond, o)[|AppendIf(opts, cond, o)| - 1]) <= Rank(o)
  {
  }

  /** createZapOptions: caller skip first, then one option per enabled flag,
      in the fixed order caller, stack trace, development, sampling. */
  function CreateZapOptions(c: LoggingConfig): (opts: seq<ZapOption>)
    ensures |opts| > 0 && opts[0] == AddCallerSkip(1)
  {
    var opts := [AddCallerSkip(1)];
    var opts := AppendIf(opts, c.includeCaller, AddCaller);
    var opts := AppendIf(opts, c.includeStacktrace, AddStacktrace(ErrorLevel));
    var opts := AppendIf(opts, c.development, Development);
    AppendIf(opts, c.sampling.enabled, WrapCore(SamplerFor(c.sampling)))
  }

  /** Each option is in the list exactly when its flag is set. */
  lemma CreateZapOptionsMembers(c: LoggingConfig)
    ensures AddCaller in CreateZapOptions(c) <==> c.includeCaller
    ensures AddStacktrace(ErrorLevel) in CreateZapOptions(c) <==> c.includeStacktrace
    ensures Development in CreateZapOptions(c) <==> c.development
    ensures WrapCore(SamplerFor(c.sampling)) in CreateZapOptions(c) <==> c.sampling.enabled
  {
  }

  /** One option per enabled flag after the caller skip, in the fixed order,
      so no option appears twice. */
  lemma CreateZapOptionsOrder(c: LoggingConfig)
    ensures |CreateZapOptions(c)| == 1 + BoolToNat(c.includeCaller) + BoolToNat(c.includeStacktrace)
                                       + BoolToNat(c.development) + BoolToNat(c.sampling.enabled)
    ensures RankOrdered(CreateZapOptions(c))
  {
    var o0 := [AddCallerSkip(1)];
    var o1 := AppendIf(o0, c.includeCaller, AddCaller);
    AppendIfStep(o0, c.includeCaller, AddCaller);
    var o2 := AppendIf(o1, c.includeStacktrace, AddStacktrace(ErrorLevel));
    AppendIfStep(o1, c.includeStacktrace, AddStacktrace(ErrorLevel));
    var o3 := AppendIf(o2, c.development, Development);
    AppendIfStep(o2, c.development, Development);
    AppendIfStep(o3, c.sampling.enabled, WrapCore(SamplerFor(c.sampling)));
  }

  /** What an option list says about a configuration: each flag, and the
      sampler when sampling is on. */
  datatype OptionFlags = OptionFlags(caller: bool, stacktrace: bool, development: bool, sampler: Option<Sampler>)

  /** The flags a configuration asks createZapOptions for. */
  function FlagsOf(c: LoggingConfig): OptionFlags
  {
    OptionFlags(c.includeCaller, c.includeStacktrace, c.development,
                if c.sampling.enabled then Some(SamplerFor(c.sampling)) else None)
  }

  /** The sampler of the first WrapCore option in the list, if any. */
  function FindSampler(opts: seq<ZapOption>): (r: Option<Sampler>)
    ensures r.Some? ==> WrapCore(r.value) in opts
    ensures r.None? ==> forall i :: 0 <= i < |opts| ==> !opts[i].WrapCore?
  {
    if |opts| == 0 then None
    else if opts[0].WrapCore? then Some(opts[0].sampler)
    else FindSampler(opts[1..])
  }

  /** Reads an option list back into the flags that produced it. */
  function ReadOptions(opts: seq<ZapOption>): OptionFlags
  {
    OptionFlags(AddCaller in opts, AddStacktrace(ErrorLevel) in opts, Development in opts, FindSampler(opts))
  }

  /** The option list loses nothing: reading it back gives the configuration's flags. */
  lemma OptionsRoundTrip(c: LoggingConfig)
    ensures ReadOptions(CreateZapOptions(c)) == FlagsOf(c)
  {
    var opts := CreateZapOptions(c);
    CreateZapOptionsMembers(c);
    CreateZapOptionsOrder(c);
    if c.sampling.enabled {
      var i :| 0 <= i < |opts| && opts[i] == WrapCore(SamplerFor(c.sampling));
      assert Rank(opts[i]) == 4;
      SamplerIsLast(opts);
    }
  }

  /** In a rank-ordered list, a WrapCore is necessarily the last option. */
  lemma {:induction false} SamplerIsLast(opts: seq<ZapOption>)
    requires RankOrdered(opts)
    requires |opts| > 0 && opts[|opts| - 1].WrapCore?
    ensures FindSampler(opts) == Some(opts[|opts| - 1].sampler)
    decreases |opts|
  {
    if |opts| > 1 {
      assert Rank(opts[0]) < Rank(opts[|opts| - 1]);
      assert opts[1..][|opts[1..]| - 1] == opts[|opts| - 1];
      SamplerIsLast(opts[1..]);
    }
  }

  /** Two configurations get the same option list exactly when they ask for
      the same flags: format and a disabled sampler's settings do not matter. */
  lemma SameOptionsIff(a: LoggingConfig, b: LoggingConfig)
    ensures CreateZapOptions(a) == CreateZapOptions(b) <==> FlagsOf(a) == FlagsOf(b)
  {
    if CreateZapOptions(a) == CreateZapOptions(b) {
      OptionsRoundTrip(a);
      OptionsRoundTrip(b);
    }
  }
}
