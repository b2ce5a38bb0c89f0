/** The parts of go.uber.org/zap the adapter produces or selects: fields,
    levels, encoder configuration tags, cores, entries and logger options.
    Encoders and cores are tags; what they do with bytes is not modelled. */
module Zap {
  import opened Slog

  /** zapcore.Level is an int8; these are its named levels. The zero value is InfoLevel. */
  type ZapLevel = int
  const DebugLevel: ZapLevel := -1
  const InfoLevel: ZapLevel := 0
  const WarnLevel: ZapLevel := 1
  const ErrorLevel: ZapLevel := 2

  /** A zapcore.Field. Group fields hold the attributes of their groupObject
      unconverted, as zap.Inline and zap.Object hold the marshaler itself. */
  datatype Field =
    | Skip                                    // zap.Skip(); adds nothing to an encoder
    | BoolF(key: string, b: bool)
    | Int64F(key: string, i: int)
    | Uint64F(key: string, u: nat)
    | Float64F(key: string, f: Opaque)
    | StringF(key: string, s: string)
    | DurationF(key: string, d: Opaque)
    | TimeF(key: string, t: Opaque)
    | AnyF(key: string, val: AnyPayload)      // zap.Any(key, val)
    | InlineF(obj: seq<Attr>)                 // zap.Inline(groupObject(obj)): no key
    | ObjectF(key: string, obj: seq<Attr>)    // zap.Object(key, groupObject(obj))
    | NamespaceF(key: string)                 // zap.Namespace(key)

  datatype LevelEncoder = NoLevelEncoder | LowercaseLevelEncoder | CapitalColorLevelEncoder
  datatype TimeEncoder = NoTimeEncoder | ISO8601TimeEncoder | LayoutTimeEncoder(layout: string)
  datatype DurationEncoder = NoDurationEncoder | SecondsDurationEncoder | StringDurationEncoder
  datatype CallerEncoder = NoCallerEncoder | ShortCallerEncoder | FullCallerEncoder

  /** zapcore.EncoderConfig; an empty key omits that entry from the output. */
  datatype EncoderConfig = EncoderConfig(
    timeKey: string,
    levelKey: string,
    nameKey: string,
    callerKey: string,
    messageKey: string,
    stacktraceKey: string,
    lineEnding: string,
    encodeLevel: LevelEncoder,
    encodeTime: TimeEncoder,
    encodeDuration: DurationEncoder,
    encodeCaller: CallerEncoder)

  /** zapcore.DefaultLineEnding */
  const DefaultLineEnding: string := "\n"

  datatype Encoder = JSONEncoder(config: EncoderConfig) | ConsoleEncoder(config: EncoderConfig)

  /** A zapcore.Core, recorded by how it was built. */
  datatype Core =
    | IoCore(encoder: Encoder, level: ZapLevel)   // zapcore.NewCore(encoder, sink, level)
    | ExternalCore(id: nat)                       // a core supplied from outside
    | CoreWith(parent: Core, fields: seq<Field>)  // parent.With(fields)

  /** zapcore.Entry, the metadata Check decides on. */
  datatype Entry = Entry(level: ZapLevel, time: Opaque, message: string, loggerName: string)

  /** A runtime.Frame; pc is 0 when the frame is unknown. */
  datatype Frame = Frame(pc: nat, file: string, line: int, func: string)

  /** zapcore.EntryCaller */
  datatype EntryCaller =
    | UndefinedCaller
    | DefinedCaller(pc: nat, file: string, line: int, func: string)

  /** The sampler zapcore.NewSamplerWithOptions installs: per `tick` nanoseconds,
      log the first `first` entries, then every `thereafter`-th. */
  datatype Sampler = Sampler(tick: nat, first: int, thereafter: int)

  /** time.Second in nanoseconds. */
  const Second: nat := 1_000_000_000

  /** A zap.Option. */
  datatype ZapOption =
    | AddCallerSkip(skip: int)
    | AddCaller
    | AddStacktrace(level: ZapLevel)
    | Development
    | WrapCore(sampler: Sampler)   // zap.WrapCore wrapping the core in a sampler
}
