/** The logger facade of logger/logger.go and the handler wiring of
    logger/handler.go: a configuration built from defaults and functional
    options, a slog logger over the zap handler, With/Clone and the context
    round trip. Opening the output file is not modelled; `output` is kept
    as the configured path. */
module Logger {
  import opened Wrappers
  import opened Slog
  import opened Masq
  import opened Ctx
  import Zap
  import ZH = ZapHandler
  import HO = HandlerOptions

  /** The handler kind: a named string. */
  datatype Kind = Kind(name: string)

  /** Kind.String: the underlying string, from which the kind is recovered. */
  function KindString(k: Kind): (s: string)
    ensures Kind(s) == k
  {
    k.name
  }

  const KindZap: Kind := Kind("ZapHandler")

  /** Config; `output` is the Output path. */
  datatype Config = Config(
    kind: Kind,
    level: Level,
    addSource: bool,
    addStackTraceAt: Level,
    callerSkipCount: int,
    maskOptions: seq<MaskOption>,
    output: string)

  /** An Option edits the configuration New is building. */
  type Option = Config -> Config

  /** The configuration New starts from: fixed defaults and one field-prefix
      mask option per PII key, in key order. */
  function DefaultConfig(piiKeys: seq<string>): (c: Config)
    ensures c.kind == KindZap && KindString(c.kind) == "ZapHandler"
    ensures c.level == LevelInfo && c.addSource && c.addStackTraceAt == LevelError
    ensures c.callerSkipCount == 1 && c.output == ""
    ensures |c.maskOptions| == |piiKeys|
    ensures forall i :: 0 <= i < |piiKeys| ==> c.maskOptions[i] == FieldPrefix(piiKeys[i])
  {
    Config(KindZap, LevelInfo, true, LevelError, 1, FieldPrefixes(piiKeys), "")
  }

  /** Runs the options left to right. */
  function ApplyOptions(c: Config, opts: seq<Option>): Config
    decreases |opts|
  {
    if |opts| == 0 then c else ApplyOptions(opts[0](c), opts[1..])
  }

  /** The configuration New(opts...) ends up with. */
  function NewConfig(piiKeys: seq<string>, opts: seq<Option>): Config
  {
    ApplyOptions(DefaultConfig(piiKeys), opts)
  }

  /** WithKind sets the kind and nothing else. */
  function WithKind(kind: Kind): (o: Option)
    ensures forall c :: o(c).kind == kind && o(c).(kind := c.kind) == c
  {
    (c: Config) => c.(kind := kind)
  }

  /** WithLevel sets the level and nothing else. */
  function WithLevel(level: Level): (o: Option)
    ensures forall c :: o(c).level == level && o(c).(level := c.level) == c
  {
    (c: Config) => c.(level := level)
  }

  /** WithAddSource sets the source flag and nothing else. */
  function WithAddSource(addSource: bool): (o: Option)
    ensures forall c :: o(c).addSource == addSource && o(c).(addSource := c.addSource) == c
  {
    (c: Config) => c.(addSource := addSource)
  }

  /** WithAddStackTraceAt sets the stack-trace level and nothing else. */
  function WithAddStackTraceAt(level: Level): (o: Option)
    ensures forall c :: o(c).addStackTraceAt == level && o(c).(addStackTraceAt := c.addStackTraceAt) == c
  {
    (c: Config) => c.(addStackTraceAt := level)
  }

  /** WithCallerSkipCount sets the skip count and nothing else. */
  function WithCallerSkipCount(skip: int): (o: Option)
    ensures forall c :: o(c).callerSkipCount == skip && o(c).(callerSkipCount := c.callerSkipCount) == c
  {
    (c: Config) => c.(callerSkipCount := skip)
  }

  /** WithSecureFields appends one field-prefix option per name, keeping the
      existing ones, and changes nothing else. */
  function WithSecureFields(fields: seq<string>): (o: Option)
    ensures forall c ::
              && |o(c).maskOptions| == |c.maskOptions| + |fields|
              && o(c).maskOptions[..|c.maskOptions|] == c.maskOptions
              && (forall i :: 0 <= i < |fields| ==> o(c).maskOptions[|c.maskOptions| + i] == FieldPrefix(fields[i]))
              && o(c).(maskOptions := c.maskOptions) == c
  {
    (c: Config) => c.(maskOptions := c.maskOptions + FieldPrefixes(fields))
  }

  /** WithMaskOptions appends its options after the existing ones and changes nothing else. */
  function WithMaskOptions(opts: seq<MaskOption>): (o: Option)
    ensures forall c :: o(c).maskOptions == c.maskOptions + opts && o(c).(maskOptions := c.maskOptions) == c
  {
    (c: Config) => c.(maskOptions := c.maskOptions + opts)
  }

  /** WithOutfile sets the output path and nothing else. */
  function WithOutfile(outfile: string): (o: Option)
    ensures forall c :: o(c).output == outfile && o(c).(output := c.output) == c
  {
    (c: Config) => c.(output := outfile)
  }

  /** Options run left to right: the last option runs on the result of the others. */
  lemma {:induction false} ApplyLast(c: Config, opts: seq<Option>, o: Option)
    ensures ApplyOptions(c, opts + [o]) == o(ApplyOptions(c, opts))
    decreases |opts|
  {
    if |opts| == 0 {
      assert opts + [o] == [o];
      assert [o][1..] == [];
    } else {
      assert (opts + [o])[1..] == opts[1..] + [o];
      ApplyLast(opts[0](c), opts[1..], o);
    }
  }

  /** Running `a` then `b` is running `a + b`. */
  lemma {:induction false} ApplyAppend(c: Config, a: seq<Option>, b: seq<Option>)
    ensures ApplyOptions(c, a + b) == ApplyOptions(ApplyOptions(c, a), b)
    decreases |a|
  {
    if |a| == 0 {
      assert a + b == b;
    } else {
      assert (a + b)[1..] == a[1..] + b;
      ApplyAppend(a[0](c), a[1..], b);
    }
  }

  /** The scalar configuration fields the last-setter lemma speaks about. */
  function KindOf(c: Config): Kind { c.kind }
  function LevelOf(c: Config): Level { c.level }
  function AddSourceOf(c: Config): bool { c.addSource }
  function StackLevelOf(c: Config): Level { c.addStackTraceAt }
  function SkipCountOf(c: Config): int { c.callerSkipCount }
  function OutputOf(c: Config): string { c.output }

  /** An option that leaves the field `get` reads alone. */
  ghost predicate Keeps<T>(o: Option, get: Config -> T)
  {
    forall c :: get(o(c)) == get(c)
  }

  /** Options that each keep a field keep it through the whole run. */
  lemma {:induction false} KeptThroughOptions<T>(c: Config, opts: seq<Option>, get: Config -> T)
    requires forall i :: 0 <= i < |opts| ==> Keeps(opts[i], get)
    ensures get(ApplyOptions(c, opts)) == get(c)
    decreases |opts|
  {
    if |opts| > 0 {
      assert Keeps(opts[0], get);
      KeptThroughOptions(opts[0](c), opts[1..], get);
    }
  }

  /** A setter decides its field when it runs last, and still does when
      only options that keep the field follow it. */
  lemma SetterWins<T>(c: Config, opts: seq<Option>, o: Option, rest: seq<Option>, get: Config -> T, val: T)
    requires forall c' :: get(o(c')) == val
    ensures get(ApplyOptions(c, opts + [o])) == val
    ensures (forall i :: 0 <= i < |rest| ==> Keeps(rest[i], get)) ==> get(ApplyOptions(c, opts + [o] + rest)) == val
  {
    ApplyLast(c, opts, o);
    if forall i :: 0 <= i < |rest| ==> Keeps(rest[i], get) {
      ApplyAppend(c, opts + [o], rest);
      KeptThroughOptions(ApplyOptions(c, opts + [o]), rest, get);
    }
  }

  /** The last WithKind decides `kind`, also when options that keep it follow. */
  lemma LastKindWins(piiKeys: seq<string>, opts: seq<Option>, rest: seq<Option>, kind: Kind)
    ensures NewConfig(piiKeys, opts + [WithKind(kind)]).kind == kind
    ensures (forall i :: 0 <= i < |rest| ==> Keeps(rest[i], KindOf)) ==>
              NewConfig(piiKeys, opts + [WithKind(kind)] + rest).kind == kind
  {
    SetterWins(DefaultConfig(piiKeys), opts, WithKind(kind), rest, KindOf, kind);
  }

  /** The last WithLevel decides `level`, also when options that keep it follow. */
  lemma LastLevelWins(piiKeys: seq<string>, opts: seq<Option>, rest: seq<Option>, level: Level)
    ensures NewConfig(piiKeys, opts + [WithLevel(level)]).level == level
    ensures (forall i :: 0 <= i < |rest| ==> Keeps(rest[i], LevelOf)) ==>
              NewConfig(piiKeys, opts + [WithLevel(level)] + rest).level == level
  {
    SetterWins(DefaultConfig(piiKeys), opts, WithLevel(level), rest, LevelOf, level);
  }

  /** The last WithAddSource decides `addSource`, also when options that keep it follow. */
  lemma LastAddSourceWins(piiKeys: seq<string>, opts: seq<Option>, rest: seq<Option>, addSource: bool)
    ensures NewConfig(piiKeys, opts + [WithAddSource(addSource)]).addSource == addSource
    ensures (forall i :: 0 <= i < |rest| ==> Keeps(rest[i], AddSourceOf)) ==>
              NewConfig(piiKeys, opts + [WithAddSource(addSource)] + rest).addSource == addSource
  {
    SetterWins(DefaultConfig(piiKeys), opts, WithAddSource(addSource), rest, AddSourceOf, addSource);
  }

  /** The last WithAddStackTraceAt decides `addStackTraceAt`, also when options that keep it follow. */
  lemma LastStackLevelWins(piiKeys: seq<string>, opts: seq<Option>, rest: seq<Option>, stackAt: Level)
    ensures NewConfig(piiKeys, opts + [WithAddStackTraceAt(stackAt)]).addStackTraceAt == stackAt
    ensures (forall i :: 0 <= i < |rest| ==> Keeps(rest[i], StackLevelOf)) ==>
              NewConfig(piiKeys, opts + [WithAddStackTraceAt(stackAt)] + rest).addStackTraceAt == stackAt
  {
    SetterWins(DefaultConfig(piiKeys), opts, WithAddStackTraceAt(stackAt), rest, StackLevelOf, stackAt);
  }

  /** The last WithCallerSkipCount decides `callerSkipCount`, also when options that keep it follow. */
  lemma LastSkipCountWins(piiKeys: seq<string>, opts: seq<Option>, rest: seq<Option>, skip: int)
    ensures NewConfig(piiKeys, opts + [WithCallerSkipCount(skip)]).callerSkipCount == skip
    ensures (forall i :: 0 <= i < |rest| ==> Keeps(rest[i], SkipCountOf)) ==>
              NewConfig(piiKeys, opts + [WithCallerSkipCount(skip)] + rest).callerSkipCount == skip
  {
    SetterWins(DefaultConfig(piiKeys), opts, WithCallerSkipCount(skip), rest, SkipCountOf, skip);
  }

  /** The last WithOutfile decides `output`, also when options that keep it follow. */
  lemma LastOutputWins(piiKeys: seq<string>, opts: seq<Option>, rest: seq<Option>, outfile: string)
    ensures NewConfig(piiKeys, opts + [WithOutfile(outfile)]).output == outfile
    ensures (forall i :: 0 <= i < |rest| ==> Keeps(rest[i], OutputOf)) ==>
              NewConfig(piiKeys, opts + [WithOutfile(outfile)] + rest).output == outfile
  {
    SetterWins(DefaultConfig(piiKeys), opts, WithOutfile(outfile), rest, OutputOf, outfile);
  }

  /** For every scalar field, a setter appended last to New's options decides
      its value, whatever ran before it. The Last<Field>Wins lemmas above also
      allow options after the setter that keep the field. */
  lemma LastSetterWins(piiKeys: seq<string>, opts: seq<Option>, kind: Kind, level: Level,
                       addSource: bool, stackAt: Level, skip: int, outfile: string)
    ensures NewConfig(piiKeys, opts + [WithKind(kind)]).kind == kind
    ensures NewConfig(piiKeys, opts + [WithLevel(level)]).level == level
    ensures NewConfig(piiKeys, opts + [WithAddSource(addSource)]).addSource == addSource
    ensures NewConfig(piiKeys, opts + [WithAddStackTraceAt(stackAt)]).addStackTraceAt == stackAt
    ensures NewConfig(piiKeys, opts + [WithCallerSkipCount(skip)]).callerSkipCount == skip
    ensures NewConfig(piiKeys, opts + [WithOutfile(outfile)]).output == outfile
  {
    var c := DefaultConfig(piiKeys);
    ApplyLast(c, opts, WithKind(kind));
    ApplyLast(c, opts, WithLevel(level));
    ApplyLast(c, opts, WithAddSource(addSource));
    ApplyLast(c, opts, WithAddStackTraceAt(stackAt));
    ApplyLast(c, opts, WithCallerSkipCount(skip));
    ApplyLast(c, opts, WithOutfile(outfile));
  }

  /** New(WithKind(k), WithLevel(l)) has kind k: the level option that runs
      after the kind setter leaves the kind alone. */
  lemma KindSurvivesLaterLevel(piiKeys: seq<string>, kind: Kind, level: Level)
    ensures NewConfig(piiKeys, [WithKind(kind), WithLevel(level)]).kind == kind
    ensures NewConfig(piiKeys, [WithKind(kind), WithLevel(level)]).level == level
  {
    assert Keeps(WithLevel(level), KindOf);
    LastKindWins(piiKeys, [], [WithLevel(level)], kind);
    LastLevelWins(piiKeys, [WithKind(kind)], [], level);
    assert [] + [WithKind(kind)] + [WithLevel(level)] == [WithKind(kind), WithLevel(level)];
    assert [WithKind(kind)] + [WithLevel(level)] == [WithKind(kind), WithLevel(level)];
  }

  /** An option that only ever appends to the mask options. */
  ghost predicate KeepsMasks(o: Option)
  {
    forall c: Config :: c.maskOptions <= o(c).maskOptions
  }

  /** Every option of this file keeps the mask options already collected. */
  lemma SettersKeepMasks(kind: Kind, level: Level, addSource: bool, stackAt: Level, skip: int,
                         fields: seq<string>, masks: seq<MaskOption>, outfile: string)
    ensures KeepsMasks(WithKind(kind)) && KeepsMasks(WithLevel(level))
    ensures KeepsMasks(WithAddSource(addSource)) && KeepsMasks(WithAddStackTraceAt(stackAt))
    ensures KeepsMasks(WithCallerSkipCount(skip)) && KeepsMasks(WithOutfile(outfile))
    ensures KeepsMasks(WithSecureFields(fields)) && KeepsMasks(WithMaskOptions(masks))
  {
  }

  lemma {:induction false} MasksKeptThroughOptions(c: Config, opts: seq<Option>)
    requires forall i :: 0 <= i < |opts| ==> KeepsMasks(opts[i])
    ensures c.maskOptions <= ApplyOptions(c, opts).maskOptions
    decreases |opts|
  {
    if |opts| > 0 {
      assert KeepsMasks(opts[0]);
      MasksKeptThroughOptions(opts[0](c), opts[1..]);
    }
  }

  /** However the options are combined, the PII field prefixes stay at the
      front of the mask options, in key order. */
  lemma PiiMasksSurvive(piiKeys: seq<string>, opts: seq<Option>)
    requires forall i :: 0 <= i < |opts| ==> KeepsMasks(opts[i])
    ensures FieldPrefixes(piiKeys) <= NewConfig(piiKeys, opts).maskOptions
  {
    MasksKeptThroughOptions(DefaultConfig(piiKeys), opts);
  }

  /** The encoder configuration newZapSlogHandler gives the JSON encoder. The
      logger-name key, line ending and duration encoder are left unset. */
  const HandlerEncoderConfig: Zap.EncoderConfig := Zap.EncoderConfig(
    "time", "level", "", "caller", "message", "stacktrace", "",
    Zap.LowercaseLevelEncoder, Zap.ISO8601TimeEncoder, Zap.NoDurationEncoder, Zap.ShortCallerEncoder)

  /** The handler options newZapSlogHandler passes, in its order. */
  function HandlerOptionsFor(cfg: Config): (opts: seq<ZH.HandlerOption>)
    ensures |opts| == 5
  {
    [ HO.WithName(KindString(cfg.kind)),
      HO.WithAddCaller(cfg.addSource),
      HO.WithAddStackTraceAt(cfg.addStackTraceAt),
      HO.WithCallerSkipCount(cfg.callerSkipCount),
      HO.WithReplaceAttr(Some(ZH.MasqRedactor(cfg.maskOptions))) ]
  }

  /** `h` with the five fields newZapSlogHandler configures taken from `cfg`. */
  function Wired(h: ZH.Handler, cfg: Config): ZH.Handler
  {
    h.(name := cfg.kind.name, addCaller := cfg.addSource, addStackAt := cfg.addStackTraceAt,
       callerSkipCount := cfg.callerSkipCount, replaceAttr := Some(ZH.MasqRedactor(cfg.maskOptions)))
  }

  /** newZapSlogHandler: a JSON core at SlogToZapLevel[cfg.Level] (Info for
      an unmapped level), and every handler field taken from the configuration,
      with the masq redactor built from the mask options as the hook. */
  function NewZapSlogHandler(cfg: Config): (h: ZH.Handler)
    ensures h.core == Zap.IoCore(Zap.JSONEncoder(HandlerEncoderConfig), ZH.ZapLevelOf(cfg.level))
    ensures cfg.level !in ZH.SlogToZapLevel ==> h.core.level == Zap.InfoLevel
    ensures h.name == cfg.kind.name && h.addCaller == cfg.addSource
    ensures h.addStackAt == cfg.addStackTraceAt && h.callerSkipCount == cfg.callerSkipCount
    ensures h.replaceAttr == Some(ZH.MasqRedactor(cfg.maskOptions))
    ensures h.groups == []
  {
    var core := Zap.IoCore(Zap.JSONEncoder(HandlerEncoderConfig), ZH.ZapLevelOf(cfg.level));
    WiringSetsEachField(core, cfg);
    ZH.New(core, HandlerOptionsFor(cfg))
  }

  /** Whatever handler they run on, the five options set the name, caller
      flag, stack level, skip count and hook from the configuration, and leave
      the core and the groups alone. */
  lemma HandlerOptionsSetFields(h: ZH.Handler, cfg: Config)
    ensures ZH.ApplyHandlerOptions(h, HandlerOptionsFor(cfg)) == Wired(h, cfg)
  {
    var o1, o2, o3, o4, o5 := HO.WithName(KindString(cfg.kind)), HO.WithAddCaller(cfg.addSource),
      HO.WithAddStackTraceAt(cfg.addStackTraceAt), HO.WithCallerSkipCount(cfg.callerSkipCount),
      HO.WithReplaceAttr(Some(ZH.MasqRedactor(cfg.maskOptions)));
    HandlerOptionsList(cfg);
    ApplyFive(h, o1, o2, o3, o4, o5);
    WiringSteps(h, cfg);
  }

  lemma HandlerOptionsList(cfg: Config)
    ensures HandlerOptionsFor(cfg)
         == [HO.WithName(KindString(cfg.kind))] + ([HO.WithAddCaller(cfg.addSource)] +
            ([HO.WithAddStackTraceAt(cfg.addStackTraceAt)] + ([HO.WithCallerSkipCount(cfg.callerSkipCount)] +
             [HO.WithReplaceAttr(Some(ZH.MasqRedactor(cfg.maskOptions)))])))
  {
  }

  /** The five options, run on New's defaults, set each handler field once. */
  lemma WiringSetsEachField(core: Zap.Core, cfg: Config)
    ensures ZH.New(core, HandlerOptionsFor(cfg))
         == ZH.Handler(core, cfg.kind.name, cfg.addSource, cfg.addStackTraceAt, cfg.callerSkipCount,
                       Some(ZH.MasqRedactor(cfg.maskOptions)), [])
  {
    HandlerOptionsSetFields(ZH.DefaultHandler(core), cfg);
  }

  /** What the five wiring setters make of a handler, one at a time. */
  lemma WiringSteps(h0: ZH.Handler, cfg: Config)
    ensures HO.WithReplaceAttr(Some(ZH.MasqRedactor(cfg.maskOptions)))(
              HO.WithCallerSkipCount(cfg.callerSkipCount)(
                HO.WithAddStackTraceAt(cfg.addStackTraceAt)(
                  HO.WithAddCaller(cfg.addSource)(
                    HO.WithName(KindString(cfg.kind))(h0)))))
         == Wired(h0, cfg)
  {
    var h1 := h0.(name := cfg.kind.name);
    var h2 := h1.(addCaller := cfg.addSource);
    var h3 := h2.(addStackAt := cfg.addStackTraceAt);
    var h4 := h3.(callerSkipCount := cfg.callerSkipCount);
    assert HO.WithName(KindString(cfg.kind))(h0) == h1;
    assert HO.WithAddCaller(cfg.addSource)(h1) == h2;
    assert HO.WithAddStackTraceAt(cfg.addStackTraceAt)(h2) == h3;
    assert HO.WithCallerSkipCount(cfg.callerSkipCount)(h3) == h4;
  }

  /** Five options run one after another. */
  lemma ApplyFive(h: ZH.Handler, o1: ZH.HandlerOption, o2: ZH.HandlerOption, o3: ZH.HandlerOption,
                  o4: ZH.HandlerOption, o5: ZH.HandlerOption)
    ensures ZH.ApplyHandlerOptions(h, [o1] + ([o2] + ([o3] + ([o4] + [o5])))) == o5(o4(o3(o2(o1(h)))))
  {
    ApplyFirst(h, o1, [o2] + ([o3] + ([o4] + [o5])));
    ApplyFirst(o1(h), o2, [o3] + ([o4] + [o5]));
    ApplyFirst(o2(o1(h)), o3, [o4] + [o5]);
    ApplyFirst(o3(o2(o1(h))), o4, [o5]);
    ApplyFirst(o4(o3(o2(o1(h)))), o5, []);
  }

  /** Running options starting with `o` runs `o` first. */
  lemma ApplyFirst(h: ZH.Handler, o: ZH.HandlerOption, rest: seq<ZH.HandlerOption>)
    ensures ZH.ApplyHandlerOptions(h, [o] + rest) == ZH.ApplyHandlerOptions(o(h), rest)
  {
    assert ([o] + rest)[1..] == rest;
  }

  /** A slog.Logger, recorded by how it was built. */
  datatype SlogLogger =
    | SlogNew(handler: ZH.Handler)                      // slog.New(handler)
    | SlogWith(parent: SlogLogger, args: seq<AnyPayload>)  // parent.With(args...)

  /** A *Logger: `addr` is the pointer's identity; clones share the configuration. */
  datatype Logger = Logger(addr: nat, slogger: SlogLogger, cfg: Config)

  /** New(opts...) at the fresh address `addr`. Every kind gets the zap handler. */
  function New(piiKeys: seq<string>, opts: seq<Option>, addr: nat): (l: Logger)
    ensures l.addr == addr && l.cfg == NewConfig(piiKeys, opts)
    ensures l.slogger == SlogNew(NewZapSlogHandler(l.cfg))
    ensures |opts| == 0 ==> l.cfg == DefaultConfig(piiKeys)
  {
    var cfg := NewConfig(piiKeys, opts);
    Logger(addr, SlogNew(NewZapSlogHandler(cfg)), cfg)
  }

  /** The kind only names the handler: configurations that differ in kind
      alone get handlers that differ in name alone. */
  lemma KindOnlyNamesHandler(cfg: Config, kind: Kind)
    ensures NewZapSlogHandler(cfg.(kind := kind)) == NewZapSlogHandler(cfg).(name := kind.name)
  {
  }

  /** Clone: a copy of the struct at the fresh address `addr`, sharing the
      configuration and the slog logger. */
  function Clone(l: Logger, addr: nat): (r: Logger)
    requires addr != l.addr
    ensures r != l && r.addr == addr
    ensures r.(addr := l.addr) == l
  {
    l.(addr := addr)
  }

  /** With: the receiver itself for no arguments; otherwise a clone whose slog
      logger carries the arguments. The receiver is a value and stays as it was. */
  function With(l: Logger, args: seq<AnyPayload>, addr: nat): (r: Logger)
    requires |args| > 0 ==> addr != l.addr
    ensures |args| == 0 <==> r == l
    ensures |args| > 0 ==> r.addr == addr && r.slogger == SlogWith(l.slogger, args) && r.cfg == l.cfg
  {
    if |args| == 0 then l
    else
      var lc := Clone(l, addr);
      lc.(slogger := SlogWith(l.slogger, args))
  }

  /** A *Logger as ToContext receives it: None is Go's nil pointer, which the
      context stores as a typed nil. */
  type LoggerRef = Wrappers.Option<Logger>

  /** ToContext: binds the logger pointer under the logger key, hiding no other key. */
  function ToContext(ctx: Context<LoggerRef>, l: LoggerRef): (r: Context<LoggerRef>)
    ensures Lookup(r, LoggerCtxKey) == Some(LoggerVal(l))
    ensures forall k :: k != LoggerCtxKey ==> Lookup(r, k) == Lookup(ctx, k)
  {
    WithValue(ctx, LoggerCtxKey, LoggerVal(l))
  }

  const NotFound: string := "logger not found in context"

  /** FromContext: the *Logger under the logger key (possibly nil), or the
      not-found error when that key holds no *Logger at all. */
  function FromContext(ctx: Context<LoggerRef>): (r: Result<LoggerRef, string>)
    ensures r.Ok? <==> Lookup(ctx, LoggerCtxKey).Some? && Lookup(ctx, LoggerCtxKey).value.LoggerVal?
    ensures r.Ok? ==> Lookup(ctx, LoggerCtxKey) == Some(LoggerVal(r.value))
    ensures r.Err? ==> r.error == NotFound
  {
    match Lookup(ctx, LoggerCtxKey)
    case Some(LoggerVal(l)) => Ok(l)
    case _ => Err(NotFound)
  }

  /** FromContext(ToContext(ctx, l)) returns l, and the empty context has no logger. */
  lemma ContextRoundTrip(ctx: Context<LoggerRef>, l: LoggerRef)
    ensures FromContext(ToContext(ctx, l)) == Ok(l)
    ensures FromContext(Background) == Err(NotFound)
  {
  }

  /** A stored nil pointer is found: FromContext succeeds with nil and no error. */
  lemma StoredNilIsFound(ctx: Context<LoggerRef>)
    ensures FromContext(ToContext(ctx, None)).Ok?
    ensures FromContext(ToContext(ctx, None)).value == None
  {
  }

  /** Values stored under other keys later do not hide the logger. */
  lemma OtherKeysDoNotHide(ctx: Context<LoggerRef>, k: Key, v: Val<LoggerRef>)
    requires k != LoggerCtxKey
    ensures FromContext(WithValue(ctx, k, v)) == FromContext(ctx)
  {
  }
}
