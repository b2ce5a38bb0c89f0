/** The slog -> zap adapter of logger/zaphandler/handler.go: attribute
    conversion, the level table, the per-call field pipeline with namespace
    placement, and the copy-on-derive handler record. */
module ZapHandler {
  import opened Wrappers
  import opened Slog
  import opened Zap
  import opened Masq

  /** A redaction hook, named rather than stored as a closure: the hook built
      by masq.New(options), or some other caller-supplied function. */
  datatype Redactor = MasqRedactor(options: seq<MaskOption>) | CustomRedactor(id: nat)

  /** Everything the adapter calls but does not implement. */
  datatype Env = Env(
    logValue: nat -> Value,                          // LogValuer.LogValue, by reference
    redact: (Redactor, seq<string>, Attr) -> Attr,   // running a redaction hook
    enabled: (Core, ZapLevel) -> bool,               // zapcore.Core.Enabled
    check: (Core, Entry) -> bool,                    // zapcore.Core.Check returned non-nil
    frame: nat -> Frame)                             // runtime.CallersFrames([]uintptr{pc}).Next()

  datatype Handler = Handler(
    core: Core,
    name: string,
    addCaller: bool,
    addStackAt: Level,
    callerSkipCount: int,
    replaceAttr: Option<Redactor>,
    groups: seq<string>)

  /** A HandlerOption: something applied to a freshly built handler. */
  type HandlerOption = Handler -> Handler

  /** The handler New starts from before any option runs. */
  function DefaultHandler(core: Core): Handler
  {
    Handler(core, "", false, LevelError, 0, None, [])
  }

  /** Runs the options left to right, each through its apply method. */
  function ApplyHandlerOptions(h: Handler, opts: seq<HandlerOption>): Handler
    decreases |opts|
  {
    if |opts| == 0 then h else ApplyHandlerOptions(opts[0](h), opts[1..])
  }

  /** New(core, opts...) */
  function New(core: Core, opts: seq<HandlerOption>): (h: Handler)
    ensures |opts| == 0 ==> h == Handler(core, "", false, LevelError, 0, None, [])
  {
    ApplyHandlerOptions(DefaultHandler(core), opts)
  }

  /** convertAttrToField. The zero attribute becomes Skip; a LogValuer is
      resolved and converted again; a keyed group is inlined (its key dropped)
      and an unkeyed group becomes an object with the empty key. */
  function Convert(a: Attr, logValue: nat -> Value): (f: Field)
    ensures f.Skip? <==> Attr(a.key, Resolve(a.value, logValue)) == ZeroAttr
    ensures !f.NamespaceF?
    ensures !a.value.LogValuerV? && f.InlineF? ==> a.value.GroupV? && a.key != ""
    ensures a.value.GroupV? && a.key != "" ==> f == InlineF(a.value.attrs)
    decreases if a.value.LogValuerV? then 1 else 0
  {
    if a == ZeroAttr then Skip
    else match a.value
      case BoolV(b) => BoolF(a.key, b)
      case Int64V(i) => Int64F(a.key, i)
      case Uint64V(u) => Uint64F(a.key, u)
      case Float64V(x) => Float64F(a.key, x)
      case StringV(s) => StringF(a.key, s)
      case DurationV(d) => DurationF(a.key, d)
      case TimeV(t) => TimeF(a.key, t)
      case AnyV(p) => AnyF(a.key, p)
      case GroupV(attrs) => if a.key != "" then InlineF(attrs) else ObjectF(a.key, attrs)
      case LogValuerV(_) => Convert(Attr(a.key, Resolve(a.value, logValue)), logValue)
      case OtherKindV(_, p) => AnyF(a.key, p)
  }

  /** groupObject.MarshalLogObject: the fields added to the encoder, one
      conversion per member in member order (a Skip adds nothing). */
  function MarshalLogObject(g: seq<Attr>, logValue: nat -> Value): (fs: seq<Field>)
    ensures |fs| == |g|
    ensures forall i :: 0 <= i < |g| ==> fs[i] == Convert(g[i], logValue)
  {
    if |g| == 0 then [] else [Convert(g[0], logValue)] + MarshalLogObject(g[1..], logValue)
  }

  /** The members behind a group field's groupObject; none for any other field. */
  function ObjectMembers(f: Field): seq<Attr>
  {
    if f.InlineF? || f.ObjectF? then f.obj else []
  }

  /** The fields a converted attribute hands the encoder through
      groupObject.MarshalLogObject (none unless it is a group field). */
  function EncodedMembers(f: Field, logValue: nat -> Value): seq<Field>
  {
    MarshalLogObject(ObjectMembers(f), logValue)
  }

  /** SlogToZapLevel */
  const SlogToZapLevel: map<Level, ZapLevel> :=
    map[LevelDebug := DebugLevel, LevelInfo := InfoLevel, LevelWarn := WarnLevel, LevelError := ErrorLevel]

  /** SlogToZapLevel[l] with Go's missing-key semantics: the zero zap level. */
  function ZapLevelOf(l: Level): (z: ZapLevel)
    ensures l == LevelDebug ==> z == DebugLevel
    ensures l == LevelInfo ==> z == InfoLevel
    ensures l == LevelWarn ==> z == WarnLevel
    ensures l == LevelError ==> z == ErrorLevel
    ensures l !in {LevelDebug, LevelInfo, LevelWarn, LevelError} ==> z == InfoLevel
  {
    if l in SlogToZapLevel then SlogToZapLevel[l] else 0
  }

  /** One namespace marker per group name, in stack order. */
  function Namespaces(groups: seq<string>): (ns: seq<Field>)
  {
    seq(|groups|, i requires 0 <= i < |groups| => NamespaceF(groups[i]))
  }

  /** appendGroups: appends one zap.Namespace per open group. */
  function AppendGroups(fields: seq<Field>, groups: seq<string>): (r: seq<Field>)
    ensures r == fields + Namespaces(groups)
    decreases |groups|
  {
    if |groups| == 0 then fields
    else
      var r := AppendGroups(fields + [NamespaceF(groups[0])], groups[1..]);
      assert [NamespaceF(groups[0])] + Namespaces(groups[1..]) == Namespaces(groups);
      r
  }

  /** The attribute as converted in Handle and WithAttrs: redacted by the
      hook when one is set, then resolved. */
  function PrepareAttr(h: Handler, env: Env, a: Attr): (r: Attr)
    ensures !r.value.LogValuerV?
    ensures h.replaceAttr.None? ==> r == Attr(a.key, Resolve(a.value, env.logValue))
    ensures h.replaceAttr.Some? ==>
              r == Attr(env.redact(h.replaceAttr.value, h.groups, a).key,
                        Resolve(env.redact(h.replaceAttr.value, h.groups, a).value, env.logValue))
  {
    var redacted := if h.replaceAttr.Some? then env.redact(h.replaceAttr.value, h.groups, a) else a;
    Attr(redacted.key, Resolve(redacted.value, env.logValue))
  }

  /** The converted attributes of one call, in order, skips included. */
  function ConvertAll(h: Handler, env: Env, attrs: seq<Attr>): (fs: seq<Field>)
    ensures |fs| == |attrs|
    ensures forall i :: 0 <= i < |attrs| ==> fs[i] == ConvertOne(h, env, attrs[i])
  {
    if |attrs| == 0 then []
    else [ConvertOne(h, env, attrs[0])] + ConvertAll(h, env, attrs[1..])
  }

  /** Index of the first field that is not Skip, or |fs| if there is none. */
  function FirstNonSkip(fs: seq<Field>): (k: nat)
    ensures k <= |fs|
    ensures forall i :: 0 <= i < k ==> fs[i].Skip?
    ensures k < |fs| ==> !fs[k].Skip?
  {
    if |fs| == 0 || !fs[0].Skip? then 0 else 1 + FirstNonSkip(fs[1..])
  }

  /** The state of the field-building loop. */
  datatype Acc = Acc(fields: seq<Field>, addedNamespace: bool)

  /** The namespace policy stated directly: the converted fields, with the
      namespace markers inserted once just before the first non-skip field,
      when there are open groups and such a field exists. */
  function Placed(groups: seq<string>, conv: seq<Field>): Acc
  {
    var k := FirstNonSkip(conv);
    if |groups| > 0 && k < |conv| then Acc(conv[..k] + Namespaces(groups) + conv[k..], true)
    else Acc(conv, false)
  }

  /** Placement only inserts markers: every converted field is among the
      placed ones. */
  lemma PlacedKeepsConverted(groups: seq<string>, conv: seq<Field>, i: nat)
    requires i < |conv|
    ensures conv[i] in Placed(groups, conv).fields
  {
    var k := FirstNonSkip(conv);
    if |groups| > 0 && k < |conv| {
      var fs := conv[..k] + Namespaces(groups) + conv[k..];
      if i < k {
        assert fs[i] == conv[i];
      } else {
        assert fs[i + |groups|] == conv[i];
      }
    }
  }

  /** One converted attribute as the loop body builds it. */
  function ConvertOne(h: Handler, env: Env, a: Attr): Field
  {
    Convert(PrepareAttr(h, env, a), env.logValue)
  }

  /** The namespace decision of the loop body, given the converted field. */
  function PlaceStep(groups: seq<string>, acc: Acc, f: Field): Acc
  {
    if !acc.addedNamespace && |groups| > 0 && !f.Skip? then
      Acc(AppendGroups(acc.fields, groups) + [f], true)
    else
      Acc(acc.fields + [f], acc.addedNamespace)
  }

  /** One iteration of the loop body shared by Handle and WithAttrs. */
  function Step(h: Handler, env: Env, acc: Acc, a: Attr): Acc
  {
    PlaceStep(h.groups, acc, ConvertOne(h, env, a))
  }

  /** The loop over the attributes, left to right. */
  function Fold(h: Handler, env: Env, acc: Acc, attrs: seq<Attr>): Acc
    decreases |attrs|
  {
    if |attrs| == 0 then acc else Fold(h, env, Step(h, env, acc, attrs[0]), attrs[1..])
  }

  /** The same loop run over fields that are already converted. */
  function FoldFields(groups: seq<string>, acc: Acc, fs: seq<Field>): Acc
    decreases |fs|
  {
    if |fs| == 0 then acc else FoldFields(groups, PlaceStep(groups, acc, fs[0]), fs[1..])
  }

  /** Conversion does not depend on the loop state, so converting as the loop
      goes equals converting first and placing afterwards. */
  lemma {:induction false} FoldConvertsFirst(h: Handler, env: Env, acc: Acc, attrs: seq<Attr>)
    ensures Fold(h, env, acc, attrs) == FoldFields(h.groups, acc, ConvertAll(h, env, attrs))
    decreases |attrs|
  {
    if |attrs| > 0 {
      var conv := ConvertAll(h, env, attrs);
      assert conv[0] == ConvertOne(h, env, attrs[0]);
      assert conv[1..] == ConvertAll(h, env, attrs[1..]);
      FoldConvertsFirst(h, env, Step(h, env, acc, attrs[0]), attrs[1..]);
    }
  }

  lemma {:induction false} FoldAfterNamespace(groups: seq<string>, acc: Acc, fs: seq<Field>)
    requires acc.addedNamespace
    ensures FoldFields(groups, acc, fs) == Acc(acc.fields + fs, true)
    decreases |fs|
  {
    if |fs| == 0 {
      assert acc.fields + fs == acc.fields;
    } else {
      FoldAfterNamespace(groups, PlaceStep(groups, acc, fs[0]), fs[1..]);
      assert acc.fields + [fs[0]] + fs[1..] == acc.fields + fs;
    }
  }

  /** Placement when the first field is not a skip: the markers go first. */
  lemma PlacedLeadingField(groups: seq<string>, f: Field, rest: seq<Field>)
    requires |groups| > 0 && !f.Skip?
    ensures Placed(groups, [f] + rest) == Acc(Namespaces(groups) + ([f] + rest), true)
  {
    var conv := [f] + rest;
    assert FirstNonSkip(conv) == 0;
    assert conv[..0] + Namespaces(groups) + conv[0..] == Namespaces(groups) + conv;
  }

  /** Placement past a leading skip: the skip stays in front. */
  lemma PlacedLeadingSkip(groups: seq<string>, conv: seq<Field>)
    requires |conv| > 0 && conv[0].Skip?
    ensures Placed(groups, conv)
         == Acc([conv[0]] + Placed(groups, conv[1..]).fields, Placed(groups, conv[1..]).addedNamespace)
  {
    var f := conv[0];
    var rest := conv[1..];
    var k := FirstNonSkip(rest);
    assert FirstNonSkip(conv) == 1 + k;
    if |groups| > 0 && k < |rest| {
      assert conv[..1 + k] == [f] + rest[..k];
      assert conv[1 + k..] == rest[k..];
      assert conv[..1 + k] + Namespaces(groups) + conv[1 + k..]
          == [f] + (rest[..k] + Namespaces(groups) + rest[k..]);
    } else {
      assert conv == [f] + rest;
    }
  }

  /** Before a namespace has been emitted, the loop produces exactly the
      placement of Placed after the fields already gathered. */
  lemma {:induction false} FoldBeforeNamespace(groups: seq<string>, acc: seq<Field>, conv: seq<Field>)
    ensures FoldFields(groups, Acc(acc, false), conv)
         == Acc(acc + Placed(groups, conv).fields, Placed(groups, conv).addedNamespace)
    decreases |conv|
  {
    if |conv| == 0 {
      assert acc + [] == acc;
    } else if |groups| > 0 && !conv[0].Skip? {
      FoldReachesField(groups, acc, conv);
    } else {
      var f := conv[0];
      var rest := conv[1..];
      assert PlaceStep(groups, Acc(acc, false), f) == Acc(acc + [f], false);
      FoldBeforeNamespace(groups, acc + [f], rest);
      if |groups| == 0 {
        FoldPastSkipNoGroups(groups, acc, conv);
      } else {
        FoldPastLeadingSkip(groups, acc, conv);
      }
    }
  }

  lemma FoldReachesField(groups: seq<string>, acc: seq<Field>, conv: seq<Field>)
    requires |conv| > 0 && |groups| > 0 && !conv[0].Skip?
    ensures FoldFields(groups, Acc(acc, false), conv)
         == Acc(acc + Placed(groups, conv).fields, Placed(groups, conv).addedNamespace)
  {
    var f := conv[0];
    var rest := conv[1..];
    var ns := Namespaces(groups);
    assert conv == [f] + rest;
    var next := Acc(acc + ns + [f], true);
    assert PlaceStep(groups, Acc(acc, false), f) == next;
    assert FoldFields(groups, Acc(acc, false), conv) == FoldFields(groups, next, rest);
    FoldAfterNamespace(groups, next, rest);
    PlacedLeadingField(groups, f, rest);
    SeqAssoc(acc, ns, f, rest);
  }

  lemma SeqAssoc<T>(a: seq<T>, b: seq<T>, x: T, c: seq<T>)
    ensures a + b + [x] + c == a + (b + ([x] + c))
  {
  }

  /** A field that emits no namespace is appended as is, and the loop goes on
      before any namespace. */
  lemma FoldUnfoldAppend(groups: seq<string>, acc: seq<Field>, conv: seq<Field>)
    requires |conv| > 0 && (|groups| == 0 || conv[0].Skip?)
    ensures FoldFields(groups, Acc(acc, false), conv) == FoldFields(groups, Acc(acc + [conv[0]], false), conv[1..])
  {
    assert PlaceStep(groups, Acc(acc, false), conv[0]) == Acc(acc + [conv[0]], false);
  }

  /** With no groups nothing is ever inserted: the loop only appends. */
  lemma FoldPastSkipNoGroups(groups: seq<string>, acc: seq<Field>, conv: seq<Field>)
    requires |conv| > 0 && |groups| == 0
    requires FoldFields(groups, Acc(acc + [conv[0]], false), conv[1..])
          == Acc(acc + [conv[0]] + Placed(groups, conv[1..]).fields, Placed(groups, conv[1..]).addedNamespace)
    ensures FoldFields(groups, Acc(acc, false), conv)
         == Acc(acc + Placed(groups, conv).fields, Placed(groups, conv).addedNamespace)
  {
    FoldUnfoldAppend(groups, acc, conv);
    var f := conv[0];
    var rest := conv[1..];
    assert Placed(groups, rest) == Acc(rest, false);
    assert Placed(groups, conv) == Acc(conv, false);
    assert acc + [f] + rest == acc + conv by {
      assert conv == [f] + rest;
    }
  }

  /** A leading skip field is appended as is and the namespaces still wait. */
  lemma FoldPastLeadingSkip(groups: seq<string>, acc: seq<Field>, conv: seq<Field>)
    requires |conv| > 0 && |groups| > 0 && conv[0].Skip?
    requires FoldFields(groups, Acc(acc + [conv[0]], false), conv[1..])
          == Acc(acc + [conv[0]] + Placed(groups, conv[1..]).fields, Placed(groups, conv[1..]).addedNamespace)
    ensures FoldFields(groups, Acc(acc, false), conv)
         == Acc(acc + Placed(groups, conv).fields, Placed(groups, conv).addedNamespace)
  {
    var f := conv[0];
    var p := Placed(groups, conv[1..]);
    PlacedLeadingSkip(groups, conv);
    AppendAssoc(acc, [f], p.fields);
    FoldUnfoldAppend(groups, acc, conv);
  }

  lemma AppendAssoc<T>(a: seq<T>, b: seq<T>, c: seq<T>)
    ensures a + b + c == a + (b + c)
  {
  }

  /** The fields one call builds, and whether it emitted the namespaces. */
  function BuildFields(h: Handler, env: Env, attrs: seq<Attr>): (r: Acc)
    ensures r == Placed(h.groups, ConvertAll(h, env, attrs))
  {
    var conv := ConvertAll(h, env, attrs);
    FoldConvertsFirst(h, env, Acc([], false), attrs);
    FoldBeforeNamespace(h.groups, [], conv);
    assert [] + Placed(h.groups, conv).fields == Placed(h.groups, conv).fields;
    Fold(h, env, Acc([], false), attrs)
  }

  /** Enabled: the core's verdict at the mapped level. */
  function Enabled(h: Handler, env: Env, level: Level): (r: bool)
    ensures level !in SlogToZapLevel ==> r == env.enabled(h.core, InfoLevel)
    ensures level in SlogToZapLevel ==> r == env.enabled(h.core, SlogToZapLevel[level])
  {
    env.enabled(h.core, ZapLevelOf(level))
  }

  /** The entry Handle offers to core.Check. */
  function EntryFor(h: Handler, rec: Record): (e: Entry)
    ensures e.level == ZapLevelOf(rec.level) && e.time == rec.time
    ensures e.message == rec.message && e.loggerName == h.name
  {
    Entry(ZapLevelOf(rec.level), rec.time, rec.message, h.name)
  }

  /** The caller Handle attaches: defined only when caller capture is on, the
      record has a pc, and the frame lookup finds a frame. */
  function CallerFor(h: Handler, env: Env, pc: nat): (c: EntryCaller)
    ensures c.DefinedCaller? <==> h.addCaller && pc != 0 && env.frame(pc).pc != 0
    ensures c.DefinedCaller? ==>
              (c.pc == env.frame(pc).pc && c.file == env.frame(pc).file
               && c.line == env.frame(pc).line && c.func == env.frame(pc).func)
  {
    if h.addCaller && pc != 0 then
      var fr := env.frame(pc);
      if fr.pc != 0 then DefinedCaller(fr.pc, fr.file, fr.line, fr.func) else UndefinedCaller
    else UndefinedCaller
  }

  /** What ce.Write receives: the checked entry, its caller, and the fields. */
  datatype Written = Written(entry: Entry, caller: EntryCaller, fields: seq<Field>)

  /** The outcome of Handle: the write performed, if any, and the error returned. */
  datatype HandleResult = HandleResult(written: Option<Written>, err: Option<string>)

  /** Handle */
  function Handle(h: Handler, env: Env, rec: Record): (r: HandleResult)
    ensures r.err == None
    ensures r.written.Some? <==> env.check(h.core, EntryFor(h, rec))
    ensures r.written.Some? ==>
              && r.written.value.entry == Entry(ZapLevelOf(rec.level), rec.time, rec.message, h.name)
              && r.written.value.caller == CallerFor(h, env, rec.pc)
              && r.written.value.fields == Placed(h.groups, ConvertAll(h, env, rec.attrs)).fields
  {
    var ent := EntryFor(h, rec);
    if !env.check(h.core, ent) then HandleResult(None, None)
    else
      var fields := BuildFields(h, env, rec.attrs).fields;
      HandleResult(Some(Written(ent, CallerFor(h, env, rec.pc), fields)), None)
  }

  /** WithAttrs: a clone whose core is bound to the converted fields; its
      group stack is cleared once the namespaces have been emitted. */
  function WithAttrs(h: Handler, env: Env, attrs: seq<Attr>): (r: Handler)
    ensures r.core == CoreWith(h.core, Placed(h.groups, ConvertAll(h, env, attrs)).fields)
    ensures r.groups == if Placed(h.groups, ConvertAll(h, env, attrs)).addedNamespace then [] else h.groups
    ensures r.(core := h.core, groups := h.groups) == h
  {
    var built := BuildFields(h, env, attrs);
    var cloned := h.(core := CoreWith(h.core, built.fields));
    if built.addedNamespace then cloned.(groups := []) else cloned
  }

  /** WithGroup: a clone whose group stack is a copy of the old one with
      `g` pushed on top. */
  function WithGroup(h: Handler, g: string): (r: Handler)
    ensures |r.groups| == |h.groups| + 1
    ensures r.groups[..|h.groups|] == h.groups && r.groups[|h.groups|] == g
    ensures r.(groups := h.groups) == h
  {
    h.(groups := h.groups + [g])
  }
}
