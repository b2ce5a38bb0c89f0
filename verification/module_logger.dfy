/** The field-carrying logger of logger/module_logger.go: copy-on-derive
    field maps, context-field extraction, and map -> zap field conversion.
    The mutex is not modelled; Go's map iteration order is a parameter. */
module ModuleLogger {
  import opened Wrappers
  import opened Slog
  import opened Zap
  import opened Ctx

  /** The sugared logger, recorded by the With calls that built it. */
  datatype Sugared = SugaredRoot(id: nat) | SugaredWith(parent: Sugared, key: string, val: AnyPayload)

  /** Logger: `zapLogger` and `level` are references shared by derived loggers. */
  datatype ModuleLogger = ModuleLogger(
    name: string,
    zapLogger: nat,
    sugared: Sugared,
    level: nat,
    fields: map<string, AnyPayload>)

  /** `order` is one order Go's range over a map with these keys may take:
      every key exactly once. */
  predicate Enumerates(order: seq<string>, keys: set<string>)
  {
    && (forall i, j :: 0 <= i < j < |order| ==> order[i] != order[j])
    && (forall k :: k in keys ==> k in order)
    && (forall i :: 0 <= i < |order| ==> order[i] in keys)
  }

  /** A map visited in some order yields exactly as many steps as it has keys. */
  lemma {:induction false} EnumerationLength(order: seq<string>, keys: set<string>)
    requires Enumerates(order, keys)
    ensures |order| == |keys|
    decreases |order|
  {
    if |order| > 0 {
      var last := order[|order| - 1];
      var init := order[..|order| - 1];
      assert order == init + [last];
      forall k ensures k in keys - {last} <==> k in init {
        if k in init {
          var i :| 0 <= i < |init| && init[i] == k;
          assert order[i] != order[|order| - 1];
        }
      }
      EnumerationLength(init, keys - {last});
    }
  }

  /** The sugared logger after With(k, fields[k]) for each k of `ks`, in order. */
  function SugarChain(s: Sugared, fields: map<string, AnyPayload>, ks: seq<string>): Sugared
    requires forall k :: k in ks ==> k in fields
  {
    if |ks| == 0 then s
    else SugaredWith(SugarChain(s, fields, ks[..|ks| - 1]), ks[|ks| - 1], fields[ks[|ks| - 1]])
  }

  /** A map that agrees with `b` on b's keys and with `a` elsewhere is a + b. */
  lemma OverrideIsUnion(a: map<string, AnyPayload>, b: map<string, AnyPayload>, r: map<string, AnyPayload>)
    requires r.Keys == a.Keys + b.Keys
    requires forall k :: k in b ==> r[k] == b[k]
    requires forall k :: k in a && k !in b ==> r[k] == a[k]
    ensures r == a + b
  {
  }

  /** `m` after newLogger.fields[k] = fields[k] for each k of `ks`, in order. */
  function Override(m: map<string, AnyPayload>, fields: map<string, AnyPayload>, ks: seq<string>): map<string, AnyPayload>
    requires forall k :: k in ks ==> k in fields
  {
    if |ks| == 0 then m
    else Override(m, fields, ks[..|ks| - 1])[ks[|ks| - 1] := fields[ks[|ks| - 1]]]
  }

  /** The assigned keys hold the new values; every other key keeps its old one. */
  lemma {:induction false} OverrideFacts(m: map<string, AnyPayload>, fields: map<string, AnyPayload>, ks: seq<string>)
    requires forall k :: k in ks ==> k in fields
    ensures Override(m, fields, ks).Keys == m.Keys + (set k | k in ks)
    ensures forall k :: k in ks ==> Override(m, fields, ks)[k] == fields[k]
    ensures forall k :: k in m && k !in ks ==> Override(m, fields, ks)[k] == m[k]
    decreases |ks|
  {
    if |ks| > 0 {
      var init := ks[..|ks| - 1];
      assert ks == init + [ks[|ks| - 1]];
      OverrideFacts(m, fields, init);
    }
  }

  /** Assigning every key of `fields`, in any enumeration order, yields the union
      in which the new values win. */
  lemma OverrideAll(m: map<string, AnyPayload>, fields: map<string, AnyPayload>, order: seq<string>)
    requires Enumerates(order, fields.Keys)
    ensures Override(m, fields, order) == m + fields
  {
    OverrideFacts(m, fields, order);
    assert (set k | k in order) == fields.Keys;
    OverrideIsUnion(m, fields, Override(m, fields, order));
  }

  /** WithFields: a new logger whose fields are the old ones overridden by the
      new ones; name, core logger and level are carried over. */
  method WithFields(l: ModuleLogger, fields: map<string, AnyPayload>, order: seq<string>)
    returns (r: ModuleLogger)
    requires Enumerates(order, fields.Keys)
    ensures r.name == l.name && r.zapLogger == l.zapLogger && r.level == l.level
    ensures r.fields == l.fields + fields
    ensures r.sugared == SugarChain(l.sugared, fields, order)
  {
    var merged := l.fields;  // copy existing fields
    var sugared := l.sugared;
    var i := 0;
    while i < |order|
      invariant 0 <= i <= |order|
      invariant merged == Override(l.fields, fields, order[..i])
      invariant sugared == SugarChain(l.sugared, fields, order[..i])
    {
      var k := order[i];
      assert order[..i + 1][..i] == order[..i];
      merged := merged[k := fields[k]];
      sugared := SugaredWith(sugared, k, fields[k]);
      i := i + 1;
    }
    assert order[..|order|] == order;
    OverrideAll(l.fields, fields, order);
    r := ModuleLogger(l.name, l.zapLogger, sugared, l.level, merged);
  }

  /** WithField(k, v) is WithFields with the one-entry map {k: v}. */
  method WithField(l: ModuleLogger, key: string, value: AnyPayload) returns (r: ModuleLogger)
    ensures r.name == l.name && r.zapLogger == l.zapLogger && r.level == l.level
    ensures r.fields == l.fields[key := value]
    ensures r.sugared == SugaredWith(l.sugared, key, value)
  {
    r := WithFields(l, map[key := value], [key]);
    assert [key][..0] == [];
  }

  /** The context keys extractContextFields looks up, in lookup order. */
  const ContextKeys: seq<string> := ["trace_id", "request_id", "user_id", "session_id", "client_ip", "operation"]

  /** ctx.Value(key).(string) */
  function ContextString<L>(ctx: Context<L>, key: string): Option<string>
  {
    match Lookup(ctx, StringKey(key))
    case Some(StringVal(s)) => Some(s)
    case _ => None
  }

  function AddIfString<L>(ctx: Context<L>, m: map<string, AnyPayload>, key: string): map<string, AnyPayload>
  {
    match ContextString(ctx, key)
    case Some(s) => m[key := Str(s)]
    case None => m
  }

  /** The lookups for `keys`, in order, added to `m`. */
  function AddStrings<L>(ctx: Context<L>, m: map<string, AnyPayload>, keys: seq<string>): (r: map<string, AnyPayload>)
    ensures forall k :: k in r <==> k in m || (k in keys && ContextString(ctx, k).Some?)
    ensures forall k :: k in r ==>
              r[k] == if k in keys && ContextString(ctx, k).Some? then Str(ContextString(ctx, k).value) else m[k]
    decreases |keys|
  {
    if |keys| == 0 then m else AddStrings(ctx, AddIfString(ctx, m, keys[0]), keys[1..])
  }

  /** extractContextFields: one entry per known key whose context value is a string. */
  function ExtractContextFields<L>(ctx: Context<L>): (m: map<string, AnyPayload>)
    ensures forall k :: k in m <==> k in ContextKeys && ContextString(ctx, k).Some?
    ensures forall k :: k in m ==> m[k] == Str(ContextString(ctx, k).value)
  {
    AddStrings(ctx, map[], ContextKeys)
  }

  /** WithContext: the receiver itself when the context holds none of the
      known fields, otherwise WithFields with the extracted ones. */
  method WithContext<L>(l: ModuleLogger, ctx: Context<L>, order: seq<string>) returns (r: ModuleLogger)
    requires Enumerates(order, ExtractContextFields(ctx).Keys)
    ensures |ExtractContextFields(ctx)| == 0 ==> r == l
    ensures r.name == l.name && r.zapLogger == l.zapLogger && r.level == l.level
    ensures r.fields == l.fields + ExtractContextFields(ctx)
    ensures r.sugared == SugarChain(l.sugared, ExtractContextFields(ctx), order)
  {
    var fields := ExtractContextFields(ctx);
    if |fields| == 0 {
      return l;
    }
    r := WithFields(l, fields, order);
  }

  /** One zap.Any field per key, in the given order. */
  function AnyFields(fields: map<string, AnyPayload>, ks: seq<string>): (fs: seq<Field>)
    requires forall k :: k in ks ==> k in fields
    ensures |fs| == |ks|
    ensures forall i :: 0 <= i < |ks| ==> fs[i] == AnyF(ks[i], fields[ks[i]])
  {
    if |ks| == 0 then [] else [AnyF(ks[0], fields[ks[0]])] + AnyFields(fields, ks[1..])
  }

  /** Every entry of `fields` appears in `fs` as an Any field. */
  predicate CoversEntries(fs: seq<Field>, fields: map<string, AnyPayload>)
  {
    forall k :: k in fields ==> exists i :: 0 <= i < |fs| && fs[i] == AnyF(k, fields[k])
  }

  /** Every field of `fs` is an Any field carrying an entry of `fields`. */
  predicate OnlyEntries(fs: seq<Field>, fields: map<string, AnyPayload>)
  {
    forall i :: 0 <= i < |fs| ==> fs[i].AnyF? && fs[i].key in fields && fs[i].val == fields[fs[i].key]
  }

  /** No key is written twice by two Any fields. */
  predicate DistinctKeys(fs: seq<Field>)
  {
    forall i, j :: 0 <= i < j < |fs| && fs[i].AnyF? && fs[j].AnyF? ==> fs[i].key != fs[j].key
  }

  lemma AnyFieldsCover(fields: map<string, AnyPayload>, order: seq<string>)
    requires Enumerates(order, fields.Keys)
    ensures CoversEntries(AnyFields(fields, order), fields)
  {
    var fs := AnyFields(fields, order);
    forall k | k in fields
      ensures exists i :: 0 <= i < |fs| && fs[i] == AnyF(k, fields[k])
    {
      var i :| 0 <= i < |order| && order[i] == k;
      assert fs[i] == AnyF(k, fields[k]);
    }
  }

  lemma AnyFieldsDistinct(fields: map<string, AnyPayload>, order: seq<string>)
    requires Enumerates(order, fields.Keys)
    ensures OnlyEntries(AnyFields(fields, order), fields)
    ensures DistinctKeys(AnyFields(fields, order))
  {
    var fs := AnyFields(fields, order);
    assert forall i :: 0 <= i < |fs| ==> fs[i].key == order[i];
  }

  /** `fs` is one Any field per entry of `fields`, carrying that entry's key
      and value, and nothing else. */
  predicate OneFieldPerEntry(fs: seq<Field>, fields: map<string, AnyPayload>)
  {
    |fs| == |fields| && CoversEntries(fs, fields) && OnlyEntries(fs, fields) && DistinctKeys(fs)
  }

  /** fieldsToZapFields: exactly one Any field per map entry. */
  function FieldsToZapFields(fields: map<string, AnyPayload>, order: seq<string>): (fs: seq<Field>)
    requires Enumerates(order, fields.Keys)
    ensures |fs| == |fields|
    ensures CoversEntries(fs, fields)
    ensures OnlyEntries(fs, fields)
    ensures DistinctKeys(fs)
  {
    EnumerationLength(order, fields.Keys);
    AnyFieldsCover(fields, order);
    AnyFieldsDistinct(fields, order);
    AnyFields(fields, order)
  }

  /** The write of one XWithFields call: made only when Check at the
      method's fixed level admits the message. */
  function LogWithFields(l: ModuleLogger, check: (nat, ZapLevel, string) -> bool, level: ZapLevel,
                         msg: string, fields: map<string, AnyPayload>, order: seq<string>): (w: Option<seq<Field>>)
    requires Enumerates(order, fields.Keys)
    ensures w.Some? <==> check(l.zapLogger, level, msg)
    ensures w.Some? ==> OneFieldPerEntry(w.value, fields) && w.value == FieldsToZapFields(fields, order)
  {
    if check(l.zapLogger, level, msg) then Some(FieldsToZapFields(fields, order)) else None
  }

  /** DebugWithFields */
  function DebugWithFields(l: ModuleLogger, check: (nat, ZapLevel, string) -> bool,
                           msg: string, fields: map<string, AnyPayload>, order: seq<string>): (w: Option<seq<Field>>)
    requires Enumerates(order, fields.Keys)
    ensures w.Some? <==> check(l.zapLogger, DebugLevel, msg)
    ensures w.Some? ==> OneFieldPerEntry(w.value, fields)
  {
    LogWithFields(l, check, DebugLevel, msg, fields, order)
  }

  /** InfoWithFields */
  function InfoWithFields(l: ModuleLogger, check: (nat, ZapLevel, string) -> bool,
                          msg: string, fields: map<string, AnyPayload>, order: seq<string>): (w: Option<seq<Field>>)
    requires Enumerates(order, fields.Keys)
    ensures w.Some? <==> check(l.zapLogger, InfoLevel, msg)
    ensures w.Some? ==> OneFieldPerEntry(w.value, fields)
  {
    LogWithFields(l, check, InfoLevel, msg, fields, order)
  }

  /** WarnWithFields */
  function WarnWithFields(l: ModuleLogger, check: (nat, ZapLevel, string) -> bool,
                          msg: string, fields: map<string, AnyPayload>, order: seq<string>): (w: Option<seq<Field>>)
    requires Enumerates(order, fields.Keys)
    ensures w.Some? <==> check(l.zapLogger, WarnLevel, msg)
    ensures w.Some? ==> OneFieldPerEntry(w.value, fields)
  {
    LogWithFields(l, check, WarnLevel, msg, fields, order)
  }

  /** ErrorWithFields */
  function ErrorWithFields(l: ModuleLogger, check: (nat, ZapLevel, string) -> bool,
                           msg: string, fields: map<string, AnyPayload>, order: seq<string>): (w: Option<seq<Field>>)
    requires Enumerates(order, fields.Keys)
    ensures w.Some? <==> check(l.zapLogger, ErrorLevel, msg)
    ensures w.Some? ==> OneFieldPerEntry(w.value, fields)
  {
    LogWithFields(l, check, ErrorLevel, msg, fields, order)
  }
}
