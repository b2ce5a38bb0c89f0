/** Properties of the slog -> zap adapter: what conversion preserves, how the
    level table orders levels, how often and where namespace markers appear,
    and what derived handlers see. */
module ZapHandlerProofs {
  import opened Wrappers
  import opened Slog
  import opened Zap
  import opened ZapHandler

  /** Reads a field back as the attribute it stands for. An inline group
      carries no key, so it reads back as nothing. */
  function Decode(f: Field): Option<Attr>
  {
    match f
    case Skip => None
    case BoolF(k, b) => Some(Attr(k, BoolV(b)))
    case Int64F(k, i) => Some(Attr(k, Int64V(i)))
    case Uint64F(k, u) => Some(Attr(k, Uint64V(u)))
    case Float64F(k, x) => Some(Attr(k, Float64V(x)))
    case StringF(k, s) => Some(Attr(k, StringV(s)))
    case DurationF(k, d) => Some(Attr(k, DurationV(d)))
    case TimeF(k, t) => Some(Attr(k, TimeV(t)))
    case AnyF(k, p) => Some(Attr(k, AnyV(p)))
    case InlineF(_) => None
    case ObjectF(k, attrs) => Some(Attr(k, GroupV(attrs)))
    case NamespaceF(_) => None
  }

  /** Every attribute of a kind slog names, other than the zero attribute, a
      LogValuer and a keyed group, converts to a field of the same kind, key
      and value. */
  lemma ConvertRoundTrip(a: Attr, logValue: nat -> Value)
    requires a != ZeroAttr
    requires !a.value.LogValuerV? && !a.value.OtherKindV?
    requires !(a.value.GroupV? && a.key != "")
    ensures Decode(Convert(a, logValue)) == Some(a)
  {
  }

  /** The group branches are the reverse of slog's convention: a keyed group
      is inlined, so its key cannot be recovered from the field, and a group
      with the empty key becomes an object keyed "". */
  lemma GroupBranchesReversed(k1: string, k2: string, attrs: seq<Attr>, logValue: nat -> Value)
    requires k1 != "" && k2 != ""
    ensures Convert(Attr(k1, GroupV(attrs)), logValue) == Convert(Attr(k2, GroupV(attrs)), logValue)
    ensures Decode(Convert(Attr(k1, GroupV(attrs)), logValue)) == None
    ensures Convert(Attr("", GroupV(attrs)), logValue) == ObjectF("", attrs)
    ensures Convert(Attr(k1, GroupV(attrs)), logValue) == InlineF(attrs)
  {
  }

  /** Whatever its key, a group's field hands the encoder one converted field
      per member, in member order: the key decides only whether the members
      are inlined or nested, never which members are written. */
  lemma GroupMembersAreMarshalled(key: string, attrs: seq<Attr>, logValue: nat -> Value)
    ensures var f := Convert(Attr(key, GroupV(attrs)), logValue);
            && (f.InlineF? <==> key != "")
            && (f.ObjectF? <==> key == "")
            && EncodedMembers(f, logValue) == MarshalLogObject(attrs, logValue)
            && |EncodedMembers(f, logValue)| == |attrs|
            && forall i :: 0 <= i < |attrs| ==> EncodedMembers(f, logValue)[i] == Convert(attrs[i], logValue)
  {
  }

  /** A group nested inside a keyed group reaches the encoder: the outer
      group's fields include the inner group's field, whose own fields are
      the inner members converted. */
  lemma NestedGroupMembersReachEncoder(outer: string, inner: string, a: Attr, logValue: nat -> Value)
    requires outer != "" && inner != ""
    ensures var f := Convert(Attr(outer, GroupV([Attr(inner, GroupV([a]))])), logValue);
            && EncodedMembers(f, logValue) == [InlineF([a])]
            && EncodedMembers(EncodedMembers(f, logValue)[0], logValue) == [Convert(a, logValue)]
  {
  }

  /** Conversion sees through a LogValuer: an attribute converts to the same
      field as its resolved form. */
  lemma ConvertSeesThroughLogValuer(a: Attr, logValue: nat -> Value)
    ensures Convert(a, logValue) == Convert(Attr(a.key, Resolve(a.value, logValue)), logValue)
  {
  }

  /** A LogValuer that yields a string converts to a string field with the
      attribute's key. */
  lemma LogValuerOfString(key: string, ref: nat, s: string, logValue: nat -> Value)
    requires logValue(ref) == StringV(s)
    ensures Convert(Attr(key, LogValuerV(ref)), logValue) == StringF(key, s)
  {
    assert ResolveFor(logValue(ref), logValue, MaxLogValues - 1) == StringV(s);
  }

  /** A kind outside the ones slog names degrades to zap.Any with the same key. */
  lemma UnknownKindIsAny(key: string, kind: nat, payload: AnyPayload, logValue: nat -> Value)
    ensures Convert(Attr(key, OtherKindV(kind, payload)), logValue) == AnyF(key, payload)
  {
  }

  /** The four named levels map in strictly increasing order. */
  lemma LevelMappingMonotone(a: Level, b: Level)
    requires a in SlogToZapLevel && b in SlogToZapLevel
    ensures a < b <==> ZapLevelOf(a) < ZapLevelOf(b)
  {
  }

  /** Levels outside the table, such as a Fatal tier, behave as Info in both
      Enabled and Handle. */
  lemma UnmappedLevelIsInfo(h: Handler, env: Env, rec: Record)
    requires rec.level !in SlogToZapLevel
    ensures Enabled(h, env, rec.level) == Enabled(h, env, LevelInfo)
    ensures EntryFor(h, rec).level == InfoLevel
  {
  }

  /** Number of namespace markers in a field list. */
  function CountNamespaces(fs: seq<Field>): nat
  {
    if |fs| == 0 then 0 else (if fs[0].NamespaceF? then 1 else 0) + CountNamespaces(fs[1..])
  }

  /** A field list with its namespace markers removed. */
  function StripNamespaces(fs: seq<Field>): seq<Field>
  {
    if |fs| == 0 then [] else (if fs[0].NamespaceF? then [] else [fs[0]]) + StripNamespaces(fs[1..])
  }

  ghost predicate NoMarkers(fs: seq<Field>)
  {
    forall i :: 0 <= i < |fs| ==> !fs[i].NamespaceF?
  }

  lemma {:induction false} CountAppend(a: seq<Field>, b: seq<Field>)
    ensures CountNamespaces(a + b) == CountNamespaces(a) + CountNamespaces(b)
    ensures StripNamespaces(a + b) == StripNamespaces(a) + StripNamespaces(b)
    decreases |a|
  {
    if |a| == 0 {
      assert a + b == b;
    } else {
      assert (a + b)[1..] == a[1..] + b;
      CountAppend(a[1..], b);
    }
  }

  lemma {:induction false} CountWithoutMarkers(fs: seq<Field>)
    requires NoMarkers(fs)
    ensures CountNamespaces(fs) == 0
    ensures StripNamespaces(fs) == fs
    decreases |fs|
  {
    if |fs| > 0 {
      CountWithoutMarkers(fs[1..]);
    }
  }

  lemma {:induction false} CountOfMarkers(groups: seq<string>)
    ensures CountNamespaces(Namespaces(groups)) == |groups|
    ensures StripNamespaces(Namespaces(groups)) == []
    decreases |groups|
  {
    if |groups| > 0 {
      assert Namespaces(groups)[1..] == Namespaces(groups[1..]);
      CountOfMarkers(groups[1..]);
    }
  }

  /** Converted attributes never contain namespace markers. */
  lemma ConvertedHaveNoMarkers(h: Handler, env: Env, attrs: seq<Attr>)
    ensures NoMarkers(ConvertAll(h, env, attrs))
  {
  }

  lemma PlacedEmittedIff(groups: seq<string>, conv: seq<Field>)
    ensures Placed(groups, conv).addedNamespace
        <==> |groups| > 0 && exists i :: 0 <= i < |conv| && !conv[i].Skip?
  {
    var k := FirstNonSkip(conv);
    if k < |conv| {
      assert !conv[k].Skip?;
    }
  }

  lemma PlacedMarkers(groups: seq<string>, conv: seq<Field>)
    requires NoMarkers(conv)
    ensures CountNamespaces(Placed(groups, conv).fields)
         == if Placed(groups, conv).addedNamespace then |groups| else 0
    ensures StripNamespaces(Placed(groups, conv).fields) == conv
  {
    CountWithoutMarkers(conv);
    var k := FirstNonSkip(conv);
    if |groups| > 0 && k < |conv| {
      SplitMarkers(groups, conv[..k], conv[k..]);
      assert conv[..k] + conv[k..] == conv;
    }
  }

  lemma SplitMarkers(groups: seq<string>, pre: seq<Field>, post: seq<Field>)
    requires NoMarkers(pre) && NoMarkers(post)
    ensures CountNamespaces(pre + Namespaces(groups) + post) == |groups|
    ensures StripNamespaces(pre + Namespaces(groups) + post) == pre + post
  {
    var ns := Namespaces(groups);
    CountWithoutMarkers(pre);
    CountWithoutMarkers(post);
    CountOfMarkers(groups);
    CountAppend(pre, ns);
    CountAppend(pre + ns, post);
    assert StripNamespaces(pre + ns) == pre + [];
    assert pre + [] == pre;
  }

  /** The namespace markers are emitted in a call iff there are open groups
      and some attribute converts to something other than Skip. */
  lemma NamespaceEmittedIff(h: Handler, env: Env, attrs: seq<Attr>)
    ensures BuildFields(h, env, attrs).addedNamespace
        <==> |h.groups| > 0 && exists i :: 0 <= i < |attrs| && !ConvertAll(h, env, attrs)[i].Skip?
  {
    var conv := ConvertAll(h, env, attrs);
    assert |conv| == |attrs|;
    assert BuildFields(h, env, attrs) == Placed(h.groups, conv);
    PlacedEmittedIff(h.groups, conv);
    if BuildFields(h, env, attrs).addedNamespace {
      var i :| 0 <= i < |conv| && !conv[i].Skip?;
      assert 0 <= i < |attrs| && !ConvertAll(h, env, attrs)[i].Skip?;
    }
  }

  /** A call emits either no markers or one per open group; removing them
      gives back every converted attribute in order, skips included. */
  lemma MarkersOncePerGroup(h: Handler, env: Env, attrs: seq<Attr>)
    ensures CountNamespaces(BuildFields(h, env, attrs).fields)
         == if BuildFields(h, env, attrs).addedNamespace then |h.groups| else 0
    ensures StripNamespaces(BuildFields(h, env, attrs).fields) == ConvertAll(h, env, attrs)
  {
    ConvertedHaveNoMarkers(h, env, attrs);
    PlacedMarkers(h.groups, ConvertAll(h, env, attrs));
  }

  /** The markers sit immediately before the first non-skip field, and only
      skips precede them. */
  lemma MarkersBeforeFirstField(h: Handler, env: Env, attrs: seq<Attr>)
    requires BuildFields(h, env, attrs).addedNamespace
    ensures var fs := BuildFields(h, env, attrs).fields;
            var k := FirstNonSkip(ConvertAll(h, env, attrs));
            && k + |h.groups| < |fs|
            && (forall i :: 0 <= i < k ==> fs[i].Skip?)
            && fs[k..k + |h.groups|] == Namespaces(h.groups)
            && fs[k + |h.groups|] == ConvertAll(h, env, attrs)[k]
            && !fs[k + |h.groups|].Skip?
  {
    var conv := ConvertAll(h, env, attrs);
    assert BuildFields(h, env, attrs) == Placed(h.groups, conv);
    PlacedMarkersPosition(h.groups, conv);
  }

  lemma PlacedMarkersPosition(groups: seq<string>, conv: seq<Field>)
    requires Placed(groups, conv).addedNamespace
    ensures var fs := Placed(groups, conv).fields;
            var k := FirstNonSkip(conv);
            && k + |groups| < |fs|
            && (forall i :: 0 <= i < k ==> fs[i].Skip?)
            && fs[k..k + |groups|] == Namespaces(groups)
            && fs[k + |groups|] == conv[k]
            && !fs[k + |groups|].Skip?
  {
    var k := FirstNonSkip(conv);
    var fs := Placed(groups, conv).fields;
    assert fs == conv[..k] + Namespaces(groups) + conv[k..];
  }

  /** WithAttrs has no shortcut for an empty list: the clone's core is still
      re-bound, with no fields, and the groups are kept. */
  lemma WithAttrsOfNothing(h: Handler, env: Env)
    ensures WithAttrs(h, env, []) == h.(core := CoreWith(h.core, []))
  {
    assert ConvertAll(h, env, []) == [];
  }

  /** Once WithAttrs has emitted the namespaces, the clone has no open groups,
      so later records through it get no further markers. */
  lemma WithAttrsConsumesGroups(h: Handler, env: Env, attrs: seq<Attr>, rec: Record)
    requires |h.groups| > 0
    requires exists i :: 0 <= i < |attrs| && !ConvertAll(h, env, attrs)[i].Skip?
    ensures WithAttrs(h, env, attrs).groups == []
    ensures var r := Handle(WithAttrs(h, env, attrs), env, rec);
            r.written.Some? ==> CountNamespaces(r.written.value.fields) == 0
  {
    NamespaceEmittedIff(h, env, attrs);
    var h2 := WithAttrs(h, env, attrs);
    MarkersOncePerGroup(h2, env, rec.attrs);
    NamespaceEmittedIff(h2, env, rec.attrs);
  }

  /** With a backend whose Check only admits enabled levels, a record at a
      disabled level is never written. */
  lemma DisabledMeansNoWrite(h: Handler, env: Env, rec: Record)
    requires forall c, e :: env.check(c, e) ==> env.enabled(c, e.level)
    ensures !Enabled(h, env, rec.level) ==> Handle(h, env, rec).written.None?
  {
  }

  /** Two nested groups and one attribute: the code emits one marker per
      group, then the field. */
  lemma NestedGroupsScenario(core: Core, env: Env, time: Opaque, pc: nat)
    requires env.check(core, Entry(InfoLevel, time, "request", ""))
    ensures var h := WithGroup(WithGroup(New(core, []), "req"), "net");
            var rec := Record(time, "request", LevelInfo, pc, [Attr("latency_ms", Int64V(12))]);
            Handle(h, env, rec).written.Some?
            && Handle(h, env, rec).written.value.fields
               == [NamespaceF("req"), NamespaceF("net"), Int64F("latency_ms", 12)]
  {
    var h := WithGroup(WithGroup(New(core, []), "req"), "net");
    assert h.groups == ["req", "net"];
    var attrs := [Attr("latency_ms", Int64V(12))];
    var conv := ConvertAll(h, env, attrs);
    assert conv == [Int64F("latency_ms", 12)];
    assert FirstNonSkip(conv) == 0;
    assert Namespaces(h.groups) == [NamespaceF("req"), NamespaceF("net")];
  }

  /** A backend gated at Info: a Debug record is dropped, and a Warn record
      with two attributes and no open group yields exactly those two fields. */
  lemma GateScenario(core: Core, env: Env, time: Opaque, pc: nat)
    requires forall e: Entry :: env.check(core, e) <==> e.level >= InfoLevel
    ensures var h := New(core, []);
            && Handle(h, env, Record(time, "dbg", LevelDebug, pc, [])).written.None?
            && Handle(h, env, Record(time, "warn", LevelWarn, pc,
                 [Attr("user", StringV("alice")), Attr("retries", Int64V(3))])).written
               == Some(Written(Entry(WarnLevel, time, "warn", ""), UndefinedCaller,
                   [StringF("user", "alice"), Int64F("retries", 3)]))
  {
    var h := New(core, []);
    var attrs := [Attr("user", StringV("alice")), Attr("retries", Int64V(3))];
    assert ConvertAll(h, env, attrs) == [StringF("user", "alice"), Int64F("retries", 3)];
  }
  /** With a hook set, each attribute of a written record reaches the fields as
      the hook rewrote it, the hook being told the handler's open groups. */
  lemma RedactedAttrIsWritten(h: Handler, env: Env, rec: Record, i: nat)
    requires i < |rec.attrs| && h.replaceAttr.Some?
    requires env.check(h.core, EntryFor(h, rec))
    ensures var red := env.redact(h.replaceAttr.value, h.groups, rec.attrs[i]);
            && Handle(h, env, rec).written.Some?
            && Convert(Attr(red.key, Resolve(red.value, env.logValue)), env.logValue)
               in Handle(h, env, rec).written.value.fields
  {
    var conv := ConvertAll(h, env, rec.attrs);
    PlacedKeepsConverted(h.groups, conv, i);
  }

  /** The same for WithAttrs: each attribute is bound to the derived core as
      the hook rewrote it. */
  lemma RedactedAttrIsBound(h: Handler, env: Env, attrs: seq<Attr>, i: nat)
    requires i < |attrs| && h.replaceAttr.Some?
    ensures var red := env.redact(h.replaceAttr.value, h.groups, attrs[i]);
            Convert(Attr(red.key, Resolve(red.value, env.logValue)), env.logValue)
              in WithAttrs(h, env, attrs).core.fields
  {
    var conv := ConvertAll(h, env, attrs);
    PlacedKeepsConverted(h.groups, conv, i);
  }

  /** A hook that returns the attribute unchanged is the same as no hook. */
  lemma IdentityHookIsNoHook(h: Handler, env: Env, a: Attr)
    requires h.replaceAttr.Some? && env.redact(h.replaceAttr.value, h.groups, a) == a
    ensures PrepareAttr(h, env, a) == PrepareAttr(h.(replaceAttr := None), env, a)
  {
  }
}

