/** The handler options of logger/v2/zaphandler/option.go, applied by New.
    A HandlerOption is the function its handlerOptionFunc wraps, so applying
    an option is applying that function. */
module HandlerOptions {
  import opened Wrappers
  import opened Slog
  import opened ZapHandler

  /** WithName sets the handler name and nothing else. */
  function WithName(name: string): (o: HandlerOption)
    ensures forall h :: o(h).name == name && o(h).(name := h.name) == h
  {
    (h: Handler) => h.(name := name)
  }

  /** WithAddCaller sets the caller flag and nothing else. */
  function WithAddCaller(add: bool): (o: HandlerOption)
    ensures forall h :: o(h).addCaller == add && o(h).(addCaller := h.addCaller) == h
  {
    (h: Handler) => h.(addCaller := add)
  }

  /** WithAddStackTraceAt sets the stack-trace level and nothing else. */
  function WithAddStackTraceAt(level: Level): (o: HandlerOption)
    ensures forall h :: o(h).addStackAt == level && o(h).(addStackAt := h.addStackAt) == h
  {
    (h: Handler) => h.(addStackAt := level)
  }

  /** WithCallerSkipCount sets the skip count and nothing else. */
  function WithCallerSkipCount(skip: int): (o: HandlerOption)
    ensures forall h :: o(h).callerSkipCount == skip && o(h).(callerSkipCount := h.callerSkipCount) == h
  {
    (h: Handler) => h.(callerSkipCount := skip)
  }

  /** WithReplaceAttr sets the redaction hook (None is a nil function) and nothing else. */
  function WithReplaceAttr(replace: Option<Redactor>): (o: HandlerOption)
    ensures forall h :: o(h).replaceAttr == replace && o(h).(replaceAttr := h.replaceAttr) == h
  {
    (h: Handler) => h.(replaceAttr := replace)
  }

  /** Options run left to right: the last option runs on the result of the others. */
  lemma {:induction false} ApplyLast(h: Handler, opts: seq<HandlerOption>, o: HandlerOption)
    ensures ApplyHandlerOptions(h, opts + [o]) == o(ApplyHandlerOptions(h, opts))
    decreases |opts|
  {
    if |opts| == 0 {
      assert opts + [o] == [o];
      assert [o][1..] == [];
    } else {
      assert (opts + [o])[1..] == opts[1..] + [o];
      ApplyLast(opts[0](h), opts[1..], o);
    }
  }

  /** Running `a` then `b` is running `a + b`. */
  lemma {:induction false} ApplyAppend(h: Handler, a: seq<HandlerOption>, b: seq<HandlerOption>)
    ensures ApplyHandlerOptions(h, a + b) == ApplyHandlerOptions(ApplyHandlerOptions(h, a), b)
    decreases |a|
  {
    if |a| == 0 {
      assert a + b == b;
    } else {
      assert (a + b)[1..] == a[1..] + b;
      ApplyAppend(a[0](h), a[1..], b);
    }
  }

  /** The handler fields the last-setter lemmas speak about. */
  function NameOf(h: Handler): string { h.name }
  function StackLevelOf(h: Handler): Level { h.addStackAt }

  /** An option that leaves the field `get` reads alone. */
  ghost predicate Keeps<T>(o: HandlerOption, get: Handler -> T)
  {
    forall h :: get(o(h)) == get(h)
  }

  /** Options that each keep a field keep it through the whole run. */
  lemma {:induction false} KeptThroughOptions<T>(h: Handler, opts: seq<HandlerOption>, get: Handler -> T)
    requires forall i :: 0 <= i < |opts| ==> Keeps(opts[i], get)
    ensures get(ApplyHandlerOptions(h, opts)) == get(h)
    decreases |opts|
  {
    if |opts| > 0 {
      assert Keeps(opts[0], get);
      KeptThroughOptions(opts[0](h), opts[1..], get);
    }
  }

  /** A setter decides its field when it runs last, and still does when
      only options that keep the field follow it. */
  lemma SetterWins<T>(h: Handler, opts: seq<HandlerOption>, o: HandlerOption, rest: seq<HandlerOption>, get: Handler -> T, val: T)
    requires forall h' :: get(o(h')) == val
    ensures get(ApplyHandlerOptions(h, opts + [o])) == val
    ensures (forall i :: 0 <= i < |rest| ==> Keeps(rest[i], get)) ==> get(ApplyHandlerOptions(h, opts + [o] + rest)) == val
  {
    ApplyLast(h, opts, o);
    if forall i :: 0 <= i < |rest| ==> Keeps(rest[i], get) {
      ApplyAppend(h, opts + [o], rest);
      KeptThroughOptions(ApplyHandlerOptions(h, opts + [o]), rest, get);
    }
  }

  /** The last WithAddStackTraceAt given to New decides the stack-trace level,
      whatever ran before it and whichever level-keeping options follow it. */
  lemma LastStackLevelWins(core: Zap.Core, opts: seq<HandlerOption>, level: Level, rest: seq<HandlerOption>)
    ensures New(core, opts + [WithAddStackTraceAt(level)]).addStackAt == level
    ensures (forall i :: 0 <= i < |rest| ==> Keeps(rest[i], StackLevelOf)) ==>
              New(core, opts + [WithAddStackTraceAt(level)] + rest).addStackAt == level
  {
    SetterWins(DefaultHandler(core), opts, WithAddStackTraceAt(level), rest, StackLevelOf, level);
  }

  /** The last WithName given to New decides the name, whichever
      name-keeping options follow it. */
  lemma LastNameWins(core: Zap.Core, opts: seq<HandlerOption>, name: string, rest: seq<HandlerOption>)
    ensures New(core, opts + [WithName(name)]).name == name
    ensures (forall i :: 0 <= i < |rest| ==> Keeps(rest[i], NameOf)) ==>
              New(core, opts + [WithName(name)] + rest).name == name
  {
    SetterWins(DefaultHandler(core), opts, WithName(name), rest, NameOf, name);
  }

  /** New(core, WithName(n), WithAddCaller(true)) keeps the name n: the
      caller option that runs after it leaves the name alone. */
  lemma NameSurvivesLaterOption(core: Zap.Core, name: string)
    ensures New(core, [WithName(name), WithAddCaller(true)]).name == name
  {
    assert Keeps(WithAddCaller(true), NameOf);
    SetterWins(DefaultHandler(core), [], WithName(name), [WithAddCaller(true)], NameOf, name);
    assert [] + [WithName(name)] + [WithAddCaller(true)] == [WithName(name), WithAddCaller(true)];
  }

  /** Without an option touching it, New keeps the Error default for stack traces. */
  lemma StackLevelDefaultsToError(core: Zap.Core, opts: seq<HandlerOption>)
    requires forall i :: 0 <= i < |opts| ==> Keeps(opts[i], StackLevelOf)
    ensures New(core, opts).addStackAt == LevelError
  {
    KeptThroughOptions(DefaultHandler(core), opts, StackLevelOf);
  }
}
