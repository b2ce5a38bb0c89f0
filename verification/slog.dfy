/** The parts of Go's log/slog the adapter consumes: kind-tagged values,
    attributes, records, levels, and bounded resolution of lazy values. */
module Slog {

  /** A payload the model never inspects: a float64, a time.Time or a time.Duration. */
  datatype Opaque = Opaque(id: nat)

  /** The dynamic value held in a Go `any`. */
  datatype AnyPayload =
    | Nil                  // the nil interface
    | Str(s: string)       // a Go string
    | Boxed(id: nat)       // any other Go value, uninterpreted
    | TooManyLogValues     // the error value Resolve yields when a LogValue chain is too long

  /** A slog.Value, one constructor per slog.Kind. */
  datatype Value =
    | BoolV(b: bool)
    | Int64V(i: int)
    | Uint64V(u: nat)
    | Float64V(f: Opaque)
    | StringV(s: string)
    | DurationV(d: Opaque)
    | TimeV(t: Opaque)
    | AnyV(a: AnyPayload)
    | GroupV(attrs: seq<Attr>)
    | LogValuerV(ref: nat)                        // a LogValuer; the environment runs its LogValue method
    | OtherKindV(kind: nat, payload: AnyPayload)  // a kind outside the ones slog names

  datatype Attr = Attr(key: string, value: Value)

  /** slog.Attr{}: empty key and the zero Value, which is KindAny holding nil. */
  const ZeroAttr: Attr := Attr("", AnyV(Nil))

  /** slog.Level is an int; these are the four named levels. */
  type Level = int
  const LevelDebug: Level := -4
  const LevelInfo: Level := 0
  const LevelWarn: Level := 4
  const LevelError: Level := 8

  /** One log event. `pc` is 0 when no caller was captured. */
  datatype Record = Record(time: Opaque, message: string, level: Level, pc: nat, attrs: seq<Attr>)

  /** slog caps the number of LogValue calls made while resolving one value. */
  const MaxLogValues: nat := 100

  /** Resolution with `n` LogValue calls left. The budget is tested before the
      kind, as in slog's loop: the value produced by the last allowed call is
      never examined, so a chain of exactly `n` steps still fails. */
  function ResolveFor(v: Value, logValue: nat -> Value, n: nat): (r: Value)
    ensures !r.LogValuerV?
    ensures n > 0 && !v.LogValuerV? ==> r == v
    decreases n
  {
    if n == 0 then AnyV(TooManyLogValues)
    else if !v.LogValuerV? then v
    else ResolveFor(logValue(v.ref), logValue, n - 1)
  }

  /** slog.Value.Resolve: follows LogValue until a concrete value appears,
      degrading to an error payload instead of looping. */
  function Resolve(v: Value, logValue: nat -> Value): (r: Value)
    ensures !r.LogValuerV?
    ensures !v.LogValuerV? ==> r == v
  {
    ResolveFor(v, logValue, MaxLogValues)
  }

  /** A LogValuer whose LogValue returns itself exhausts the budget and
      degrades to the error payload instead of looping. */
  lemma {:induction false} SelfReferentialValueDegrades(ref: nat, logValue: nat -> Value, n: nat)
    requires logValue(ref) == LogValuerV(ref)
    ensures ResolveFor(LogValuerV(ref), logValue, n) == AnyV(TooManyLogValues)
  {
    if n > 0 {
      SelfReferentialValueDegrades(ref, logValue, n - 1);
    }
  }

  /** A chain that reaches a concrete value within the budget resolves to it. */
  lemma {:induction false} ChainResolves(v: Value, logValue: nat -> Value, steps: nat, n: nat)
    requires steps < n
    requires !Follow(v, logValue, steps).LogValuerV?
    requires forall j :: 0 <= j < steps ==> Follow(v, logValue, j).LogValuerV?
    ensures ResolveFor(v, logValue, n) == Follow(v, logValue, steps)
    decreases steps
  {
    if steps > 0 {
      assert Follow(v, logValue, 0) == v;
      var next := logValue(v.ref);
      forall j | 0 <= j < steps - 1
        ensures Follow(next, logValue, j).LogValuerV?
      {
        FollowShift(v, logValue, j);
      }
      FollowShift(v, logValue, steps - 1);
      ChainResolves(next, logValue, steps - 1, n - 1);
    }
  }

  /** A chain whose first `n` values are all LogValuers fails with `n` calls
      left, even when the value the last call returns is concrete. */
  lemma {:induction false} BudgetExhaustedFails(v: Value, logValue: nat -> Value, n: nat)
    requires forall j :: 0 <= j < n ==> Follow(v, logValue, j).LogValuerV?
    ensures ResolveFor(v, logValue, n) == AnyV(TooManyLogValues)
    decreases n
  {
    if n > 0 {
      assert Follow(v, logValue, 0) == v;
      var next := logValue(v.ref);
      forall j | 0 <= j < n - 1
        ensures Follow(next, logValue, j).LogValuerV?
      {
        FollowShift(v, logValue, j);
      }
      BudgetExhaustedFails(next, logValue, n - 1);
    }
  }

  /** Resolve gives up on a chain of exactly MaxLogValues LogValuers, though
      the next value is concrete. */
  lemma ExactBudgetChainFails(v: Value, logValue: nat -> Value)
    requires forall j :: 0 <= j < MaxLogValues ==> Follow(v, logValue, j).LogValuerV?
    requires !Follow(v, logValue, MaxLogValues).LogValuerV?
    ensures Resolve(v, logValue) == AnyV(TooManyLogValues)
  {
    BudgetExhaustedFails(v, logValue, MaxLogValues);
  }

  /** The value reached after `j` LogValue calls (stopping at a concrete value). */
  function Follow(v: Value, logValue: nat -> Value, j: nat): Value
    decreases j
  {
    if j == 0 || !v.LogValuerV? then v else Follow(logValue(v.ref), logValue, j - 1)
  }

  lemma {:induction false} FollowShift(v: Value, logValue: nat -> Value, j: nat)
    requires v.LogValuerV?
    ensures Follow(v, logValue, j + 1) == Follow(logValue(v.ref), logValue, j)
  {
  }
}
