/** A Go context.Context reduced to its value chain. */
module Ctx {
  import opened Wrappers

  /** Keys used with context.WithValue: the loggers' private key type, or a plain string. */
  datatype Key = LoggerCtxKey | StringKey(s: string) | OtherKey(id: nat)

  /** Values stored in a context: a logger of type L, a string, or anything else. */
  datatype Val<L> = LoggerVal(logger: L) | StringVal(s: string) | OtherVal(id: nat)

  datatype Context<L> = Background | WithValue(parent: Context<L>, key: Key, val: Val<L>)

  /** ctx.Value(key): the innermost binding of `key`, or nil. */
  function Lookup<L>(ctx: Context<L>, key: Key): (r: Option<Val<L>>)
    ensures ctx.WithValue? && ctx.key == key ==> r == Some(ctx.val)
    ensures r.Some? ==> ctx.WithValue?
  {
    match ctx
    case Background => None
    case WithValue(parent, k, v) => if k == key then Some(v) else Lookup(parent, key)
  }
}
