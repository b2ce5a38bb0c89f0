/** The redaction options of the masq library. Only their identity matters to the
    logger: the redaction they perform is an uninterpreted collaborator. */
module Masq {

  datatype MaskOption =
    | FieldPrefix(prefix: string)  // masq.WithFieldPrefix(prefix)
    | CustomMask(id: nat)          // any other option the caller passes

  /** One field-prefix option per key, in key order. */
  function FieldPrefixes(keys: seq<string>): (opts: seq<MaskOption>)
    ensures |opts| == |keys|
    ensures forall i :: 0 <= i < |keys| ==> opts[i] == FieldPrefix(keys[i])
  {
    if |keys| == 0 then [] else FieldPrefixes(keys[..|keys| - 1]) + [FieldPrefix(keys[|keys| - 1])]
  }
}
