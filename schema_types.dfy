/**
 * The pieces of the document mapper's semantics that the schemas in models/ rely on:
 * the `trim: true` option (String.prototype.trim), the cast of a payload value to Number,
 * Number.isInteger, and the error a failed `save` reports.
 */
module SchemaTypes {
  import opened Wrappers

  /** Document ids are strings (the hex form of a database ObjectId). */
  type ObjectId = string

  /** The ECMAScript WhiteSpace and LineTerminator code points: exactly what String.prototype.trim removes. */
  predicate IsWhitespace(c: char) {
    var n := c as int;
    (9 <= n <= 13) || n == 0x20 || n == 0xA0 || n == 0x1680 || (0x2000 <= n <= 0x200A)
    || n == 0x2028 || n == 0x2029 || n == 0x202F || n == 0x205F || n == 0x3000 || n == 0xFEFF
  }

  /** Removes leading whitespace: the result is a suffix of `s` and everything cut off is whitespace. */
  function TrimStart(s: string): (r: string)
    ensures |r| <= |s| && r == s[|s| - |r|..]
    ensures r == [] || !IsWhitespace(r[0])
    ensures forall i :: 0 <= i < |s| - |r| ==> IsWhitespace(s[i])
  {
    if |s| > 0 && IsWhitespace(s[0]) then TrimStart(s[1..]) else s
  }

  /** Removes trailing whitespace: the result is a prefix of `s` and everything cut off is whitespace. */
  function TrimEnd(s: string): (r: string)
    ensures |r| <= |s| && r == s[..|r|]
    ensures r == [] || !IsWhitespace(r[|r| - 1])
    ensures forall i :: |r| <= i < |s| ==> IsWhitespace(s[i])
  {
    if |s| > 0 && IsWhitespace(s[|s| - 1]) then TrimEnd(s[..|s| - 1]) else s
  }

  /** `r` occurs in `s` starting at position `k`. */
  predicate InfixAt(r: string, s: string, k: int) {
    0 <= k <= |s| - |r| && r == s[k..k + |r|]
  }

  /** String.prototype.trim: the longest infix of `s` that neither starts nor ends with whitespace. */
  function Trim(s: string): (r: string)
    ensures |r| <= |s|
    ensures exists k :: && InfixAt(r, s, k)
                        && (forall i :: 0 <= i < k ==> IsWhitespace(s[i]))
                        && (forall i :: k + |r| <= i < |s| ==> IsWhitespace(s[i]))
    ensures IsTrimmed(r)
    ensures r == [] <==> forall i :: 0 <= i < |s| ==> IsWhitespace(s[i])
  {
    var t := TrimStart(s);
    var r := TrimEnd(t);
    assert InfixAt(r, s, |s| - |t|);
    // an empty result means TrimEnd found only whitespace, which TrimStart would already have removed
    assert r == [] ==> t == [];
    r
  }

  /** Neither starts nor ends with whitespace. */
  predicate IsTrimmed(s: string) {
    s == [] || (!IsWhitespace(s[0]) && !IsWhitespace(s[|s| - 1]))
  }

  /** Trim leaves a string alone exactly when it is already trimmed. */
  lemma TrimOfTrimmed(s: string)
    ensures Trim(s) == s <==> IsTrimmed(s)
  {
  }

  /** Trimming twice is trimming once, so a stored (already trimmed) value survives a later save unchanged. */
  lemma TrimIdempotent(s: string)
    ensures Trim(Trim(s)) == Trim(s)
  {
    TrimOfTrimmed(Trim(s));
  }

  /** `trim: true` on an optional field: an absent value stays absent. */
  function TrimOpt(s: Option<string>): (r: Option<string>)
    ensures r.None? <==> s.None?
    ensures r.Some? ==> r.value == Trim(s.value)
  {
    match s
    case None => None
    case Some(v) => Some(Trim(v))
  }

  /**
   * A payload value after the mapper's cast to Number (or Decimal128): either the number it
   * casts to, or a value that cannot be cast (a random string), which fails validation.
   */
  datatype NumberInput = Num(value: real) | NotANumber

  /** Number.isInteger on a finite number. */
  predicate IsInteger(x: real) {
    x == x.Floor as real
  }

  /** The error a failed `save` reports, naming the model; its per-path details are not modelled. */
  datatype ValidationError = ValidationFailed(model: string)

}
