/** `DatabaseUtils`: input sanitising and database error text. */
module Db {
  import opened Wrappers
  import opened Js

  predicate IsAngleBracket(c: char) {
    c == '<' || c == '>'
  }

  /** `s.replace(/[<>]/g, '')`: every other character kept, in order. */
  function RemoveAngleBrackets(s: string): (r: string)
    ensures |r| <= |s|
    ensures forall c :: c in r <==> c in s && !IsAngleBracket(c)
    ensures (forall i :: 0 <= i < |s| ==> !IsAngleBracket(s[i])) ==> r == s
  {
    if s == [] then []
    else
      var rest := RemoveAngleBrackets(s[1..]);
      assert forall c :: c in s <==> c == s[0] || c in s[1..];
      if IsAngleBracket(s[0]) then rest else [s[0]] + rest
  }

  /** `DatabaseUtils.sanitizeInput`: trim, then strip every '<' and '>'. */
  function SanitizeInput(input: string): (r: string)
    ensures '<' !in r && '>' !in r
    ensures |r| <= |input|
    ensures forall c :: c in r ==> c in input
  {
    TrimKeepsCharacters(input);
    RemoveAngleBrackets(Trim(input))
  }

  /** Input with no angle brackets and no whitespace at either end comes back unchanged. */
  lemma SanitizeInputKeepsCleanInput(input: string)
    requires forall i :: 0 <= i < |input| ==> !IsAngleBracket(input[i])
    requires input == [] || (!IsWhitespace(input[0]) && !IsWhitespace(input[|input| - 1]))
    ensures SanitizeInput(input) == input
  {
  }

  /** "< a" is already trimmed, so only the bracket goes and the space before "a" stays. */
  lemma SanitizeBracketedSpace()
    ensures SanitizeInput("< a") == " a"
  {
    var s := "< a";
    assert !IsWhitespace(s[0]) && !IsWhitespace(s[|s| - 1]);
    assert Trim(s) == s;
    assert RemoveAngleBrackets(s[2..][1..]) == "";
    assert RemoveAngleBrackets(s[2..]) == "a";
    assert RemoveAngleBrackets(s[1..]) == " a";
  }

  /** Trimming " a" drops the space. */
  lemma TrimLeadingSpace()
    ensures Trim(" a") == "a"
  {
    var t := " a";
    assert IsWhitespace(t[0]) && t[1..] == "a";
    assert !IsWhitespace("a"[0]);
    assert TrimStart(t) == "a";
  }

  /** " a" loses its leading space to the trim. */
  lemma SanitizeLeadingSpace()
    ensures SanitizeInput(" a") == "a"
  {
    TrimLeadingSpace();
    assert !IsAngleBracket("a"[0]);
  }

  /**
   * Trimming happens before the brackets go, so the result can still start with
   * whitespace: "< a" gives " a", and sanitising that again gives "a".
   */
  lemma SanitizeInputNotIdempotent()
    ensures SanitizeInput("< a") == " a"
    ensures SanitizeInput(SanitizeInput("< a")) == "a"
    ensures SanitizeInput(SanitizeInput("< a")) != SanitizeInput("< a")
  {
    SanitizeBracketedSpace();
    SanitizeLeadingSpace();
  }

  // ---------------------------------------------------------------------------
  // formatError

  /**
   * The thrown value `formatError` receives: an object with an optional `message`
   * property, a string, or anything else (null, undefined, a number, ...).
   */
  datatype ErrorValue = ErrObject(message: Option<Json>) | ErrString(text: string) | ErrOther

  const UnknownDatabaseError := "Unknown database error"

  /** `DatabaseUtils.formatError`: a truthy message, else the string itself, else the fallback text. */
  function FormatError(error: ErrorValue): (r: Json)
    ensures error.ErrObject? && error.message.Some? && Truthy(error.message.value) ==> r == error.message.value
    ensures error.ErrString? ==> r == JStr(error.text)
    ensures (error.ErrObject? && (error.message.None? || !Truthy(error.message.value))) || error.ErrOther?
      ==> r == JStr(UnknownDatabaseError)
  {
    match error
    case ErrObject(Some(m)) => if Truthy(m) then m else JStr(UnknownDatabaseError)
    case ErrObject(None) => JStr(UnknownDatabaseError)
    case ErrString(s) => JStr(s)
    case ErrOther => JStr(UnknownDatabaseError)
  }

  /** The formatted error is never blank unless the error itself was the empty string. */
  lemma FormatErrorIsTruthy(error: ErrorValue)
    ensures Truthy(FormatError(error)) || error == ErrString("")
  {
  }

  /** An object whose message is the empty string gets the fallback text, not its message. */
  lemma FormatErrorEmptyMessage()
    ensures FormatError(ErrObject(Some(JStr("")))) == JStr(UnknownDatabaseError)
  {
  }
}
