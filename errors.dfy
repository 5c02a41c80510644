/**
 * The client's error type and its user-visible rendering (src/error.rs).
 * The two variants that wrap a library error (an HTTP transport failure and
 * a JSON decoding failure) carry that error by its own rendered text.
 */
module Errors {
  import opened Wrappers
  import opened Encoding

  datatype BybitError =
    | RequestError(detail: string)
    | ApiError(retCode: I32, retMsg: string)
    | InvalidTimestamp(msg: string)
    | SerializationError(detail: string)
    | InvalidParameter(msg: string)
    | AuthenticationError(msg: string)
    | RateLimitExceeded(limitType: string, limitResetMs: Option<U64>)
    | InvalidEnumValue(enumName: string, value: string)
    | MissingRequiredField(fieldName: string)

  /** The crate's `Result<T>`: a value or a `BybitError`. */
  datatype Result<+T> = Ok(value: T) | Err(error: BybitError)

  /** The fixed text every rendering of a variant starts with. */
  function Tag(e: BybitError): string
  {
    match e
    case RequestError(_) => "HTTP request failed: "
    case ApiError(_, _) => "API error (code "
    case InvalidTimestamp(_) => "Invalid timestamp: "
    case SerializationError(_) => "Serialization error: "
    case InvalidParameter(_) => "Invalid parameter: "
    case AuthenticationError(_) => "Authentication failed: "
    case RateLimitExceeded(_, _) => "Rate limit exceeded: "
    case InvalidEnumValue(_, _) => "Invalid enum value for "
    case MissingRequiredField(_) => "Missing required field: "
  }

  /** `Display::fmt`: the variant's tag followed by its payload. */
  function Render(e: BybitError): (s: string)
    ensures |Tag(e)| <= |s| && s[..|Tag(e)|] == Tag(e)
  {
    match e
    case RequestError(d) => "HTTP request failed: " + d
    case ApiError(code, msg) => "API error (code " + IntToDecimal(code) + "): " + msg
    case InvalidTimestamp(msg) => "Invalid timestamp: " + msg
    case SerializationError(d) => "Serialization error: " + d
    case InvalidParameter(msg) => "Invalid parameter: " + msg
    case AuthenticationError(msg) => "Authentication failed: " + msg
    case RateLimitExceeded(limitType, _) => "Rate limit exceeded: " + limitType
    case InvalidEnumValue(name, value) => "Invalid enum value for " + name + ": " + value
    case MissingRequiredField(name) => "Missing required field: " + name
  }

  /** `t` occurs in `s` starting at index `i`. */
  predicate OccursAt(s: string, t: string, i: nat)
  {
    i + |t| <= |s| && s[i..i + |t|] == t
  }

  /** `t` occurs in `s` as a contiguous substring. */
  ghost predicate Contains(s: string, t: string)
  {
    exists i: nat :: OccursAt(s, t, i)
  }

  /** The API error rendering shows both the code (in decimal) and the message. */
  lemma ApiErrorRenderingShowsCodeAndMessage(code: I32, msg: string)
    ensures Contains(Render(ApiError(code, msg)), IntToDecimal(code))
    ensures Contains(Render(ApiError(code, msg)), msg)
  {
    var s, d := Render(ApiError(code, msg)), IntToDecimal(code);
    var n := |"API error (code "|;
    assert OccursAt(s, d, n);
    assert OccursAt(s, msg, |s| - |msg|);
  }

  /** The API error rendering can be read back: code and message are both determined by it. */
  lemma ApiErrorRenderingInjective(c: I32, m: string, c': I32, m': string)
    requires Render(ApiError(c, m)) == Render(ApiError(c', m'))
    ensures c == c' && m == m'
  {
    var s, d, d' := Render(ApiError(c, m)), IntToDecimal(c), IntToDecimal(c');
    var tag, sep := "API error (code ", "): ";
    var n := |tag|;
    assert s == tag + (d + (sep + m));
    assert s == tag + (d' + (sep + m'));
    IntToDecimalChars(c);
    IntToDecimalChars(c');
    // The code ends where the first ')' after the tag stands.
    assert s[n + |d|] == ')' && s[n + |d'|] == ')';
    assert forall i :: n <= i < n + |d| ==> s[i] == d[i - n];
    assert forall i :: n <= i < n + |d'| ==> s[i] == d'[i - n];
    assert |d| == |d'|;
    SlicesOfConcat(tag, d, sep, m);
    SlicesOfConcat(tag, d', sep, m');
    IntDecimalInjective(c, c');
  }

  /** The pieces of `a + (b + (c + e))` sit at the offsets their lengths give. */
  lemma SlicesOfConcat(a: string, b: string, c: string, e: string)
    ensures var s := a + (b + (c + e));
      s[|a|..|a| + |b|] == b && s[|a| + |b| + |c|..] == e
  {
    var s := a + (b + (c + e));
    assert s == (a + b + c) + e;
    assert s[..|a| + |b|] == a + b;
  }

  /** The reset time of a rate-limit error never appears in its rendering. */
  lemma RateLimitRenderingIgnoresReset(limitType: string, r: Option<U64>, r': Option<U64>)
    ensures Render(RateLimitExceeded(limitType, r)) == Render(RateLimitExceeded(limitType, r'))
    ensures Contains(Render(RateLimitExceeded(limitType, r)), limitType)
  {
    var s := Render(RateLimitExceeded(limitType, r));
    assert OccursAt(s, limitType, |s| - |limitType|);
  }

  /** An invalid enum value renders both the enum's name and the offending value. */
  lemma InvalidEnumValueRenderingShowsBoth(name: string, value: string)
    ensures Contains(Render(InvalidEnumValue(name, value)), name)
    ensures Contains(Render(InvalidEnumValue(name, value)), value)
  {
    var s := Render(InvalidEnumValue(name, value));
    var n := |"Invalid enum value for "|;
    assert OccursAt(s, name, n);
    assert OccursAt(s, value, |s| - |value|);
  }

  /**
   * Every variant with a message renders it after its tag, and nothing else:
   * the message is exactly what follows the tag.
   */
  lemma MessageFollowsTag(e: BybitError)
    requires !e.ApiError? && !e.InvalidEnumValue?
    ensures Render(e)[|Tag(e)|..] == match e
      case RequestError(d) => d
      case InvalidTimestamp(m) => m
      case SerializationError(d) => d
      case InvalidParameter(m) => m
      case AuthenticationError(m) => m
      case RateLimitExceeded(t, _) => t
      case MissingRequiredField(f) => f
  {
  }

  /** Two errors of different variants never render alike. */
  lemma RenderingRevealsVariant(e: BybitError, e': BybitError)
    requires Render(e) == Render(e')
    ensures Tag(e) == Tag(e')
  {
    RenderingShowsTagLetters(e);
    RenderingShowsTagLetters(e');
    TagLettersDistinct(e, e');
  }

  /** A rendering begins with the letters of its tag, among them the first, second and ninth. */
  lemma RenderingShowsTagLetters(e: BybitError)
    ensures |Tag(e)| > 8 && |Render(e)| > 8
    ensures Render(e)[0] == Tag(e)[0] && Render(e)[1] == Tag(e)[1] && Render(e)[8] == Tag(e)[8]
  {
    var s, t := Render(e), Tag(e);
    assert s[..|t|] == t;
    assert s[0] == s[..|t|][0] && s[1] == s[..|t|][1] && s[8] == s[..|t|][8];
  }

  /** The nine tags differ in their first, second or ninth letter. */
  lemma TagLettersDistinct(e: BybitError, e': BybitError)
    requires |Tag(e)| > 8 && |Tag(e')| > 8
    requires Tag(e)[0] == Tag(e')[0] && Tag(e)[1] == Tag(e')[1] && Tag(e)[8] == Tag(e')[8]
    ensures Tag(e) == Tag(e')
  {
  }
}
