/**
 * The errors the client and its commands return, and the text each one
 * carries. Causes that come from the operating system or the HTTP stack are
 * kept as opaque text.
 */
module Errors {
  import opened Text

  datatype Error =
    | KeyFileUnreadable(cause: string)
    | KeyNotConfigured
    | NoConfigDir(cause: string)
    | ConfigDirNotCreated(cause: string)
    | ConfigUnreadable(cause: string)
    | ConfigNotWritten(cause: string)
    | RequestNotCreated(cause: string)
    | RequestFailed(cause: string)
    | ResponseUnreadable(cause: string)
    | ApiError(status: int, body: Bytes)
    | ParseFailed(cause: string)
    | FlagRequired(flag: string)
    | EmptyArgument(what: string)
    | SaveFailed(what: string, inner: Error)

  /** The environment variables and the command a key can be given by. */
  const KeyVariable := "ELLIE_API_KEY"
  const KeyFileVariable := "ELLIE_API_KEY_FILE"
  const SetKeyCommand := "ellie config set-api-key"

  const NotConfiguredText := "API key not configured. Set " + KeyVariable + ", " + KeyFileVariable
    + ", or run '" + SetKeyCommand + " <key>'"

  const ApiErrorPrefix := "API error (status "

  /** The text of an error wrapping `cause` after a fixed ASCII lead. */
  function Wrapped(lead: string, cause: string): Bytes {
    Ascii(lead) + Utf8(cause)
  }

  /** The text of an API error, before the body. */
  function StatusLead(status: int): string {
    ApiErrorPrefix + Decimal(status) + "): "
  }

  /** The bytes `err.Error()` returns. */
  function Message(e: Error): Bytes {
    match e
    case KeyFileUnreadable(cause) => Wrapped("failed to read API key file: ", cause)
    case KeyNotConfigured => Ascii(NotConfiguredText)
    case NoConfigDir(cause) => Wrapped("failed to get user config directory: ", cause)
    case ConfigDirNotCreated(cause) => Wrapped("failed to create config directory: ", cause)
    case ConfigUnreadable(cause) => Wrapped("failed to read config file: ", cause)
    case ConfigNotWritten(cause) => Wrapped("failed to write config file: ", cause)
    case RequestNotCreated(cause) => Wrapped("failed to create request: ", cause)
    case RequestFailed(cause) => Wrapped("request failed: ", cause)
    case ResponseUnreadable(cause) => Wrapped("failed to read response body: ", cause)
    case ApiError(status, body) => Ascii(StatusLead(status)) + body
    case ParseFailed(cause) => Wrapped("failed to parse response: ", cause)
    case FlagRequired(flag) => Ascii("--") + Utf8(flag) + Ascii(" flag is required")
    case EmptyArgument(what) => Utf8(what) + Ascii(" cannot be empty")
    case SaveFailed(what, inner) => Wrapped("failed to save ", what) + Ascii(": ") + Message(inner)
  }

  /** With no key anywhere, the message names all three ways of providing one. */
  lemma NotConfiguredNamesEverySource()
    ensures Message(KeyNotConfigured) == Ascii(NotConfiguredText)
    ensures IsInfix(KeyVariable, NotConfiguredText)
    ensures IsInfix(KeyFileVariable, NotConfiguredText)
    ensures IsInfix(SetKeyCommand, NotConfiguredText)
  {
    ThreeInfixes("API key not configured. Set ", KeyVariable, ", ", KeyFileVariable, ", or run '",
                 SetKeyCommand, " <key>'");
  }

  lemma ApiErrorSplits(status: int, body: Bytes)
    ensures Message(ApiError(status, body))
            == Ascii(ApiErrorPrefix) + Ascii(Decimal(status)) + Ascii("): ") + body
  {
    AsciiAppend(ApiErrorPrefix, Decimal(status));
    AsciiAppend(ApiErrorPrefix + Decimal(status), "): ");
  }

  /** An API error's text shows the status code in decimal and ends with the raw body. */
  lemma ApiErrorShows(status: int, body: Bytes)
    ensures IsInfix(Utf8(Decimal(status)), Message(ApiError(status, body)))
    ensures |body| <= |Message(ApiError(status, body))|
    ensures Message(ApiError(status, body))[|Message(ApiError(status, body))| - |body|..] == body
  {
    ApiErrorSplits(status, body);
    DecimalIsAscii(status);
    AsciiIsUtf8(Decimal(status));
    MiddleAndEnd(Ascii(ApiErrorPrefix), Ascii(Decimal(status)), Ascii("): "), body);
  }

  lemma DecimalIsAscii(n: int)
    ensures IsAscii(Decimal(n))
  {
    var d := Decimal(n);
    forall i | 0 <= i < |d|
      ensures d[i] as int < 0x80
    {
      assert IsDigit(d[i]) || d[i] == '-';
    }
  }

  lemma MiddleAndEnd<T>(p: seq<T>, d: seq<T>, c: seq<T>, b: seq<T>)
    ensures IsInfix(d, p + d + c + b)
    ensures |b| <= |p + d + c + b| && (p + d + c + b)[|p + d + c + b| - |b|..] == b
  {
    InfixOfMiddle(p, d, c + b);
    assert p + d + c + b == p + d + (c + b);
  }

  /** The bytes of a decimal number never contain the `)` that closes the status. */
  lemma DecimalBytesAvoidParen(n: int)
    ensures forall i :: 0 <= i < |Ascii(Decimal(n))| ==> Ascii(Decimal(n))[i] != 41
  {
    var d := Decimal(n);
    forall i | 0 <= i < |Ascii(d)|
      ensures Ascii(d)[i] != 41
    {
      assert IsDigit(d[i]) || d[i] == '-';
    }
  }

  lemma StatusLeadInjective(s1: int, b1: Bytes, s2: int, b2: Bytes)
    requires Ascii(ApiErrorPrefix) + Ascii(Decimal(s1)) + Ascii("): ") + b1
          == Ascii(ApiErrorPrefix) + Ascii(Decimal(s2)) + Ascii("): ") + b2
    ensures s1 == s2 && b1 == b2
  {
    var c := Ascii("): ");
    assert c[0] == 41;
    DecimalBytesAvoidParen(s1);
    DecimalBytesAvoidParen(s2);
    SeparatedInjective(Ascii(ApiErrorPrefix), Ascii(Decimal(s1)), Ascii(Decimal(s2)), c, b1, b2);
    AsciiInjective(Decimal(s1), Decimal(s2));
    DecimalInjective(s1, s2);
  }

  /** The text of an API error determines both the status and the body it reports. */
  lemma ApiErrorInjective(s1: int, b1: Bytes, s2: int, b2: Bytes)
    requires Message(ApiError(s1, b1)) == Message(ApiError(s2, b2))
    ensures s1 == s2 && b1 == b2
  {
    ApiErrorSplits(s1, b1);
    ApiErrorSplits(s2, b2);
    StatusLeadInjective(s1, b1, s2, b2);
  }
}
