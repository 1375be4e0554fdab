/** `WeatherAPIError` (CommonModel.swift) and the Swift errors it is built from. */
module CommonModel {
  import opened Wrappers
  import Decimal

  /** The `URLError.Code` values the view model itself creates, and the rest. */
  datatype URLErrorCode = BadURL | BadServerResponse | OtherCode(rawValue: int)

  /** A Swift `Error` as it reaches the view model. Foundation supplies the
      `localizedDescription` of its own errors, so it travels with them. */
  datatype RawError =
    | URLError(code: URLErrorCode, description: string)
    | DecodingError(description: string)
    | APIError(apiError: WeatherAPIError)
    | Other(description: string)

  datatype WeatherAPIError =
    | NetworkError
    | DecodingError
    | ServerError(statusCode: int)
    | UnknownError(cause: RawError)

  // Written in two pieces only so that the verifier can look inside the literal.
  const NetworkMessage := "Network connection failed. " + "Please check your internet."
  const DecodingMessage := "Could not read the data. Please try again."
  const ServerPrefix := "Server returned error "
  const UnknownPrefix := "Something went wrong: "

  predicate HasPrefix(s: string, p: string) {
    |p| <= |s| && s[..|p|] == p
  }

  /** `(p + t)` starts with `p`. */
  lemma PrefixOfConcat(p: string, t: string)
    ensures HasPrefix(p + t, p)
  {
  }

  /** A string that differs from `p` at position `i` does not start with `p`. */
  lemma DiffersAt(s: string, p: string, i: nat)
    requires i < |p| && i < |s| && s[i] != p[i]
    ensures !HasPrefix(s, p)
  {
  }

  /** `errorDescription`: every case has a message, and the message tells the
      cases apart (the four families start differently). */
  function ErrorDescription(e: WeatherAPIError): (m: Option<string>)
    ensures m.Some?
    ensures m.value == NetworkMessage <==> e.NetworkError?
    ensures m.value == DecodingMessage <==> e.DecodingError?
    ensures HasPrefix(m.value, ServerPrefix) <==> e.ServerError?
    ensures HasPrefix(m.value, UnknownPrefix) <==> e.UnknownError?
  {
    match e
    case NetworkError =>
      assert NetworkMessage[0] == 'N' && ServerPrefix[0] == 'S' && UnknownPrefix[0] == 'S';
      DiffersAt(NetworkMessage, ServerPrefix, 0);
      DiffersAt(NetworkMessage, UnknownPrefix, 0);
      Some(NetworkMessage)
    case DecodingError =>
      assert DecodingMessage[0] == 'C' && ServerPrefix[0] == 'S' && UnknownPrefix[0] == 'S';
      DiffersAt(DecodingMessage, ServerPrefix, 0);
      DiffersAt(DecodingMessage, UnknownPrefix, 0);
      Some(DecodingMessage)
    case ServerError(code) =>
      PrefixOfConcat(ServerPrefix, Decimal.Description(code) + ".");
      DiffersAt(ServerPrefix + Decimal.Description(code) + ".", UnknownPrefix, 1);
      assert (ServerPrefix + Decimal.Description(code) + ".")[0] == 'S';
      assert NetworkMessage[0] == 'N' && DecodingMessage[0] == 'C';
      Some(ServerPrefix + Decimal.Description(code) + ".")
    case UnknownError(cause) =>
      PrefixOfConcat(UnknownPrefix, LocalizedDescription(cause));
      DiffersAt(UnknownPrefix + LocalizedDescription(cause), ServerPrefix, 1);
      assert (UnknownPrefix + LocalizedDescription(cause))[0] == 'S';
      assert NetworkMessage[0] == 'N' && DecodingMessage[0] == 'C';
      Some(UnknownPrefix + LocalizedDescription(cause))
  }

  /** `localizedDescription` of an error: a `LocalizedError` such as
      `WeatherAPIError` answers with its `errorDescription`. */
  function LocalizedDescription(e: RawError): (text: string)
    ensures e.APIError? ==> Some(text) == ErrorDescription(e.apiError)
    ensures !e.APIError? ==> text == e.description
  {
    match e
    case URLError(_, text) => text
    case DecodingError(text) => text
    case APIError(apiError) => ErrorDescription(apiError).value
    case Other(text) => text
  }

  /** The status code can be read back out of a server-error message. */
  lemma ServerMessageCarriesCode(code: int)
    ensures var m := ErrorDescription(ServerError(code)).value;
            |m| > |ServerPrefix| && m[|m| - 1] == '.' &&
            Decimal.Parse(m[|ServerPrefix|..|m| - 1]) == Some(code)
  {
    var m := ErrorDescription(ServerError(code)).value;
    assert m[|ServerPrefix|..|m| - 1] == Decimal.Description(code);
    Decimal.DescriptionRoundTrip(code);
  }

  /** Equal messages come from the same case; for a server error, from the
      same status code. */
  lemma MessageDeterminesError(a: WeatherAPIError, b: WeatherAPIError)
    requires ErrorDescription(a) == ErrorDescription(b)
    ensures a.NetworkError? == b.NetworkError? && a.DecodingError? == b.DecodingError?
    ensures a.ServerError? == b.ServerError? && a.UnknownError? == b.UnknownError?
    ensures a.ServerError? ==> a == b
  {
    if a.ServerError? {
      ServerMessageCarriesCode(a.statusCode);
      ServerMessageCarriesCode(b.statusCode);
    }
  }

  /** The message of an unknown error is the prefix followed by the cause's
      own description, so the cause's text is recoverable. */
  lemma UnknownMessageCarriesCause(cause: RawError)
    ensures var m := ErrorDescription(UnknownError(cause)).value;
            m[|UnknownPrefix|..] == LocalizedDescription(cause)
  {
  }
}
