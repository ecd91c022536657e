/**
 * The response classifier of the REST client and the two code catalogs that
 * sit beside it. A response is accepted only if its body decodes to a truthy
 * JSON value and its HTTP status is one of the accepted codes; otherwise the
 * handler throws.
 */
module RestErrorHandler {
  import opened Wrappers
  import opened PhpValues
  import opened PhpStrings

  // ---------------------------------------------------------------------
  // Accepted HTTP statuses
  // ---------------------------------------------------------------------

  /** The accepted statuses as the source spells them: one comma-separated string. */
  const AcceptedCodes: string := "200, 201, 202"

  /** The statuses the handler lets through, as a plain set of integers. */
  const AcceptedStatuses: set<int> := {200, 201, 202}

  /** `in_array($n, $cs)` with loose comparison, for an integer and strings. */
  predicate InArrayLoose(n: int, cs: seq<string>) {
    exists i :: 0 <= i < |cs| && LooseEqualsIntString(n, cs[i])
  }

  /** Where the commas of the constant fall, and that no piece holds one. */
  lemma AcceptedCodesLayout()
    ensures AcceptedCodes == "200" + [','] + (" 201" + [','] + " 202")
    ensures ',' !in "200" && ',' !in " 201" && ',' !in " 202"
  {
  }

  /** `explode` keeps the blanks after the commas. */
  lemma AcceptedCodesSplit()
    ensures Explode(',', AcceptedCodes) == ["200", " 201", " 202"]
  {
    AcceptedCodesLayout();
    ExplodeFirst(',', "200", " 201" + [','] + " 202");
    ExplodeFirst(',', " 201", " 202");
    ExplodeNoSep(',', " 202");
  }

  /** The three pieces are numeric strings despite the blanks. */
  lemma AcceptedCodeValues()
    ensures IsIntegerString("200") && IntegerValue("200") == 200
    ensures IsIntegerString(" 201") && IntegerValue(" 201") == 201
    ensures IsIntegerString(" 202") && IntegerValue(" 202") == 202
  {
    assert NumericCore("200") == "200";
    assert NumericCore(" 201") == "201";
    assert NumericCore(" 202") == "202";
    ThreeDigitsValue("200");
    ThreeDigitsValue("201");
    ThreeDigitsValue("202");
  }

  /**
   * Splitting the constant at commas leaves " 201" and " 202" with a leading
   * blank, and loose comparison still matches them: the accepted statuses are
   * exactly 200, 201 and 202.
   */
  lemma AcceptedCodesAreExactly(n: int)
    ensures InArrayLoose(n, Explode(',', AcceptedCodes)) <==> n in AcceptedStatuses
  {
    AcceptedCodesSplit();
    AcceptedListExactly(n);
  }

  /** Loose membership in the exploded list is membership of 200, 201 or 202. */
  lemma AcceptedListExactly(n: int)
    ensures InArrayLoose(n, ["200", " 201", " 202"]) <==> n in AcceptedStatuses
  {
    AcceptedCodeValues();
    InArrayLooseNumeric(n, ["200", " 201", " 202"], [200, 201, 202]);
  }

  /** Against numeric strings, loose membership is membership of their values. */
  lemma InArrayLooseNumeric(n: int, cs: seq<string>, vs: seq<int>)
    requires |cs| == |vs|
    requires forall i :: 0 <= i < |cs| ==> IsIntegerString(cs[i]) && IntegerValue(cs[i]) == vs[i]
    ensures InArrayLoose(n, cs) <==> n in vs
  {
    if n in vs {
      var i :| 0 <= i < |vs| && vs[i] == n;
      assert LooseEqualsIntString(n, cs[i]);
    }
  }

  // ---------------------------------------------------------------------
  // The handler
  // ---------------------------------------------------------------------

  /** What the client throws. */
  datatype ClientError =
      /** The body did not decode to a truthy value; the message quotes the raw body. */
    | JsonNotValid(message: string)
      /** The status was not accepted; carries the body's `error` field. */
    | ApiError(error: Value)
      /** PHP 8's TypeError for reading a word offset of a string, such as `$s['error']`. */
    | StringOffset

  /** `json_decode($body, true)` yields a value PHP treats as true. */
  predicate DecodesTruthy(decode: string -> Option<Value>, body: string) {
    decode(body).Some? && Truthy(decode(body).value)
  }

  /**
   * `handle($result, $httpCode)`. `decode` is `json_decode($s, true)`, with
   * `None` for a body that is not JSON at all.
   */
  function Handle(decode: string -> Option<Value>, body: string, httpCode: int): (r: Result<Value, ClientError>)
    ensures r.Success? <==> DecodesTruthy(decode, body) && httpCode in AcceptedStatuses
    ensures r.Success? ==> r.value == decode(body).value
    ensures !DecodesTruthy(decode, body) ==> r == Failure(JsonNotValid("JSON Response Not Valid: " + body))
    ensures DecodesTruthy(decode, body) && httpCode !in AcceptedStatuses && !decode(body).value.Str? ==>
      r == Failure(ApiError(Index(decode(body).value, "error").value))
    ensures DecodesTruthy(decode, body) && httpCode !in AcceptedStatuses && decode(body).value.Str? ==>
      r == Failure(StringOffset)
  {
    var codes := Explode(',', AcceptedCodes);
    AcceptedCodesAreExactly(httpCode);
    var decoded := decode(body);
    if decoded.None? || !Truthy(decoded.value) then
      Failure(JsonNotValid("JSON Response Not Valid: " + body))
    else if !InArrayLoose(httpCode, codes) then
      match Index(decoded.value, "error")
      case None => Failure(StringOffset)
      case Some(error) => Failure(ApiError(error))
    else
      Success(decoded.value)
  }

  // ---------------------------------------------------------------------
  // Code catalogs
  // ---------------------------------------------------------------------

  /** An entry of the message-status catalog: its short description. */
  datatype StatusDescription = StatusDescription(short: string)

  /**
   * An entry of the API error catalog: its short description and whether the
   * catalog suggests a solution for it (the solution is `null` for some codes).
   */
  datatype ErrorDescription = ErrorDescription(short: string, hasSolution: bool)

  /**
   * The catalogs are keyed by three-digit, zero-padded code strings such as
   * "001". The tables below hold each code by the number its digits spell;
   * `CodeString` and `CodeNumber` convert between the two spellings, and the
   * lookups accept exactly the three-digit strings.
   */
  predicate IsThreeDigitCode(code: string) {
    |code| == 3 && IsDigits(code)
  }

  function DigitChar(d: nat): (c: char)
    requires d < 10
    ensures IsDigit(c) && c as int - '0' as int == d
  {
    ('0' as int + d) as char
  }

  /** The zero-padded spelling of a code number below 1000. */
  function CodeString(n: nat): (s: string)
    requires n < 1000
    ensures IsThreeDigitCode(s)
    ensures CodeNumber(s) == n
  {
    var s := [DigitChar(n / 100), DigitChar(n / 10 % 10), DigitChar(n % 10)];
    ThreeDigitsValue(s);
    s
  }

  /** The number a three-digit code spells. */
  function CodeNumber(code: string): (n: nat)
    requires IsThreeDigitCode(code)
    ensures n < 1000
  {
    ThreeDigitsValue(code);
    DigitsValue(code)
  }

  /** Reading a three-digit code and spelling it again gives the same string. */
  lemma CodeStringOfNumber(code: string)
    requires IsThreeDigitCode(code)
    ensures CodeString(CodeNumber(code)) == code
  {
    ThreeDigitsValue(code);
    var n := CodeNumber(code);
    var d0, d1, d2 := code[0] as int - '0' as int, code[1] as int - '0' as int, code[2] as int - '0' as int;
    assert 0 <= d0 < 10 && 0 <= d1 < 10 && 0 <= d2 < 10;
    assert n == 100 * d0 + 10 * d1 + d2;
    assert n / 100 == d0 && n / 10 % 10 == d1 && n % 10 == d2;
    var t := CodeString(n);
    assert t[0] == code[0] && t[1] == code[1] && t[2] == code[2];
  }

  /** The message-status catalog: code number to description. */
  function MessageStatusTable(): (r: map<int, StatusDescription>) {
    map[
      1 := StatusDescription("Message unknown"),
      2 := StatusDescription("Message queued"),
      3 := StatusDescription("Delivered to gateway"),
      4 := StatusDescription("Received by recipient"),
      5 := StatusDescription("Error with message"),
      6 := StatusDescription("User cancelled message delivery"),
      7 := StatusDescription("Error delivering message"),
      9 := StatusDescription("Routing error"),
      10 := StatusDescription("Message expired"),
      11 := StatusDescription("Message scheduled for later delivery"),
      12 := StatusDescription("Out of credit"),
      13 := StatusDescription("Clickatell cancelled message delivery")
    ]
  }

  /** The API error catalog: code number to description. */
  function ErrorTable(): (r: map<int, ErrorDescription>) {
    map[
      1 := ErrorDescription("Authentication failed", false),
      7 := ErrorDescription("IP lockdown violation", true),
      100 := ErrorDescription("Data malformed", true),
      101 := ErrorDescription("Invalid or missing parameters", false),
      102 := ErrorDescription("Invalid user data header", true),
      105 := ErrorDescription("Invalid destination address", true),
      106 := ErrorDescription("The sender address that is specified is incorrect.", true),
      108 := ErrorDescription("Invalid or missing API ID", true),
      109 := ErrorDescription("Missing message ID", false),
      113 := ErrorDescription("Maximum message parts exceeded", true),
      114 := ErrorDescription("Cannot route message", false),
      116 := ErrorDescription("Invalid unicode data", true),
      120 := ErrorDescription("clientMessageId contains space(s)", true),
      121 := ErrorDescription("Destination mobile number blocked", false),
      122 := ErrorDescription("Destination mobile opted out", false),
      123 := ErrorDescription("Invalid Sender ID", true),
      128 := ErrorDescription("Number delisted", false),
      130 := ErrorDescription("Maximum MT limit exceeded until <UNIX TIMESTAMP>", false),
      160 := ErrorDescription("HTTP method is not supported on this resource", true),
      161 := ErrorDescription("Resource does not exist", false),
      165 := ErrorDescription("Invalid or no version header specified", true),
      166 := ErrorDescription("Invalid accept header specified", false),
      167 := ErrorDescription("Invalid or no content-type specified", true),
      301 := ErrorDescription("No credit left", true),
      901 := ErrorDescription("Internal error - please retry", true)
    ]
  }

  /** The message-status catalog has twelve codes: 001 to 013 without 008. */
  lemma MessageStatusCodes()
    ensures MessageStatusTable().Keys == MessageStatusCodeSet
  {
  }

  /** The codes of the message-status catalog. */
  const MessageStatusCodeSet: set<int> := {1, 2, 3, 4, 5, 6, 7, 9, 10, 11, 12, 13}

  /** Every message-status entry has a non-empty short description. */
  lemma MessageStatusEntries()
    ensures forall n :: n in MessageStatusTable() ==> n < 1000 && MessageStatusTable()[n].short != ""
  {
  }

  /** The API error catalog has these twenty-five codes. */
  lemma ErrorCodes()
    ensures ErrorTable().Keys == ErrorCodeSet
  {
  }

  /** The codes of the API error catalog. */
  const ErrorCodeSet: set<int> := {1, 7, 100, 101, 102, 105, 106, 108, 109, 113, 114, 116, 120,
                                   121, 122, 123, 128, 130, 160, 161, 165, 166, 167, 301, 901}

  /** Every API error entry has a non-empty short description. */
  lemma ErrorEntries()
    ensures forall n :: n in ErrorTable() ==> n < 1000 && ErrorTable()[n].short != ""
  {
  }

  /** Looking a message-status code up; there is no fallback for unknown codes. */
  function DescribeStatus(code: string): (r: Option<StatusDescription>)
    ensures r.Some? <==> IsThreeDigitCode(code) && CodeNumber(code) in MessageStatusTable()
    ensures r.Some? ==> r.value.short != ""
  {
    MessageStatusEntries();
    if IsThreeDigitCode(code) && CodeNumber(code) in MessageStatusTable() then
      Some(MessageStatusTable()[CodeNumber(code)])
    else None
  }

  /** Looking an API error code up; there is no fallback for unknown codes. */
  function DescribeError(code: string): (r: Option<ErrorDescription>)
    ensures r.Some? <==> IsThreeDigitCode(code) && CodeNumber(code) in ErrorTable()
    ensures r.Some? ==> r.value.short != ""
  {
    ErrorEntries();
    if IsThreeDigitCode(code) && CodeNumber(code) in ErrorTable() then
      Some(ErrorTable()[CodeNumber(code)])
    else None
  }

  /** Every message-status entry is found again under its zero-padded spelling. */
  lemma EveryStatusIsDescribed(n: nat)
    requires n in MessageStatusTable()
    ensures DescribeStatus(CodeString(n)) == Some(MessageStatusTable()[n])
  {
    MessageStatusEntries();
  }

  /** Every API error entry is found again under its zero-padded spelling. */
  lemma EveryErrorIsDescribed(n: nat)
    requires n in ErrorTable()
    ensures DescribeError(CodeString(n)) == Some(ErrorTable()[n])
  {
    ErrorEntries();
  }

  /** The two catalogs are not disjoint: they share exactly the codes 001 and 007. */
  lemma CatalogsShareTwoCodes()
    ensures MessageStatusTable().Keys * ErrorTable().Keys == {1, 7}
  {
    MessageStatusCodes();
    ErrorCodes();
    CodeSetsShareTwo();
  }

  /** The two code sets meet in 1 and 7. */
  lemma CodeSetsShareTwo()
    ensures MessageStatusCodeSet * ErrorCodeSet == {1, 7}
  {
  }

  /** Message-status entries quoted by code, and a code the catalog skips. */
  lemma StatusLookupExamples()
    ensures DescribeStatus("008") == None
    ensures DescribeStatus("012") == Some(StatusDescription("Out of credit"))
  {
    ThreeDigitsValue("008");
    ThreeDigitsValue("012");
  }

  /** API error entries quoted by code: one with a suggested solution and one without. */
  lemma ErrorLookupExamples()
    ensures DescribeError("301") == Some(ErrorDescription("No credit left", true))
    ensures DescribeError("001") == Some(ErrorDescription("Authentication failed", false))
  {
    ThreeDigitsValue("301");
    ThreeDigitsValue("001");
  }

  /** Codes the API error catalog does not have, and a code not written with three digits. */
  lemma UnknownErrorExamples()
    ensures DescribeError("999") == None
    ensures DescribeError("1") == None
  {
    ThreeDigitsValue("999");
  }
}
