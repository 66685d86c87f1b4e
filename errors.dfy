/** The errors the client reports. Go builds most of them with `fmt.Errorf`;
    here each message kind is a constructor, and the remote error `tError`
    is the `Api` constructor. */
module Errors {
  import opened Foundation

  /** The remote error record `tError`: code, type and info as the service sends them. */
  datatype ApiError = ApiError(rawCode: int, rawType: string, rawInfo: string)

  datatype Error =
    | NilClient                     // "Nil client object"
    | IncorrectState                // "Incorrect internal state"
    | NilRequest                    // "Nil request object"
    | NilHttpClient                 // "Nil http.Client object in request"
    | EmptyIP                       // "Empty IP"
    | InvalidIP(ip: string)         // "Invalid IP (%s)"
    | NoIPPassed                    // "No IP passed"
    | NoValidIPPassed               // "No valid IP passed"
    | Transport(reason: string)     // the error of the HTTP GET itself
    | NilBody                       // "Body of GET response is nil"
    | ReadBody(reason: string)      // "Error reading Body of GET response (%s)"
    | NilEnvelope                   // "Nil RAW response object"
    | Json(reason: string)          // an error of json.Unmarshal, as it is
    | DecodeJson(inner: Error)      // "Decode JSON error (%s)"
    | NilDestination                // "Nil destination argument"
    | Api(api: ApiError)            // the remote error, a *tError
    | TokenRequired                 // "Token argument (string or []byte) is required"
    | TestRequest(cause: Error)     // "Test request error (%s)"
    | DefaultNotInitialized         // "DefaultClient client isn't initialized"

  /** `tError.Code`: 0 for a nil receiver. */
  function Code(e: Option<ApiError>): (c: int)
    ensures e.None? ==> c == 0
    ensures e.Some? ==> c == e.value.rawCode
  {
    match e
    case None => 0
    case Some(a) => a.rawCode
  }

  /** `tError.Type`: empty for a nil receiver. */
  function Type(e: Option<ApiError>): (t: string)
    ensures e.None? ==> t == ""
    ensures e.Some? ==> t == e.value.rawType
  {
    match e
    case None => ""
    case Some(a) => a.rawType
  }

  /** `tError.Info`: empty for a nil receiver. */
  function Info(e: Option<ApiError>): (i: string)
    ensures e.None? ==> i == ""
    ensures e.Some? ==> i == e.value.rawInfo
  {
    match e
    case None => ""
    case Some(a) => a.rawInfo
  }

  function DigitChar(d: nat): (c: char)
    requires d < 10
    ensures '0' <= c <= '9' && c as int - '0' as int == d
  {
    ['0', '1', '2', '3', '4', '5', '6', '7', '8', '9'][d]
  }

  /** The decimal digits of `n`, most significant first, as `%d` prints them. */
  function Digits(n: nat): (s: string)
    ensures |s| >= 1
    ensures forall i :: 0 <= i < |s| ==> '0' <= s[i] <= '9'
  {
    if n < 10 then [DigitChar(n)] else Digits(n / 10) + [DigitChar(n % 10)]
  }

  /** `%d` of an int: a minus sign before the digits of a negative number. */
  function Decimal(n: int): (s: string)
    ensures |s| >= 1
  {
    if n < 0 then "-" + Digits(-n) else Digits(n)
  }

  /** The value of a string of decimal digits. */
  function DigitsValue(s: string): nat
    requires forall i :: 0 <= i < |s| ==> '0' <= s[i] <= '9'
  {
    if s == [] then 0
    else 10 * DigitsValue(s[..|s| - 1]) + (s[|s| - 1] as int - '0' as int)
  }

  /** The value of an optionally signed decimal numeral. */
  function DecimalValue(s: string): int
    requires |s| >= 1
    requires forall i :: 0 < i < |s| ==> '0' <= s[i] <= '9'
    requires s[0] == '-' || '0' <= s[0] <= '9'
  {
    if s[0] == '-' then -(DigitsValue(s[1..]) as int) else DigitsValue(s)
  }

  lemma {:induction false} DigitsRoundTrip(n: nat)
    ensures DigitsValue(Digits(n)) == n
  {
    if n >= 10 {
      DigitsRoundTrip(n / 10);
      var s := Digits(n);
      assert s[..|s| - 1] == Digits(n / 10);
    }
  }

  /** The code printed in an error message reads back as the code. */
  lemma {:induction false} DecimalRoundTrip(n: int)
    ensures DecimalValue(Decimal(n)) == n
  {
    if n < 0 {
      DigitsRoundTrip(-n);
      assert Decimal(n)[1..] == Digits(-n);
    } else {
      DigitsRoundTrip(n);
    }
  }

  /** `tError.Error`: "[<code>]: <type> (<info>)", and empty for a nil receiver. */
  function Message(e: Option<ApiError>): (m: string)
    ensures m == "" <==> e.None?
    ensures e.Some? ==> |m| > 1 + |Decimal(Code(e))| && m[0] == '[' && m[1..1 + |Decimal(Code(e))|] == Decimal(Code(e))
  {
    match e
    case None => ""
    case Some(a) => "[" + Decimal(a.rawCode) + "]: " + a.rawType + " (" + a.rawInfo + ")"
  }

  /** `APIError`: the remote error inside `e`, or nothing when `e` is nil or another kind. */
  function APIError(e: Option<Error>): (a: Option<ApiError>)
    ensures a.Some? <==> e.Some? && e.value.Api?
    ensures a.Some? ==> e.value == Api(a.value)
  {
    match e
    case Some(Api(x)) => Some(x)
    case _ => None
  }

  /** The accessors chained after `APIError` never fail: for anything but a
      remote error they give the zero values, for a remote error its fields. */
  lemma APIErrorAccessors(e: Option<Error>)
    ensures !(e.Some? && e.value.Api?) ==>
      Code(APIError(e)) == 0 && Type(APIError(e)) == "" && Info(APIError(e)) == "" && Message(APIError(e)) == ""
    ensures e.Some? && e.value.Api? ==>
      Code(APIError(e)) == e.value.api.rawCode && Type(APIError(e)) == e.value.api.rawType
      && Info(APIError(e)) == e.value.api.rawInfo
  {
  }
}
