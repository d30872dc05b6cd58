/**
 * Error normalisation: `extractErrorMessage` and the response interceptor of
 * each of the two API clients.
 */
module Errors {
  import opened Wrappers
  import opened Json
  import Decimal
  import opened Routing

  /** A rejected request: either the server answered, or no response arrived. */
  datatype Failure =
    | HttpFailure(status: nat, body: Option<Json>, statusText: string)
    | TransportFailure(message: string)

  /** The body's `message` member, when the body is an object whose `message` is a string. */
  function BodyMessage(body: Option<Json>): Option<string> {
    if body.Some? && body.value.Object? && MessageKey in body.value.fields && body.value.fields[MessageKey].String?
    then Some(body.value.fields[MessageKey].s)
    else None
  }

  /** What an HTTP failure reports after its status: the server's message, else the status text. */
  function Reason(f: Failure): string
    requires f.HttpFailure?
  {
    BodyMessage(f.body).GetOr(f.statusText)
  }

  /** Reads `<digits> - <reason>` back into the status and the reason. */
  function ParseHttpMessage(m: string): Option<(nat, string)> {
    var d := Decimal.LeadingDigits(m);
    var rest := m[|d|..];
    if d != [] && |rest| >= 3 && rest[..3] == " - " then Some((Decimal.ToNat(d), rest[3..])) else None
  }

  /** `extractErrorMessage`. */
  function ExtractErrorMessage(f: Failure): (m: string)
    ensures f.TransportFailure? ==> m == f.message
    ensures f.HttpFailure? ==> ParseHttpMessage(m) == Some((f.status, Reason(f)))
    ensures f.HttpFailure? ==> Decimal.LeadingDigits(m) == Decimal.FromNat(f.status)
  {
    match f
    case HttpFailure(status, _, _) =>
      var d := Decimal.FromNat(status);
      var m := d + " - " + Reason(f);
      HttpMessageParses(d, Reason(f));
      Decimal.ToNatFromNat(status);
      m
    case TransportFailure(message) => message
  }

  lemma HttpMessageParses(d: string, reason: string)
    requires d != [] && Decimal.AllDigits(d)
    ensures Decimal.LeadingDigits(d + " - " + reason) == d
    ensures ParseHttpMessage(d + " - " + reason) == Some((Decimal.ToNat(d), reason))
  {
    var m := d + " - " + reason;
    assert m == d + (" - " + reason);
    Decimal.LeadingDigitsOf(d, " - " + reason);
    assert m[|d|..] == " - " + reason;
  }

  /** The prefix each interceptor puts in front of the message. */
  function Prefix(api: Api): string {
    match api
    case EntityApi => "Clockify API Error: "
    case ReportsApi => "Clockify Reports API Error: "
  }

  /** The text of the error the interceptor of `api` throws for `f`. */
  function ErrorText(api: Api, f: Failure): (t: string)
    ensures |Prefix(api)| <= |t| && t[..|Prefix(api)|] == Prefix(api)
    ensures t[|Prefix(api)|..] == ExtractErrorMessage(f)
  {
    Prefix(api) + ExtractErrorMessage(f)
  }

  /** Tells which API an error text came from, and what followed the prefix. */
  function DecodeErrorText(t: string): Option<(Api, string)> {
    var e, r := Prefix(EntityApi), Prefix(ReportsApi);
    if |e| <= |t| && t[..|e|] == e then Some((EntityApi, t[|e|..]))
    else if |r| <= |t| && t[..|r|] == r then Some((ReportsApi, t[|r|..]))
    else None
  }

  /**
   * The prefix tells the two APIs apart, and after it the message is recoverable;
   * for an HTTP failure so are the status and the reason.
   */
  lemma {:induction false} ErrorTextRoundTrip(api: Api, f: Failure)
    ensures DecodeErrorText(ErrorText(api, f)) == Some((api, ExtractErrorMessage(f)))
    ensures f.HttpFailure? ==> ParseHttpMessage(DecodeErrorText(ErrorText(api, f)).value.1) == Some((f.status, Reason(f)))
  {
    var t := ErrorText(api, f);
    if api == ReportsApi {
      // "Clockify R…" is not "Clockify A…"
      assert t[9] == 'R' != Prefix(EntityApi)[9];
      assert t[..|Prefix(EntityApi)|] != Prefix(EntityApi);
    }
  }

  /**
   * The interceptor: a response passes through unchanged; a failure becomes an
   * error whose text is the API's prefix followed by the normalised message.
   */
  function Intercept<T>(api: Api, outcome: Result<T, Failure>): (r: Result<T, string>)
    ensures r.Ok? <==> outcome.Ok?
    ensures r.Ok? ==> r.value == outcome.value
    ensures r.Err? ==> DecodeErrorText(r.error) == Some((api, ExtractErrorMessage(outcome.error)))
  {
    match outcome
    case Ok(v) => Ok(v)
    case Err(f) => ErrorTextRoundTrip(api, f); Err(ErrorText(api, f))
  }

  /** A 404 whose body says `Not found`. */
  function NotFound(): Failure {
    HttpFailure(404, Some(Object(map[MessageKey := String("Not found")])), "Not Found")
  }

  lemma NotFoundMessage()
    ensures ExtractErrorMessage(NotFound()) == "404 - Not found"
  {
    assert Decimal.FromNat(404) == "404" by {
      assert Decimal.FromNat(4) == "4";
      assert Decimal.FromNat(40) == "40";
    }
    assert BodyMessage(NotFound().body) == Some("Not found");
  }

  /** The 404 surfaces with its status and message under the prefix of the API that failed. */
  lemma NotFoundText(api: Api)
    ensures ErrorText(api, NotFound()) == Prefix(api) + "404 - Not found"
  {
    NotFoundMessage();
  }

  /** Without a string `message`, the status text stands in; a transport failure keeps its own message. */
  lemma FallbackExamples(text: string, msg: string)
    ensures ExtractErrorMessage(HttpFailure(500, Some(Object(map[MessageKey := Number(7)])), text)) == "500 - " + text
    ensures ExtractErrorMessage(HttpFailure(500, None, text)) == "500 - " + text
    ensures ExtractErrorMessage(TransportFailure(msg)) == msg
  {
    assert Decimal.FromNat(500) == "500" by {
      assert Decimal.FromNat(5) == "5";
      assert Decimal.FromNat(50) == "50";
    }
    assert Reason(HttpFailure(500, Some(Object(map[MessageKey := Number(7)])), text)) == text;
    assert Reason(HttpFailure(500, None, text)) == text;
  }
}
