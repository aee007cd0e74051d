/** What an API route answers: a status code and a JSON body, of which only
    the shapes the routes produce are distinguished. */
module Http {
  import opened Base

  datatype Body =
    | NoBody                                  // `res.end()`
    | ErrorBody(error: string)                // `{ error }`
    | UploadedBody(message: string)           // `{ success: true, message }`
    | FinalizedBody(count: nat)               // `{ success: true, count }`
    | UrlBody(url: Option<string>)            // `{ url }`

  datatype Response = Response(status: int, body: Body)

  function Fail(status: int, error: string): (r: Response)
    ensures r.status == status && r.body.ErrorBody? && r.body.error == error
  {
    Response(status, ErrorBody(error))
  }

  /** A 2xx status: what `res.ok` tests on the client. */
  predicate IsOk(r: Response) {
    200 <= r.status < 300
  }

  /** The decimal digits of a natural number, as a template literal prints it. */
  function Decimal(n: nat): (s: string)
    ensures |s| >= 1
    ensures forall i :: 0 <= i < |s| ==> '0' <= s[i] <= '9'
    ensures n > 0 ==> s[0] != '0'
    decreases n
  {
    if n < 10 then [(48 + n) as char]
    else Decimal(n / 10) + [(48 + n % 10) as char]
  }

  /** The value the digits denote. */
  function DigitsValue(s: string): int
    decreases |s|
  {
    if s == [] then 0 else DigitsValue(s[..|s| - 1]) * 10 + (s[|s| - 1] as int - 48)
  }

  /** Printing then reading the digits gives the number back. */
  lemma {:induction false} DecimalRoundTrip(n: nat)
    ensures DigitsValue(Decimal(n)) == n
    decreases n
  {
    if n >= 10 {
      DecimalRoundTrip(n / 10);
      var s := Decimal(n);
      assert s[..|s| - 1] == Decimal(n / 10);
    }
  }
}
