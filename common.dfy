/** Values shared by the collector and the API handlers: optional values,
    results, the errors a handler can catch, JSON values, and the decimal
    rendering used in the collector's success message. */
module Common {

  datatype Option<+T> = None | Some(value: T)

  /** The outcome of a step that may throw: a value, or the error thrown. */
  datatype Result<+T> = Ok(value: T) | Err(fault: Fault)

  /** The errors thrown inside the two handlers' `try` blocks. */
  datatype Fault =
    | FetchFailed          // the feed request was rejected
    | MalformedFeed        // the feed document did not parse, or has no rss.channel
    | NoFeedItems          // the channel has no item element: `items.filter` on undefined
    | InvalidDate          // `toISOString` of a date that did not parse
    | StoreWriteFailed     // a put or update of the table was rejected
    | StoreReadFailed      // the scan of the table was rejected
    | InvalidUpdate        // the table refused an update: empty key or undefined value
    | PropertyOfUndefined  // a property read on undefined or null
    | MalformedJson        // `JSON.parse` of a request body that is not JSON

  /** A JSON value, as the document client stores it and `JSON.parse` yields it. */
  datatype Json =
    | JNull
    | JBool(b: bool)
    | JNum(n: real)
    | JStr(s: string)
    | JArray(elems: seq<Json>)
    | JObject(members: map<string, Json>)

  /** `s.endsWith(suffix)`. */
  predicate EndsWith(s: string, suffix: string) {
    |suffix| <= |s| && s[|s| - |suffix|..] == suffix
  }

  predicate IsDigit(c: char) {
    '0' <= c <= '9'
  }

  function DigitChar(d: nat): (c: char)
    requires d < 10
    ensures IsDigit(c) && c as int - '0' as int == d
  {
    ('0' as int + d) as char
  }

  /** The decimal text of `n`, as a template literal renders a count. */
  function Decimal(n: nat): (s: string)
    ensures |s| >= 1
    ensures forall i :: 0 <= i < |s| ==> IsDigit(s[i])
    ensures s[0] == '0' ==> n == 0 && s == "0"
  {
    if n < 10 then [DigitChar(n)] else Decimal(n / 10) + [DigitChar(n % 10)]
  }

  /** The number a string of digits denotes. */
  function ValueOf(s: string): nat
    requires forall i :: 0 <= i < |s| ==> IsDigit(s[i])
  {
    if s == [] then 0
    else
      assert IsDigit(s[|s| - 1]);
      ValueOf(s[..|s| - 1]) * 10 + (s[|s| - 1] as int - '0' as int)
  }

  /** Reading the rendered count back gives the count: the message names N exactly. */
  lemma {:induction false} DecimalRoundTrip(n: nat)
    ensures ValueOf(Decimal(n)) == n
  {
    if n >= 10 {
      DecimalRoundTrip(n / 10);
      var s := Decimal(n);
      assert s[..|s| - 1] == Decimal(n / 10);
    }
  }
}
