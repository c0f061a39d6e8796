/** Values shared by every Gnip client: optional values and results, the
    account options each client is constructed from, the identity guard that
    every request-issuing operation runs first, and the values of a query map. */
module Gnip {

  datatype Option<+T> = None | Some(value: T)

  /** The outcome of an operation that the JavaScript code ends by throwing. */
  datatype Result<+T, +E> = Success(value: T) | Failure(error: E)

  /** JavaScript truthiness of an optional string: absent, null and "" are falsy. */
  predicate Falsy(v: Option<string>)
  {
    v.None? || v.value == ""
  }

  /** The caller's options object; `None` stands for a key that is absent. */
  datatype Options = Options(
    accountName: Option<string>,
    user: Option<string>,
    password: Option<string>,
    platform: Option<string>)

  /** `_.extend({platform: 'twitter'}, options)`: the default platform, unless
      the caller supplied one. */
  function Platform(o: Options): string
  {
    if o.platform.Some? then o.platform.value else "twitter"
  }

  /** Errors thrown synchronously, before any request is issued. */
  datatype ConfigError = MissingAccountName | MissingCredentials | MissingCursor

  /** The `Error.message` each guard error is thrown with; the model carries the
      error value and keeps this text as its rendering. */
  function ConfigMessage(e: ConfigError): string
  {
    match e
    case MissingAccountName => "You must include a Gnip account name."
    case MissingCredentials => "Missing account credentials."
    case MissingCursor => "You must include the next page cursor value."
  }

  /** The guard at the head of every request-issuing operation: the account name
      must not be empty, and at least one of user and password must be truthy
      (`_.isEmpty(_.compact([user, password]))` throws only when both are falsy). */
  function IdentityCheck(o: Options): (r: Option<ConfigError>)
    ensures r == Some(MissingAccountName) <==> Falsy(o.accountName)
    ensures r == Some(MissingCredentials) <==> !Falsy(o.accountName) && Falsy(o.user) && Falsy(o.password)
    ensures r.None? <==> !Falsy(o.accountName) && (!Falsy(o.user) || !Falsy(o.password))
  {
    if Falsy(o.accountName) then Some(MissingAccountName)
    else if Falsy(o.user) && Falsy(o.password) then Some(MissingCredentials)
    else None
  }

  /** Decimal rendering of a status code, as string concatenation produces it. */
  function Decimal(n: nat): (s: string)
    ensures |s| >= 1
    ensures forall i :: 0 <= i < |s| ==> '0' <= s[i] <= '9'
    decreases n
  {
    var digit := ['0' + (n % 10) as char];
    if n < 10 then digit else Decimal(n / 10) + digit
  }

  /** The elements of `chunks`, chunk after chunk. */
  function Concat<T>(chunks: seq<seq<T>>): seq<T>
    decreases |chunks|
  {
    if chunks == [] then [] else chunks[0] + Concat(chunks[1..])
  }

  /** The number a string of decimal digits denotes. */
  function DigitsValue(s: string): nat
    requires forall i :: 0 <= i < |s| ==> '0' <= s[i] <= '9'
    decreases |s|
  {
    if s == [] then 0 else DigitsValue(s[..|s| - 1]) * 10 + (s[|s| - 1] - '0') as nat
  }

  /** `Decimal` renders exactly its number, without a leading zero. */
  lemma {:induction false} DecimalRoundTrip(n: nat)
    ensures DigitsValue(Decimal(n)) == n
    ensures n > 0 ==> Decimal(n)[0] != '0'
    decreases n
  {
    var s := Decimal(n);
    if n >= 10 {
      DecimalRoundTrip(n / 10);
      assert s[..|s| - 1] == Decimal(n / 10);
      assert s[0] == Decimal(n / 10)[0];
    }
  }

  /** A value of a query map. `Stamp(m)` is a date that `moment` reads with the
      `YYYYMMDDHHmm` format as minute `m`; `Text` is a string it cannot read,
      and `Number` a number, which the model also treats as unreadable. */
  datatype QValue = Text(text: string) | Number(number: int) | Stamp(minute: int)

  type Query = map<string, QValue>

  /** `moment(v, 'YYYYMMDDHHmm')`: a date for a stamp, and an invalid date
      (whose `unix()` is NaN, so every comparison with it is false) otherwise. */
  function Minutes(v: QValue): Option<int>
  {
    if v.Stamp? then Some(v.minute) else None
  }
}
