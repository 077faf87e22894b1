/** Values shared by every service: optional values, the errors the services
    raise, the outcome of an operation and the values bound to SQL parameters. */
module Common {

  datatype Option<+T> = None | Some(value: T)

  /** The exception classes the services raise. `Internal` stands for the plain
      `Error` a catch block builds around any other failure. */
  datatype ServiceError =
    | BadRequest(message: string)
    | NotFound(message: string)
    | Conflict(message: string)
    | Internal(message: string)

  datatype ErrorKind = BadRequestKind | NotFoundKind | ConflictKind | InternalKind

  function KindOf(e: ServiceError): ErrorKind
  {
    match e
    case BadRequest(_) => BadRequestKind
    case NotFound(_) => NotFoundKind
    case Conflict(_) => ConflictKind
    case Internal(_) => InternalKind
  }

  /** What a service call returns, or the exception it raises. */
  datatype Result<+T> = Ok(value: T) | Err(error: ServiceError)

  /** A value handed to the database driver as a positional parameter. */
  datatype SqlValue = Int(i: int) | Dec(r: real) | Text(s: string) | Null

  /** The catch block every service method ends with: exceptions of the kinds
      it names are rethrown unchanged, anything else is wrapped in a plain
      error whose message is the context followed by the original message. */
  function Rethrow(e: ServiceError, passThrough: set<ErrorKind>, context: string): (r: ServiceError)
    ensures KindOf(e) in passThrough ==> r == e
    ensures KindOf(e) !in passThrough ==> KindOf(r) == InternalKind && r.message == context + e.message
  {
    if KindOf(e) in passThrough then e else Internal(context + e.message)
  }

  /** JavaScript `s || fallback` on an optional string: a missing or empty
      string is falsy and yields the fallback. */
  function StringOr(s: Option<string>, fallback: string): (r: string)
    ensures s.Some? && s.value != "" ==> r == s.value
    ensures s.None? || s == Some("") ==> r == fallback
  {
    if s.Some? && s.value != "" then s.value else fallback
  }

  /** JavaScript `s || null` on an optional string. */
  function StringOrNull(s: Option<string>): (r: Option<string>)
    ensures r.None? <==> s.None? || s == Some("")
    ensures r.Some? ==> r == s
  {
    if s.Some? && s.value != "" then s else None
  }

  /** JavaScript `n || null` on an optional identifier: 0 is falsy. */
  function IdOrNull(n: Option<int>): (r: Option<int>)
    ensures r.None? <==> n.None? || n == Some(0)
    ensures r.Some? ==> r == n
  {
    if n.Some? && n.value != 0 then n else None
  }

  /** JavaScript `b ? 1 : 0` on an optional flag. */
  function BitOf(b: Option<bool>): (bit: int)
    ensures bit == 1 <==> b == Some(true)
    ensures bit == 0 <==> b != Some(true)
  {
    if b.Some? && b.value then 1 else 0
  }

  /** A count as JavaScript writes it into a message: decimal digits, no
      leading zeros. */
  function NatToString(n: nat): (s: string)
    ensures |s| >= 1
    ensures forall i :: 0 <= i < |s| ==> '0' <= s[i] <= '9'
    ensures DecimalValue(s) == n
    ensures n > 0 ==> s[0] != '0'
    decreases n
  {
    var last := ['0' + (n % 10) as char];
    if n < 10 then last
    else
      var prefix := NatToString(n / 10);
      assert (prefix + last)[..|prefix|] == prefix;
      prefix + last
  }

  /** The number a string of decimal digits denotes, most significant first. */
  function DecimalValue(s: string): int
  {
    if s == [] then 0
    else DecimalValue(s[..|s| - 1]) * 10 + (s[|s| - 1] as int - '0' as int)
  }
}
