/** Shared vocabulary: optional values, results carrying the engine's error
    kinds, and the few string helpers the engine relies on. */
module Common {

  /** A C# reference that may be null: `None` stands for null. */
  datatype Option<+T> = None | Some(value: T) {
    /** `x ?? d` */
    function GetOr(d: T): T {
      if Some? then value else d
    }
  }

  /** The exceptions the core raises (or lets escape), one constructor per kind. */
  datatype Error =
    | RouteMissing(owner: Option<string>)       // APIFlowRouteException: no [Route] on ApplyContext
    | RouteValueMissing(owner: Option<string>)  // APIFlowRouteException: [Route] without an argument
    | ModelMissing(key: string)                 // APIFlowModelException: no forwarded inputs for a type
    | IndexOutOfRange                           // `input[0]` on an empty forwarded list
    | KeyNotFound(key: string)                  // dictionary indexer on an absent key
    | DuplicateKey(key: string)                 // dictionary Add on a present key
    | VerbMissing(owner: Option<string>)        // no HTTP verb attribute on ApplyContext
    | InvalidDataExtender                       // "Cannot create valid Data Extender"
    | TransportFailure                          // error propagated from the HTTP client
    | EmptySequence                             // `First()` on an empty sequence
    | NotEnumerable                             // `(x as IEnumerable)!` on a non-collection
    | JsonUnreadable                            // JsonException from `DeserializeObject`

  /** The value of a call that either returns or throws. */
  datatype Result<+T> = Ok(value: T) | Err(error: Error)

  /** The outcome of a call that returns nothing or throws. */
  datatype Outcome = Pass | Fail(error: Error)

  /** The ASCII subset of `char.IsWhiteSpace`. */
  predicate IsWhiteSpace(c: char) {
    c == ' ' || c == '\t' || c == '\n' || c == '\r' || c == '\U{B}' || c == '\U{C}'
  }

  /** `string.IsNullOrWhiteSpace` */
  predicate IsNullOrWhiteSpace(s: Option<string>) {
    s.None? || forall i :: 0 <= i < |s.value| ==> IsWhiteSpace(s.value[i])
  }

  function DigitChar(d: nat): (c: char)
    requires d < 10
  {
    "0123456789"[d]
  }

  /** Decimal digits of a natural number, most significant first. */
  function NatString(n: nat): (s: string)
    ensures |s| > 0
    ensures forall i :: 0 <= i < |s| ==> '0' <= s[i] <= '9'
  {
    if n < 10 then [DigitChar(n)] else NatString(n / 10) + [DigitChar(n % 10)]
  }

  /** `int.ToString()` in the invariant culture, as string interpolation uses it. */
  function DecimalString(n: int): (s: string)
    ensures |s| > 0
    ensures n < 0 <==> s[0] == '-'
  {
    if n < 0 then "-" + NatString(-n) else NatString(n)
  }
}
