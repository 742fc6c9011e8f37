// Shared vocabulary: optional values, results, row identifiers, the clock's
// unit and the JSON payloads that commands carry.
module Common {

  datatype Option<+T> = None | Some(value: T)

  /** An operation that either yields a value or stops with an error. */
  datatype Result<+T, +E> = Ok(value: T) | Err(error: E)

  /**
   * The exceptions the modelled code raises or lets escape: a bare
   * `Exception`, Django's `ValidationError` (and DRF's), a database
   * constraint violation, a value the database column cannot hold, a failed `get()`, `PermissionDenied`, and Python's `TypeError`, `AttributeError`,
   * `ValueError` and `KeyError`.
   */
  datatype Failure =
    | Raised(reason: string)
    | ValidationError(reason: string)
    | IntegrityError(constraint: string)
    | DataError(reason: string)
    | DoesNotExist
    | PermissionDenied(reason: string)
    | TypeError(reason: string)
    | AttributeError(reason: string)
    | ValueError(reason: string)
    | KeyError(key: string)

  /** Primary keys (UUIDs in the system) are modelled as naturals drawn from a counter. */
  type Id = nat

  /** Timestamps, as whole seconds. */
  type Time = int

  const MINUTE: int := 60
  const HOUR: int := 60 * MINUTE
  const DAY: int := 24 * HOUR
  const WEEK: int := 7 * DAY

  /** A JSON value, as built in memory before `json.dumps`. */
  datatype Json =
    | JNull
    | JBool(b: bool)
    | JInt(i: int)
    | JStr(s: string)
    | JList(items: seq<Json>)
    | JObject(fields: seq<(string, Json)>)

  /**
   * The contents of a command's `data` column: either text stored as given,
   * or text produced by `json.dumps` from a structured value. The encoder
   * itself is not modelled; an encoded payload is kept as the value it encodes.
   */
  datatype Payload = Text(text: string) | Dumped(json: Json)

  /** Python truthiness of a stored payload: `json.dumps` never yields "". */
  predicate Truthy(p: Payload)
  {
    p.Dumped? || p.text != ""
  }

  /** Python truthiness of an optional string. */
  predicate NonEmpty(s: Option<string>)
  {
    s.Some? && s.value != ""
  }

  /** The decimal digits of `n`, most significant first, as `str(n)` writes them. */
  function DecimalText(n: nat): (r: string)
    ensures |r| >= 1 && forall i :: 0 <= i < |r| ==> '0' <= r[i] <= '9'
    ensures n < 10 <==> |r| == 1
    decreases n
  {
    var digit := ['0' + (n % 10) as char];
    if n < 10 then digit else DecimalText(n / 10) + digit
  }

  /** The message of a serializer string field that may not be blank. */
  const FIELD_BLANK: string := "This field may not be blank."

  /** The message of a serializer string field longer than its `max_length` `n`. */
  function TooLong(n: nat): string
  {
    "Ensure this field has no more than " + DecimalText(n) + " characters."
  }

  /** The message of a related field whose key is not among the rows it may take. */
  function InvalidPk(k: Id): string
  {
    "Invalid pk \"" + DecimalText(k) + "\" - object does not exist."
  }
}
