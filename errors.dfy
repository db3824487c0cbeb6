/** The error values of the paste client: the error body the backend sends,
    and the `PasteError` family the client throws. */
module Errors {

  import opened Wrappers
  import opened JsText

  /** The body the backend sends with a failed response. */
  datatype APIError = APIError(reason: string, trace: Option<string>, timestamp: int)

  /** `PasteError` and its two subclasses. Each keeps the `message` its
      constructor computed; the subclasses add the fields they declare. */
  datatype PasteError =
    | PasteError(message: string)
    | PasteResponseError(message: string, status: int, reason: string, trace: Option<string>, timestamp: int)
    | PasteUploadError(message: string)
  {
    /** The `name` property the constructor sets. */
    function Name(): (n: string)
      ensures n == "PasteUploadError" <==> this.PasteUploadError?
      ensures n == "PasteError" <==> !this.PasteUploadError?
    {
      if this.PasteUploadError? then "PasteUploadError" else "PasteError"
    }
  }

  /** What a `throw` can carry as far as the client code can tell: one of its
      own errors, some other `Error` (a network failure, a JSON syntax error)
      with its message, or a value that is not an `Error` at all. */
  datatype Thrown = Raised(error: PasteError) | OtherError(message: string) | NonError

  /** The settled state of an awaited call: a value or a thrown one. */
  datatype Outcome<T> = Returned(value: T) | Threw(thrown: Thrown)

  /** `new PasteError(message)`. */
  function NewPasteError(message: string): (e: PasteError)
    ensures e.PasteError? && e.message == message
    ensures e.Name() == "PasteError"
  {
    PasteError(message)
  }

  /** `new PasteResponseError(status, reason, trace, timestamp)` when the
      constructor returns: the locale date text of the timestamp is the
      parameter `format`, and `CallFromAPIError` says for which timestamps
      the source throws instead. The message is
      the reason, the date in parentheses, a colon and the trace (`null`
      when there is none). */
  function NewPasteResponseError(status: int, reason: string, trace: Option<string>, timestamp: int, format: int -> string): (e: PasteError)
    ensures e.PasteResponseError?
    ensures e.status == status && e.reason == reason && e.trace == trace && e.timestamp == timestamp
    ensures e.Name() == "PasteError"
    ensures StartsWith(e.message, reason + " (" + format(timestamp) + "): ")
    ensures EndsWith(e.message, NullableText(trace))
    ensures |e.message| == |reason| + |format(timestamp)| + 5 + |NullableText(trace)|
  {
    var message := reason + " (" + format(timestamp) + "): " + NullableText(trace);
    PasteResponseError(message, status, reason, trace, timestamp)
  }

  /** `new PasteUploadError(reason)`. */
  function NewPasteUploadError(reason: string): (e: PasteError)
    ensures e.PasteUploadError?
    ensures StartsWith(e.message, "Upload Failed: ") && e.message[15..] == reason
    ensures e.Name() == "PasteUploadError"
  {
    PasteUploadError("Upload Failed: " + reason)
  }

  /** `PasteResponseError.fromAPIError(status, apiError)` when it returns
      (`CallFromAPIError` models the throw): the status given,
      and the reason, trace and timestamp of the error body unchanged. */
  function FromAPIError(status: int, apiError: APIError, format: int -> string): (e: PasteError)
    ensures e.PasteResponseError? && e.status == status
    ensures ToAPIError(e) == apiError
    ensures e == NewPasteResponseError(status, apiError.reason, apiError.trace, apiError.timestamp, format)
  {
    NewPasteResponseError(status, apiError.reason, apiError.trace, apiError.timestamp, format)
  }

  /** The largest distance from the epoch, in milliseconds, that a `Date`
      can hold (section 21.4.1.1 of ECMA-262). */
  const MaxTimeValue: int := 8_640_000_000_000_000

  /** `Intl.DateTimeFormat.prototype.format` accepts the timestamp: a time
      further from the epoch clips to NaN and makes it throw a RangeError. */
  predicate IsTimeValue(t: int) {
    -MaxTimeValue <= t <= MaxTimeValue
  }

  /** The message V8 gives that RangeError. */
  const InvalidTimeMessage := "Invalid time value"

  /** What calling `fromAPIError(status, apiError)` settles to: the error it
      builds, or the RangeError of formatting a timestamp that is no time
      value, thrown before the error exists. */
  function CallFromAPIError(status: int, apiError: APIError, format: int -> string): (o: Outcome<PasteError>)
    ensures o.Returned? <==> IsTimeValue(apiError.timestamp)
    ensures o.Returned? ==> o.value.PasteResponseError? && o.value.status == status && ToAPIError(o.value) == apiError
    ensures o.Threw? ==> o.thrown == OtherError(InvalidTimeMessage)
  {
    if IsTimeValue(apiError.timestamp) then Returned(FromAPIError(status, apiError, format))
    else Threw(OtherError(InvalidTimeMessage))
  }

  /** `toAPIError()`, a method of `PasteResponseError` only. */
  function ToAPIError(e: PasteError): (a: APIError)
    requires e.PasteResponseError?
    ensures a.reason == e.reason && a.trace == e.trace && a.timestamp == e.timestamp
  {
    APIError(e.reason, e.trace, e.timestamp)
  }

  /** The other direction of the round trip: any `PasteResponseError` the
      constructor builds is rebuilt from its status and its `toAPIError()`. */
  lemma ResponseErrorRoundTrip(e: PasteError, format: int -> string)
    requires e.PasteResponseError?
    requires e == NewPasteResponseError(e.status, e.reason, e.trace, e.timestamp, format)
    ensures FromAPIError(e.status, ToAPIError(e), format) == e
  {
  }

  /** Two error bodies that give the same `PasteResponseError` are equal. */
  lemma FromAPIErrorInjective(s1: int, a1: APIError, s2: int, a2: APIError, format: int -> string)
    requires FromAPIError(s1, a1, format) == FromAPIError(s2, a2, format)
    ensures s1 == s2 && a1 == a2
  {
    assert a1 == ToAPIError(FromAPIError(s1, a1, format));
  }
}
