/**
  The part of `fetchPrayerTimes` that turns an upstream response into a
  result, with the HTTP request itself abstracted into a `Response` value.
  JSON objects are records whose absent properties are `None`; reading a
  property of an absent object throws a `TypeError`, which the function's
  `catch` turns into a failure carrying that error's message.
*/
module Fetch {
  import opened Wrappers
  import opened Text
  import opened Prayers
  import CalculationMethods

  datatype Gregorian = Gregorian(date: Option<string>)

  /** `data.date`: only its `gregorian.date` is read. */
  datatype DateInfo = DateInfo(gregorian: Option<Gregorian>)

  /** `response.data.data`: the `timings` object (property name to time text) and the `date` object. */
  datatype Payload = Payload(timings: Option<map<string, string>>, date: Option<DateInfo>)

  /**
    What the request produced: either the error axios throws (network
    failure, the 10 second timeout, an HTTP error status) with its message,
    or a body with its numeric `code` and its `data`.
  */
  datatype Response = TransportError(message: string) | Reply(code: Option<int>, data: Option<Payload>)

  /** The result object: `{success: true, times, location, date, method}` or `{success: false, error}`. */
  datatype FetchResult =
    | Fetched(times: Times, city: string, country: string, date: Option<string>, methodLabel: string)
    | FetchFailed(error: string)

  /** The message of the `TypeError` thrown when reading `property` of `undefined`. */
  function ReadError(property: string): string {
    "Cannot read properties of undefined (reading '" + property + "')"
  }

  /** `${response.data.code}`: the number's text, or `undefined` when the body has no code. */
  function CodeText(code: Option<int>): string {
    match code
    case Some(n) => IntToString(n)
    case None => "undefined"
  }

  const ApiCodePrefix: string := "API returned code "

  /** The message thrown for a body whose code is not 200. */
  function ApiCodeError(code: Option<int>): string {
    ApiCodePrefix + CodeText(code)
  }

  /** A `code` other than 200 can be read back from its error message. */
  lemma ApiCodeErrorNamesCode(n: int)
    ensures var m := ApiCodeError(Some(n));
      m[..|ApiCodePrefix|] == ApiCodePrefix &&
      var digits := m[|ApiCodePrefix|..];
      digits != [] && (if digits[0] == '-' then AllDigits(digits[1..]) else AllDigits(digits)) && ParseInt(digits) == n
  {
    IntToStringRoundTrip(n);
    assert ApiCodeError(Some(n))[|ApiCodePrefix|..] == IntToString(n);
  }

  /** `timings[name]`, `undefined` when absent. */
  function Property(timings: map<string, string>, name: string): Option<string> {
    if name in timings then Some(timings[name]) else None
  }

  /** `newPrayerTimes`: the five prayers' properties of `timings`, and nothing else. */
  function Extract(timings: map<string, string>): (t: Times)
    ensures forall p :: TimeOf(t, p) == Property(timings, Name(p))
  {
    Times(Property(timings, "Fajr"), Property(timings, "Dhuhr"), Property(timings, "Asr"),
          Property(timings, "Maghrib"), Property(timings, "Isha"))
  }

  /** Sets property `name` when the value is present. */
  function Put(timings: map<string, string>, name: string, value: Option<string>): map<string, string> {
    if value.Some? then timings[name := value.value] else timings
  }

  /** A `timings` object holding the present times of a schedule under the prayers' names. */
  function Serialize(t: Times): map<string, string> {
    Put(Put(Put(Put(Put(map[], "Fajr", t.fajr), "Dhuhr", t.dhuhr), "Asr", t.asr), "Maghrib", t.maghrib), "Isha", t.isha)
  }

  /** Extracting from the serialized object gives the schedule back. */
  lemma ExtractSerialize(t: Times)
    ensures Extract(Serialize(t)) == t
  {
  }

  /** Extraction ignores every property but the five prayers'. */
  lemma ExtractIgnoresOthers(timings: map<string, string>, other: string, value: string)
    requires forall p :: other != Name(p)
    ensures Extract(timings[other := value]) == Extract(timings)
  {
    assert other != Name(Fajr) && other != Name(Dhuhr) && other != Name(Asr);
    assert other != Name(Maghrib) && other != Name(Isha);
  }

  /** How far the response gets before the schedule is built (`bot.js` lines 87 to 96). */
  datatype Decoded = Rejected(error: string) | Decoded(times: Times, date: Option<DateInfo>)

  function Decode(response: Response): (d: Decoded)
    ensures d.Decoded? ==> response.Reply? && response.code == Some(200) && response.data.Some?
  {
    match response
    case TransportError(message) => Rejected(message)
    case Reply(code, data) =>
      if code != Some(200) then Rejected(ApiCodeError(code))
      else if data.None? then Rejected(ReadError("timings"))
      else if data.value.timings.None? then Rejected(ReadError("Fajr"))
      else Decoded(Extract(data.value.timings.value), data.value.date)
  }

  /** A response yields a schedule exactly when it is a code-200 body that carries a `timings` object. */
  lemma DecodeSucceeds(response: Response)
    ensures Decode(response).Decoded? <==>
      response.Reply? && response.code == Some(200) && response.data.Some? && response.data.value.timings.Some?
    ensures Decode(response).Decoded? ==>
      Decode(response).times == Extract(response.data.value.timings.value) &&
      Decode(response).date == response.data.value.date
  {
  }

  /** A body whose code is not 200 is rejected with `API returned code N`. */
  lemma Non200Rejected(code: Option<int>, data: Option<Payload>)
    requires code != Some(200)
    ensures Decode(Reply(code, data)) == Rejected(ApiCodePrefix + CodeText(code))
  {
  }

  /** `date.gregorian.date`, or the `TypeError` that reading it throws. */
  function GregorianDate(date: Option<DateInfo>): (r: Result<Option<string>>)
    ensures r.Success? <==> date.Some? && date.value.gregorian.Some?
    ensures r.Success? ==> r.value == date.value.gregorian.value.date
  {
    match date
    case None => Failure(ReadError("gregorian"))
    case Some(DateInfo(None)) => Failure(ReadError("date"))
    case Some(DateInfo(Some(g))) => Success(g.date)
  }

  /**
    The value `fetchPrayerTimes(city, country, methodId)` resolves to. It does not
    depend on whether the location is the default one: that only decides
    whether the shared state is written as well.
  */
  function Outcome(response: Response, city: string, country: string, methodId: string): (r: FetchResult)
    ensures r.Fetched? ==> r.city == city && r.country == country && Decode(response).Decoded? && r.times == Decode(response).times
  {
    match Decode(response)
    case Rejected(error) => FetchFailed(error)
    case Decoded(times, date) =>
      match GregorianDate(date)
      case Failure(error) => FetchFailed(error)
      case Success(day) => Fetched(times, city, country, day, CalculationMethods.FetchLabel(methodId))
  }

  /**
    A fetch succeeds exactly when the response is a code-200 body with
    `timings` and a `date.gregorian` object; a success carries the five
    extracted times, the gregorian date, the requested location and the
    method's label.
  */
  lemma OutcomeSucceeds(response: Response, city: string, country: string, methodId: string)
    ensures Outcome(response, city, country, methodId).Fetched? <==>
      Decode(response).Decoded? && GregorianDate(Decode(response).date).Success?
    ensures var r := Outcome(response, city, country, methodId);
      r.Fetched? ==>
        var data := response.data.value;
        r.times == Extract(data.timings.value) &&
        data.date.Some? && data.date.value.gregorian.Some? && r.date == data.date.value.gregorian.value.date &&
        r.city == city && r.country == country && r.methodLabel == CalculationMethods.FetchLabel(methodId)
  {
  }

  /**
    A failed fetch reports the transport's message, the code, or the
    `TypeError` of the first property whose read throws, one case each.
  */
  lemma OutcomeFailures(response: Response, city: string, country: string, methodId: string)
    ensures var r := Outcome(response, city, country, methodId);
      r.FetchFailed? <==>
        response.TransportError? ||
        (response.Reply? && response.code != Some(200)) ||
        (response.Reply? && response.code == Some(200) &&
          (response.data.None? || response.data.value.timings.None? ||
           response.data.value.date.None? || response.data.value.date.value.gregorian.None?))
    ensures var r := Outcome(response, city, country, methodId);
      (response.TransportError? ==> r == FetchFailed(response.message)) &&
      (response.Reply? && response.code != Some(200) ==> r == FetchFailed(ApiCodeError(response.code)))
    ensures var r := Outcome(response, city, country, methodId);
      response.Reply? && response.code == Some(200) ==>
        var data := response.data;
        (data.None? ==> r == FetchFailed(ReadError("timings"))) &&
        (data.Some? && data.value.timings.None? ==> r == FetchFailed(ReadError("Fajr"))) &&
        (data.Some? && data.value.timings.Some? && data.value.date.None? ==> r == FetchFailed(ReadError("gregorian"))) &&
        ((data.Some? && data.value.timings.Some? && data.value.date.Some? && data.value.date.value.gregorian.None?) ==>
          r == FetchFailed(ReadError("date")))
  {
  }
}
