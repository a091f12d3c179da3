/**
 * The normalised API error and the normaliser `fromJson`, which turns any
 * server error body plus an optional status hint into one `ApiException`.
 */
module ApiError {
  import opened Wrappers
  import opened Json
  import opened NetworkErrorParamsModule

  /** An `ApiException`: a status code, a primary message and ordered sub-messages. */
  datatype ApiException = ApiException(statusCode: int, message: string, messages: seq<string>)

  /** `new ApiException(statusCode, message, messages = [])`. */
  function NewApiException(statusCode: int, message: string, messages: seq<string> := []): (e: ApiException)
    ensures e.statusCode == statusCode && e.message == message && e.messages == messages
  {
    ApiException(statusCode, message, messages)
  }

  /** The status used when no hint is given and the body is null, a string or an object. */
  const DefaultStatus := 400
  /** The status used when no hint is given and the body has no shape the normaliser reads. */
  const UnparseableStatus := 417

  /** `a || b` on a nullable string: the string unless it is null or empty. */
  function OrFallback(single: Option<string>, fallback: string): (m: string)
    ensures single.Some? && single.value != "" ==> m == single.value
    ensures single.None? || single.value == "" ==> m == fallback
  {
    if single.Some? && single.value != "" then single.value else fallback
  }

  /** The exception of the `catch` branch: some read of the body raised. */
  function CaughtFault(params: NetworkErrorParams, statusCode: Option<int>): ApiException {
    NewApiException(statusCode.GetOr(DefaultStatus), params.couldNotParseError)
  }

  /**
   * `ApiException.fromJson(json, params, statusCode?)`. Total: every body,
   * including one whose property reads raise, yields an exception.
   */
  function FromJson(json: Json, params: NetworkErrorParams, statusCode: Option<int>): (r: ApiException)
    // sub-messages appear only when the message key holds an array, and then they are that array
    ensures r.messages != [] ==> Property(json, params.messageKey) == VArray(r.messages)
    // the primary message is never empty unless a fallback string is
    ensures r.message == "" ==>
      params.jsonNullError == "" || params.jsonIsEmptyError == "" || params.couldNotParseError == ""
    // a hint is used unless the body carries a numeric status of its own
    ensures statusCode.Some? && !Property(json, params.statusCodeKey).VNumber? ==> r.statusCode == statusCode.value
    // without a hint the status is 400, 417, or the body's own numeric status
    ensures statusCode.None? ==>
      r.statusCode == DefaultStatus || r.statusCode == UnparseableStatus
      || Property(json, params.statusCodeKey) == VNumber(r.statusCode)
  {
    if json.Null? then
      NewApiException(statusCode.GetOr(DefaultStatus), params.jsonNullError)
    else if json.Text? then
      NewApiException(statusCode.GetOr(DefaultStatus), if |json.s| > 0 then json.s else params.jsonIsEmptyError)
    else if IsObject(json) && KeyCount(json) > 0 then
      var message := Property(json, params.messageKey);
      if message.VThrowing? then CaughtFault(params, statusCode)
      else
        var single: Option<string> :=
          if message.VText? then Some(message.s)
          else if message.VArray? then (if |message.items| > 0 then Some(message.items[0]) else None)
          else None;
        var multiple := if message.VArray? then message.items else [];
        var status := Property(json, params.statusCodeKey);
        if status.VThrowing? then CaughtFault(params, statusCode)
        else
          NewApiException(ObjectStatus(json, params, statusCode), OrFallback(single, params.couldNotParseError), multiple)
    else
      NewApiException(statusCode.GetOr(UnparseableStatus), params.couldNotParseError)
  }

  /** The body has keys and neither the message key nor the status key raises when read. */
  predicate ReadableObject(json: Json, params: NetworkErrorParams) {
    KeyCount(json) > 0
    && !Property(json, params.messageKey).VThrowing?
    && !Property(json, params.statusCodeKey).VThrowing?
  }

  /** The status a readable object body yields: its own number, else the hint, else 400. */
  function ObjectStatus(json: Json, params: NetworkErrorParams, statusCode: Option<int>): int {
    var status := Property(json, params.statusCodeKey);
    if status.VNumber? then status.n else statusCode.GetOr(DefaultStatus)
  }

  lemma NewApiExceptionDefaultsToNoSubMessages(statusCode: int, message: string)
    ensures NewApiException(statusCode, message).messages == []
  {
  }

  lemma FromJsonNullBody(params: NetworkErrorParams, statusCode: Option<int>)
    ensures FromJson(Null, params, statusCode)
            == ApiException(statusCode.GetOr(400), params.jsonNullError, [])
  {
  }

  lemma FromJsonTextBody(s: string, params: NetworkErrorParams, statusCode: Option<int>)
    ensures FromJson(Text(s), params, statusCode)
            == ApiException(statusCode.GetOr(400), if s != "" then s else params.jsonIsEmptyError, [])
  {
  }

  lemma FromJsonMessageText(json: Json, s: string, params: NetworkErrorParams, statusCode: Option<int>)
    requires ReadableObject(json, params) && Property(json, params.messageKey) == VText(s)
    ensures FromJson(json, params, statusCode)
            == ApiException(ObjectStatus(json, params, statusCode),
                            if s != "" then s else params.couldNotParseError, [])
  {
  }

  lemma FromJsonMessageArray(json: Json, items: seq<string>, params: NetworkErrorParams, statusCode: Option<int>)
    requires ReadableObject(json, params) && Property(json, params.messageKey) == VArray(items)
    ensures FromJson(json, params, statusCode)
            == ApiException(ObjectStatus(json, params, statusCode),
                            if items != [] && items[0] != "" then items[0] else params.couldNotParseError,
                            items)
  {
  }

  /** Any other value under the message key (missing, number, object) gives the parse fallback. */
  lemma FromJsonMessageUnreadable(json: Json, params: NetworkErrorParams, statusCode: Option<int>)
    requires ReadableObject(json, params)
    requires !Property(json, params.messageKey).VText? && !Property(json, params.messageKey).VArray?
    ensures FromJson(json, params, statusCode)
            == ApiException(ObjectStatus(json, params, statusCode), params.couldNotParseError, [])
  {
  }

  /** A numeric status in an object body overrides the hint; otherwise the hint, else 400. */
  lemma FromJsonObjectStatus(json: Json, params: NetworkErrorParams, statusCode: Option<int>)
    requires ReadableObject(json, params)
    ensures Property(json, params.statusCodeKey).VNumber? ==>
              FromJson(json, params, statusCode).statusCode == Property(json, params.statusCodeKey).n
    ensures !Property(json, params.statusCodeKey).VNumber? ==>
              FromJson(json, params, statusCode).statusCode == statusCode.GetOr(400)
  {
  }

  /** An empty object or array, a number or a boolean: the parse fallback with 417. */
  lemma FromJsonUnparseable(json: Json, params: NetworkErrorParams, statusCode: Option<int>)
    requires json.Primitive? || (IsObject(json) && KeyCount(json) == 0)
    ensures FromJson(json, params, statusCode)
            == ApiException(statusCode.GetOr(417), params.couldNotParseError, [])
  {
  }

  /** A raising read of either key is caught: the parse fallback with 400. */
  lemma FromJsonCaughtFault(json: Json, params: NetworkErrorParams, statusCode: Option<int>)
    requires KeyCount(json) > 0
    requires Property(json, params.messageKey).VThrowing? || Property(json, params.statusCodeKey).VThrowing?
    ensures FromJson(json, params, statusCode)
            == ApiException(statusCode.GetOr(400), params.couldNotParseError, [])
  {
  }
}
