/**
 * The error vocabulary: which keys of a server error body hold the message
 * and the status code, and the fallback strings used when a body cannot
 * supply a message. Fixed at construction and only read afterwards.
 */
module NetworkErrorParamsModule {
  import opened Wrappers

  const DefaultMessageKey := "message"
  const DefaultStatusCodeKey := "status"
  const DefaultNoInternetError := "No internet connection"
  const DefaultCouldNotParseError := "Could not parse the error"
  const DefaultJsonNullError := "Empty error message"
  const DefaultJsonIsEmptyError := "Empty error message"
  const DefaultNotMapTypeError := "Could not parse the response: Not a Map type"
  const DefaultJsonUnsupportedObjectError := "Unsupported object"

  datatype NetworkErrorParams = NetworkErrorParams(
    messageKey: string,
    statusCodeKey: string,
    noInternetError: string,            // stored, never read by the error logic
    couldNotParseError: string,
    jsonNullError: string,
    jsonIsEmptyError: string,
    notMapTypeError: string,            // stored, never read by the error logic
    jsonUnsupportedObjectError: string  // stored, never read by the error logic
  )

  /** The options object given to the constructor; `None` is an omitted (or `undefined`) option. */
  datatype ErrorParamsOptions = ErrorParamsOptions(
    messageKey: Option<string>,
    statusCodeKey: Option<string>,
    noInternetError: Option<string>,
    couldNotParseError: Option<string>,
    jsonNullError: Option<string>,
    jsonIsEmptyError: Option<string>,
    notMapTypeError: Option<string>,
    jsonUnsupportedObjectError: Option<string>
  )

  /** `{}`: every option omitted. */
  const NoOptions := ErrorParamsOptions(None, None, None, None, None, None, None, None)

  /**
   * `new NetworkErrorParams(options?)`: an omitted argument stands for `{}`,
   * and every omitted option takes its default.
   */
  function NewNetworkErrorParams(options: Option<ErrorParamsOptions>): (p: NetworkErrorParams)
    ensures options.Some? && options.value.messageKey.Some? ==> p.messageKey == options.value.messageKey.value
    ensures options.Some? && options.value.statusCodeKey.Some? ==> p.statusCodeKey == options.value.statusCodeKey.value
    ensures options.Some? && options.value.noInternetError.Some? ==> p.noInternetError == options.value.noInternetError.value
    ensures options.Some? && options.value.couldNotParseError.Some? ==> p.couldNotParseError == options.value.couldNotParseError.value
    ensures options.Some? && options.value.jsonNullError.Some? ==> p.jsonNullError == options.value.jsonNullError.value
    ensures options.Some? && options.value.jsonIsEmptyError.Some? ==> p.jsonIsEmptyError == options.value.jsonIsEmptyError.value
    ensures options.Some? && options.value.notMapTypeError.Some? ==> p.notMapTypeError == options.value.notMapTypeError.value
    ensures options.Some? && options.value.jsonUnsupportedObjectError.Some? ==> p.jsonUnsupportedObjectError == options.value.jsonUnsupportedObjectError.value
    ensures options.None? || options.value.messageKey.None? ==> p.messageKey == DefaultMessageKey
    ensures options.None? || options.value.statusCodeKey.None? ==> p.statusCodeKey == DefaultStatusCodeKey
    ensures options.None? || options.value.noInternetError.None? ==> p.noInternetError == DefaultNoInternetError
    ensures options.None? || options.value.couldNotParseError.None? ==> p.couldNotParseError == DefaultCouldNotParseError
    ensures options.None? || options.value.jsonNullError.None? ==> p.jsonNullError == DefaultJsonNullError
    ensures options.None? || options.value.jsonIsEmptyError.None? ==> p.jsonIsEmptyError == DefaultJsonIsEmptyError
    ensures options.None? || options.value.notMapTypeError.None? ==> p.notMapTypeError == DefaultNotMapTypeError
    ensures options.None? || options.value.jsonUnsupportedObjectError.None? ==> p.jsonUnsupportedObjectError == DefaultJsonUnsupportedObjectError
  {
    var o := options.GetOr(NoOptions);
    NetworkErrorParams(
      o.messageKey.GetOr(DefaultMessageKey),
      o.statusCodeKey.GetOr(DefaultStatusCodeKey),
      o.noInternetError.GetOr(DefaultNoInternetError),
      o.couldNotParseError.GetOr(DefaultCouldNotParseError),
      o.jsonNullError.GetOr(DefaultJsonNullError),
      o.jsonIsEmptyError.GetOr(DefaultJsonIsEmptyError),
      o.notMapTypeError.GetOr(DefaultNotMapTypeError),
      o.jsonUnsupportedObjectError.GetOr(DefaultJsonUnsupportedObjectError))
  }

  /** The vocabulary that every option left at its default yields. */
  lemma DefaultVocabulary()
    ensures NewNetworkErrorParams(None).messageKey == "message"
    ensures NewNetworkErrorParams(None).statusCodeKey == "status"
    ensures NewNetworkErrorParams(None).couldNotParseError == "Could not parse the error"
    ensures NewNetworkErrorParams(None).jsonNullError == "Empty error message"
    ensures NewNetworkErrorParams(None).jsonIsEmptyError == NewNetworkErrorParams(None).jsonNullError
  {
  }

  /** Constructing with no argument is constructing with `{}`. */
  lemma NoArgumentIsEmptyOptions()
    ensures NewNetworkErrorParams(None) == NewNetworkErrorParams(Some(NoOptions))
  {
  }

  /** Supplying every option stores the options verbatim: nothing is defaulted or rewritten. */
  lemma FullOptionsStoredVerbatim(o: ErrorParamsOptions)
    requires o.messageKey.Some? && o.statusCodeKey.Some? && o.noInternetError.Some?
    requires o.couldNotParseError.Some? && o.jsonNullError.Some? && o.jsonIsEmptyError.Some?
    requires o.notMapTypeError.Some? && o.jsonUnsupportedObjectError.Some?
    ensures NewNetworkErrorParams(Some(o)) == NetworkErrorParams(
      o.messageKey.value, o.statusCodeKey.value, o.noInternetError.value, o.couldNotParseError.value,
      o.jsonNullError.value, o.jsonIsEmptyError.value, o.notMapTypeError.value, o.jsonUnsupportedObjectError.value)
  {
  }
}
