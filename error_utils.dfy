/**
 * Classification of the GraphQL errors returned by the billing API
 * (src/core/apolloClient/errorUtils.ts): "does the response carry error X,
 * optionally for field Y?" and "which message did the payment provider
 * send?".
 */
module ErrorUtils {
  import opened Wrappers
  import opened Strings

  /** The members of the API's error enumeration that the modelled code refers to. */
  datatype LagoApiError =
    | ExpiredJwtToken
    | TokenEncodingError
    | Unauthorized
    | Forbidden
    | UnprocessableEntity
    | MissingPaymentProviderCustomer
    | UserAlreadyExists
    | CurrenciesDoesNotMatch

  /** The wire code of each member (`LagoApiError[name]`). */
  function Code(e: LagoApiError): string {
    match e
    case ExpiredJwtToken => "expired_jwt_token"
    case TokenEncodingError => "token_encoding_error"
    case Unauthorized => "unauthorized"
    case Forbidden => "forbidden"
    case UnprocessableEntity => "unprocessable_entity"
    case MissingPaymentProviderCustomer => "missing_payment_provider_customer"
    case UserAlreadyExists => "user_already_exists"
    case CurrenciesDoesNotMatch => "currencies_does_not_match"
  }

  /** `PspErrorCode.ThirdPartyError`: the code of an error raised by a payment provider. */
  const ThirdPartyErrorCode: string := "third_party_error"

  /** A value of `extensions.details`: normally a list of reasons, a plain text for provider errors. */
  datatype DetailValue = Text(text: string) | Items(items: seq<string>)

  type Details = map<string, DetailValue>

  datatype Extensions = Extensions(code: Option<string>, details: Option<Details>)

  datatype Location = Location(line: nat, column: nat)

  /** A GraphQL-formatted error as the API sends it. */
  datatype GqlError = GqlError(
    message: string,
    path: seq<string>,
    locations: seq<Location>,
    extensions: Option<Extensions>)

  /**
   * What the classifiers accept: an `ApolloError` (whose `graphQLErrors`
   * may be missing) or a bare array of formatted errors.
   */
  datatype ErrorObject =
    | ApolloError(graphQLErrors: Option<seq<GqlError>>)
    | FormattedErrors(errors: seq<GqlError>)

  /**
   * `errorObject.graphQLErrors || errorObject || []`: an `ApolloError`
   * without `graphQLErrors` is itself taken as the list, and having no
   * `length` it behaves as an empty one.
   */
  function ErrorsOf(obj: ErrorObject): seq<GqlError> {
    match obj
    case ApolloError(Some(errs)) => errs
    case ApolloError(None) => []
    case FormattedErrors(errs) => errs
  }

  /**
   * Both classifiers destructure `errors[0].extensions`, which throws when
   * the first error has none; callers must not pass such an error.
   */
  predicate FirstErrorHasExtensions(errorObject: Option<ErrorObject>) {
    errorObject.None? || |ErrorsOf(errorObject.value)| == 0
    || ErrorsOf(errorObject.value)[0].extensions.Some?
  }

  /** The extensions of the only error the classifiers consult. */
  function FirstExtensions(errorObject: Option<ErrorObject>): Option<Extensions>
    requires FirstErrorHasExtensions(errorObject)
  {
    if errorObject.None? || |ErrorsOf(errorObject.value)| == 0 then None
    else ErrorsOf(errorObject.value)[0].extensions
  }

  /** JavaScript `value.includes(code)`: substring search on a text, membership in a list. */
  predicate ValueIncludes(value: DetailValue, code: string) {
    match value
    case Text(s) => Contains(s, code)
    case Items(xs) => code in xs
  }

  /** The value's contribution to `[...acc, ...value]`: a text spreads into its characters. */
  predicate SpreadIncludes(value: DetailValue, code: string) {
    match value
    case Text(s) => |code| == 1 && code[0] in s
    case Items(xs) => code in xs
  }

  /** `(details[key] || '').includes(code)` */
  predicate KeyedIncludes(details: Details, key: string, code: string) {
    if key in details then ValueIncludes(details[key], code) else Contains("", code)
  }

  /** `Object.values(details).reduce((acc, v) => [...acc, ...v], []).includes(code)` */
  predicate FlattenedIncludes(details: Details, code: string) {
    exists field :: field in details && SpreadIncludes(details[field], code)
  }

  /** A JavaScript `key ? ... : ...` test on an optional string. */
  predicate IsTruthyText(s: Option<string>) {
    s.Some? && s.value != ""
  }

  /**
   * `hasDefinedGQLError(errorCode, errorObject, key)`. The result is
   * `None` where the source falls off the end and returns `undefined`.
   */
  function HasDefinedGQLError(errorCode: LagoApiError, errorObject: Option<ErrorObject>, key: Option<string>): (r: Option<bool>)
    requires FirstErrorHasExtensions(errorObject)
    ensures FirstExtensions(errorObject).None? ==> r == Some(false)
    ensures r.None? ==> FirstExtensions(errorObject).Some?
                        && FirstExtensions(errorObject).value.details.None?
                        && !IsTruthyText(FirstExtensions(errorObject).value.code)
  {
    match FirstExtensions(errorObject)
    case None => Some(false)
    case Some(Extensions(code, details)) =>
      if details.Some? then
        if IsTruthyText(key) then Some(KeyedIncludes(details.value, key.value, Code(errorCode)))
        else Some(FlattenedIncludes(details.value, Code(errorCode)))
      else if IsTruthyText(code) then Some(code.value == Code(errorCode))
      else None
  }

  /** JavaScript truthiness of a detail value: a non-empty text, or any list. */
  predicate IsTruthyValue(v: DetailValue) {
    match v
    case Text(s) => s != ""
    case Items(_) => true
  }

  /** The provider's message in `details.error`: the text itself, or the first item of a list. */
  function ErrorDetailMessage(v: DetailValue): Option<string> {
    match v
    case Text(s) => Some(s)
    case Items(xs) => if |xs| > 0 then Some(xs[0]) else None
  }

  /** `extractThirdPartyErrorMessage(errorObject)` */
  function ExtractThirdPartyErrorMessage(errorObject: Option<ErrorObject>): (r: Option<string>)
    requires FirstErrorHasExtensions(errorObject)
    ensures r.Some? ==> FirstExtensions(errorObject).Some?
                        && FirstExtensions(errorObject).value.code == Some(ThirdPartyErrorCode)
  {
    match FirstExtensions(errorObject)
    case None => None
    case Some(Extensions(code, details)) =>
      if code != Some(ThirdPartyErrorCode) || details.None? || "error" !in details.value
         || !IsTruthyValue(details.value["error"])
      then None
      else ErrorDetailMessage(details.value["error"])
  }

  // ---------------------------------------------------------------- properties

  /** Every wire code is non-empty, so `''.includes(code)` is false for a field that is not there. */
  lemma CodesAreNonEmpty(e: LagoApiError)
    ensures Code(e) != "" && !Contains("", Code(e))
  {
    forall i: nat | i <= 0
      ensures !OccursAt("", Code(e), i)
    {
    }
  }

  /** Distinct members have distinct wire codes. */
  lemma CodeInjective(a: LagoApiError, b: LagoApiError)
    ensures Code(a) == Code(b) ==> a == b
  {
  }

  /**
   * Without details the classifier compares the code itself, so an error
   * is recognised as at most one `LagoApiError` member.
   */
  lemma CodeFallbackMatchesOneMember(a: LagoApiError, b: LagoApiError, errorObject: Option<ErrorObject>)
    requires FirstErrorHasExtensions(errorObject)
    requires FirstExtensions(errorObject).Some? && FirstExtensions(errorObject).value.details.None?
    ensures HasDefinedGQLError(a, errorObject, None) == Some(true) && HasDefinedGQLError(b, errorObject, None) == Some(true)
            ==> a == b
  {
    CodeInjective(a, b);
  }

  /** No error object, or no error in it: both classifiers give a falsy answer. */
  lemma NoErrorsIsFalsy(errorCode: LagoApiError, errorObject: Option<ErrorObject>, key: Option<string>)
    requires errorObject.None? || |ErrorsOf(errorObject.value)| == 0
    ensures HasDefinedGQLError(errorCode, errorObject, key) == Some(false)
    ensures ExtractThirdPartyErrorMessage(errorObject) == None
  {
  }

  /** An `ApolloError` and the bare list of its errors are classified alike. */
  lemma BothShapesAgree(errorCode: LagoApiError, errs: seq<GqlError>, key: Option<string>)
    requires FirstErrorHasExtensions(Some(FormattedErrors(errs)))
    ensures FirstErrorHasExtensions(Some(ApolloError(Some(errs))))
    ensures HasDefinedGQLError(errorCode, Some(ApolloError(Some(errs))), key)
            == HasDefinedGQLError(errorCode, Some(FormattedErrors(errs)), key)
    ensures ExtractThirdPartyErrorMessage(Some(ApolloError(Some(errs))))
            == ExtractThirdPartyErrorMessage(Some(FormattedErrors(errs)))
  {
  }

  /** Only the first error is consulted: errors after it never change either answer. */
  lemma OnlyFirstErrorCounts(errorCode: LagoApiError, first: GqlError, rest1: seq<GqlError>, rest2: seq<GqlError>, key: Option<string>)
    requires first.extensions.Some?
    ensures FirstErrorHasExtensions(Some(FormattedErrors([first] + rest1)))
    ensures FirstErrorHasExtensions(Some(FormattedErrors([first] + rest2)))
    ensures HasDefinedGQLError(errorCode, Some(FormattedErrors([first] + rest1)), key)
            == HasDefinedGQLError(errorCode, Some(FormattedErrors([first] + rest2)), key)
    ensures ExtractThirdPartyErrorMessage(Some(FormattedErrors([first] + rest1)))
            == ExtractThirdPartyErrorMessage(Some(FormattedErrors([first] + rest2)))
  {
  }

  /**
   * With a field key, the answer is whether `details[key]` holds the code;
   * a field that is not in `details` gives false.
   */
  lemma KeyedLookup(errorCode: LagoApiError, errorObject: Option<ErrorObject>, key: string)
    requires FirstErrorHasExtensions(errorObject)
    requires FirstExtensions(errorObject).Some? && FirstExtensions(errorObject).value.details.Some?
    requires key != ""
    ensures var details := FirstExtensions(errorObject).value.details.value;
            HasDefinedGQLError(errorCode, errorObject, Some(key)) == Some(key in details && ValueIncludes(details[key], Code(errorCode)))
  {
    CodesAreNonEmpty(errorCode);
  }

  /** Without a key, the answer is whether any field of `details` lists the code. */
  lemma UnkeyedLookup(errorCode: LagoApiError, errorObject: Option<ErrorObject>, key: Option<string>)
    requires FirstErrorHasExtensions(errorObject)
    requires FirstExtensions(errorObject).Some? && FirstExtensions(errorObject).value.details.Some?
    requires !IsTruthyText(key)
    ensures var details := FirstExtensions(errorObject).value.details.value;
            HasDefinedGQLError(errorCode, errorObject, key) == Some(exists field :: field in details && SpreadIncludes(details[field], Code(errorCode)))
  {
  }

  /** When lists are all there is, the unkeyed answer is membership in some field's list. */
  lemma UnkeyedLookupOnLists(errorCode: LagoApiError, errorObject: Option<ErrorObject>, field: string)
    requires FirstErrorHasExtensions(errorObject)
    requires FirstExtensions(errorObject).Some? && FirstExtensions(errorObject).value.details.Some?
    requires var details := FirstExtensions(errorObject).value.details.value;
             field in details && details[field].Items? && Code(errorCode) in details[field].items
    ensures HasDefinedGQLError(errorCode, errorObject, None) == Some(true)
  {
    var details := FirstExtensions(errorObject).value.details.value;
    assert SpreadIncludes(details[field], Code(errorCode));
  }

  /**
   * `extensions.code` matters only when `details` is absent: then it is a
   * plain equality test, and with neither the answer is `undefined`.
   */
  lemma CodeIsFallbackOnly(errorCode: LagoApiError, m: string, p: seq<string>, l: seq<Location>,
                           code1: Option<string>, code2: Option<string>, details: Option<Details>, key: Option<string>)
    ensures var r1 := HasDefinedGQLError(errorCode, Some(FormattedErrors([GqlError(m, p, l, Some(Extensions(code1, details)))])), key);
            var r2 := HasDefinedGQLError(errorCode, Some(FormattedErrors([GqlError(m, p, l, Some(Extensions(code2, details)))])), key);
            && (details.Some? ==> r1 == r2)
            && (details.None? && IsTruthyText(code1) ==> r1 == Some(code1.value == Code(errorCode)))
            && (details.None? && !IsTruthyText(code1) ==> r1 == None)
  {
  }

  /** A provider message is extracted only for `third_party_error` with a truthy `details.error`. */
  lemma ThirdPartyOnly(errorObject: Option<ErrorObject>)
    requires FirstErrorHasExtensions(errorObject)
    ensures ExtractThirdPartyErrorMessage(errorObject).Some? ==>
              var ext := FirstExtensions(errorObject).value;
              ext.code == Some(ThirdPartyErrorCode) && ext.details.Some?
              && "error" in ext.details.value && IsTruthyValue(ext.details.value["error"])
  {
  }

  /** When it applies, the message is `details.error` verbatim, or its first item when it is a list. */
  lemma ThirdPartyMessage(m: string, p: seq<string>, l: seq<Location>, details: Details, rest: seq<GqlError>)
    requires "error" in details && IsTruthyValue(details["error"])
    ensures var obj := Some(FormattedErrors([GqlError(m, p, l, Some(Extensions(Some(ThirdPartyErrorCode), Some(details))))] + rest));
            && (details["error"].Text? ==> ExtractThirdPartyErrorMessage(obj) == Some(details["error"].text))
            && (details["error"].Items? && |details["error"].items| > 0 ==>
                  ExtractThirdPartyErrorMessage(obj) == Some(details["error"].items[0]))
  {
  }

  /** The unit-test scenario: `user_already_exists` on `email` is found for `email`, not for `password`. */
  lemma UserAlreadyExistsScenario()
    ensures var err := GqlError("Unprocessable Entity", ["loginUser"], [Location(2, 3)],
                                Some(Extensions(Some("unprocessable_entity"), Some(map["email" := Items(["user_already_exists"])]))));
            var obj := Some(ApolloError(Some([err])));
            && HasDefinedGQLError(UserAlreadyExists, obj, Some("email")) == Some(true)
            && HasDefinedGQLError(UserAlreadyExists, obj, Some("password")) == Some(false)
            && HasDefinedGQLError(Forbidden, obj, Some("email")) == Some(false)
            && ExtractThirdPartyErrorMessage(obj) == None
  {
    CodesAreNonEmpty(UserAlreadyExists);
  }
}
