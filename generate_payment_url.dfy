/**
 * The payment-URL mutation hook (src/hooks/useGeneratePaymentUrl.ts): its
 * silent codes, opening the URL on completion, and the single toast it may
 * show on error.
 */
module GeneratePaymentUrl {
  import opened Wrappers
  import opened Strings
  import opened ErrorUtils
  import opened Toasts

  /** The mutation's context: validation and provider errors are handled here, not reported globally. */
  const SilentErrorCodes: seq<string> := [Code(UnprocessableEntity), ThirdPartyErrorCode]

  /** The translation key shown when the customer has no payment-provider account. */
  const MissingProviderCustomerKey: string := "text_1756225393560tonww8d3bgq"

  datatype GeneratedPaymentUrl = GeneratedPaymentUrl(paymentUrl: Option<string>)

  /** `onCompleted`: the URL opened in a new tab, if any. */
  function OnCompleted(result: Option<GeneratedPaymentUrl>): (url: Option<string>)
    ensures url.Some? <==> result.Some? && IsTruthyText(result.value.paymentUrl)
    ensures url.Some? ==> url == result.value.paymentUrl
  {
    if result.Some? && IsTruthyText(result.value.paymentUrl) then result.value.paymentUrl else None
  }

  /** The `ApolloError` the hook's `onError` receives, seen through the classifiers. */
  function AsErrorObject(graphQLErrors: seq<GqlError>): Option<ErrorObject> {
    Some(ApolloError(Some(graphQLErrors)))
  }

  /** `onError`: the toasts shown, in order. */
  function OnError(graphQLErrors: seq<GqlError>): (toasts: seq<Toast>)
    requires FirstErrorHasExtensions(AsErrorObject(graphQLErrors))
    ensures |toasts| <= 1
    ensures forall t :: t in toasts ==> t.severity == Danger
    ensures HasDefinedGQLError(MissingPaymentProviderCustomer, AsErrorObject(graphQLErrors), None) == Some(true)
            ==> toasts == [Toast(Danger, TranslateKey(MissingProviderCustomerKey))]
    ensures toasts != [] && toasts[0].content.Message?
            ==> ExtractThirdPartyErrorMessage(AsErrorObject(graphQLErrors)) == Some(toasts[0].content.text)
                && toasts[0].content.text != ""
    ensures var pspMessage := ExtractThirdPartyErrorMessage(AsErrorObject(graphQLErrors));
            HasDefinedGQLError(MissingPaymentProviderCustomer, AsErrorObject(graphQLErrors), None) != Some(true)
            ==> toasts == (if IsTruthyText(pspMessage) then [Toast(Danger, Message(pspMessage.value))] else [])
  {
    var obj := AsErrorObject(graphQLErrors);
    if HasDefinedGQLError(MissingPaymentProviderCustomer, obj, None) == Some(true) then
      [Toast(Danger, TranslateKey(MissingProviderCustomerKey))]
    else
      var pspMessage := ExtractThirdPartyErrorMessage(obj);
      if IsTruthyText(pspMessage) then [Toast(Danger, Message(pspMessage.value))] else []
  }

  /**
   * A provider error whose `details.error` is a non-empty text shows exactly
   * that text, verbatim, in one danger toast.
   */
  lemma ProviderMessageShownVerbatim(m: string, text: string, rest: seq<GqlError>)
    requires text != ""
    ensures var err := GqlError(m, [], [], Some(Extensions(Some(ThirdPartyErrorCode), Some(map["error" := Text(text)]))));
            OnError([err] + rest) == [Toast(Danger, Message(text))]
  {
    var details := map["error" := Text(text)];
    var err := GqlError(m, [], [], Some(Extensions(Some(ThirdPartyErrorCode), Some(details))));
    assert !FlattenedIncludes(details, Code(MissingPaymentProviderCustomer)) by {
      forall field | field in details
        ensures !SpreadIncludes(details[field], Code(MissingPaymentProviderCustomer))
      {
        assert field == "error";
      }
    }
  }

  /** With a list of provider messages, the first is shown. */
  lemma FirstProviderMessageShown(m: string, first: string, more: seq<string>)
    requires first != ""
    ensures var err := GqlError(m, [], [], Some(Extensions(Some(ThirdPartyErrorCode), Some(map["error" := Items([first] + more)]))));
            Code(MissingPaymentProviderCustomer) !in [first] + more ==>
              OnError([err]) == [Toast(Danger, Message(first))]
  {
    var details := map["error" := Items([first] + more)];
    if Code(MissingPaymentProviderCustomer) !in [first] + more {
      assert !FlattenedIncludes(details, Code(MissingPaymentProviderCustomer)) by {
        forall field | field in details
          ensures !SpreadIncludes(details[field], Code(MissingPaymentProviderCustomer))
        {
          assert field == "error";
        }
      }
    }
  }

  /** An error that is neither a missing provider customer nor a provider error shows no toast. */
  lemma OtherErrorsShowNothing(graphQLErrors: seq<GqlError>)
    requires FirstErrorHasExtensions(AsErrorObject(graphQLErrors))
    requires HasDefinedGQLError(MissingPaymentProviderCustomer, AsErrorObject(graphQLErrors), None) != Some(true)
    requires FirstExtensions(AsErrorObject(graphQLErrors)).None?
             || FirstExtensions(AsErrorObject(graphQLErrors)).value.code != Some(ThirdPartyErrorCode)
    ensures OnError(graphQLErrors) == []
  {
  }
}
