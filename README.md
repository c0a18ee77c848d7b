# Lago front-end core, modelled in Dafny

This project models the logic at the core of the Lago billing dashboard, a
React and TypeScript front-end. It covers the following parts.

- **GraphQL error classification.**
  - `hasDefinedGQLError` and `extractThirdPartyErrorMessage`.
  - The error link of the Apollo client: silence, log out, or report.
  - The headers and variables the request link sends.
  - The client singleton.
  - The hooks that read errors: EU tax eligibility, payment-URL generation and e-mail resending.
- **Query-string filters.**
  - How the entries of a URL's search parameters become GraphQL variables (`formatFiltersForQuery` and its wrappers).
  - How an active filter is shown as a chip.
  - The quick-filter predicates.
  - Reading and writing one filter in a `URLSearchParams`, and the invoice-list link.
  - The `externalId<sep>displayName` encoding that the customer filter produces.
- **Safe links in rich text.** The href guard, the colour defaults and the splicing of router links into sanitized HTML.
- **The feature-flag store** kept in local storage.
- **Pure UI rules.** The ordering of payment-method options, the portal entry page's state machine, and the derived state of the credit-note page, the wallet accordion and the horizontal table.

There is one module per source file. `Wrappers`, `Strings`, `Toasts`, `Records` and `SearchParams` are shared helpers:
- `Strings` holds the JavaScript string operations: `split`, `join`, first-occurrence `replace` and `trim`.
- `Records` models a JavaScript object as an ordered key/value sequence: `Object.fromEntries`, spread, `delete`.
- `SearchParams` models the browser's `URLSearchParams`: `get`, `set`, `size` and `toString`.

Code that updates state in place is modelled as classes with `modifies` clauses:
- the operation context and the error link (`ApolloInit`);
- `URLSearchParams.set` and `setFilterValue`;
- the feature-flag store;
- the portal page.

The loops of the source are methods with loop invariants:
- the error link's `forEach`;
- the invoice-link builder;
- the two loops of `getSanitizedHtml`.

Everything else is functions, with lemmas relating them.

## Model

| member | source | states |
|---|---|---|
| ErrorUtils.HasDefinedGQLError | src/core/apolloClient/errorUtils.ts:38-66 | No extensions gives false. The result is `undefined` only when `details` is absent and `code` is falsy. |
| ErrorUtils.ExtractThirdPartyErrorMessage | src/core/apolloClient/errorUtils.ts:17-35 | A message is extracted only when the first error's code is `third_party_error`. |
| ErrorUtils.CodesAreNonEmpty | src/core/apolloClient/errorUtils.ts:55 | No wire code is found in `''`, so a field missing from details gives false. |
| ErrorUtils.CodeFallbackMatchesOneMember | src/core/apolloClient/errorUtils.ts:62-65 | Without details, `hasDefinedGQLError` is true for at most one `LagoApiError` member: distinct members have distinct wire codes. |
| ErrorUtils.NoErrorsIsFalsy | src/core/apolloClient/errorUtils.ts:20-26 | With no error object or an empty error list, `hasDefinedGQLError` is false and no message is extracted. |
| ErrorUtils.BothShapesAgree | src/core/apolloClient/errorUtils.ts:45-47 | An `ApolloError` and the bare array of its errors classify alike. |
| ErrorUtils.OnlyFirstErrorCounts | src/core/apolloClient/errorUtils.ts:51 | Errors after the first never change either answer. |
| ErrorUtils.KeyedLookup | src/core/apolloClient/errorUtils.ts:54-55 | With a key, the answer is whether `details[key]` exists and includes the code. |
| ErrorUtils.UnkeyedLookup | src/core/apolloClient/errorUtils.ts:56-60 | Without a key, the answer is whether some field's value includes the code. |
| ErrorUtils.UnkeyedLookupOnLists | src/core/apolloClient/errorUtils.ts:56-60 | A code listed under any field is found without a key. |
| ErrorUtils.CodeIsFallbackOnly | src/core/apolloClient/errorUtils.ts:53-66 | With details present, `code` never matters. Without details, the answer is code equality, or `undefined` when the code is falsy. |
| ErrorUtils.ThirdPartyOnly | src/core/apolloClient/errorUtils.ts:30 | A message needs code `third_party_error` and a truthy `details.error`. |
| ErrorUtils.ThirdPartyMessage | src/core/apolloClient/errorUtils.ts:32-34 | The message is `details.error` verbatim when it is a string, and its first item when it is a list. |
| ErrorUtils.UserAlreadyExistsScenario | src/core/apolloClient/__tests__/errorUtils.test.ts:59-65 | `user_already_exists` on `email` is found for `email`, not for `password`, and `Forbidden` is not found. |
| ApolloInit.OutgoingHeaders | src/core/apolloClient/init.ts:49-55 | Incoming headers are kept. `authorization: Bearer <token>` and `customer-portal-token` are set only when stored. `x-lago-organization` is always set. No other header is added. |
| ApolloInit.SentVariables | src/core/apolloClient/init.ts:45-47 | `__typename` is stripped unless there are no variables or `file` is set. |
| ApolloInit.ApplyInitialLink | src/core/apolloClient/init.ts:39-59 | The operation's new variables and headers are the two functions above; its silencing context is unchanged. |
| ApolloInit.ClientModule.InitializeApolloClient | src/core/apolloClient/init.ts:36-149 | Once assigned, the singleton is returned on every call. Otherwise a fresh client becomes the singleton. |
| ApolloInit.ClientModule.HandleGraphQLError | src/core/apolloClient/init.ts:70-113 | The effects of one error, in source order: log out, then capture and toast, then warn. |
| ApolloInit.ClientModule.OnError | src/core/apolloClient/init.ts:63-115 | The caller's silent-code list (or a fresh one) is extended in place with the auth codes and Forbidden. Every error then contributes its effects; no `graphQLErrors` means no effects. |
| ApolloInit.ClientModule.HandleGraphQLErrors | src/core/apolloClient/init.ts:70-113 | The `forEach` loop: the effects are the error effects of each error, in order. |
| ApolloInit.BatchEffectsAppend | src/core/apolloClient/init.ts:70-113 | `BatchEffects`: the effects of two batches in a row are those of their concatenation, so each error acts on its own (`ErrorEffects`, with `IsAuthError` and `IsReported` deciding its log-out and report). |
| ApolloInit.EffectsOfOneError | src/core/apolloClient/init.ts:73-112 | One error logs out once iff it is an auth error and a client exists. It is captured and toasted once iff reported, and always warned once. |
| ApolloInit.OneWarningPerError | src/core/apolloClient/init.ts:108-112 | A batch warns exactly once per error. |
| ApolloInit.LogOutPerAuthError | src/core/apolloClient/init.ts:73-77 | Log-out runs once per auth error when the client exists, with no deduplication, and never otherwise. |
| ApolloInit.ReportsPerReportedError | src/core/apolloClient/init.ts:80-105 | Captures and toasts each equal the number of errors meeting the reporting rule. |
| ApolloInit.AuthAndForbiddenNeverReported | src/core/apolloClient/init.ts:67 | After the list is extended, auth and Forbidden errors are never reported. |
| ApolloInit.SilentErrorSuppressesReports | src/core/apolloClient/init.ts:81 | `silentError` suppresses every capture and toast. |
| ApolloInit.ExpiredTokenScenario | src/core/apolloClient/init.ts:73-112 | An expired token logs out and warns, and is not reported. |
| ApolloInit.UnlistedCodeScenario | src/core/apolloClient/init.ts:80-112 | An unlisted code is captured, toasted and warned, in that order. |
| IntegrationsUtils.HasNonEuEligibilityError | src/components/settings/integrations/utils.ts:5-12 | True iff some result has some error whose `details.euTaxManagement` includes `billing_entity_must_be_in_eu`. |
| IntegrationsUtils.NoErrorsNoMatch | src/components/settings/integrations/__tests__/utils.test.ts:17-21 | Results without errors give false. |
| IntegrationsUtils.ErrorsWithoutDetailsNoMatch | src/components/settings/integrations/utils.ts:8-10 | Errors without extensions or details never match. |
| IntegrationsUtils.MatchSurvivesAppend | src/components/settings/integrations/utils.ts:6 | Adding results on either side never turns true into false. |
| IntegrationsUtils.NonEuScenario | src/components/settings/integrations/__tests__/utils.test.ts:42-49 | One matching result among several suffices. |
| GeneratePaymentUrl.OnCompleted | src/hooks/useGeneratePaymentUrl.ts:17-21 | A tab is opened iff the result and its `paymentUrl` are truthy, and it opens that URL. |
| GeneratePaymentUrl.OnError | src/hooks/useGeneratePaymentUrl.ts:22-39 | At most one toast, always danger. A missing provider customer gives the fixed key. A message toast carries the extracted non-empty message. Otherwise, a truthy provider message gives exactly one danger toast with it, and a falsy one gives none. |
| GeneratePaymentUrl.ProviderMessageShownVerbatim | src/hooks/useGeneratePaymentUrl.ts:31-38 | A provider message string is toasted verbatim. |
| GeneratePaymentUrl.FirstProviderMessageShown | src/hooks/useGeneratePaymentUrl.ts:31-38 | For a list of messages, its first item is toasted. |
| GeneratePaymentUrl.OtherErrorsShowNothing | src/hooks/useGeneratePaymentUrl.ts:22-39 | Any other error shows no toast. |
| ResendEmail.Recipients | src/hooks/useResendEmail.ts:56-60 | A recipient list is passed iff it is present and non-empty, and then unchanged. |
| ResendEmail.MutationFor | src/hooks/useResendEmail.ts:64-100 | No mutation exactly for an unsupported type. |
| ResendEmail.Request | src/hooks/useResendEmail.ts:56-100 | There is no call iff the type is unsupported. Otherwise the call uses the type's own mutation, the context silences `unprocessable_entity`, and the input is `BuildInput` of the params: the document id plus each non-empty recipient list, unchanged (see EmptyRecipientsOmitted). |
| ResendEmail.ResendEmailResult | src/hooks/useResendEmail.ts:103-137 | Success iff the type is supported, the call resolved and its errors are empty; the response is then the data. Non-empty errors are returned as they are. A rejected call or an unsupported type fails without errors. |
| ResendEmail.TypeSelectsMutation | src/hooks/useResendEmail.ts:64-96 | Each supported type selects its own mutation. |
| ResendEmail.EmptyRecipientsOmitted | src/hooks/useResendEmail.ts:56-60 | Empty or missing lists are omitted; others are passed unchanged. |
| Records.Keys | src/components/designSystem/Filters/utils.ts:171 | The keys of an object, in order. |
| Records.Lookup | src/components/designSystem/Filters/utils.ts:197 | A property is missing iff its key is not among the keys. |
| Records.Put | src/components/designSystem/Filters/utils.ts:195-198 | An existing key keeps its place; a new key is appended. |
| Records.LookupPut | src/components/designSystem/Filters/utils.ts:195-198 | After `{...r, [k]: v}`, `k` reads `v` and every other key reads as before. |
| Records.PutKeepsKeysDistinct | src/components/designSystem/Filters/utils.ts:195-198 | Setting a property never duplicates a key. |
| Records.Remove | src/components/designSystem/Filters/utils.ts:392-395 | `delete r[k]` removes `k` and nothing else. |
| Records.Spread | src/components/designSystem/Filters/utils.ts:188-193 | `{...r, ...fields}`: a key of `fields` reads its last value there; other keys read as before. |
| Records.LastValue | src/components/designSystem/Filters/utils.ts:169 | The value of the last entry with the name, or none when no entry has it. |
| Records.FirstOccurrencesAreNames | src/components/designSystem/Filters/utils.ts:169 | Every key of `Object.fromEntries` names some entry. |
| Records.FromEntries | src/components/designSystem/Filters/utils.ts:169 | `Object.fromEntries`: distinct keys in first-occurrence order, each reading the last value given for it. |
| Records.NamesAreFirstOccurrences | src/components/designSystem/Filters/utils.ts:169 | Every entry's name is a key of `Object.fromEntries`. |
| Records.FromEntriesPropsAreEntries | src/components/designSystem/Filters/utils.ts:169 | Each property of `Object.fromEntries` is the last entry given for its key. |
| Records.LookupDistinct | src/components/designSystem/Filters/utils.ts:171 | In an object without repeated keys, each property reads as its own value. |
| SearchParams.GetParam | src/components/designSystem/Filters/utils.ts:562 | `get` returns the first entry with the name, or none when there is none. |
| SearchParams.WithoutName | src/components/designSystem/Filters/utils.ts:576 | The entries with other names, kept. |
| SearchParams.SetParam | src/components/designSystem/Filters/utils.ts:576 | After `set`, `get` reads the value, every entry with that name is `(name, value)`, other names read as before and their entries are kept. |
| SearchParams.FirstIndex | src/components/designSystem/Filters/utils.ts:576 | The index of the first entry with the name, or the length when there is none. |
| SearchParams.SetParamKeepsOthers | src/components/designSystem/Filters/utils.ts:576 | `set` leaves the entries under other names exactly as they were, in order, with nothing added. |
| SearchParams.SetParamAtFirstIndex | src/components/designSystem/Filters/utils.ts:576 | `set` puts `(name, value)` at the first entry with the name, or appends it when there is none. Every entry before it is unchanged. |
| SearchParams.SetParamLeavesOneEntry | src/components/designSystem/Filters/utils.ts:576 | After `set`, no entry other than the one at the first index carries the name, so later duplicates are removed. |
| SearchParams.WithoutNameKeepsOthers | src/components/designSystem/Filters/utils.ts:576 | Removing one name leaves `get` of other names unchanged. |
| SearchParams.UrlSearchParams.Set | src/components/designSystem/Filters/utils.ts:576 | In-place `set`: the new entries are `SetParam` of the old ones. |
| Filters.StripPrefixUndoesKeyWithPrefix | src/components/designSystem/Filters/utils.ts:176-178 | Stripping `<prefix>_` from a name built by `keyWithPrefix` gives the key back. |
| Filters.KeyWithPrefixInjective | src/components/designSystem/Filters/utils.ts:59 | Distinct keys get distinct prefixed names. |
| Filters.BoundOf | src/components/designSystem/Filters/utils.ts:65-66 | An empty or missing amount component is `null`; otherwise it is the component. |
| Filters.AmountIntervals | src/components/designSystem/Filters/utils.ts:61-94 | `isEqualTo` gives (from, from), `isBetween` (from, to), `isUpTo` (null, to), `isAtLeast` (from, null). Any other interval gives (null, null). |
| Filters.DateFiltersAreTheRangeParsers | src/components/designSystem/Filters/utils.ts:96-156 | The date filters are exactly the keys parsed into a from/to pair. |
| Filters.Parse | src/components/designSystem/Filters/utils.ts:96-150 | Only the date and amount parsers return objects. |
| Filters.InterpretFieldsIffDateOrAmount | src/components/designSystem/Filters/utils.ts:184-193 | `FILTER_VALUE_MAP[key]` yields an object to spread exactly for `amount` and the date filters; every other key gives a single value. |
| Filters.AvailableProps | src/components/designSystem/Filters/utils.ts:176-182 | The properties kept are exactly those whose name, once `<prefix>_` is removed, is an available filter. |
| Filters.AccumulateKeepsOnlyAvailable | src/components/designSystem/Filters/utils.ts:171-201 | `Accumulate`, the `reduce` of `formatFiltersForQuery`, gives the same object as the reduce over the available properties only. |
| Filters.StepWrites | src/components/designSystem/Filters/utils.ts:173-198 | `Step`, one reduce step, writes what the property writes: its parsed value under `keyMap[key] \|\| key`, or each field of a parsed object. Every other field reads as before. |
| Filters.LastWrite | src/components/designSystem/Filters/utils.ts:171-201 | No property writes the field exactly when the last write is none. |
| Filters.LookupAccumulate | src/components/designSystem/Filters/utils.ts:171-201 | Each field of the reduced object holds what the LAST property writing it wrote, and is absent when no property writes it. |
| Filters.QueryFieldOfSoleName | src/components/designSystem/Filters/utils.ts:158-202 | `formatFiltersForQuery`: a field written by one URL name only holds what that name's last value writes there. It is absent when the URL lacks the name. |
| Filters.ScalarFilterReachesQuery | src/components/designSystem/Filters/utils.ts:158-202 | An available filter with a single-value parse is sent under `keyMap[key] \|\| key`, holding its last URL value parsed. |
| Filters.ObjectFilterReachesQuery | src/components/designSystem/Filters/utils.ts:158-202 | An available filter parsed into an object has both of its fields sent, whatever `keyMap` says. |
| Filters.ObjectFieldReachesQuery | src/components/designSystem/Filters/utils.ts:158-202 | A field of an object parse is sent holding its value in the parse, when no other URL name writes it. |
| Filters.AccumulateEmptyIffNoneAvailable | src/components/designSystem/Filters/utils.ts:171-201 | The reduce gives `{}` exactly when no property is an available filter. |
| Filters.NoAvailableFilterGivesEmptyQuery | src/components/designSystem/Filters/utils.ts:158-202 | The query is `{}` exactly when no URL name, once the prefix is removed, is an available filter. |
| Filters.SingleEntryProps | src/components/designSystem/Filters/utils.ts:169 | One entry gives a one-property object. |
| Filters.SingleScalarFilter | src/components/designSystem/Filters/utils.ts:195-198 | A non-object value is stored under `keyMap[key] \|\| key`. |
| Filters.SingleObjectFilter | src/components/designSystem/Filters/utils.ts:188-193 | An object value is merged field by field, and `keyMap` is ignored. |
| Filters.ObjectParsesHaveTwoFields | src/components/designSystem/Filters/utils.ts:61-149 | Object parses have exactly two distinct fields. |
| Filters.SpreadTwoFields | src/components/designSystem/Filters/utils.ts:188-193 | Spreading two distinct fields into `{}` gives them back. |
| Filters.SingleStep | src/components/designSystem/Filters/utils.ts:171-201 | The reduce over one property is one step from `{}`. |
| Filters.BooleanFilterIsLiteralTrue | src/components/designSystem/Filters/utils.ts:134-142 | Boolean filters are true iff the raw value is exactly `'true'`. |
| Filters.DateRangeFields | src/components/designSystem/Filters/utils.ts:137-149 | `from,to` becomes the pair of date fields named by the filter. |
| Filters.RepeatedNameLastValueWins | src/components/designSystem/Filters/utils.ts:169 | When a name repeats in the URL, only its last value is used. |
| Filters.CreditNoteStatusesRenamed | src/components/designSystem/Filters/utils.ts:204-217 | The credit-note status filters go out under their API names as comma lists. |
| Filters.TimeGranularityAlwaysAccepted | src/components/designSystem/Filters/utils.ts:235-276 | `timeGranularity` is accepted by the revenue-streams and MRR queries, whatever their filter lists. |
| Filters.AnalyticsFiltersRenamed | src/components/designSystem/Filters/utils.ts:235-252 | `country` goes out as `customerCountry`. `customerExternalId` goes out as `externalCustomerId`, holding the external id before the separator. |
| Filters.PrepaidCreditsAccountTypeRenamed | src/components/designSystem/Filters/utils.ts:294-308 | `customerAccountType` goes out as `customerType`. |
| Filters.WebhookStatusIsFirstListed | src/components/designSystem/Filters/utils.ts:318-337 | The first listed webhook status when the filter is set; undefined when it is not. |
| Filters.WebhookStatusOfLastValue | src/components/designSystem/Filters/utils.ts:318-337 | `formatFiltersForWebhookLogsQuery` sends the first status of the URL's last `webhookStatus` value, and `undefined` when there is none. |
| Filters.MoveIfTruthy | src/components/designSystem/Filters/utils.ts:389-396 | A truthy property is moved to its new name and deleted; otherwise nothing changes. |
| Filters.FormatFiltersForActivityLogsQuery | src/components/designSystem/Filters/utils.ts:382-399 | Both external ids are renamed when truthy, and all other properties are unchanged. |
| Filters.ItemLabels | src/components/designSystem/Filters/utils.ts:452-459 | One label per item, in order. |
| Filters.AmountChipText | src/components/designSystem/Filters/utils.ts:414-429 | The amount chip: interval label, from, "and" only for `isBetween`, and `to` except for `isEqualTo`. |
| Filters.ActivityTypesChipShowsEachValue | src/components/designSystem/Filters/utils.ts:432-436 | Each activity type is formatted, joined with `, `. |
| Filters.DateChipShowsEachValue | src/components/designSystem/Filters/utils.ts:439-447 | Each date is formatted short, joined with ` - `. |
| Filters.DateChipsAreTheDateFilters | src/components/designSystem/Filters/utils.ts:439 | The date chip applies exactly to the date filters. |
| Filters.WordsChipShowsEachValue | src/components/designSystem/Filters/utils.ts:464-468 | Other values are capitalised, with `_` turned into spaces, and joined with `, `. |
| Filters.EncodedItemLabel | src/components/designSystem/Filters/utils.ts:452-459 | An `id<sep>name` item shows its name, or its id when the name is empty. |
| Filters.IdsChipShowsEachItem | src/components/designSystem/Filters/utils.ts:452-459 | Corrected: the chip shows each item's own name or id, joined with `, `. |
| Filters.FirstIdOfTwoItems | src/components/designSystem/Filters/utils.ts:457 | Splitting the whole value on the separator yields the first item's id. |
| Filters.IdsChipAsWrittenShowsFirstId | src/components/designSystem/Filters/utils.ts:457 | As written, the `apiKeyIds` chip shows the FIRST item's id for an unnamed second item, where the corrected display shows the second id. |
| Filters.IdsDisplaysAgreeWhenNamed | src/components/designSystem/Filters/utils.ts:452-459 | When every item has a non-empty name, the chip as written equals the corrected one: the fallback is the only difference. |
| Filters.QuickFiltersAreValueChecks | src/components/designSystem/Filters/utils.ts:472-551 | `isOutstandingUrlParams` holds iff the prefixed `paymentStatus` is `failed,pending` and `status` is `finalized`; `isSucceededUrlParams` likewise with `succeeded`. `isDraftUrlParams` and `isVoidedUrlParams` hold iff `status` is `draft` or `voided`. `isPaymentOverdueUrlParams` and `isPaymentDisputeLostUrlParams` hold iff their flag is `true`. |
| Filters.TwoNamesTwoEntries | src/components/designSystem/Filters/utils.ts:477-483 | Two names present means at least two entries, so the `size` checks are implied. |
| Filters.GetFilterValue | src/components/designSystem/Filters/utils.ts:553-563 | `getFilterValue` reads the first entry under the key's prefixed name, or null when there is none. |
| Filters.SetFilterValue | src/components/designSystem/Filters/utils.ts:565-578 | Mutates and returns the same params. A later `getFilterValue` of that key reads the value; other keys read as before. |
| Filters.SettingOutstandingValues | src/components/designSystem/Filters/utils.ts:565-578 | Setting `paymentStatus=failed,pending` and `status=finalized` makes the params outstanding. |
| Filters.Prefixed | src/components/designSystem/Filters/utils.ts:584 | Each name gets the invoice prefix, and values are kept. |
| Filters.BuildUrlForInvoicesWithFilters | src/components/designSystem/Filters/utils.ts:580-590 | The loop fills the dictionary. The URL is the route, `?`, and the serialised prefixed dictionary. |
| Filters.LastValuePrefixed | src/components/designSystem/Filters/utils.ts:583-587 | Prefixing preserves which value is last for each key. |
| Filters.InvoiceLinkKeepsLastValues | src/components/designSystem/Filters/utils.ts:583-587 | The link carries each filter once, with its last value. |
| FiltersItemCustomer.ComboboxCustomersData | src/components/designSystem/Filters/filtersElements/FiltersItemCustomer.tsx:41-54 | No options before customers load; then one option per customer, in order. |
| FiltersItemCustomer.LabelNamesTheCustomer | src/components/designSystem/Filters/filtersElements/FiltersItemCustomer.tsx:50 | The label starts with the display name, else the external id. The deleted suffix is added iff `deletedAt` is set. |
| FiltersItemCustomer.ValueRoundTrip | src/components/designSystem/Filters/filtersElements/FiltersItemCustomer.tsx:51 | The customer filter parses the value back to the external id. The chip shows the display name, else the id. A missing name travels as the text `undefined`. |
| Typography.ScanScheme | src/components/designSystem/Typography.tsx:23 | The regular expression's scan finds a colon preceded only by scheme characters. |
| Typography.SafeHrefMeaning | src/components/designSystem/Typography.tsx:13-27 | `isSafeHref` (`IsSafeHref`) holds iff the href is non-empty, not starting `//`, and either starting `/` or not opening with a scheme. |
| Typography.SafeHrefsStayInTheApp | src/components/designSystem/Typography.tsx:14-26 | An accepted href is a rooted path that is not protocol-relative, or has no leading scheme. |
| Typography.MapColor | src/components/designSystem/Typography.tsx:77-94 | An explicit colour wins. Otherwise headline and subheads are `text.secondary`, and every other variant is `text.primary`. |
| Typography.SecondaryTextOnlyForHeadings | src/components/designSystem/Typography.tsx:77-94 | Without an explicit colour, `mapColor` gives `text.secondary` exactly for the headline and the two subheads. |
| Typography.InternalLinks | src/components/designSystem/Typography.tsx:118-120 | Exactly the anchors with a truthy `data-text` are recorded. |
| Typography.CollectInternalLinks | src/components/designSystem/Typography.tsx:110-134 | The transform callbacks record `InternalLinks` of the visited anchors. |
| Typography.GetSanitizedHtml | src/components/designSystem/Typography.tsx:109-167 | With no internal link, one raw span. Otherwise the pieces split on the placeholder, each preceded by the link recorded before it. |
| Typography.RenderedHtmlIsTheSanitizedHtml | src/components/designSystem/Typography.tsx:140-164 | Re-joining the rendered HTML pieces with the placeholder gives the sanitized HTML: no text is lost. |
| Typography.InterleavedKeepsPieces | src/components/designSystem/Typography.tsx:144-164 | The HTML children are exactly the pieces, in order. |
| Typography.RouterLinksAreSafe | src/components/designSystem/Typography.tsx:147-158 | Every router link rendered has a safe href; an unsafe one becomes plain text. |
| Typography.InterleavedLength | src/components/designSystem/Typography.tsx:144-164 | n pieces and k links give n + min(n - 1, k) children. |
| FeatureFlags.ListFeatureFlags | src/core/utils/featureFlags.ts:2-17 | Exactly the two enum values, distinct. |
| FeatureFlags.EveryFlagListed | src/core/utils/featureFlags.ts:15-17 | No flag is missing from the list. |
| FeatureFlags.Normalized | src/core/utils/featureFlags.ts:25-36 | Falsy gives `[]`, `'all'` every flag, one flag a one-element list, and a list itself. |
| FeatureFlags.FeatureFlagStore.GetEnableFeatureFlags | src/core/utils/featureFlags.ts:9-13 | `[]` when the slot is unset, else the stored list. |
| FeatureFlags.FeatureFlagStore.IsFeatureFlagActive | src/core/utils/featureFlags.ts:19-23 | Active iff the flag is in the stored list. |
| FeatureFlags.FeatureFlagStore.SetFeatureFlags | src/core/utils/featureFlags.ts:25-41 | Only the flag slot is written, with the normalised list. That list is returned, and exactly its flags are then active. |
| PaymentMethodOptions.BaseLabel | src/components/paymentMethodSelection/usePaymentMethodOptions.tsx:27-31 | The formatted details, or the dated fallback when formatting is empty. |
| PaymentMethodOptions.ToOption | src/components/paymentMethodSelection/usePaymentMethodOptions.tsx:19-49 | Value is the id and type is Provider. ` (<default>)` is appended iff default, and `isDefault: true` is present only then. |
| PaymentMethodOptions.Active | src/components/paymentMethodSelection/usePaymentMethodOptions.tsx:60 | Exactly the methods without `deletedAt`. |
| PaymentMethodOptions.Arrange | src/components/paymentMethodSelection/usePaymentMethodOptions.tsx:62-71 | One option per active method. |
| PaymentMethodOptions.PaymentMethodOptions | src/components/paymentMethodSelection/usePaymentMethodOptions.tsx:57-72 | An undefined list gives `[]`; otherwise as many options as non-deleted methods. |
| PaymentMethodOptions.ArrangeIsDefaultsThenOthers | src/components/paymentMethodSelection/usePaymentMethodOptions.tsx:62-71 | The options are the defaults in reverse input order, then the others in input order. |
| PaymentMethodOptions.DefaultsComeFirst | src/components/paymentMethodSelection/usePaymentMethodOptions.tsx:70 | Every default option precedes every non-default one. |
| PaymentMethodOptions.DeletedMethodsExcluded | src/components/paymentMethodSelection/usePaymentMethodOptions.tsx:60-71 | Every option comes from a method that is not deleted. |
| PaymentMethodOptions.ToOptions | src/components/paymentMethodSelection/usePaymentMethodOptions.tsx:63-67 | One option per method, in order. |
| PortalInit.Page.constructor | src/pages/auth/PortalInit.tsx:10-12 | The page starts not ready, with no calls made. |
| PortalInit.Page.RunEffect | src/pages/auth/PortalInit.tsx:14-27 | With a token, `clearStore` is called once per run; without one, nothing happens. `isReady` is unchanged. |
| PortalInit.Page.SettleClearStore | src/pages/auth/PortalInit.tsx:19-25 | Whether clearing resolved or was rejected, the token is handed over and then the page is ready. |
| PortalInit.Page.Render | src/pages/auth/PortalInit.tsx:29-33 | The portal is shown iff there is a token and the page is ready. |
| PortalInit.NoTokenStaysOnSpinner | src/pages/auth/__tests__/PortalInit.test.tsx:48-65 | Without a token, no call is made, whatever the number of effect runs, and the spinner stays. |
| PortalInit.TokenThenFailedClear | src/pages/auth/__tests__/PortalInit.test.tsx:74-129 | A failed clear still hands over the token, after the clear, and shows the portal. |
| PortalInit.PortalFollowsAccess | src/pages/auth/PortalInit.tsx:23-33 | A shown portal implies a handed-over token and a cache clear before it. |
| PortalInit.CountsAppend | src/pages/auth/PortalInit.tsx:19-24 | Each call counts once. |
| PortalInit.AccessAfterClearAppend | src/pages/auth/PortalInit.tsx:19-24 | Appending a call keeps every hand-over behind a cache clear. |
| CreditNoteDetails.CreditedMapStatus | src/pages/CreditNoteDetails.tsx:207-225 | Consumed gives danger/consumed and Voided gives danger/voided; anything else, or missing, gives success/available. |
| CreditNoteDetails.ConsumedMapStatus | src/pages/CreditNoteDetails.tsx:227-245 | Succeeded gives success/refunded and Failed gives warning/failed; anything else gives default/pending. |
| CreditNoteDetails.BadgeRevealsRefund | src/pages/CreditNoteDetails.tsx:306-311 | A refund badge is shown only for a refunded note, a credit badge only for one that is not: no badge is produced by both mappings. |
| CreditNoteDetails.Status | src/pages/CreditNoteDetails.tsx:308-311 | The refund mapping iff `refundAmountCents > 0`, else the credit mapping. |
| CreditNoteDetails.NoRefundShowsCreditStatus | src/pages/CreditNoteDetails.tsx:310-611 | Without a positive refund, the badge is a credit status and the balance line shows. |
| CreditNoteDetails.HasError | src/pages/CreditNoteDetails.tsx:312 | An error iff (a query error or no note) and not loading. |
| CreditNoteDetails.FindNetsuite | src/pages/CreditNoteDetails.tsx:298-305 | The first NetSuite entry with the wanted id, or none when no entry matches. |
| CreditNoteDetails.ConnectedNetsuiteIntegration | src/pages/CreditNoteDetails.tsx:298-305 | The connected integration is a NetSuite entry with the customer's NetSuite id; none exists when it is absent. |
| CreditNoteDetails.NoNetsuiteIdNoConnection | src/pages/CreditNoteDetails.tsx:302-305 | A customer without a NetSuite id has no connected integration. |
| CreditNoteDetails.QueryData | src/pages/CreditNoteDetails.tsx:286-295 | A skipped query hands the page no data; a query that runs hands it what was fetched. |
| CreditNoteDetails.NoteQueryNeedsBothIds | src/pages/CreditNoteDetails.tsx:286-312 | The note query (`SkipCreditNoteQuery`) runs only with both route ids truthy. Without them the page has no note and, once loading is over, shows its error state. |
| CreditNoteDetails.IntegrationsQueryForLinkedCustomers | src/pages/CreditNoteDetails.tsx:290-305 | The integrations query (`SkipIntegrationsQuery`) runs exactly for a customer with a truthy NetSuite, Xero or Anrok integration id. A NetSuite-linked customer gets the lookup over the fetched list; a skipped query finds no connected integration. |
| CreditNoteDetails.FooterRows | src/pages/CreditNoteDetails.tsx:767-936 | Nothing while loading; the total row is last. Coupons, credit and refund rows appear iff their amount is positive; subtotal iff the invoice is not prepaid credits. |
| CreditNoteDetails.RefundedNoteFooter | src/pages/CreditNoteDetails.tsx:310-911 | A refunded note has a refund row, no balance line and a refund badge. |
| WalletAccordion.MapStatus | src/components/wallets/WalletAccordion.tsx:71-84 | Active gives success/active; any other or missing status gives danger/terminated. |
| WalletAccordion.BalanceParts | src/components/wallets/WalletAccordion.tsx:111 | Neither part contains `.`. |
| WalletAccordion.SplitPiecesHaveNoSeparator | src/components/wallets/WalletAccordion.tsx:111 | No piece of a split on `.` contains `.`. |
| WalletAccordion.BalancePartsOfDecimal | src/components/wallets/WalletAccordion.tsx:111 | `u.f` splits into `u` and `f`, unpadded. |
| WalletAccordion.BalancePartsOfWhole | src/components/wallets/WalletAccordion.tsx:111 | A whole balance gets `'00'` cents. |
| WalletAccordion.OngoingBalanceBlock | src/components/wallets/WalletAccordion.tsx:112-275 | The block appears only for active wallets. Non-premium users see `0`, `00` and a zero amount, premium users the split ongoing balance and its amount. The count choosing the "credits" label is the real whole part for every user. |
| WalletAccordion.OngoingBalanceMaskedForNonPremium | src/components/wallets/WalletAccordion.tsx:241-266 | For a non-premium user the balance and amount shown do not depend on the ongoing balance; the label's count does. |
| WalletAccordion.RealTimeRowWithOngoingBlock | src/components/wallets/WalletAccordion.tsx:220-322 | The real-time transaction row is listed exactly when the ongoing-balance block is shown: for an active wallet. |
| WalletAccordion.DateShown | src/components/wallets/WalletAccordion.tsx:286-302 | `terminatedAt` when not active; else `expirationAt` when set; else "no expiration". |
| WalletAccordion.Title | src/components/wallets/WalletAccordion.tsx:129-133 | The name, or the translated fallback with the formatted creation time. |
| HorizontalDataTable.GetRowHeight | src/components/designSystem/Table/HorizontalDataTable.tsx:43-47 | 40 for a header row, 48 otherwise. |
| HorizontalDataTable.TableHeightCounts | src/components/designSystem/Table/HorizontalDataTable.tsx:73-76 | The height is 40 per header row plus 48 per data row, and 0 for no rows. |
| HorizontalDataTable.TableHeightBounds | src/components/designSystem/Table/HorizontalDataTable.tsx:73-76 | Between 40 and 48 per row. |
| HorizontalDataTable.LeftColumn | src/components/designSystem/Table/HorizontalDataTable.tsx:80-107 | Present iff there are rows: one cell per row in order, with its label and height, and a top shadow only on the first. |
| HorizontalDataTable.LeftColumnHeight | src/components/designSystem/Table/HorizontalDataTable.tsx:73-107 | The left column is exactly as tall as the table. |
| HorizontalDataTable.SumHeightsPrefix | src/components/designSystem/Table/HorizontalDataTable.tsx:87-93 | Cell heights add up like the row heights. |
| HorizontalDataTable.WithDefaults | src/components/designSystem/Table/HorizontalDataTable.tsx:8-54 | Defaults: no data, column width 160, left width 120, prefix `column-`. Each supplied prop is kept unchanged. |
| HorizontalDataTable.Virtualizer | src/components/designSystem/Table/HorizontalDataTable.tsx:58-71 | Count is `data.length`, padding is the left width and size is the column width. The first scroll goes to `data.length - 1`. |
| HorizontalDataTable.EmptyDataScrollsToMinusOne | src/components/designSystem/Table/HorizontalDataTable.tsx:68 | With no data, the mount-time scroll asks for index -1. |

## Left out

- Rendering, styling and routing (JSX trees, MUI, `labelNode`, the `Link` component) are not modelled. Only the data that decides what is rendered is kept.
- Network, Apollo transport, cache persistence (localForage), the timeout and upload links, the client constructor and Sentry are not modelled. Captures, toasts, warnings and log-outs are recorded as events.
- Local storage is modelled only as the feature-flag slot and as stored-token parameters. `JSON.stringify`/`JSON.parse` of the flag list is taken as an exact round trip, and junk stored under the key is not modelled.
- `translate`, `omitDeep`, `formatPaymentMethodDetails`, `intlFormatDateTime`, `formatActivityType`, `formatDateToTZ`, `sanitize-html` and the tanstack virtualizer are uninterpreted. They are function parameters, or a recorded sanitizer run.
- The filter-name prefixes, the inline separator (`filterDataInlineSeparator`, taken non-empty), `INVOICES_ROUTE` and the available-filter lists are parameters. Their values live in files that are not part of this model.
- The other `formatFiltersFor*Query` wrappers are not modelled separately. These are invoice, customer, revenue-streams plans and customers, MRR plans, analytics invoices, the usage overview and breakdowns, billable metric and API logs. Each is `formatFiltersForQuery` with no key map and lists that are not part of this model.
- `Object.entries` lists integer-like keys first in JavaScript. The model keeps insertion order; filter names are never integer-like.
- `Number(...)` in `parseAmountValue` and in the footer amounts is not modelled. Amount components are kept as their text, and cent amounts are integers.
- Filters.SingleScalarFilter, Filters.SingleObjectFilter: state the whole query for a URL with one entry. For any URL, the per-field statements are Filters.ScalarFilterReachesQuery and Filters.ObjectFilterReachesQuery.
- Filters.WebhookStatusIsFirstListed: states the one-entry case and the case with no webhook status; the general case is Filters.WebhookStatusOfLastValue.
- Filters.CreditNoteStatusesRenamed, Filters.TimeGranularityAlwaysAccepted, Filters.AnalyticsFiltersRenamed, Filters.PrepaidCreditsAccountTypeRenamed, Filters.BooleanFilterIsLiteralTrue, Filters.DateRangeFields: each shows one screen's renaming or parsing on a one-entry URL. Filters.ScalarFilterReachesQuery and Filters.ObjectFilterReachesQuery carry it to any URL.
- Filters.Truthy: a `Num` value is always truthy; the `0` and `NaN` cases of a parsed amount are not modelled.
- `String(creditsBalance)` is float formatting; the wallet takes the decimal text as input.
- `LagoApiError`, `CreditNoteCreditStatusEnum`, `CreditNoteRefundStatusEnum`, `WalletStatusEnum`, `InvoiceTypeEnum` and `PaymentMethodTypeEnum` come from generated code that is not part of this model. Only the members the core uses are modelled, and the wire codes follow the snake-case convention visible in the tests.
- ErrorUtils.HasDefinedGQLError, ErrorUtils.ExtractThirdPartyErrorMessage: the source destructures `errors[0].extensions` (src/core/apolloClient/errorUtils.ts:28 and line 51), which throws a `TypeError` when the first error has no extensions. The model does not capture that throw. These members, and the GeneratePaymentUrl callbacks that use them, require `FirstErrorHasExtensions` instead.
- ApolloInit.ClientModule.InitializeApolloClient: the method is synchronous. In the source, `await persistCache` (src/core/apolloClient/init.ts:122) sits between the singleton check (line 37) and the assignment (line 147), so two overlapping calls can each build a client, and the later assignment wins. The model does not capture that interleaving.
- WalletAccordion.OngoingBalanceBlock: the `blur` styling that hides the rendered values is not modelled; the unmasked label count is kept as data.
- GeneratePaymentUrl.ProviderMessageShownVerbatim, GeneratePaymentUrl.FirstProviderMessageShown: show the two shapes of `details.error` on one concrete error; GeneratePaymentUrl.OnError states the general case.
- ApolloInit.LogOutPerAuthError: log-out runs once per auth error in a batch, as the code does; it is not once per batch.
- Typography.GetSanitizedHtml: the sanitizer is a recorded run, taken as given: the anchors visited in order, and the output HTML with placeholder spans.
- PortalInit.Page: React's state update and effect scheduling are modelled as explicit method calls. Re-rendering on token change is not modelled: the token is fixed per page.
- CreditNoteDetails.FooterRows: the tax rows between the subtotal and the credit rows are not modelled.
- HorizontalDataTable.Virtualizer: the virtual items, their offsets and the scroll shadow are not modelled.
- Re-rendering, memoisation (`useMemo`) and hook dependency lists are not modelled.

## Findings

| source | as written | input that shows it | evidently intended | confidence | as-written member | corrected member |
|---|---|---|---|---|---|---|
| src/components/designSystem/Filters/utils.ts:457 | The id fallback uses `value.split(sep)[0]`, the whole filter value, instead of the item `v`. | `k1<sep>Main,k2<sep>` shows `Main, k1` | `Main, k2`: each item falls back to its own id | not executed | Filters.IdsChipAsWrittenShowsFirstId (over Filters.IdsDisplayAsWritten) | Filters.IdsChipShowsEachItem (over Filters.IdsDisplay) |
