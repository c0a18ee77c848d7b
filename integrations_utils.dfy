/**
 * `hasNonEuEligibilityError` (src/components/settings/integrations/utils.ts):
 * whether any mutation result reports that the billing entity must be in
 * the EU for EU tax management.
 */
module IntegrationsUtils {
  import opened Wrappers
  import opened ErrorUtils

  const EuTaxManagementField: string := "euTaxManagement"
  const NonEuReason: string := "billing_entity_must_be_in_eu"

  /** A mutation's fetch result, reduced to its optional error list. */
  datatype FetchResult = FetchResult(errors: Option<seq<GqlError>>)

  /** `details?.['euTaxManagement']?.includes('billing_entity_must_be_in_eu')` for one error. */
  predicate IsNonEuError(err: GqlError) {
    && err.extensions.Some?
    && err.extensions.value.details.Some?
    && EuTaxManagementField in err.extensions.value.details.value
    && ValueIncludes(err.extensions.value.details.value[EuTaxManagementField], NonEuReason)
  }

  /** `res.errors?.some(...)`: a single result whose error list carries the reason. */
  predicate ResultIsNonEu(res: FetchResult) {
    res.errors.Some? && exists i :: 0 <= i < |res.errors.value| && IsNonEuError(res.errors.value[i])
  }

  /** `results.some(...)`, one result after the other. */
  function HasNonEuEligibilityError(results: seq<FetchResult>): (r: bool)
    ensures r <==> exists i :: 0 <= i < |results| && ResultIsNonEu(results[i])
  {
    if results == [] then false
    else ResultIsNonEu(results[0]) || HasNonEuEligibilityError(results[1..])
  }

  /** Results without errors never make it true. */
  lemma {:induction false} NoErrorsNoMatch(results: seq<FetchResult>)
    requires forall i :: 0 <= i < |results| ==> results[i].errors.None? || results[i].errors.value == []
    ensures !HasNonEuEligibilityError(results)
  {
  }

  /** Errors without extensions or without details never make it true. */
  lemma ErrorsWithoutDetailsNoMatch(results: seq<FetchResult>)
    requires forall i, j :: 0 <= i < |results| && results[i].errors.Some? && 0 <= j < |results[i].errors.value|
                            ==> results[i].errors.value[j].extensions.None? || results[i].errors.value[j].extensions.value.details.None?
    ensures !HasNonEuEligibilityError(results)
  {
  }

  /** One matching result anywhere suffices: adding results around it never turns the answer false. */
  lemma {:induction false} MatchSurvivesAppend(before: seq<FetchResult>, results: seq<FetchResult>, after: seq<FetchResult>)
    requires HasNonEuEligibilityError(results)
    ensures HasNonEuEligibilityError(before + results + after)
  {
    var i :| 0 <= i < |results| && ResultIsNonEu(results[i]);
    assert (before + results + after)[|before| + i] == results[i];
  }

  /** The unit-test scenario: the reason listed under `euTaxManagement` is found. */
  lemma NonEuScenario()
    ensures var err := GqlError("Unprocessable Entity", [], [],
                                Some(Extensions(Some("unprocessable_entity"), Some(map[EuTaxManagementField := Items([NonEuReason])]))));
            HasNonEuEligibilityError([FetchResult(None), FetchResult(Some([err]))])
  {
    var err := GqlError("Unprocessable Entity", [], [],
                        Some(Extensions(Some("unprocessable_entity"), Some(map[EuTaxManagementField := Items([NonEuReason])]))));
    assert ValueIncludes(Items([NonEuReason]), NonEuReason) by {
      assert [NonEuReason][0] == NonEuReason;
    }
    assert IsNonEuError(err);
    assert [err][0] == err;
    assert ResultIsNonEu(FetchResult(Some([err])));
    assert [FetchResult(None), FetchResult(Some([err]))][1] == FetchResult(Some([err]));
  }
}
