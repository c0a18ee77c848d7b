/**
 * The derived state of the credit-note page (src/pages/CreditNoteDetails.tsx):
 * the status badge, the error screen, which queries run, the connected
 * NetSuite integration and the footer rows of the amounts table.
 */
module CreditNoteDetails {
  import opened Wrappers

  datatype StatusType = SuccessStatus | DangerStatus | WarningStatus | DefaultStatus

  /** `StatusProps` */
  datatype StatusProps = StatusProps(statusType: StatusType, caption: string)

  /** `CreditNoteCreditStatusEnum` */
  datatype CreditStatus = Available | Consumed | Voided

  /** `CreditNoteRefundStatusEnum` */
  datatype RefundStatus = Pending | Succeeded | Failed

  /** `creditedMapStatus` */
  function CreditedMapStatus(status: Option<CreditStatus>): (props: StatusProps)
    ensures status == Some(Consumed) ==> props == StatusProps(DangerStatus, "consumed")
    ensures status == Some(Voided) ==> props == StatusProps(DangerStatus, "voided")
    ensures status != Some(Consumed) && status != Some(Voided) ==> props == StatusProps(SuccessStatus, "available")
  {
    match status
    case Some(Consumed) => StatusProps(DangerStatus, "consumed")
    case Some(Voided) => StatusProps(DangerStatus, "voided")
    case _ => StatusProps(SuccessStatus, "available")
  }

  /** `consumedMapStatus` */
  function ConsumedMapStatus(status: Option<RefundStatus>): (props: StatusProps)
    ensures status == Some(Succeeded) ==> props == StatusProps(SuccessStatus, "refunded")
    ensures status == Some(Failed) ==> props == StatusProps(WarningStatus, "failed")
    ensures status != Some(Succeeded) && status != Some(Failed) ==> props == StatusProps(DefaultStatus, "pending")
  {
    match status
    case Some(Succeeded) => StatusProps(SuccessStatus, "refunded")
    case Some(Failed) => StatusProps(WarningStatus, "failed")
    case _ => StatusProps(DefaultStatus, "pending")
  }

  /** The two mappings never give the same badge. */
  lemma BadgesTellTheMappingApart(c: Option<CreditStatus>, r: Option<RefundStatus>)
    ensures CreditedMapStatus(c) != ConsumedMapStatus(r)
  {
    var a := CreditedMapStatus(c);
    var b := ConsumedMapStatus(r);
    if a.statusType == b.statusType {
      assert a.statusType == SuccessStatus;
      assert a.caption[0] != b.caption[0];
    }
  }

  datatype IntegrationCustomer = IntegrationCustomer(integrationId: Option<string>)

  datatype Customer = Customer(
    netsuiteCustomer: Option<IntegrationCustomer>,
    xeroCustomer: Option<IntegrationCustomer>,
    anrokCustomer: Option<IntegrationCustomer>)

  datatype InvoiceType = Credit | OtherInvoiceType(name: string)

  /**
   * The fields of the credit note the page derives from. Amounts are the
   * API's cent counts; an absent amount is `None`.
   */
  datatype CreditNote = CreditNote(
    creditStatus: Option<CreditStatus>,
    refundStatus: Option<RefundStatus>,
    refundAmountCents: Option<int>,
    couponsAdjustmentAmountCents: Option<int>,
    creditAmountCents: Option<int>,
    customer: Customer,
    invoiceType: Option<InvoiceType>)

  /** `creditNote?.refundAmountCents > 0` */
  predicate IsRefunded(note: Option<CreditNote>) {
    note.Some? && note.value.refundAmountCents.Some? && note.value.refundAmountCents.value > 0
  }

  /** The badge shown: the refund status for a refunded note, else the credit status. */
  function Status(note: Option<CreditNote>): (props: StatusProps)
    ensures IsRefunded(note) ==> props == ConsumedMapStatus(note.value.refundStatus)
    ensures !IsRefunded(note) ==> props == CreditedMapStatus(if note.Some? then note.value.creditStatus else None)
  {
    var credited := CreditedMapStatus(if note.Some? then note.value.creditStatus else None);
    var consumed := ConsumedMapStatus(if note.Some? then note.value.refundStatus else None);
    if IsRefunded(note) then consumed else credited
  }

  /** The remaining-balance line is shown only for a note that is not refunded. */
  predicate ShowsBalanceLine(note: Option<CreditNote>) {
    !IsRefunded(note)
  }

  /** The badge tells whether the note is refunded: a refund badge only for a refunded note, a credit badge only otherwise. */
  lemma BadgeRevealsRefund(note: Option<CreditNote>, c: Option<CreditStatus>, r: Option<RefundStatus>)
    ensures Status(note) == ConsumedMapStatus(r) ==> IsRefunded(note)
    ensures Status(note) == CreditedMapStatus(c) ==> !IsRefunded(note)
  {
    if IsRefunded(note) {
      BadgesTellTheMappingApart(c, note.value.refundStatus);
    } else {
      BadgesTellTheMappingApart(if note.Some? then note.value.creditStatus else None, r);
    }
  }

  /** A note without a refund amount never shows a refund status. */
  lemma NoRefundShowsCreditStatus(note: CreditNote)
    requires note.refundAmountCents.None? || note.refundAmountCents.value <= 0
    ensures Status(Some(note)).caption in {"available", "consumed", "voided"}
    ensures ShowsBalanceLine(Some(note))
  {
  }

  /** `hasError`: a query error or no note, once loading is over. */
  function HasError(queryError: bool, note: Option<CreditNote>, loading: bool): (e: bool)
    ensures e ==> !loading
    ensures !loading && note.None? ==> e
    ensures e <==> (queryError || note.None?) && !loading
  {
    (queryError || note.None?) && !loading
  }

  predicate Truthy(s: Option<string>) {
    s.Some? && s.value != ""
  }

  /** The credit-note query waits for both route ids. */
  predicate SkipCreditNoteQuery(creditNoteId: Option<string>, customerId: Option<string>) {
    !Truthy(creditNoteId) || !Truthy(customerId)
  }

  function IntegrationIdOf(c: Option<IntegrationCustomer>): Option<string> {
    if c.Some? then c.value.integrationId else None
  }

  /** The integrations query runs only when the customer is linked to NetSuite, Xero or Anrok. */
  predicate SkipIntegrationsQuery(note: Option<CreditNote>) {
    note.None?
    || (!Truthy(IntegrationIdOf(note.value.customer.netsuiteCustomer))
        && !Truthy(IntegrationIdOf(note.value.customer.xeroCustomer))
        && !Truthy(IntegrationIdOf(note.value.customer.anrokCustomer)))
  }

  /** An entry of the integrations list: its GraphQL `__typename` and id. */
  datatype Integration = Integration(typename: string, id: string)

  const NetsuiteTypename: string := "NetsuiteIntegration"

  predicate IsConnectedNetsuite(i: Integration, wanted: Option<string>) {
    i.typename == NetsuiteTypename && Some(i.id) == wanted
  }

  /** The position `find` stops at: the first NetSuite entry with the wanted id. */
  function FindNetsuite(integrations: seq<Integration>, wanted: Option<string>): (k: Option<nat>)
    ensures k.Some? ==> k.value < |integrations| && IsConnectedNetsuite(integrations[k.value], wanted)
    ensures k.Some? ==> forall j :: 0 <= j < k.value ==> !IsConnectedNetsuite(integrations[j], wanted)
    ensures k.None? ==> forall j :: 0 <= j < |integrations| ==> !IsConnectedNetsuite(integrations[j], wanted)
  {
    if integrations == [] then None
    else if IsConnectedNetsuite(integrations[0], wanted) then Some(0)
    else
      var rest := FindNetsuite(integrations[1..], wanted);
      if rest.None? then None else Some(rest.value + 1)
  }

  /** `allNetsuiteIntegrations?.find(...)`: the NetSuite entry whose id is the customer's NetSuite integration id. */
  function ConnectedNetsuiteIntegration(integrations: Option<seq<Integration>>, note: Option<CreditNote>): (found: Option<Integration>)
    ensures found.Some? ==> integrations.Some? && note.Some? && found.value in integrations.value
                            && IsConnectedNetsuite(found.value, IntegrationIdOf(note.value.customer.netsuiteCustomer))
    ensures found.None? && integrations.Some? && note.Some? ==>
              forall i :: i in integrations.value ==> !IsConnectedNetsuite(i, IntegrationIdOf(note.value.customer.netsuiteCustomer))
  {
    if integrations.None? || note.None? then None
    else
      var k := FindNetsuite(integrations.value, IntegrationIdOf(note.value.customer.netsuiteCustomer));
      if k.None? then None else Some(integrations.value[k.value])
  }

  /** A customer without a NetSuite integration id has no connected NetSuite integration. */
  lemma NoNetsuiteIdNoConnection(integrations: Option<seq<Integration>>, note: CreditNote)
    requires IntegrationIdOf(note.customer.netsuiteCustomer).None?
    ensures ConnectedNetsuiteIntegration(integrations, Some(note)).None?
  {
  }

  /** The data a query hands the page: none while it is skipped. */
  function QueryData<T>(skip: bool, fetched: Option<T>): (data: Option<T>)
    ensures skip ==> data.None?
    ensures !skip ==> data == fetched
  {
    if skip then None else fetched
  }

  /**
   * The note is fetched only with both route ids; without them the page,
   * once loading is over, shows its error state.
   */
  lemma NoteQueryNeedsBothIds(creditNoteId: Option<string>, customerId: Option<string>, fetched: Option<CreditNote>,
                              queryError: bool)
    ensures QueryData(SkipCreditNoteQuery(creditNoteId, customerId), fetched)
            == if Truthy(creditNoteId) && Truthy(customerId) then fetched else None
    ensures !(Truthy(creditNoteId) && Truthy(customerId))
            ==> HasError(queryError, QueryData(SkipCreditNoteQuery(creditNoteId, customerId), fetched), false)
  {
  }

  /**
   * The integrations are fetched exactly for a customer linked to NetSuite,
   * Xero or Anrok. A NetSuite-linked customer always gets the lookup over
   * the fetched list; a skipped query finds no connected integration.
   */
  lemma IntegrationsQueryForLinkedCustomers(note: Option<CreditNote>, fetched: Option<seq<Integration>>)
    ensures !SkipIntegrationsQuery(note)
            <==> note.Some? && (Truthy(IntegrationIdOf(note.value.customer.netsuiteCustomer))
                                || Truthy(IntegrationIdOf(note.value.customer.xeroCustomer))
                                || Truthy(IntegrationIdOf(note.value.customer.anrokCustomer)))
    ensures note.Some? && Truthy(IntegrationIdOf(note.value.customer.netsuiteCustomer))
            ==> ConnectedNetsuiteIntegration(QueryData(SkipIntegrationsQuery(note), fetched), note)
                == ConnectedNetsuiteIntegration(fetched, note)
    ensures SkipIntegrationsQuery(note)
            ==> ConnectedNetsuiteIntegration(QueryData(SkipIntegrationsQuery(note), fetched), note).None?
  {
  }

  /** The rows of the amounts table's footer that the page derives (the tax rows are not modelled). */
  datatype FooterRow = CouponsRow | SubtotalRow | CreditRow | RefundRow | TotalRow

  /** `Number(amount || 0) > 0` */
  predicate Positive(amount: Option<int>) {
    amount.Some? && amount.value > 0
  }

  /** The footer, shown once loading is over. */
  function FooterRows(note: Option<CreditNote>, loading: bool): (rows: seq<FooterRow>)
    ensures loading <==> rows == []
    ensures !loading ==> rows[|rows| - 1] == TotalRow
    ensures CouponsRow in rows <==> !loading && note.Some? && Positive(note.value.couponsAdjustmentAmountCents)
    ensures CreditRow in rows <==> !loading && note.Some? && Positive(note.value.creditAmountCents)
    ensures RefundRow in rows <==> !loading && note.Some? && Positive(note.value.refundAmountCents)
    ensures SubtotalRow in rows <==> !loading && !(note.Some? && note.value.invoiceType == Some(Credit))
  {
    if loading then []
    else
      var coupons := note.Some? && Positive(note.value.couponsAdjustmentAmountCents);
      var prepaid := note.Some? && note.value.invoiceType == Some(Credit);
      var credit := note.Some? && Positive(note.value.creditAmountCents);
      var refund := note.Some? && Positive(note.value.refundAmountCents);
      (if coupons then [CouponsRow] else [])
      + (if !prepaid then [SubtotalRow] else [])
      + (if credit then [CreditRow] else [])
      + (if refund then [RefundRow] else [])
      + [TotalRow]
  }

  /** A refunded note shows a refund row and no balance line. */
  lemma RefundedNoteFooter(note: CreditNote)
    requires IsRefunded(Some(note))
    ensures RefundRow in FooterRows(Some(note), false)
    ensures !ShowsBalanceLine(Some(note))
    ensures Status(Some(note)).caption in {"refunded", "failed", "pending"}
  {
  }
}
