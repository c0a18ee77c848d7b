/**
 * Re-sending a billing document by e-mail (src/hooks/useResendEmail.ts):
 * the mutation input, the choice of mutation by document type, and the
 * classification of its outcome.
 */
module ResendEmail {
  import opened Wrappers
  import opened ErrorUtils

  /** `BillingEntityEmailSettingsEnum`, plus any other value a caller may pass. */
  datatype EmailType = CreditNoteCreated | InvoiceFinalized | PaymentReceiptCreated | Unsupported(name: string)

  datatype Mutation = ResendCreditNoteEmail | ResendInvoiceEmail | ResendPaymentReceiptEmail

  datatype ResendEmailParams = ResendEmailParams(
    emailType: EmailType,
    documentId: string,
    to: Option<seq<string>>,
    cc: Option<seq<string>>,
    bcc: Option<seq<string>>)

  /** The mutation input; a `None` recipient list is a key left out of the object. */
  datatype ResendInput = ResendInput(id: string, to: Option<seq<string>>, cc: Option<seq<string>>, bcc: Option<seq<string>>)

  datatype MutationCall = MutationCall(mutation: Mutation, input: ResendInput, silentErrorCodes: seq<string>)

  /** `...(list?.length ? { list } : {})` */
  function Recipients(list: Option<seq<string>>): (r: Option<seq<string>>)
    ensures r.Some? <==> list.Some? && |list.value| > 0
    ensures r.Some? ==> r == list
  {
    if list.Some? && |list.value| > 0 then list else None
  }

  function BuildInput(p: ResendEmailParams): ResendInput {
    ResendInput(p.documentId, Recipients(p.to), Recipients(p.cc), Recipients(p.bcc))
  }

  /** Every mutation runs with validation errors silenced. */
  const Context: seq<string> := [Code(UnprocessableEntity)]

  /** The mutation that `resendEmailPerType` calls; `None` where it throws 'Missing type'. */
  function MutationFor(t: EmailType): (m: Option<Mutation>)
    ensures m.None? <==> t.Unsupported?
  {
    match t
    case CreditNoteCreated => Some(ResendCreditNoteEmail)
    case InvoiceFinalized => Some(ResendInvoiceEmail)
    case PaymentReceiptCreated => Some(ResendPaymentReceiptEmail)
    case Unsupported(_) => None
  }

  /** The call `resendEmailPerType` makes, if any. */
  function Request(p: ResendEmailParams): (call: Option<MutationCall>)
    ensures call.None? <==> p.emailType.Unsupported?
    ensures call.Some? ==> call.value.input.id == p.documentId && call.value.silentErrorCodes == [Code(UnprocessableEntity)]
    ensures call.Some? ==> call.value.mutation == MutationFor(p.emailType).value
    ensures call.Some? ==> call.value.input == BuildInput(p)
  {
    match MutationFor(p.emailType)
    case None => None
    case Some(m) => Some(MutationCall(m, BuildInput(p), Context))
  }

  /** How the awaited mutation settled: rejected (network failure) or resolved with data and maybe errors. */
  datatype MutationOutcome<D> = Rejected | Resolved(data: D, errors: Option<seq<GqlError>>)

  datatype ResendResult<D> = Succeeded(response: D) | Failed(graphQLErrors: Option<seq<GqlError>>)

  /**
   * `resendEmail(params)`, where `outcome` is how the call `Request(params)`
   * settled; it is ignored when no mutation is called.
   */
  function ResendEmailResult<D>(p: ResendEmailParams, outcome: MutationOutcome<D>): (r: ResendResult<D>)
    ensures p.emailType.Unsupported? ==> r == Failed(None)
    ensures outcome.Rejected? ==> r == Failed(None)
    ensures r.Succeeded? <==> !p.emailType.Unsupported? && outcome.Resolved?
                              && (outcome.errors.None? || |outcome.errors.value| == 0)
    ensures r.Succeeded? ==> r.response == outcome.data
    ensures r.Failed? && r.graphQLErrors.Some? ==> outcome.Resolved? && r.graphQLErrors == outcome.errors
                                                   && |r.graphQLErrors.value| > 0
  {
    if Request(p).None? then Failed(None)
    else match outcome
      case Rejected => Failed(None)
      case Resolved(data, errors) =>
        if errors.Some? && |errors.value| > 0 then Failed(errors) else Succeeded(data)
  }

  /** Each supported type selects its own mutation, and no two types share one. */
  lemma TypeSelectsMutation(p: ResendEmailParams)
    ensures p.emailType == CreditNoteCreated ==> Request(p).value.mutation == ResendCreditNoteEmail
    ensures p.emailType == InvoiceFinalized ==> Request(p).value.mutation == ResendInvoiceEmail
    ensures p.emailType == PaymentReceiptCreated ==> Request(p).value.mutation == ResendPaymentReceiptEmail
  {
  }

  /** Empty or missing recipient lists are left out of the input; the others are passed unchanged. */
  lemma EmptyRecipientsOmitted(p: ResendEmailParams)
    ensures var input := BuildInput(p);
            && input.id == p.documentId
            && (input.to.None? <==> p.to.None? || p.to.value == [])
            && (input.cc.None? <==> p.cc.None? || p.cc.value == [])
            && (input.bcc.None? <==> p.bcc.None? || p.bcc.value == [])
            && (input.to.Some? ==> input.to == p.to)
            && (input.cc.Some? ==> input.cc == p.cc)
            && (input.bcc.Some? ==> input.bcc == p.bcc)
  {
  }
}
