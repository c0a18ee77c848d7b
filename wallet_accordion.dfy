/**
 * The derived display of a customer's wallet
 * (src/components/wallets/WalletAccordion.tsx): the status badge, the
 * balances split into whole and fractional parts, the premium masking,
 * the date line and the title.
 */
module WalletAccordion {
  import opened Wrappers
  import opened Strings

  /** `WalletStatusEnum` */
  datatype WalletStatus = Active | Terminated

  datatype StatusType = SuccessStatus | DangerStatus

  datatype StatusProps = StatusProps(statusType: StatusType, caption: string)

  /** `mapStatus` */
  function MapStatus(status: Option<WalletStatus>): (props: StatusProps)
    ensures status == Some(Active) <==> props == StatusProps(SuccessStatus, "active")
    ensures status != Some(Active) <==> props == StatusProps(DangerStatus, "terminated")
  {
    if status == Some(Active) then StatusProps(SuccessStatus, "active") else StatusProps(DangerStatus, "terminated")
  }

  /**
   * `const [unit = '0', cents = '00'] = text.split('.')`: the text before
   * the first `.`, and the text between the first and second `.` or `'00'`
   * when there is no `.`. `split` always yields a first piece, so the
   * `'0'` default never applies.
   */
  function BalanceParts(text: string): (parts: (string, string))
    ensures '.' !in parts.0
    ensures parts.1 == "00" || '.' !in parts.1
  {
    var pieces := Split(text, ".");
    SplitPiecesHaveNoSeparator(text);
    (pieces[0], if |pieces| > 1 then pieces[1] else "00")
  }

  lemma {:induction false} SplitPiecesHaveNoSeparator(text: string)
    ensures forall k :: 0 <= k < |Split(text, ".")| ==> '.' !in Split(text, ".")[k]
    decreases |text|
  {
    if |text| >= 1 && text[..1] != "." {
      SplitPiecesHaveNoSeparator(text[1..]);
      var rest := Split(text[1..], ".");
      assert text[0] != '.' by { assert text[..1] == [text[0]]; }
      assert Split(text, ".")[0] == [text[0]] + rest[0];
    } else if |text| >= 1 {
      SplitPiecesHaveNoSeparator(text[1..]);
    }
  }

  /** A balance with one `.` splits into the digits on either side of it. */
  lemma BalancePartsOfDecimal(unit: string, cents: string)
    requires '.' !in unit && '.' !in cents
    ensures BalanceParts(unit + "." + cents) == (unit, cents)
  {
    SplitJoinChar([unit, cents], '.');
    assert Join([unit, cents], ".") == unit + "." + cents by {
      JoinCons('.', [cents], ".");
    }
  }

  /** A balance without `.` keeps its text as the whole part, with `'00'` cents (not padded, not rounded). */
  lemma BalancePartsOfWhole(unit: string)
    requires '.' !in unit
    ensures BalanceParts(unit) == (unit, "00")
  {
    NoCharNoOccurrence(unit, '.');
    SplitWithoutSeparator(unit, ".");
  }

  /**
   * What the ongoing-balance block shows: the split balance and the amount,
   * masked for non-premium users, and the count that picks the singular or
   * plural "credits" label, which is never masked.
   */
  datatype OngoingBalance = OngoingBalance(unit: string, cents: string, amountCents: int, creditsLabelCount: string)

  /** The ongoing-balance block, present only for an active wallet. */
  function OngoingBalanceBlock(status: Option<WalletStatus>, isPremium: bool, creditsOngoingBalance: string, ongoingBalanceCents: int): (block: Option<OngoingBalance>)
    ensures block.Some? <==> status == Some(Active)
    ensures block.Some? && !isPremium ==> block.value == OngoingBalance("0", "00", 0, BalanceParts(creditsOngoingBalance).0)
    ensures block.Some? && isPremium ==>
              block.value == OngoingBalance(BalanceParts(creditsOngoingBalance).0, BalanceParts(creditsOngoingBalance).1,
                                            ongoingBalanceCents, BalanceParts(creditsOngoingBalance).0)
  {
    if status != Some(Active) then None
    else
      var (unit, cents) := BalanceParts(creditsOngoingBalance);
      Some(OngoingBalance(if isPremium then unit else "0", if isPremium then cents else "00",
                          if isPremium then ongoingBalanceCents else 0, unit))
  }

  /**
   * A non-premium user sees the same balance and amount whatever the ongoing
   * balance is; only the label's count follows the real whole part.
   */
  lemma OngoingBalanceMaskedForNonPremium(status: Option<WalletStatus>, b1: string, c1: int, b2: string, c2: int)
    ensures var o1 := OngoingBalanceBlock(status, false, b1, c1);
            var o2 := OngoingBalanceBlock(status, false, b2, c2);
            && o1.Some? == o2.Some?
            && (o1.Some? ==> o1.value.unit == o2.value.unit && o1.value.cents == o2.value.cents
                             && o1.value.amountCents == o2.value.amountCents)
            && (o1.Some? ==> o1.value.creditsLabelCount == BalanceParts(b1).0 && o2.value.creditsLabelCount == BalanceParts(b2).0)
  {
  }

  /** The real-time transaction row is listed only for an active wallet. */
  predicate ShowsRealTimeTransaction(status: Option<WalletStatus>) {
    status == Some(Active)
  }

  /** The real-time transaction row and the ongoing-balance block appear together. */
  lemma RealTimeRowWithOngoingBlock(status: Option<WalletStatus>, isPremium: bool, balance: string, cents: int)
    ensures ShowsRealTimeTransaction(status) <==> OngoingBalanceBlock(status, isPremium, balance, cents).Some?
  {
  }

  /** The date line. */
  datatype DateLine = TerminatedOn(terminatedAt: Option<string>) | ExpiresOn(expirationAt: string) | NoExpiration

  function DateShown(status: Option<WalletStatus>, terminatedAt: Option<string>, expirationAt: Option<string>): (line: DateLine)
    ensures status != Some(Active) <==> line.TerminatedOn?
    ensures line.TerminatedOn? ==> line.terminatedAt == terminatedAt
    ensures line.ExpiresOn? <==> status == Some(Active) && expirationAt.Some? && expirationAt.value != ""
    ensures line.ExpiresOn? ==> Some(line.expirationAt) == expirationAt
  {
    if status != Some(Active) then TerminatedOn(terminatedAt)
    else if expirationAt.Some? && expirationAt.value != "" then ExpiresOn(expirationAt.value)
    else NoExpiration
  }

  const UnnamedWalletKey: string := "text_62da6ec24a8e24e44f8128b2"

  /** The title: the wallet's name, or the translated fallback embedding the formatted creation time. */
  function Title(name: Option<string>, createdAt: string, translate: (string, string) -> string, formatTime: string -> string): (title: string)
    ensures name.Some? && name.value != "" ==> title == name.value
    ensures !(name.Some? && name.value != "") ==> title == translate(UnnamedWalletKey, formatTime(createdAt))
  {
    if name.Some? && name.value != "" then name.value else translate(UnnamedWalletKey, formatTime(createdAt))
  }
}
