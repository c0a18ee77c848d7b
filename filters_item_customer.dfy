/**
 * The customer picker of the filter bar
 * (src/components/designSystem/Filters/filtersElements/FiltersItemCustomer.tsx):
 * each loaded customer becomes a combobox option whose value is written to
 * the URL as `externalId<sep>displayName` and read back by the
 * `customerExternalId` parser and chip.
 */
module FiltersItemCustomer {
  import opened Wrappers
  import opened Strings
  import Filters

  /** A customer's `displayName`, which the query may leave undefined or null. */
  datatype DisplayName = Undefined | Null | Name(text: string)

  datatype Customer = Customer(id: string, displayName: DisplayName, externalId: string, deletedAt: Option<string>)

  datatype ComboboxItem = ComboboxItem(caption: string, value: string)

  /** The translation key of the "deleted" mark. */
  const DeletedKey: string := "text_1743158702704o1juwxmr4ab"

  /** `${customerName}` */
  function NameText(n: DisplayName): string {
    match n
    case Undefined => "undefined"
    case Null => "null"
    case Name(s) => s
  }

  /** `customerName || externalId || ''`, plus ` (deleted)` for a deleted customer. */
  function CustomerLabel(c: Customer, translate: string -> string): string {
    var shown := if c.displayName.Name? && c.displayName.text != "" then c.displayName.text else c.externalId;
    shown + (if c.deletedAt.Some? && c.deletedAt.value != "" then " (" + translate(DeletedKey) + ")" else "")
  }

  /** `${externalId}${filterDataInlineSeparator}${customerName}` */
  function CustomerValue(c: Customer, sep: string): string {
    c.externalId + sep + NameText(c.displayName)
  }

  function CustomerOption(c: Customer, sep: string, translate: string -> string): ComboboxItem {
    ComboboxItem(CustomerLabel(c, translate), CustomerValue(c, sep))
  }

  /** `comboboxCustomersData`: nothing before the customers are loaded, then one option per customer, in order. */
  function ComboboxCustomersData(collection: Option<seq<Customer>>, sep: string, translate: string -> string)
    : (items: seq<ComboboxItem>)
    ensures collection.None? ==> items == []
    ensures collection.Some? ==> |items| == |collection.value|
    ensures collection.Some? ==> forall i :: 0 <= i < |items| ==> items[i] == CustomerOption(collection.value[i], sep, translate)
  {
    if collection.None? then []
    else Map(collection.value, (c: Customer) => CustomerOption(c, sep, translate))
  }

  /**
   * The label shows the display name, or the external id when the name is
   * empty or missing, and is marked deleted exactly for deleted customers.
   */
  lemma LabelNamesTheCustomer(c: Customer, translate: string -> string)
    ensures var mark := " (" + translate(DeletedKey) + ")";
            var caption := CustomerLabel(c, translate);
            && (c.displayName.Name? && c.displayName.text != "" ==> StartsWith(caption, c.displayName.text))
            && (!(c.displayName.Name? && c.displayName.text != "") ==> StartsWith(caption, c.externalId))
            && (c.deletedAt.Some? && c.deletedAt.value != "" <==> |caption| == |CustomerLabel(c.(deletedAt := None), translate)| + |mark|)
  {
  }

  /**
   * Round trip: when the separator does not occur inside the external id or
   * the name text, the `customerExternalId` parser recovers the external id,
   * and the chip shows the name text, or the external id when it is empty.
   * A customer without a display name is shown as "undefined" or "null".
   */
  lemma {:induction false} ValueRoundTrip(c: Customer, sep: string, h: Filters.DisplayHelpers)
    requires sep != ""
    requires forall i: nat :: i < |c.externalId| ==> !OccursAt(CustomerValue(c, sep), sep, i)
    requires forall i: nat :: !OccursAt(NameText(c.displayName), sep, i)
    ensures Filters.Interpret("customerExternalId", CustomerValue(c, sep), sep)
            == Filters.Scalar(Filters.Str(c.externalId))
    ensures Filters.FormatActiveFilterValueDisplay("customerExternalId", CustomerValue(c, sep), sep, h)
            == (if NameText(c.displayName) != "" then NameText(c.displayName) else c.externalId)
    ensures c.displayName.Undefined? ==>
              Filters.FormatActiveFilterValueDisplay("customerExternalId", CustomerValue(c, sep), sep, h) == "undefined"
  {
    var name := NameText(c.displayName);
    assert CustomerValue(c, sep) == c.externalId + sep + name;
    SplitFirstPiece(c.externalId, sep, name);
    SplitWithoutSeparator(name, sep);
    var parts := Split(CustomerValue(c, sep), sep);
    assert parts == [parts[0]] + parts[1..];
    assert parts == [c.externalId, name];
    assert Filters.ParserFor("customerExternalId") == Some(Filters.BeforeSeparator);
    assert Filters.ChipKindOf("customerExternalId") == Filters.ExternalIdChip;
  }
}
