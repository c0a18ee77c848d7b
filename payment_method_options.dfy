/**
 * The options of the payment-method picker
 * (src/components/paymentMethodSelection/usePaymentMethodOptions.tsx):
 * active methods only, default methods first.
 */
module PaymentMethodOptions {
  import opened Wrappers

  /** `details` of a payment method. */
  datatype PaymentDetails = PaymentDetails(kind: Option<string>, brand: Option<string>, last4: Option<string>)

  datatype PaymentMethodItem = PaymentMethodItem(
    id: string,
    createdAt: string,
    details: Option<PaymentDetails>,
    isDefault: bool,
    deletedAt: Option<string>)

  /** `PaymentMethodTypeEnum`, of which the picker only produces the provider kind. */
  datatype PaymentMethodType = Provider

  /** `PaymentMethodOption` without its rendered `labelNode`; `isDefault` is absent for other methods. */
  datatype PaymentMethodOption = PaymentMethodOption(
    value: string,
    caption: string,
    isDefault: Option<bool>,
    methodType: PaymentMethodType)

  /**
   * The hook's collaborators: `formatPaymentMethodDetails`, `translate`
   * with an optional `date` interpolation, and the date part of
   * `intlFormatDateTimeOrgaTZ`.
   */
  datatype LabelHelpers = LabelHelpers(
    formatDetails: PaymentDetails -> string,
    translate: (string, Option<string>) -> string,
    formatDate: string -> string)

  const CreatedOnKey: string := "text_1771854080250kv3j6oa9nxj"
  const DefaultKey: string := "text_65281f686a80b400c8e2f6d1"

  /** The details formatted, or the creation-date fallback when formatting gives nothing. */
  function BaseLabel(pm: PaymentMethodItem, h: LabelHelpers): (base: string)
    ensures var formatted := h.formatDetails(pm.details.GetOr(PaymentDetails(None, None, None)));
            base == if formatted != "" then formatted else h.translate(CreatedOnKey, Some(h.formatDate(pm.createdAt)))
  {
    var formatted := h.formatDetails(pm.details.GetOr(PaymentDetails(None, None, None)));
    if formatted != "" then formatted else h.translate(CreatedOnKey, Some(h.formatDate(pm.createdAt)))
  }

  /** `mapPaymentMethodItemToOption` */
  function ToOption(pm: PaymentMethodItem, h: LabelHelpers): (option: PaymentMethodOption)
    ensures option.value == pm.id && option.methodType == Provider
    ensures option.isDefault == (if pm.isDefault then Some(true) else None)
    ensures pm.isDefault ==> option.caption == BaseLabel(pm, h) + " (" + h.translate(DefaultKey, None) + ")"
    ensures !pm.isDefault ==> option.caption == BaseLabel(pm, h)
  {
    var base := BaseLabel(pm, h);
    var caption := if pm.isDefault then base + " (" + h.translate(DefaultKey, None) + ")" else base;
    PaymentMethodOption(pm.id, caption, if pm.isDefault then Some(true) else None, Provider)
  }

  /** `paymentMethodsList.filter((pm) => !pm.deletedAt)` */
  function Active(list: seq<PaymentMethodItem>): (active: seq<PaymentMethodItem>)
    ensures |active| <= |list|
    ensures forall pm :: pm in active <==> pm in list && !IsDeleted(pm)
  {
    if list == [] then []
    else
      var init := list[..|list| - 1];
      var last := list[|list| - 1];
      assert list == init + [last];
      Active(init) + if IsDeleted(last) then [] else [last]
  }

  predicate IsDeleted(pm: PaymentMethodItem) {
    pm.deletedAt.Some? && pm.deletedAt.value != ""
  }

  /** The `reduce`: each default option goes to the front, each other one to the back. */
  function Arrange(active: seq<PaymentMethodItem>, h: LabelHelpers): (options: seq<PaymentMethodOption>)
    ensures |options| == |active|
  {
    if active == [] then []
    else
      var acc := Arrange(active[..|active| - 1], h);
      var pm := active[|active| - 1];
      if pm.isDefault then [ToOption(pm, h)] + acc else acc + [ToOption(pm, h)]
  }

  /** `usePaymentMethodOptions(paymentMethodsList)` */
  function PaymentMethodOptions(list: Option<seq<PaymentMethodItem>>, h: LabelHelpers): (options: seq<PaymentMethodOption>)
    ensures list.None? ==> options == []
    ensures list.Some? ==> |options| == |Active(list.value)|
  {
    if list.None? then [] else Arrange(Active(list.value), h)
  }

  // ---------------------------------------------------------------------
  // The reference ordering

  function Defaults(xs: seq<PaymentMethodItem>): seq<PaymentMethodItem> {
    if xs == [] then [] else Defaults(xs[..|xs| - 1]) + if xs[|xs| - 1].isDefault then [xs[|xs| - 1]] else []
  }

  function Others(xs: seq<PaymentMethodItem>): seq<PaymentMethodItem> {
    if xs == [] then [] else Others(xs[..|xs| - 1]) + if xs[|xs| - 1].isDefault then [] else [xs[|xs| - 1]]
  }

  function Reverse<T>(xs: seq<T>): seq<T> {
    if xs == [] then [] else [xs[|xs| - 1]] + Reverse(xs[..|xs| - 1])
  }

  function ToOptions(xs: seq<PaymentMethodItem>, h: LabelHelpers): (options: seq<PaymentMethodOption>)
    ensures |options| == |xs|
    ensures forall i :: 0 <= i < |xs| ==> options[i] == ToOption(xs[i], h)
  {
    seq(|xs|, i requires 0 <= i < |xs| => ToOption(xs[i], h))
  }

  /**
   * The options are the default methods in reverse input order, followed
   * by the other methods in input order.
   */
  lemma {:induction false} ArrangeIsDefaultsThenOthers(xs: seq<PaymentMethodItem>, h: LabelHelpers)
    ensures Arrange(xs, h) == ToOptions(Reverse(Defaults(xs)), h) + ToOptions(Others(xs), h)
  {
    if xs != [] {
      var init := xs[..|xs| - 1];
      var pm := xs[|xs| - 1];
      var option := ToOption(pm, h);
      ArrangeIsDefaultsThenOthers(init, h);
      var front := ToOptions(Reverse(Defaults(init)), h);
      var back := ToOptions(Others(init), h);
      assert Arrange(init, h) == front + back;
      if pm.isDefault {
        assert Arrange(xs, h) == [option] + Arrange(init, h);
        assert Others(xs) == Others(init);
        assert Defaults(xs) == Defaults(init) + [pm];
        assert Reverse(Defaults(xs)) == [pm] + Reverse(Defaults(init)) by {
          assert (Defaults(init) + [pm])[..|Defaults(init) + [pm]| - 1] == Defaults(init);
        }
        ToOptionsAppend([pm], Reverse(Defaults(init)), h);
        assert ToOptions([pm], h) == [option];
      } else {
        assert Arrange(xs, h) == Arrange(init, h) + [option];
        assert Defaults(xs) == Defaults(init);
        assert Others(xs) == Others(init) + [pm];
        ToOptionsAppend(Others(init), [pm], h);
        assert ToOptions([pm], h) == [option];
      }
    }
  }

  lemma ToOptionsAppend(a: seq<PaymentMethodItem>, b: seq<PaymentMethodItem>, h: LabelHelpers)
    ensures ToOptions(a + b, h) == ToOptions(a, h) + ToOptions(b, h)
  {
  }

  lemma {:induction false} DefaultsAreDefault(xs: seq<PaymentMethodItem>)
    ensures forall pm :: pm in Defaults(xs) ==> pm.isDefault
    ensures forall pm :: pm in Others(xs) ==> !pm.isDefault
  {
    if xs != [] {
      DefaultsAreDefault(xs[..|xs| - 1]);
    }
  }

  lemma {:induction false} ReverseKeepsElements<T>(xs: seq<T>)
    ensures |Reverse(xs)| == |xs|
    ensures forall x :: x in Reverse(xs) <==> x in xs
  {
    if xs != [] {
      ReverseKeepsElements(xs[..|xs| - 1]);
      assert xs == xs[..|xs| - 1] + [xs[|xs| - 1]];
    }
  }

  /**
   * Every option for a default method comes before every option for a
   * non-default one.
   */
  lemma DefaultsComeFirst(list: seq<PaymentMethodItem>, h: LabelHelpers, i: nat, j: nat)
    requires i < j < |PaymentMethodOptions(Some(list), h)|
    requires PaymentMethodOptions(Some(list), h)[j].isDefault.Some?
    ensures PaymentMethodOptions(Some(list), h)[i].isDefault == Some(true)
  {
    var active := Active(list);
    var defaults := Reverse(Defaults(active));
    ArrangeIsDefaultsThenOthers(active, h);
    DefaultsAreDefault(active);
    ReverseKeepsElements(Defaults(active));
    var options := PaymentMethodOptions(Some(list), h);
    assert options == ToOptions(defaults, h) + ToOptions(Others(active), h);
    forall k | |defaults| <= k < |options| ensures options[k].isDefault.None? {
      assert Others(active)[k - |defaults|] in Others(active);
    }
    assert defaults[i] in Defaults(active);
  }

  /** Options for deleted methods never appear. */
  lemma DeletedMethodsExcluded(list: seq<PaymentMethodItem>, h: LabelHelpers)
    ensures forall o :: o in PaymentMethodOptions(Some(list), h) ==> exists q :: q in list && !IsDeleted(q) && o == ToOption(q, h)
  {
    var active := Active(list);
    ArrangeIsDefaultsThenOthers(active, h);
    DefaultsKeepElements(active);
    ReverseKeepsElements(Defaults(active));
    forall o | o in PaymentMethodOptions(Some(list), h)
      ensures exists q :: q in list && !IsDeleted(q) && o == ToOption(q, h)
    {
      var left := ToOptions(Reverse(Defaults(active)), h);
      if o in left {
        var k :| 0 <= k < |left| && left[k] == o;
        assert Reverse(Defaults(active))[k] in Reverse(Defaults(active));
      } else {
        var right := ToOptions(Others(active), h);
        assert o in right;
        var k :| 0 <= k < |right| && right[k] == o;
        assert Others(active)[k] in Others(active);
      }
    }
  }

  lemma {:induction false} DefaultsKeepElements(xs: seq<PaymentMethodItem>)
    ensures forall pm :: pm in Defaults(xs) ==> pm in xs
    ensures forall pm :: pm in Others(xs) ==> pm in xs
  {
    if xs != [] {
      DefaultsKeepElements(xs[..|xs| - 1]);
      assert xs == xs[..|xs| - 1] + [xs[|xs| - 1]];
    }
  }
}
