/**
 * The filter codec of the list and analytics screens
 * (src/components/designSystem/Filters/utils.ts): URL query entries are
 * turned into GraphQL query variables, shown as chips, checked by the quick
 * filter predicates, and written back to the URL.
 *
 * Filter keys are the `AvailableFiltersEnum` values, written as the
 * member names. The inline separator joining an id to its display name is
 * a parameter `sep`, as are each screen's prefix and list of available
 * filters.
 */
module Filters {
  import opened Wrappers
  import opened Strings
  import opened Records
  import opened SearchParams

  /** `keyWithPrefix`: an absent prefix is the empty string. */
  function KeyWithPrefix(key: string, prefix: string): string {
    if prefix != "" then prefix + "_" + key else key
  }

  /** The filter key `formatFiltersForQuery` reads from a URL name: the first `<prefix>_` removed. */
  function StripPrefix(name: string, prefix: string): string {
    if prefix != "" then ReplaceFirst(name, prefix + "_", "") else name
  }

  /** Reading a name written with `KeyWithPrefix` gives the key back. */
  lemma StripPrefixUndoesKeyWithPrefix(key: string, prefix: string)
    ensures StripPrefix(KeyWithPrefix(key, prefix), prefix) == key
  {
    if prefix != "" {
      assert prefix + "_" + key == (prefix + "_") + key;
      ReplaceFirstAtStart(prefix + "_", key);
    }
  }

  /** Two keys under one prefix never share a URL name. */
  lemma KeyWithPrefixInjective(k1: string, k2: string, prefix: string)
    ensures KeyWithPrefix(k1, prefix) == KeyWithPrefix(k2, prefix) ==> k1 == k2
  {
    StripPrefixUndoesKeyWithPrefix(k1, prefix);
    StripPrefixUndoesKeyWithPrefix(k2, prefix);
  }

  // ---------------------------------------------------------------------
  // Amounts

  /** `AmountFilterInterval`. */
  const IsEqualTo: string := "isEqualTo"
  const IsBetween: string := "isBetween"
  const IsUpTo: string := "isUpTo"
  const IsAtLeast: string := "isAtLeast"

  /** `null`, or `Number(text)` of a non-empty component, kept as its text. */
  datatype AmountBound = NoBound | Bound(number: string)

  datatype AmountRange = AmountRange(amountFrom: AmountBound, amountTo: AmountBound)

  /** `component ? Number(component) : null` */
  function BoundOf(component: Option<string>): (b: AmountBound)
    ensures b.Bound? <==> component.Some? && component.value != ""
    ensures b.Bound? ==> b.number == component.value
  {
    if component.Some? && component.value != "" then Bound(component.value) else NoBound
  }

  /** `parseAmountValue`: the value is `interval,from,to`. */
  function ParseAmountValue(value: string): AmountRange {
    var parts := Split(value, ",");
    var interval := parts[0];
    var fromAmount := BoundOf(At(parts, 1));
    var toAmount := BoundOf(At(parts, 2));
    if interval == IsEqualTo then AmountRange(fromAmount, fromAmount)
    else if interval == IsBetween then AmountRange(fromAmount, toAmount)
    else if interval == IsUpTo then AmountRange(NoBound, toAmount)
    else if interval == IsAtLeast then AmountRange(fromAmount, NoBound)
    else AmountRange(NoBound, NoBound)
  }

  /** The bound an amount component stands for: an empty one is `null`. */
  function BoundText(s: string): AmountBound {
    if s == "" then NoBound else Bound(s)
  }

  /** Each interval of `interval,from,to` selects its bounds; an unknown interval selects none. */
  lemma AmountIntervals(interval: string, from: string, to: string)
    requires ',' !in interval && ',' !in from && ',' !in to
    ensures var r := ParseAmountValue(Join([interval, from, to], ","));
            && (interval == IsEqualTo ==> r == AmountRange(BoundText(from), BoundText(from)))
            && (interval == IsBetween ==> r == AmountRange(BoundText(from), BoundText(to)))
            && (interval == IsUpTo ==> r == AmountRange(NoBound, BoundText(to)))
            && (interval == IsAtLeast ==> r == AmountRange(BoundText(from), NoBound))
            && (interval != IsEqualTo && interval != IsBetween && interval != IsUpTo && interval != IsAtLeast
                ==> r == AmountRange(NoBound, NoBound))
  {
    SplitJoinChar([interval, from, to], ',');
  }

  // ---------------------------------------------------------------------
  // Per-filter parsers (`FILTER_VALUE_MAP`)

  /** A GraphQL variable value. `Num(text)` stands for `Number(text)`. */
  datatype QueryValue = Str(text: string) | Strs(items: seq<string>) | Bool(flag: bool) | Num(number: string) | Null | Undefined

  /** JavaScript truthiness; every number is taken as truthy (numbers only arise as amount bounds). */
  predicate Truthy(v: QueryValue) {
    match v
    case Str(s) => s != ""
    case Strs(_) => true
    case Bool(b) => b
    case Num(_) => true
    case Null => false
    case Undefined => false
  }

  /** What a parser returns: a single value, or an object whose fields are spread into the query. */
  datatype Parsed = Scalar(value: QueryValue) | Fields(fields: Record<QueryValue>)

  datatype ParserKind =
    | CommaList                 // value.split(',')
    | TrimmedCommaList          // value.split(',').map(v => v.trim())
    | IdsBeforeSeparator        // value.split(',').map(v => v.split(sep)[0])
    | Verbatim                  // value
    | BeforeSeparator           // value.split(sep)[0]
    | DateRange(fromField: string, toField: string)
    | TrueFlag                  // value === 'true'
    | AmountInterval            // parseAmountValue

  const CommaListFilters: set<string> := {
    "activitySources", "activityTypes", "creditNoteCreditStatus", "creditNoteReason",
    "creditNoteRefundStatus", "httpMethods", "httpStatuses", "invoiceType", "paymentStatus",
    "resourceTypes", "status", "webhookStatus"}
  const TrimmedListFilters: set<string> := {
    "activityIds", "requestPaths", "resourceIds", "userEmails"}
  const IdListFilters: set<string> := {
    "apiKeyIds", "billingEntityIds"}
  const VerbatimFilters: set<string> := {
    "billingEntityCode", "country", "currency", "customerType", "customerAccountType",
    "invoiceNumber", "planCode", "timeGranularity", "period"}
  const ExternalIdFilters: set<string> := {
    "customerExternalId", "subscriptionExternalId"}
  const BooleanFilters: set<string> := {
    "partiallyPaid", "paymentDisputeLost", "paymentOverdue", "selfBilled"}

  /** `FiltersItemDates`: the filters picked with a date-range control. */
  const FiltersItemDates: seq<string> := ["date", "issuingDate", "loggedDate"]

  /** `FILTER_VALUE_MAP[key]`, `None` for a key without a parser. */
  function ParserFor(key: string): Option<ParserKind> {
    if key in CommaListFilters then Some(CommaList)
    else if key in TrimmedListFilters then Some(TrimmedCommaList)
    else if key in IdListFilters then Some(IdsBeforeSeparator)
    else if key in VerbatimFilters then Some(Verbatim)
    else if key in ExternalIdFilters then Some(BeforeSeparator)
    else if key in BooleanFilters then Some(TrueFlag)
    else if key == "amount" then Some(AmountInterval)
    else if key == "date" then Some(DateRange("fromDate", "toDate"))
    else if key == "issuingDate" then Some(DateRange("issuingDateFrom", "issuingDateTo"))
    else if key == "loggedDate" then Some(DateRange("fromDate", "toDate"))
    else None
  }

  /** The date filters are exactly the keys parsed into a `from`/`to` pair of fields. */
  lemma DateFiltersAreTheRangeParsers(key: string)
    ensures key in FiltersItemDates <==> ParserFor(key).Some? && ParserFor(key).value.DateRange?
  {
    if key in FiltersItemDates {
      assert key == "date" || key == "issuingDate" || key == "loggedDate";
    }
  }

  /** `x` where `x` may be `undefined`. */
  function OptionalValue(x: Option<string>): QueryValue {
    match x
    case Some(s) => Str(s)
    case None => Undefined
  }

  function BoundValue(b: AmountBound): QueryValue {
    match b
    case NoBound => Null
    case Bound(n) => Num(n)
  }

  function Parse(kind: ParserKind, raw: string, sep: string): (p: Parsed)
    requires sep != ""
    ensures p.Fields? <==> kind.DateRange? || kind.AmountInterval?
  {
    match kind
    case CommaList => Scalar(Strs(Split(raw, ",")))
    case TrimmedCommaList => Scalar(Strs(Map(Split(raw, ","), Trim)))
    case IdsBeforeSeparator => Scalar(Strs(Map(Split(raw, ","), (v: string) => Split(v, sep)[0])))
    case Verbatim => Scalar(Str(raw))
    case BeforeSeparator => Scalar(Str(Split(raw, sep)[0]))
    case DateRange(fromField, toField) =>
      var parts := Split(raw, ",");
      Fields([(fromField, Str(parts[0])), (toField, OptionalValue(At(parts, 1)))])
    case TrueFlag => Scalar(Bool(raw == "true"))
    case AmountInterval =>
      var r := ParseAmountValue(raw);
      Fields([("amountFrom", BoundValue(r.amountFrom)), ("amountTo", BoundValue(r.amountTo))])
  }

  /** `filterFunction ? filterFunction(current[1]) : current[1]` */
  function Interpret(key: string, raw: string, sep: string): Parsed
    requires sep != ""
  {
    match ParserFor(key)
    case None => Scalar(Str(raw))
    case Some(kind) => Parse(kind, raw, sep)
  }

  /** A filter's value is spread as an object exactly for the amount and the date filters. */
  lemma InterpretFieldsIffDateOrAmount(key: string, raw: string, sep: string)
    requires sep != ""
    ensures Interpret(key, raw, sep).Fields? <==> key == "amount" || key in FiltersItemDates
  {
    DateFiltersAreTheRangeParsers(key);
    if key == "amount" {
      AmountParser();
    } else if ParserFor(key).Some? {
      assert ParserFor(key).value != AmountInterval;
    }
  }

  lemma AmountParser()
    ensures ParserFor("amount") == Some(AmountInterval)
  {
  }

  // ---------------------------------------------------------------------
  // formatFiltersForQuery

  /** `keyMap?.[key] || key` */
  function TargetName(keyMap: map<string, string>, key: string): string {
    if key in keyMap && keyMap[key] != "" then keyMap[key] else key
  }

  /** One step of the reduce over the URL's properties. */
  function Step(acc: Record<QueryValue>, entry: (string, string), keyMap: map<string, string>,
                availableFilters: seq<string>, prefix: string, sep: string): Record<QueryValue>
    requires sep != ""
  {
    var key := StripPrefix(entry.0, prefix);
    if key !in availableFilters then acc
    else match Interpret(key, entry.1, sep)
      case Fields(fields) => Spread(acc, fields)
      case Scalar(value) => Put(acc, TargetName(keyMap, key), value)
  }

  /** The reduce, left to right over `filtersSetInUrl`. */
  function Accumulate(props: Record<string>, keyMap: map<string, string>, availableFilters: seq<string>,
                      prefix: string, sep: string): Record<QueryValue>
    requires sep != ""
  {
    if props == [] then []
    else Step(Accumulate(props[..|props| - 1], keyMap, availableFilters, prefix, sep),
              props[|props| - 1], keyMap, availableFilters, prefix, sep)
  }

  /** `formatFiltersForQuery({searchParams, keyMap, availableFilters, filtersNamePrefix})` */
  function FormatFiltersForQuery(entries: seq<Entry>, keyMap: map<string, string>, availableFilters: seq<string>,
                                 prefix: string, sep: string): Record<QueryValue>
    requires sep != ""
  {
    Accumulate(FromEntries(entries), keyMap, availableFilters, prefix, sep)
  }

  /** A URL property whose key, once the prefix is removed, is an available filter. */
  predicate IsAvailable(name: string, availableFilters: seq<string>, prefix: string) {
    StripPrefix(name, prefix) in availableFilters
  }

  /** The properties of an available filter, in order. */
  function AvailableProps(props: Record<string>, availableFilters: seq<string>, prefix: string): (kept: Record<string>)
    ensures forall e :: e in kept <==> e in props && IsAvailable(e.0, availableFilters, prefix)
  {
    if props == [] then []
    else
      var kept := AvailableProps(props[..|props| - 1], availableFilters, prefix);
      var last := props[|props| - 1];
      assert props == props[..|props| - 1] + [last];
      if IsAvailable(last.0, availableFilters, prefix) then kept + [last] else kept
  }

  /** Properties that are not available filters are ignored: the reduce sees only the available ones. */
  lemma {:induction false} AccumulateKeepsOnlyAvailable(props: Record<string>, keyMap: map<string, string>,
                                                        availableFilters: seq<string>, prefix: string, sep: string)
    requires sep != ""
    ensures Accumulate(props, keyMap, availableFilters, prefix, sep)
            == Accumulate(AvailableProps(props, availableFilters, prefix), keyMap, availableFilters, prefix, sep)
  {
    if props != [] {
      var init := props[..|props| - 1];
      var last := props[|props| - 1];
      var kept := AvailableProps(init, availableFilters, prefix);
      AccumulateKeepsOnlyAvailable(init, keyMap, availableFilters, prefix, sep);
      if IsAvailable(last.0, availableFilters, prefix) {
        assert (kept + [last])[..|kept + [last]| - 1] == kept;
      }
    }
  }

  /** What one URL property writes to the query field `t`, if anything. */
  function WriteOf(entry: (string, string), t: string, keyMap: map<string, string>,
                   availableFilters: seq<string>, prefix: string, sep: string): Option<QueryValue>
    requires sep != ""
  {
    var key := StripPrefix(entry.0, prefix);
    if key !in availableFilters then None
    else match Interpret(key, entry.1, sep)
      case Fields(fields) => LastValue(fields, t)
      case Scalar(value) => if TargetName(keyMap, key) == t then Some(value) else None
  }

  /** What the last property writing the query field `t` writes there; nothing when none does. */
  function LastWrite(props: Record<string>, t: string, keyMap: map<string, string>,
                     availableFilters: seq<string>, prefix: string, sep: string): (w: Option<QueryValue>)
    requires sep != ""
    ensures w.None? <==> forall j :: 0 <= j < |props| ==> WriteOf(props[j], t, keyMap, availableFilters, prefix, sep).None?
  {
    if props == [] then None
    else
      var init := props[..|props| - 1];
      var w := WriteOf(props[|props| - 1], t, keyMap, availableFilters, prefix, sep);
      assert forall j :: 0 <= j < |init| ==> init[j] == props[j];
      if w.Some? then w else LastWrite(init, t, keyMap, availableFilters, prefix, sep)
  }

  /** One step of the reduce writes what the property writes, and leaves every other field as it was. */
  lemma StepWrites(acc: Record<QueryValue>, entry: (string, string), t: string, keyMap: map<string, string>,
                   availableFilters: seq<string>, prefix: string, sep: string)
    requires sep != ""
    ensures Lookup(Step(acc, entry, keyMap, availableFilters, prefix, sep), t)
            == match WriteOf(entry, t, keyMap, availableFilters, prefix, sep)
               case Some(v) => Some(v)
               case None => Lookup(acc, t)
  {
    var key := StripPrefix(entry.0, prefix);
    if key in availableFilters {
      match Interpret(key, entry.1, sep)
      case Fields(fields) =>
        LastValueOfKeys(fields, t);
      case Scalar(value) =>
        LookupPut(acc, TargetName(keyMap, key), value, t);
    }
  }

  /** A query field holds what the last property writing it wrote, and is absent when none did. */
  lemma {:induction false} LookupAccumulate(props: Record<string>, t: string, keyMap: map<string, string>,
                                            availableFilters: seq<string>, prefix: string, sep: string)
    requires sep != ""
    ensures Lookup(Accumulate(props, keyMap, availableFilters, prefix, sep), t)
            == LastWrite(props, t, keyMap, availableFilters, prefix, sep)
  {
    if props != [] {
      var init := props[..|props| - 1];
      LookupAccumulate(init, t, keyMap, availableFilters, prefix, sep);
      StepWrites(Accumulate(init, keyMap, availableFilters, prefix, sep), props[|props| - 1], t,
                 keyMap, availableFilters, prefix, sep);
    }
  }

  /** The last write among properties where only the `i`-th writes `t` is that property's. */
  lemma {:induction false} LastWriteOfSoleWriter(props: Record<string>, i: nat, t: string, keyMap: map<string, string>,
                                                 availableFilters: seq<string>, prefix: string, sep: string)
    requires sep != "" && i < |props|
    requires forall j :: 0 <= j < |props| && j != i ==> WriteOf(props[j], t, keyMap, availableFilters, prefix, sep).None?
    ensures LastWrite(props, t, keyMap, availableFilters, prefix, sep) == WriteOf(props[i], t, keyMap, availableFilters, prefix, sep)
  {
    var init := props[..|props| - 1];
    forall j | 0 <= j < |init| && j != i
      ensures WriteOf(init[j], t, keyMap, availableFilters, prefix, sep).None?
    {
      assert init[j] == props[j];
    }
    if i < |props| - 1 {
      assert WriteOf(props[|props| - 1], t, keyMap, availableFilters, prefix, sep).None?;
      assert init[i] == props[i];
      LastWriteOfSoleWriter(init, i, t, keyMap, availableFilters, prefix, sep);
    } else {
      assert LastWrite(init, t, keyMap, availableFilters, prefix, sep).None?;
    }
  }

  /**
   * The query field `t`, when no URL name other than `name` writes it: what
   * the last value of `name` in the URL writes there, or nothing when the
   * URL lacks `name`.
   */
  lemma QueryFieldOfSoleName(entries: seq<Entry>, name: string, t: string, keyMap: map<string, string>,
                             availableFilters: seq<string>, prefix: string, sep: string)
    requires sep != ""
    requires forall e :: e in entries && e.0 != name ==> WriteOf(e, t, keyMap, availableFilters, prefix, sep).None?
    ensures Lookup(FormatFiltersForQuery(entries, keyMap, availableFilters, prefix, sep), t)
            == match LastValue(entries, name)
               case None => None
               case Some(raw) => WriteOf((name, raw), t, keyMap, availableFilters, prefix, sep)
  {
    var props := FromEntries(entries);
    LookupAccumulate(props, t, keyMap, availableFilters, prefix, sep);
    OtherPropsWriteNothing(entries, props, name, t, keyMap, availableFilters, prefix, sep);
    LastWriteOfNamedProp(props, name, t, keyMap, availableFilters, prefix, sep);
  }

  /** Among properties with distinct keys where only `name` may write `t`, the last write is that property's. */
  lemma LastWriteOfNamedProp(props: Record<string>, name: string, t: string, keyMap: map<string, string>,
                             availableFilters: seq<string>, prefix: string, sep: string)
    requires sep != "" && KeysDistinct(props)
    requires forall j :: 0 <= j < |props| && props[j].0 != name
                         ==> WriteOf(props[j], t, keyMap, availableFilters, prefix, sep).None?
    ensures LastWrite(props, t, keyMap, availableFilters, prefix, sep)
            == match Lookup(props, name)
               case None => None
               case Some(raw) => WriteOf((name, raw), t, keyMap, availableFilters, prefix, sep)
  {
    if Lookup(props, name).Some? {
      var i :| 0 <= i < |props| && Keys(props)[i] == name;
      LookupDistinct(props, i);
      LastWriteOfSoleWriter(props, i, t, keyMap, availableFilters, prefix, sep);
    } else {
      assert forall j :: 0 <= j < |props| ==> props[j].0 == Keys(props)[j] != name;
    }
  }

  lemma OtherPropsWriteNothing(entries: seq<Entry>, props: Record<string>, name: string, t: string,
                               keyMap: map<string, string>, availableFilters: seq<string>, prefix: string, sep: string)
    requires sep != "" && props == FromEntries(entries)
    requires forall e :: e in entries && e.0 != name ==> WriteOf(e, t, keyMap, availableFilters, prefix, sep).None?
    ensures forall j :: 0 <= j < |props| && props[j].0 != name
                        ==> WriteOf(props[j], t, keyMap, availableFilters, prefix, sep).None?
  {
    forall j | 0 <= j < |props| && props[j].0 != name
      ensures WriteOf(props[j], t, keyMap, availableFilters, prefix, sep).None?
    {
      FromEntriesPropsAreEntries(entries, j);
    }
  }

  /**
   * A filter whose value parses to a single value is sent under
   * `keyMap[key] || key`, holding its last value in the URL parsed, unless
   * another URL name writes that field too.
   */
  lemma ScalarFilterReachesQuery(entries: seq<Entry>, key: string, keyMap: map<string, string>,
                                 availableFilters: seq<string>, prefix: string, sep: string)
    requires sep != "" && key in availableFilters
    requires LastValue(entries, KeyWithPrefix(key, prefix)).Some?
    requires Interpret(key, LastValue(entries, KeyWithPrefix(key, prefix)).value, sep).Scalar?
    requires forall e :: e in entries && e.0 != KeyWithPrefix(key, prefix)
                         ==> WriteOf(e, TargetName(keyMap, key), keyMap, availableFilters, prefix, sep).None?
    ensures Lookup(FormatFiltersForQuery(entries, keyMap, availableFilters, prefix, sep), TargetName(keyMap, key))
            == Some(Interpret(key, LastValue(entries, KeyWithPrefix(key, prefix)).value, sep).value)
  {
    StripPrefixUndoesKeyWithPrefix(key, prefix);
    QueryFieldOfSoleName(entries, KeyWithPrefix(key, prefix), TargetName(keyMap, key), keyMap, availableFilters, prefix, sep);
  }

  /**
   * A filter whose value parses to an object has both of its fields sent,
   * whatever the key map says, unless another URL name writes them too.
   */
  lemma ObjectFilterReachesQuery(entries: seq<Entry>, key: string, keyMap: map<string, string>,
                                 availableFilters: seq<string>, prefix: string, sep: string)
    requires sep != "" && key in availableFilters
    requires LastValue(entries, KeyWithPrefix(key, prefix)).Some?
    requires Interpret(key, LastValue(entries, KeyWithPrefix(key, prefix)).value, sep).Fields?
    requires var fields := Interpret(key, LastValue(entries, KeyWithPrefix(key, prefix)).value, sep).fields;
             forall e, f :: e in entries && e.0 != KeyWithPrefix(key, prefix) && f in Keys(fields)
                            ==> WriteOf(e, f, keyMap, availableFilters, prefix, sep).None?
    ensures var fields := Interpret(key, LastValue(entries, KeyWithPrefix(key, prefix)).value, sep).fields;
            var query := FormatFiltersForQuery(entries, keyMap, availableFilters, prefix, sep);
            && |fields| == 2
            && Lookup(query, fields[0].0) == Some(fields[0].1)
            && Lookup(query, fields[1].0) == Some(fields[1].1)
  {
    var raw := LastValue(entries, KeyWithPrefix(key, prefix)).value;
    var fields := Interpret(key, raw, sep).fields;
    ObjectParsesHaveTwoFields(key, raw, sep);
    TwoFieldsLastValues(fields);
    assert Keys(fields)[0] == fields[0].0 && Keys(fields)[1] == fields[1].0;
    ObjectFieldReachesQuery(entries, key, fields[0].0, keyMap, availableFilters, prefix, sep);
    ObjectFieldReachesQuery(entries, key, fields[1].0, keyMap, availableFilters, prefix, sep);
  }

  /** Each field of an object parse holds its last value in the parse. */
  lemma TwoFieldsLastValues(fields: Record<QueryValue>)
    requires |fields| == 2 && fields[0].0 != fields[1].0
    ensures LastValue(fields, fields[0].0) == Some(fields[0].1)
    ensures LastValue(fields, fields[1].0) == Some(fields[1].1)
  {
    assert fields[..1] == [fields[0]];
  }

  /** One field of an object parse reaches the query when no other URL name writes it. */
  lemma ObjectFieldReachesQuery(entries: seq<Entry>, key: string, field: string, keyMap: map<string, string>,
                                availableFilters: seq<string>, prefix: string, sep: string)
    requires sep != "" && key in availableFilters
    requires LastValue(entries, KeyWithPrefix(key, prefix)).Some?
    requires Interpret(key, LastValue(entries, KeyWithPrefix(key, prefix)).value, sep).Fields?
    requires forall e :: e in entries && e.0 != KeyWithPrefix(key, prefix)
                         ==> WriteOf(e, field, keyMap, availableFilters, prefix, sep).None?
    ensures Lookup(FormatFiltersForQuery(entries, keyMap, availableFilters, prefix, sep), field)
            == LastValue(Interpret(key, LastValue(entries, KeyWithPrefix(key, prefix)).value, sep).fields, field)
  {
    StripPrefixUndoesKeyWithPrefix(key, prefix);
    QueryFieldOfSoleName(entries, KeyWithPrefix(key, prefix), field, keyMap, availableFilters, prefix, sep);
  }

  /** The reduce gives the empty object exactly when no property is an available filter. */
  lemma AccumulateEmptyIffNoneAvailable(props: Record<string>, keyMap: map<string, string>,
                                        availableFilters: seq<string>, prefix: string, sep: string)
    requires sep != ""
    ensures Accumulate(props, keyMap, availableFilters, prefix, sep) == []
            <==> forall i :: 0 <= i < |props| ==> !IsAvailable(props[i].0, availableFilters, prefix)
  {
    AccumulateKeepsOnlyAvailable(props, keyMap, availableFilters, prefix, sep);
    var kept := AvailableProps(props, availableFilters, prefix);
    if exists i :: 0 <= i < |props| && IsAvailable(props[i].0, availableFilters, prefix) {
      var i :| 0 <= i < |props| && IsAvailable(props[i].0, availableFilters, prefix);
      var key := StripPrefix(props[i].0, prefix);
      var t := match Interpret(key, props[i].1, sep)
               case Scalar(_) => TargetName(keyMap, key)
               case Fields(fields) => if fields == [] then "" else fields[0].0;
      if Interpret(key, props[i].1, sep).Fields? {
        ObjectParsesHaveTwoFields(key, props[i].1, sep);
        LastValueOfKeys(Interpret(key, props[i].1, sep).fields, t);
      }
      assert WriteOf(props[i], t, keyMap, availableFilters, prefix, sep).Some?;
      LookupAccumulate(props, t, keyMap, availableFilters, prefix, sep);
    }
  }

  /** The query is empty exactly when no URL name, once the prefix is removed, is an available filter. */
  lemma NoAvailableFilterGivesEmptyQuery(entries: seq<Entry>, keyMap: map<string, string>,
                                         availableFilters: seq<string>, prefix: string, sep: string)
    requires sep != ""
    ensures FormatFiltersForQuery(entries, keyMap, availableFilters, prefix, sep) == []
            <==> forall i :: 0 <= i < |entries| ==> !IsAvailable(entries[i].0, availableFilters, prefix)
  {
    var props := FromEntries(entries);
    AccumulateEmptyIffNoneAvailable(props, keyMap, availableFilters, prefix, sep);
    forall i | 0 <= i < |props| ensures exists j :: 0 <= j < |entries| && entries[j].0 == props[i].0 {
      assert Keys(props)[i] == props[i].0;
      FirstOccurrencesAreNames(entries, props[i].0);
    }
    forall i | 0 <= i < |entries| ensures exists j :: 0 <= j < |props| && props[j].0 == entries[i].0 {
      NamesAreFirstOccurrences(entries, i);
      var j :| 0 <= j < |props| && Keys(props)[j] == entries[i].0;
    }
  }

  /** The query built from a single URL entry written for `key`. */
  function SingleFilterQuery(key: string, raw: string, keyMap: map<string, string>,
                             availableFilters: seq<string>, prefix: string, sep: string): Record<QueryValue>
    requires sep != ""
  {
    FormatFiltersForQuery([(KeyWithPrefix(key, prefix), raw)], keyMap, availableFilters, prefix, sep)
  }

  lemma SingleEntryProps(name: string, raw: string)
    ensures FromEntries([(name, raw)]) == [(name, raw)]
  {
    assert [(name, raw)][..0] == [];
  }

  /** An available filter with a single value is stored under `keyMap[key] || key`. */
  lemma SingleScalarFilter(key: string, raw: string, keyMap: map<string, string>,
                           availableFilters: seq<string>, prefix: string, sep: string)
    requires sep != ""
    requires key in availableFilters
    requires Interpret(key, raw, sep).Scalar?
    ensures SingleFilterQuery(key, raw, keyMap, availableFilters, prefix, sep)
            == [(TargetName(keyMap, key), Interpret(key, raw, sep).value)]
  {
    var props := [(KeyWithPrefix(key, prefix), raw)];
    SingleEntryProps(KeyWithPrefix(key, prefix), raw);
    StripPrefixUndoesKeyWithPrefix(key, prefix);
    SingleStep(props, keyMap, availableFilters, prefix, sep);
  }

  /** An available filter parsed into an object has its fields merged in, whatever the key map says. */
  lemma SingleObjectFilter(key: string, raw: string, keyMap: map<string, string>,
                           availableFilters: seq<string>, prefix: string, sep: string)
    requires sep != ""
    requires key in availableFilters
    requires Interpret(key, raw, sep).Fields?
    ensures var fields := Interpret(key, raw, sep).fields;
            |fields| == 2 && fields[0].0 != fields[1].0
            && SingleFilterQuery(key, raw, keyMap, availableFilters, prefix, sep) == fields
  {
    var props := [(KeyWithPrefix(key, prefix), raw)];
    SingleEntryProps(KeyWithPrefix(key, prefix), raw);
    StripPrefixUndoesKeyWithPrefix(key, prefix);
    SingleStep(props, keyMap, availableFilters, prefix, sep);
    ObjectParsesHaveTwoFields(key, raw, sep);
    SpreadTwoFields(Interpret(key, raw, sep).fields);
  }

  lemma ObjectParsesHaveTwoFields(key: string, raw: string, sep: string)
    requires sep != ""
    requires Interpret(key, raw, sep).Fields?
    ensures var fields := Interpret(key, raw, sep).fields;
            |fields| == 2 && fields[0].0 != fields[1].0
  {
    var kind := ParserFor(key).value;
    assert kind.DateRange? ==> kind.fromField != kind.toField;
  }

  lemma SpreadTwoFields(fields: Record<QueryValue>)
    requires |fields| == 2 && fields[0].0 != fields[1].0
    ensures Spread([], fields) == fields
  {
    assert fields[..1][..0] == [] && fields[..1] == [fields[0]];
    assert Spread([], fields[..1]) == [fields[0]];
    assert Spread([], fields) == Put([fields[0]], fields[1].0, fields[1].1);
    assert Put([fields[0]], fields[1].0, fields[1].1) == [fields[0]] + Put([], fields[1].0, fields[1].1);
  }

  /** The reduce over a single property is one step from the empty object. */
  lemma SingleStep(props: Record<string>, keyMap: map<string, string>, availableFilters: seq<string>,
                   prefix: string, sep: string)
    requires sep != "" && |props| == 1
    ensures Accumulate(props, keyMap, availableFilters, prefix, sep)
            == Step([], props[0], keyMap, availableFilters, prefix, sep)
  {
    assert props[..0] == [];
  }

  /** Boolean filters are true exactly when the URL says `true`. */
  lemma BooleanFilterIsLiteralTrue(key: string, raw: string, keyMap: map<string, string>,
                                   availableFilters: seq<string>, prefix: string, sep: string)
    requires sep != ""
    requires key in BooleanFilters && key in availableFilters
    ensures SingleFilterQuery(key, raw, keyMap, availableFilters, prefix, sep)
            == [(TargetName(keyMap, key), Bool(raw == "true"))]
  {
    BooleanFiltersParseTrueFlag(key);
    SingleScalarFilter(key, raw, keyMap, availableFilters, prefix, sep);
  }

  lemma BooleanFiltersParseTrueFlag(key: string)
    requires key in BooleanFilters
    ensures ParserFor(key) == Some(TrueFlag)
  {
    if key == "partiallyPaid" {
      assert ParserFor("partiallyPaid") == Some(TrueFlag);
    } else if key == "paymentDisputeLost" {
      assert ParserFor("paymentDisputeLost") == Some(TrueFlag);
    } else if key == "paymentOverdue" {
      assert ParserFor("paymentOverdue") == Some(TrueFlag);
    } else {
      assert ParserFor("selfBilled") == Some(TrueFlag);
    }
  }

  /** A date range `from,to` becomes its two fields, never renamed. */
  lemma DateRangeFields(key: string, from: string, to: string, keyMap: map<string, string>,
                        availableFilters: seq<string>, prefix: string, sep: string)
    requires sep != ""
    requires key in FiltersItemDates && key in availableFilters
    requires ',' !in from && ',' !in to
    ensures var kind := ParserFor(key).value;
            SingleFilterQuery(key, Join([from, to], ","), keyMap, availableFilters, prefix, sep)
            == [(kind.fromField, Str(from)), (kind.toField, Str(to))]
  {
    DateFiltersAreTheRangeParsers(key);
    SplitJoinChar([from, to], ',');
    SingleObjectFilter(key, Join([from, to], ","), keyMap, availableFilters, prefix, sep);
  }

  /** When a URL name repeats, only its last value counts. */
  lemma RepeatedNameLastValueWins(name: string, first: string, last: string, keyMap: map<string, string>,
                                  availableFilters: seq<string>, prefix: string, sep: string)
    requires sep != ""
    ensures FormatFiltersForQuery([(name, first), (name, last)], keyMap, availableFilters, prefix, sep)
            == FormatFiltersForQuery([(name, last)], keyMap, availableFilters, prefix, sep)
  {
    SingleEntryProps(name, first);
    SingleEntryProps(name, last);
    assert [(name, first), (name, last)][..1] == [(name, first)];
  }

  // ---------------------------------------------------------------------
  // Screen wrappers with a key map or post-processing

  const CreditNoteKeyMap: map<string, string> :=
    map["creditNoteReason" := "reason", "creditNoteCreditStatus" := "creditStatus",
        "creditNoteRefundStatus" := "refundStatus"]

  /** The key map of the revenue-streams and MRR overviews. */
  const AnalyticsKeyMap: map<string, string> :=
    map["country" := "customerCountry", "customerType" := "customerType",
        "customerExternalId" := "externalCustomerId", "subscriptionExternalId" := "externalSubscriptionId"]

  const PrepaidCreditsKeyMap: map<string, string> :=
    map["country" := "customerCountry", "customerAccountType" := "customerType",
        "customerExternalId" := "externalCustomerId", "subscriptionExternalId" := "externalSubscriptionId"]

  /** `formatFiltersForCreditNotesQuery`, given the credit-note screen's filters and prefix. */
  function FormatFiltersForCreditNotesQuery(entries: seq<Entry>, creditNoteFilters: seq<string>,
                                            prefix: string, sep: string): Record<QueryValue>
    requires sep != ""
  {
    FormatFiltersForQuery(entries, CreditNoteKeyMap, creditNoteFilters, prefix, sep)
  }

  /** `formatFiltersForRevenueStreamsQuery`: the popper filters plus the time granularity. */
  function FormatFiltersForRevenueStreamsQuery(entries: seq<Entry>, popperFilters: seq<string>,
                                               prefix: string, sep: string): Record<QueryValue>
    requires sep != ""
  {
    FormatFiltersForQuery(entries, AnalyticsKeyMap, popperFilters + ["timeGranularity"], prefix, sep)
  }

  /** `formatFiltersForMrrQuery`: the MRR overview filters plus the time granularity. */
  function FormatFiltersForMrrQuery(entries: seq<Entry>, mrrOverviewFilters: seq<string>,
                                    prefix: string, sep: string): Record<QueryValue>
    requires sep != ""
  {
    FormatFiltersForQuery(entries, AnalyticsKeyMap, mrrOverviewFilters + ["timeGranularity"], prefix, sep)
  }

  /** `formatFiltersForPrepaidCreditsQuery`: as for MRR, with the account type sent as `customerType`. */
  function FormatFiltersForPrepaidCreditsQuery(entries: seq<Entry>, mrrOverviewFilters: seq<string>,
                                               prefix: string, sep: string): Record<QueryValue>
    requires sep != ""
  {
    FormatFiltersForQuery(entries, PrepaidCreditsKeyMap, mrrOverviewFilters + ["timeGranularity"], prefix, sep)
  }

  /** The three credit-note statuses are sent as `reason`, `creditStatus` and `refundStatus` lists. */
  lemma CreditNoteStatusesRenamed(key: string, raw: string, creditNoteFilters: seq<string>, prefix: string, sep: string)
    requires sep != ""
    requires key in CreditNoteKeyMap && key in creditNoteFilters
    ensures FormatFiltersForCreditNotesQuery([(KeyWithPrefix(key, prefix), raw)], creditNoteFilters, prefix, sep)
            == [(CreditNoteKeyMap[key], Strs(Split(raw, ",")))]
  {
    SingleScalarFilter(key, raw, CreditNoteKeyMap, creditNoteFilters, prefix, sep);
  }

  /** The analytics overviews accept a time granularity whatever their other filters are. */
  lemma TimeGranularityAlwaysAccepted(raw: string, popperFilters: seq<string>, prefix: string, sep: string)
    requires sep != ""
    ensures FormatFiltersForRevenueStreamsQuery([(KeyWithPrefix("timeGranularity", prefix), raw)], popperFilters, prefix, sep)
            == [("timeGranularity", Str(raw))]
    ensures FormatFiltersForMrrQuery([(KeyWithPrefix("timeGranularity", prefix), raw)], popperFilters, prefix, sep)
            == [("timeGranularity", Str(raw))]
  {
    var available := popperFilters + ["timeGranularity"];
    assert "timeGranularity" in available by {
      assert available[|popperFilters|] == "timeGranularity";
    }
    assert ParserFor("timeGranularity") == Some(Verbatim);
    assert Interpret("timeGranularity", raw, sep) == Scalar(Str(raw));
    assert TargetName(AnalyticsKeyMap, "timeGranularity") == "timeGranularity";
    SingleScalarFilter("timeGranularity", raw, AnalyticsKeyMap, available, prefix, sep);
  }

  /** The country and the ids are renamed for the analytics API; an external id keeps only its id part. */
  lemma AnalyticsFiltersRenamed(raw: string, popperFilters: seq<string>, prefix: string, sep: string)
    requires sep != ""
    requires "country" in popperFilters && "customerExternalId" in popperFilters
    ensures FormatFiltersForRevenueStreamsQuery([(KeyWithPrefix("country", prefix), raw)], popperFilters, prefix, sep)
            == [("customerCountry", Str(raw))]
    ensures FormatFiltersForRevenueStreamsQuery([(KeyWithPrefix("customerExternalId", prefix), raw)], popperFilters, prefix, sep)
            == [("externalCustomerId", Str(Split(raw, sep)[0]))]
  {
    CountrySentAsCustomerCountry(raw, popperFilters, prefix, sep);
    ExternalIdSentAsExternalCustomerId(raw, popperFilters, prefix, sep);
  }

  lemma CountrySentAsCustomerCountry(raw: string, popperFilters: seq<string>, prefix: string, sep: string)
    requires sep != "" && "country" in popperFilters
    ensures FormatFiltersForRevenueStreamsQuery([(KeyWithPrefix("country", prefix), raw)], popperFilters, prefix, sep)
            == [("customerCountry", Str(raw))]
  {
    AnalyticsParsers();
    AnalyticsKeyMapRenames();
    RevenueStreamsFilterRenamed("country", "customerCountry", Verbatim, raw, popperFilters, prefix, sep);
  }

  lemma ExternalIdSentAsExternalCustomerId(raw: string, popperFilters: seq<string>, prefix: string, sep: string)
    requires sep != "" && "customerExternalId" in popperFilters
    ensures FormatFiltersForRevenueStreamsQuery([(KeyWithPrefix("customerExternalId", prefix), raw)], popperFilters, prefix, sep)
            == [("externalCustomerId", Str(Split(raw, sep)[0]))]
  {
    AnalyticsParsers();
    AnalyticsKeyMapRenames();
    RevenueStreamsFilterRenamed("customerExternalId", "externalCustomerId", BeforeSeparator, raw, popperFilters, prefix, sep);
  }

  lemma RevenueStreamsFilterRenamed(key: string, target: string, kind: ParserKind, raw: string, popperFilters: seq<string>,
                                    prefix: string, sep: string)
    requires sep != "" && key in popperFilters
    requires key in AnalyticsKeyMap && AnalyticsKeyMap[key] == target && target != ""
    requires ParserFor(key) == Some(kind) && (kind == Verbatim || kind == BeforeSeparator)
    ensures FormatFiltersForRevenueStreamsQuery([(KeyWithPrefix(key, prefix), raw)], popperFilters, prefix, sep)
            == [(target, Parse(kind, raw, sep).value)]
  {
    var available := popperFilters + ["timeGranularity"];
    assert key in available;
    AnalyticsFilterRenamed(key, target, kind, raw, available, prefix, sep);
  }

  lemma AnalyticsParsers()
    ensures ParserFor("country") == Some(Verbatim)
    ensures ParserFor("customerExternalId") == Some(BeforeSeparator)
  {
  }

  lemma AnalyticsKeyMapRenames()
    ensures "country" in AnalyticsKeyMap && AnalyticsKeyMap["country"] == "customerCountry"
    ensures "customerExternalId" in AnalyticsKeyMap && AnalyticsKeyMap["customerExternalId"] == "externalCustomerId"
  {
  }

  lemma AnalyticsFilterRenamed(key: string, target: string, kind: ParserKind, raw: string, available: seq<string>,
                               prefix: string, sep: string)
    requires sep != "" && key in available
    requires key in AnalyticsKeyMap && AnalyticsKeyMap[key] == target && target != ""
    requires ParserFor(key) == Some(kind) && (kind == Verbatim || kind == BeforeSeparator)
    ensures FormatFiltersForQuery([(KeyWithPrefix(key, prefix), raw)], AnalyticsKeyMap, available, prefix, sep)
            == [(target, Parse(kind, raw, sep).value)]
  {
    assert TargetName(AnalyticsKeyMap, key) == target;
    SingleScalarFilter(key, raw, AnalyticsKeyMap, available, prefix, sep);
  }

  /** Prepaid credits send the customer account type as `customerType`. */
  lemma PrepaidCreditsAccountTypeRenamed(raw: string, mrrOverviewFilters: seq<string>, prefix: string, sep: string)
    requires sep != ""
    requires "customerAccountType" in mrrOverviewFilters
    ensures FormatFiltersForPrepaidCreditsQuery([(KeyWithPrefix("customerAccountType", prefix), raw)], mrrOverviewFilters, prefix, sep)
            == [("customerType", Str(raw))]
  {
    SingleScalarFilter("customerAccountType", raw, PrepaidCreditsKeyMap, mrrOverviewFilters + ["timeGranularity"], prefix, sep);
  }

  /** `formatFiltersForWebhookLogsQuery`: the first listed status, or `undefined`. */
  function FormatFiltersForWebhookLogsQuery(entries: seq<Entry>, prefix: string, sep: string): Option<string>
    requires sep != ""
  {
    var filters := FormatFiltersForQuery(entries, map[], ["webhookStatus"], prefix, sep);
    var status := Lookup(filters, "webhookStatus");
    if status.Some? && status.value.Strs? && |status.value.items| > 0 then Some(status.value.items[0]) else None
  }

  /** A webhook status filter gives its first listed status; no such filter gives none. */
  lemma WebhookStatusIsFirstListed(raw: string, entries: seq<Entry>, prefix: string, sep: string)
    requires sep != ""
    ensures FormatFiltersForWebhookLogsQuery([(KeyWithPrefix("webhookStatus", prefix), raw)], prefix, sep)
            == Some(Split(raw, ",")[0])
    ensures (forall i :: 0 <= i < |entries| ==> StripPrefix(entries[i].0, prefix) != "webhookStatus")
            ==> FormatFiltersForWebhookLogsQuery(entries, prefix, sep).None?
  {
    WebhookStatusSingleEntry(raw, prefix, sep);
    if forall i :: 0 <= i < |entries| ==> StripPrefix(entries[i].0, prefix) != "webhookStatus" {
      NoWebhookStatusFilter(entries, prefix, sep);
    }
  }

  lemma NoWebhookStatusFilter(entries: seq<Entry>, prefix: string, sep: string)
    requires sep != ""
    requires forall i :: 0 <= i < |entries| ==> StripPrefix(entries[i].0, prefix) != "webhookStatus"
    ensures FormatFiltersForQuery(entries, map[], ["webhookStatus"], prefix, sep) == []
  {
    NoAvailableFilterGivesEmptyQuery(entries, map[], ["webhookStatus"], prefix, sep);
  }

  lemma WebhookStatusSingleEntry(raw: string, prefix: string, sep: string)
    requires sep != ""
    ensures FormatFiltersForQuery([(KeyWithPrefix("webhookStatus", prefix), raw)], map[], ["webhookStatus"], prefix, sep)
            == [("webhookStatus", Strs(Split(raw, ",")))]
  {
    WebhookStatusParsesCommaList();
    assert TargetName(map[], "webhookStatus") == "webhookStatus";
    SingleScalarFilter("webhookStatus", raw, map[], ["webhookStatus"], prefix, sep);
  }

  lemma WebhookStatusParsesCommaList()
    ensures ParserFor("webhookStatus") == Some(CommaList)
  {
    assert "webhookStatus" in CommaListFilters;
  }

  /**
   * The webhook status sent is the first status listed in the URL's last
   * `webhookStatus` value, and none when the URL has no such value, as long
   * as no other URL name reads as `webhookStatus` once the prefix is removed.
   */
  lemma WebhookStatusOfLastValue(entries: seq<Entry>, prefix: string, sep: string)
    requires sep != ""
    requires forall e :: e in entries && e.0 != KeyWithPrefix("webhookStatus", prefix)
                         ==> StripPrefix(e.0, prefix) != "webhookStatus"
    ensures FormatFiltersForWebhookLogsQuery(entries, prefix, sep)
            == match LastValue(entries, KeyWithPrefix("webhookStatus", prefix))
               case None => None
               case Some(raw) => Some(Split(raw, ",")[0])
  {
    var name := KeyWithPrefix("webhookStatus", prefix);
    WebhookStatusParsesCommaList();
    assert TargetName(map[], "webhookStatus") == "webhookStatus";
    StripPrefixUndoesKeyWithPrefix("webhookStatus", prefix);
    QueryFieldOfSoleName(entries, name, "webhookStatus", map[], ["webhookStatus"], prefix, sep);
  }

  /** A property that is present and truthy. */
  predicate IsTruthyProperty(v: Option<QueryValue>) {
    v.Some? && Truthy(v.value)
  }

  /** `if (formatted[from]) { formatted[to] = formatted[from]; delete formatted[from] }` */
  predicate RenamedIfTruthy(base: Record<QueryValue>, formatted: Record<QueryValue>, from: string, to: string) {
    if IsTruthyProperty(Lookup(base, from)) then
      Lookup(formatted, to) == Lookup(base, from) && Lookup(formatted, from).None?
    else
      Lookup(formatted, to) == Lookup(base, to) && Lookup(formatted, from) == Lookup(base, from)
  }

  /** `formatFiltersForActivityLogsQuery`: the two external ids are moved to the names the API expects. */
  method FormatFiltersForActivityLogsQuery(entries: seq<Entry>, activityLogFilters: seq<string>, prefix: string, sep: string)
    returns (formatted: Record<QueryValue>)
    requires sep != ""
    ensures var base := FormatFiltersForQuery(entries, map[], activityLogFilters, prefix, sep);
            && RenamedIfTruthy(base, formatted, "customerExternalId", "externalCustomerId")
            && RenamedIfTruthy(base, formatted, "subscriptionExternalId", "externalSubscriptionId")
            && forall k :: (k != "customerExternalId" && k != "externalCustomerId" && k != "subscriptionExternalId"
                            && k != "externalSubscriptionId") ==> Lookup(formatted, k) == Lookup(base, k)
  {
    formatted := FormatFiltersForQuery(entries, map[], activityLogFilters, prefix, sep);
    formatted := MoveIfTruthy(formatted, "customerExternalId", "externalCustomerId");
    formatted := MoveIfTruthy(formatted, "subscriptionExternalId", "externalSubscriptionId");
  }

  /** One `if (formatted[from]) { formatted[to] = formatted[from]; delete formatted[from] }` block. */
  method MoveIfTruthy(r: Record<QueryValue>, from: string, to: string) returns (formatted: Record<QueryValue>)
    requires from != to
    ensures RenamedIfTruthy(r, formatted, from, to)
    ensures forall k :: k != from && k != to ==> Lookup(formatted, k) == Lookup(r, k)
  {
    formatted := r;
    var value := Lookup(formatted, from);
    if IsTruthyProperty(value) {
      formatted := Put(formatted, to, value.value);
      forall k ensures Lookup(formatted, k) == if k == to then value else Lookup(r, k) {
        LookupPut(r, to, value.value, k);
      }
      formatted := Remove(formatted, from);
    }
  }

  // ---------------------------------------------------------------------
  // Chips (`formatActiveFilterValueDisplay`)

  /** The translation function, when one is passed, through the three lookups the chips make. */
  datatype Translator = Translator(
    text: string -> string,            // translate(key)
    amountInterval: string -> string,  // translate(AMOUNT_INTERVALS_TRANSLATION_MAP[interval])
    periodScope: string -> string)     // translate(PeriodScopeTranslationLookup[value])

  /** The helpers the chips call: the optional translator, formatters and case conversions. */
  datatype DisplayHelpers = DisplayHelpers(
    translate: Option<Translator>,
    formatActivityType: string -> string,
    formatDateShort: string -> string,
    upperCase: string -> string,
    lowerCase: string -> string,
    localeLowerCase: string -> string)

  /** The translation key of the word "and" between two amounts. */
  const AndKey: string := "text_65f8472df7593301061e27d6"

  /** `${x}` for a value that may be `undefined`. */
  function Interpolated(x: Option<string>): string {
    match x
    case Some(s) => s
    case None => "undefined"
  }

  /** The amount chip: `${intervalLabel} ${from || ''} ${and} ${isEqual ? '' : to || ''}`. */
  function AmountDisplay(value: string, h: DisplayHelpers): string {
    var parts := Split(value, ",");
    var interval := parts[0];
    var intervalLabel := if h.translate.Some? then Some(h.translate.value.amountInterval(interval)) else None;
    var and := if interval != IsBetween then Some("")
               else if h.translate.Some? then Some(h.lowerCase(h.translate.value.text(AndKey)))
               else None;
    Interpolated(intervalLabel) + " " + OrEmpty(At(parts, 1)) + " " + Interpolated(and) + " "
    + (if interval == IsEqualTo then "" else OrEmpty(At(parts, 2)))
  }

  /** An `id<sep>name` item: its name, or its id when the name is empty or missing. */
  function ItemLabel(item: string, sep: string): string
    requires sep != ""
  {
    var pieces := Split(item, sep);
    if OrEmpty(At(pieces, 1)) != "" then pieces[1] else pieces[0]
  }

  /** The chip of an id list: each item's own label, joined by `, `. */
  function IdsDisplay(value: string, sep: string): string
    requires sep != ""
  {
    Join(ItemLabels(Split(value, ","), sep), ", ")
  }

  function ItemLabels(items: seq<string>, sep: string): (labels: seq<string>)
    requires sep != ""
    ensures |labels| == |items|
    ensures forall k :: 0 <= k < |items| ==> labels[k] == ItemLabel(items[k], sep)
  {
    seq(|items|, k requires 0 <= k < |items| => ItemLabel(items[k], sep))
  }

  /** The id-list item label as written: a nameless item falls back to the id of the whole value. */
  function AsWrittenItemLabel(item: string, value: string, sep: string): string
    requires sep != ""
  {
    var pieces := Split(item, sep);
    if OrEmpty(At(pieces, 1)) != "" then pieces[1] else Split(value, sep)[0]
  }

  /** The id-list chip as written. */
  function IdsDisplayAsWritten(value: string, sep: string): string
    requires sep != ""
  {
    Join(AsWrittenItemLabels(Split(value, ","), value, sep), ", ")
  }

  function AsWrittenItemLabels(items: seq<string>, value: string, sep: string): (labels: seq<string>)
    requires sep != ""
    ensures |labels| == |items|
    ensures forall k :: 0 <= k < |items| ==> labels[k] == AsWrittenItemLabel(items[k], value, sep)
  {
    seq(|items|, k requires 0 <= k < |items| => AsWrittenItemLabel(items[k], value, sep))
  }

  /** `${v.charAt(0).toUpperCase()}${v.slice(1).replace(/_/g, ' ')}` */
  function Humanized(v: string, h: DisplayHelpers): string {
    h.upperCase(if v == "" then "" else v[..1]) + ReplaceAllChar(if v == "" then "" else v[1..], '_', ' ')
  }

  function HumanizedAll(values: seq<string>, h: DisplayHelpers): (shown: seq<string>)
    ensures |shown| == |values|
    ensures forall k :: 0 <= k < |values| ==> shown[k] == Humanized(values[k], h)
  {
    seq(|values|, k requires 0 <= k < |values| => Humanized(values[k], h))
  }

  /** The branches of `formatActiveFilterValueDisplay`. */
  datatype ChipKind = AmountChip | ActivityTypesChip | ExternalIdChip | DateChip | PeriodChip
                    | IdListChip | EmailsChip | VerbatimChip | WordsChip

  /** The branch taken for a filter key. */
  function ChipKindOf(key: string): ChipKind {
    if key == "amount" then AmountChip
    else if key == "activityTypes" then ActivityTypesChip
    else if key == "customerExternalId" then ExternalIdChip
    else if key in FiltersItemDates then DateChip
    else if key == "period" then PeriodChip
    else if key in IdListFilters then IdListChip
    else if key == "userEmails" then EmailsChip
    else if key == "billingEntityCode" then VerbatimChip
    else WordsChip
  }

  /** `formatActiveFilterValueDisplay(key, value, translate)` */
  function FormatActiveFilterValueDisplay(key: string, value: string, sep: string, h: DisplayHelpers): string
    requires sep != ""
  {
    match ChipKindOf(key)
    case AmountChip => AmountDisplay(value, h)
    case ActivityTypesChip => Join(Map(Split(value, ","), h.formatActivityType), ", ")
    case ExternalIdChip => ItemLabel(value, sep)
    case DateChip => Join(Map(Split(value, ","), h.formatDateShort), " - ")
    case PeriodChip => if h.translate.Some? then h.translate.value.periodScope(value) else ""
    case IdListChip => IdsDisplayAsWritten(value, sep)
    case EmailsChip => h.localeLowerCase(value)
    case VerbatimChip => value
    case WordsChip => Join(HumanizedAll(Split(value, ","), h), ", ")
  }

  /**
   * The amount chip of `interval,from,to`: the upper bound is hidden for
   * "is equal to", and the translated "and" appears only for "is between".
   */
  lemma AmountChipText(interval: string, from: string, to: string, sep: string, t: Translator, h: DisplayHelpers)
    requires sep != "" && h.translate == Some(t)
    requires ',' !in interval && ',' !in from && ',' !in to
    ensures FormatActiveFilterValueDisplay("amount", Join([interval, from, to], ","), sep, h)
            == t.amountInterval(interval) + " " + from + " "
               + (if interval == IsBetween then h.lowerCase(t.text(AndKey)) else "") + " "
               + (if interval == IsEqualTo then "" else to)
  {
    SplitJoinChar([interval, from, to], ',');
  }

  /** The activity-type chip formats every listed type, in order. */
  lemma ActivityTypesChipShowsEachValue(values: seq<string>, sep: string, h: DisplayHelpers)
    requires sep != "" && |values| >= 1
    requires forall k :: 0 <= k < |values| ==> ',' !in values[k]
    ensures FormatActiveFilterValueDisplay("activityTypes", Join(values, ","), sep, h)
            == Join(Map(values, h.formatActivityType), ", ")
  {
    SplitJoinChar(values, ',');
    ActivityTypesChipDisplay(Join(values, [',']), sep, h);
  }

  lemma ActivityTypesChipDisplay(value: string, sep: string, h: DisplayHelpers)
    requires sep != ""
    ensures FormatActiveFilterValueDisplay("activityTypes", value, sep, h)
            == Join(Map(Split(value, [',']), h.formatActivityType), ", ")
  {
    assert ChipKindOf("activityTypes") == ActivityTypesChip;
  }

  /** A date chip formats every listed date, joined by ` - `. */
  lemma DateChipShowsEachValue(key: string, values: seq<string>, sep: string, h: DisplayHelpers)
    requires sep != "" && |values| >= 1 && ChipKindOf(key) == DateChip
    requires forall k :: 0 <= k < |values| ==> ',' !in values[k]
    ensures FormatActiveFilterValueDisplay(key, Join(values, ","), sep, h) == Join(Map(values, h.formatDateShort), " - ")
  {
    var value := Join(values, [',']);
    SplitJoinChar(values, ',');
    assert FormatActiveFilterValueDisplay(key, value, sep, h) == Join(Map(Split(value, [',']), h.formatDateShort), " - ");
  }

  /** The date chips are exactly those of the date-range filters. */
  lemma DateChipsAreTheDateFilters(key: string)
    ensures ChipKindOf(key) == DateChip <==> key in FiltersItemDates
  {
  }

  /**
   * A filter without a dedicated branch (a status, a currency, ...) shows
   * each listed value with its first letter upper-cased and underscores as spaces.
   */
  lemma WordsChipShowsEachValue(key: string, values: seq<string>, sep: string, h: DisplayHelpers)
    requires sep != "" && |values| >= 1 && ChipKindOf(key) == WordsChip
    requires forall k :: 0 <= k < |values| ==> ',' !in values[k]
    ensures FormatActiveFilterValueDisplay(key, Join(values, ","), sep, h) == Join(HumanizedAll(values, h), ", ")
  {
    var value := Join(values, [',']);
    SplitJoinChar(values, ',');
    assert Split(value, [',']) == values;
    assert FormatActiveFilterValueDisplay(key, value, sep, h) == Join(HumanizedAll(Split(value, [',']), h), ", ");
  }

  /** How an `id<sep>name` item is written into the URL. */
  function EncodedItem(id: string, name: string, sep: string): string {
    id + sep + name
  }

  /** What the chip should show for an item: its name, or its id when the name is empty. */
  function ItemShown(id: string, name: string): string {
    if name != "" then name else id
  }

  lemma EncodedItemLabel(id: string, name: string, c: char)
    requires c !in id && c !in name
    ensures ItemLabel(EncodedItem(id, name, [c]), [c]) == ItemShown(id, name)
  {
    SplitJoinChar([id, name], c);
  }

  /** Every item of an id list shows its own name, or its own id. */
  lemma IdsChipShowsEachItem(items: seq<(string, string)>, c: char)
    requires c != ',' && |items| >= 1
    requires forall k :: 0 <= k < |items| ==> c !in items[k].0 && c !in items[k].1
                                              && ',' !in items[k].0 && ',' !in items[k].1
    ensures IdsDisplay(Join(Map(items, (it: (string, string)) => EncodedItem(it.0, it.1, [c])), ","), [c])
            == Join(Map(items, (it: (string, string)) => ItemShown(it.0, it.1)), ", ")
  {
    var encoded := Map(items, (it: (string, string)) => EncodedItem(it.0, it.1, [c]));
    forall k | 0 <= k < |encoded| ensures ',' !in encoded[k] {
      assert encoded[k] == items[k].0 + [c] + items[k].1;
    }
    SplitJoinChar(encoded, ',');
    var shown := ItemLabels(encoded, [c]);
    var expected := Map(items, (it: (string, string)) => ItemShown(it.0, it.1));
    forall k | 0 <= k < |items| ensures shown[k] == expected[k] {
      EncodedItemLabel(items[k].0, items[k].1, c);
    }
    assert shown == expected;
  }

  /** The first piece of `id1<sep>name1,id2<sep>` split on the separator is `id1`. */
  lemma FirstIdOfTwoItems(id1: string, name1: string, id2: string, c: char)
    requires c !in id1
    ensures Split(Join([EncodedItem(id1, name1, [c]), EncodedItem(id2, "", [c])], ","), [c])[0] == id1
  {
    var rest := name1 + "," + id2 + [c];
    assert Join([EncodedItem(id1, name1, [c]), EncodedItem(id2, "", [c])], ",") == id1 + [c] + rest;
    forall i: nat | i < |id1| ensures !OccursAt(id1 + [c] + rest, [c], i) {
      assert (id1 + [c] + rest)[i..i + 1] == [id1[i]];
    }
    SplitFirstPiece(id1, [c], rest);
  }

  /**
   * As written, a nameless item after the first shows the FIRST item's id:
   * `id1<sep>name1,id2<sep>` reads `name1, id1` instead of `name1, id2`.
   */
  lemma IdsChipAsWrittenShowsFirstId(id1: string, name1: string, id2: string, c: char, h: DisplayHelpers)
    requires c != ',' && name1 != ""
    requires c !in id1 && c !in name1 && c !in id2 && ',' !in id1 && ',' !in name1 && ',' !in id2
    ensures var value := Join([EncodedItem(id1, name1, [c]), EncodedItem(id2, "", [c])], ",");
            && FormatActiveFilterValueDisplay("apiKeyIds", value, [c], h) == name1 + ", " + id1
            && IdsDisplayAsWritten(value, [c]) == name1 + ", " + id1
            && IdsDisplay(value, [c]) == name1 + ", " + id2
  {
    var value := Join([EncodedItem(id1, name1, [c]), EncodedItem(id2, "", [c])], ",");
    TwoItemLabels(id1, name1, id2, c);
    ApiKeyIdsIsIdListChip();
    assert [name1, id1][1..] == [id1] && [name1, id2][1..] == [id2];
    assert Join([name1, id1], ", ") == name1 + ", " + id1;
    assert Join([name1, id2], ", ") == name1 + ", " + id2;
  }

  lemma ApiKeyIdsIsIdListChip()
    ensures ChipKindOf("apiKeyIds") == IdListChip
  {
    assert "apiKeyIds" in IdListFilters;
  }

  /** The labels of `id1<sep>name1,id2<sep>`, as written and corrected. */
  lemma TwoItemLabels(id1: string, name1: string, id2: string, c: char)
    requires c != ',' && name1 != ""
    requires c !in id1 && c !in name1 && c !in id2 && ',' !in id1 && ',' !in name1 && ',' !in id2
    ensures var value := Join([EncodedItem(id1, name1, [c]), EncodedItem(id2, "", [c])], ",");
            && AsWrittenItemLabels(Split(value, ","), value, [c]) == [name1, id1]
            && ItemLabels(Split(value, ","), [c]) == [name1, id2]
  {
    var e1 := EncodedItem(id1, name1, [c]);
    var e2 := EncodedItem(id2, "", [c]);
    assert ',' !in e1 && ',' !in e2 by {
      assert e1 == id1 + [c] + name1;
      assert e2 == id2 + [c] + "";
    }
    SplitJoinChar([e1, e2], ',');
    var value := Join([e1, e2], ",");
    EncodedItemLabel(id1, name1, c);
    EncodedItemLabel(id2, "", c);
    SplitJoinChar([id1, name1], c);
    SplitJoinChar([id2, ""], c);
    FirstIdOfTwoItems(id1, name1, id2, c);
    assert Split(value, ",") == [e1, e2];
  }

  /** An item written with a non-empty name. */
  predicate IsNamed(item: string, sep: string)
    requires sep != ""
  {
    OrEmpty(At(Split(item, sep), 1)) != ""
  }

  /**
   * The id-list chip as written and the corrected one agree whenever every
   * item carries a name: the faulty fallback is the only difference.
   */
  lemma IdsDisplaysAgreeWhenNamed(value: string, sep: string)
    requires sep != ""
    requires forall item :: item in Split(value, ",") ==> IsNamed(item, sep)
    ensures IdsDisplayAsWritten(value, sep) == IdsDisplay(value, sep)
  {
    var items := Split(value, ",");
    var asWritten := AsWrittenItemLabels(items, value, sep);
    var corrected := ItemLabels(items, sep);
    forall k | 0 <= k < |items| ensures asWritten[k] == corrected[k] {
      assert IsNamed(items[k], sep);
    }
    assert asWritten == corrected;
  }

  // ---------------------------------------------------------------------
  // Quick-filter predicates and reading/writing one filter

  /** `InvoiceStatusTypeEnum` and `InvoicePaymentStatusTypeEnum` values. */
  const StatusDraft: string := "draft"
  const StatusFinalized: string := "finalized"
  const StatusVoided: string := "voided"
  const PaymentFailed: string := "failed"
  const PaymentPending: string := "pending"
  const PaymentSucceeded: string := "succeeded"

  predicate IsOutstandingUrlParams(params: UrlSearchParams, prefix: string)
    reads params
  {
    && params.Size() >= 2
    && params.Get(KeyWithPrefix("paymentStatus", prefix)) == Some(PaymentFailed + "," + PaymentPending)
    && params.Get(KeyWithPrefix("status", prefix)) == Some(StatusFinalized)
  }

  predicate IsSucceededUrlParams(params: UrlSearchParams, prefix: string)
    reads params
  {
    && params.Size() >= 2
    && params.Get(KeyWithPrefix("paymentStatus", prefix)) == Some(PaymentSucceeded)
    && params.Get(KeyWithPrefix("status", prefix)) == Some(StatusFinalized)
  }

  predicate IsDraftUrlParams(params: UrlSearchParams, prefix: string)
    reads params
  {
    params.Size() >= 1 && params.Get(KeyWithPrefix("status", prefix)) == Some(StatusDraft)
  }

  predicate IsPaymentOverdueUrlParams(params: UrlSearchParams, prefix: string)
    reads params
  {
    params.Size() >= 1 && params.Get(KeyWithPrefix("paymentOverdue", prefix)) == Some("true")
  }

  predicate IsVoidedUrlParams(params: UrlSearchParams, prefix: string)
    reads params
  {
    params.Size() >= 1 && params.Get(KeyWithPrefix("status", prefix)) == Some(StatusVoided)
  }

  predicate IsPaymentDisputeLostUrlParams(params: UrlSearchParams, prefix: string)
    reads params
  {
    params.Size() >= 1 && params.Get(KeyWithPrefix("paymentDisputeLost", prefix)) == Some("true")
  }

  /** Two different names that are both present need two entries. */
  lemma TwoNamesTwoEntries(es: seq<Entry>, n1: string, n2: string)
    requires n1 != n2 && GetParam(es, n1).Some? && GetParam(es, n2).Some?
    ensures |es| >= 2
  {
    var i :| 0 <= i < |es| && es[i].0 == n1;
    var j :| 0 <= j < |es| && es[j].0 == n2;
    assert i != j;
  }

  /**
   * The size checks never decide anything: each quick filter holds exactly
   * when its parameters have the expected values ("failed,pending" in that order).
   */
  lemma QuickFiltersAreValueChecks(params: UrlSearchParams, prefix: string)
    ensures IsOutstandingUrlParams(params, prefix)
            <==> params.Get(KeyWithPrefix("paymentStatus", prefix)) == Some("failed,pending")
                 && params.Get(KeyWithPrefix("status", prefix)) == Some("finalized")
    ensures IsSucceededUrlParams(params, prefix)
            <==> params.Get(KeyWithPrefix("paymentStatus", prefix)) == Some("succeeded")
                 && params.Get(KeyWithPrefix("status", prefix)) == Some("finalized")
    ensures IsDraftUrlParams(params, prefix) <==> params.Get(KeyWithPrefix("status", prefix)) == Some("draft")
    ensures IsVoidedUrlParams(params, prefix) <==> params.Get(KeyWithPrefix("status", prefix)) == Some("voided")
    ensures IsPaymentOverdueUrlParams(params, prefix) <==> params.Get(KeyWithPrefix("paymentOverdue", prefix)) == Some("true")
    ensures IsPaymentDisputeLostUrlParams(params, prefix)
            <==> params.Get(KeyWithPrefix("paymentDisputeLost", prefix)) == Some("true")
  {
    KeyWithPrefixInjective("paymentStatus", "status", prefix);
    assert PaymentFailed + "," + PaymentPending == "failed,pending";
    if params.Get(KeyWithPrefix("paymentStatus", prefix)).Some? && params.Get(KeyWithPrefix("status", prefix)).Some? {
      TwoNamesTwoEntries(params.entries, KeyWithPrefix("paymentStatus", prefix), KeyWithPrefix("status", prefix));
    }
  }

  /** `getFilterValue` */
  function GetFilterValue(key: string, params: UrlSearchParams, prefix: string): (v: Option<string>)
    reads params
    ensures v.None? <==> forall i :: 0 <= i < |params.entries| ==> params.entries[i].0 != KeyWithPrefix(key, prefix)
    ensures v.Some? ==> exists i :: 0 <= i < |params.entries| && params.entries[i] == (KeyWithPrefix(key, prefix), v.value)
                                    && forall j :: 0 <= j < i ==> params.entries[j].0 != KeyWithPrefix(key, prefix)
  {
    params.Get(KeyWithPrefix(key, prefix))
  }

  /** `setFilterValue`: updates the given object in place and returns it. */
  method SetFilterValue(key: string, value: string, params: UrlSearchParams, prefix: string)
    returns (r: UrlSearchParams)
    modifies params
    ensures r == params
    ensures params.entries == SetParam(old(params.entries), KeyWithPrefix(key, prefix), value)
    ensures GetFilterValue(key, r, prefix) == Some(value)
    ensures forall k :: k != key ==> GetFilterValue(k, r, prefix) == old(GetFilterValue(k, params, prefix))
  {
    params.Set(KeyWithPrefix(key, prefix), value);
    forall k | k != key
      ensures GetFilterValue(k, params, prefix) == old(GetFilterValue(k, params, prefix))
    {
      KeyWithPrefixInjective(k, key, prefix);
    }
    r := params;
  }

  /** Setting the two outstanding values makes any parameters outstanding. */
  lemma SettingOutstandingValues(before: seq<Entry>, params: UrlSearchParams, prefix: string)
    requires params.entries == SetParam(SetParam(before, KeyWithPrefix("paymentStatus", prefix), "failed,pending"),
                                        KeyWithPrefix("status", prefix), "finalized")
    ensures IsOutstandingUrlParams(params, prefix)
  {
    KeyWithPrefixInjective("paymentStatus", "status", prefix);
    QuickFiltersAreValueChecks(params, prefix);
  }

  // ---------------------------------------------------------------------
  // buildUrlForInvoicesWithFilters

  /** The entries with every name prefixed for the invoice list. */
  function Prefixed(es: seq<Entry>, prefix: string): (r: seq<Entry>)
    ensures |r| == |es|
    ensures forall i :: 0 <= i < |es| ==> r[i] == (KeyWithPrefix(es[i].0, prefix), es[i].1)
  {
    seq(|es|, i requires 0 <= i < |es| => (KeyWithPrefix(es[i].0, prefix), es[i].1))
  }

  /** `buildUrlForInvoicesWithFilters`, given the route, the invoice-list prefix and the URL encoder. */
  method BuildUrlForInvoicesWithFilters(params: UrlSearchParams, invoicesRoute: string, invoicePrefix: string,
                                        encode: string -> string) returns (url: string)
    ensures url == invoicesRoute + "?" + Serialize(FromEntries(Prefixed(params.entries, invoicePrefix)), encode)
  {
    var withPrefix: Record<string> := [];
    var i := 0;
    while i < |params.entries|
      invariant 0 <= i <= |params.entries|
      invariant withPrefix == FromEntries(Prefixed(params.entries[..i], invoicePrefix))
    {
      var (key, value) := params.entries[i];
      ghost var next := Prefixed(params.entries[..i + 1], invoicePrefix);
      assert next[..i] == Prefixed(params.entries[..i], invoicePrefix);
      withPrefix := Put(withPrefix, KeyWithPrefix(key, invoicePrefix), value);
      i := i + 1;
    }
    assert params.entries[..i] == params.entries;
    url := invoicesRoute + "?" + Serialize(withPrefix, encode);
  }

  lemma {:induction false} LastValuePrefixed(es: seq<Entry>, prefix: string, key: string)
    ensures LastValue(Prefixed(es, prefix), KeyWithPrefix(key, prefix)) == LastValue(es, key)
  {
    if es != [] {
      KeyWithPrefixInjective(es[|es| - 1].0, key, prefix);
      assert Prefixed(es, prefix)[..|es| - 1] == Prefixed(es[..|es| - 1], prefix);
      LastValuePrefixed(es[..|es| - 1], prefix, key);
    }
  }

  /**
   * The invoice link carries each filter once, under its prefixed name, with
   * the LAST value of a repeated name (where `getFilterValue` reads the first).
   */
  lemma InvoiceLinkKeepsLastValues(es: seq<Entry>, prefix: string, key: string)
    ensures KeysDistinct(FromEntries(Prefixed(es, prefix)))
    ensures Lookup(FromEntries(Prefixed(es, prefix)), KeyWithPrefix(key, prefix)) == LastValue(es, key)
  {
    LastValuePrefixed(es, prefix, key);
  }
}
