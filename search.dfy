/**
 * Hotel search: the `/hotels` handler trims its four query parameters,
 * refuses bad `min`/`max` values, and otherwise runs the query `queryParam`
 * builds. `queryParam` pushes one condition and one bound value per truthy
 * parameter, in the fixed order name, country, min, max.
 */
module HotelSearch {
  import opened Wrappers
  import opened JsStrings
  import opened JsNumbers
  import opened Schema

  // The clauses are written as the text around their single `?` placeholder.
  const UnfilteredQuery := "select * from hotels" + " order by hotelName, country"
  const FilteredPrefix := "select hid from hotels where "
  const FilteredSuffix := " order by hid"
  const Separator := " and "
  const NameCondition := "hotelName like " + "?"
  const CountryCondition := "lower(country) = lower(" + "?" + ")"
  const MinCondition := "price_per_night >= " + "?"
  const MaxCondition := "price_per_night <= " + "?"

  const IntegersText := "please input integers for min and max"
  const OrderText := "min must be less than or equal to max"

  /** `Array.prototype.join`. */
  function Join(parts: seq<string>, sep: string): (s: string) {
    if |parts| == 0 then ""
    else if |parts| == 1 then parts[0]
    else parts[0] + sep + Join(parts[1..], sep)
  }

  /** The clause a call pushes: one for a truthy value, none otherwise. */
  function Pushed(condition: string, v: Option<string>): (cs: seq<string>) {
    if Truthy(v) then [condition] else []
  }

  /** The value a call pushes: a truthy value, wrapped in `%` for the name search; nothing otherwise. */
  function PushedValue(v: Option<string>, isSearch: bool): (vs: seq<string>) {
    if Truthy(v) then [if isSearch then "%" + v.value + "%" else v.value] else []
  }

  /** The two arrays `queryParam` grows: condition clauses and their bound values. */
  class QueryParts {
    var conditions: seq<string>
    var values: seq<string>

    constructor ()
      ensures conditions == [] && values == []
    {
      conditions := [];
      values := [];
    }

    /**
     * `newQueryCondition`: for a truthy value, pushes the clause and the value,
     * the value wrapped in `%` for the name search.
     */
    method NewQueryCondition(newCondition: string, newValue: Option<string>, isSearch: bool)
      modifies this
      ensures conditions == old(conditions) + Pushed(newCondition, newValue)
      ensures values == old(values) + PushedValue(newValue, isSearch)
    {
      var value := newValue;
      if Truthy(value) && isSearch {
        value := Some("%" + value.value + "%");
      }
      if Truthy(value) {
        conditions := conditions + [newCondition];
        values := values + [value.value];
      }
    }
  }

  /** The four kinds of filter, in the order `queryParam` tries them. */
  datatype Kind = Name | Country | MinPrice | MaxPrice

  /** One condition of a filtered search, with the parameter it came from. */
  datatype Filter = Filter(kind: Kind, param: string)

  /** The filter of one kind a parameter asks for: one when the parameter is truthy, none otherwise. */
  function FilterIf(kind: Kind, v: Option<string>): (fs: seq<Filter>)
    ensures |fs| == (if Truthy(v) then 1 else 0)
  {
    if Truthy(v) then [Filter(kind, v.value)] else []
  }

  /** The filters a search applies: one per truthy parameter, in the order name, country, min, max. */
  function Filters(search: Option<string>, country: Option<string>, min: Option<string>, max: Option<string>): (fs: seq<Filter>)
    ensures |fs| == 0 <==> !(Truthy(search) || Truthy(country) || Truthy(min) || Truthy(max))
  {
    FilterIf(Name, search) + FilterIf(Country, country) + FilterIf(MinPrice, min) + FilterIf(MaxPrice, max)
  }

  /** The clause of a filter; it depends on the kind of filter only. */
  function ConditionOf(kind: Kind): (c: string) {
    match kind
    case Name => NameCondition
    case Country => CountryCondition
    case MinPrice => MinCondition
    case MaxPrice => MaxCondition
  }

  /** The value bound to a filter's placeholder: the name search is wrapped in `%`. */
  function ValueOf(f: Filter): (v: string) {
    if f.kind == Name then "%" + f.param + "%" else f.param
  }

  function Conditions(fs: seq<Filter>): (cs: seq<string>)
    ensures |cs| == |fs| && forall i :: 0 <= i < |fs| ==> cs[i] == ConditionOf(fs[i].kind)
  {
    seq(|fs|, i requires 0 <= i < |fs| => ConditionOf(fs[i].kind))
  }

  function Values(fs: seq<Filter>): (vs: seq<string>)
    ensures |vs| == |fs| && forall i :: 0 <= i < |fs| ==> vs[i] == ValueOf(fs[i])
  {
    seq(|fs|, i requires 0 <= i < |fs| => ValueOf(fs[i]))
  }

  /** The query text for a list of filters: everything ordered by name and country, or the matching ids ordered by id. */
  function QueryOf(fs: seq<Filter>): (q: string) {
    if |fs| == 0 then UnfilteredQuery
    else FilteredPrefix + Join(Conditions(fs), Separator) + FilteredSuffix
  }

  /** What one `newQueryCondition` call adds to the clauses, in terms of the filters. */
  lemma PushCondition(fs: seq<Filter>, kind: Kind, v: Option<string>)
    ensures Conditions(fs + FilterIf(kind, v)) == Conditions(fs) + Pushed(ConditionOf(kind), v)
  {
    if !Truthy(v) {
      assert fs + FilterIf(kind, v) == fs;
    }
  }

  /** What one `newQueryCondition` call adds to the values, in terms of the filters. */
  lemma PushValue(fs: seq<Filter>, kind: Kind, v: Option<string>)
    ensures Values(fs + FilterIf(kind, v)) == Values(fs) + PushedValue(v, kind == Name)
  {
    if !Truthy(v) {
      assert fs + FilterIf(kind, v) == fs;
    }
  }

  /** The clauses of a search, call by call. */
  lemma ConditionsPushed(search: Option<string>, country: Option<string>, min: Option<string>, max: Option<string>)
    ensures Conditions(Filters(search, country, min, max)) ==
      Pushed(NameCondition, search) + Pushed(CountryCondition, country) + Pushed(MinCondition, min) + Pushed(MaxCondition, max)
  {
    var f1, f2, f3 := FilterIf(Name, search), FilterIf(Country, country), FilterIf(MinPrice, min);
    assert [] + f1 == f1;
    PushCondition([], Name, search);
    PushCondition(f1, Country, country);
    PushCondition(f1 + f2, MinPrice, min);
    PushCondition(f1 + f2 + f3, MaxPrice, max);
  }

  /** The values of a search, call by call. */
  lemma ValuesPushed(search: Option<string>, country: Option<string>, min: Option<string>, max: Option<string>)
    ensures Values(Filters(search, country, min, max)) ==
      PushedValue(search, true) + PushedValue(country, false) + PushedValue(min, false) + PushedValue(max, false)
  {
    var f1, f2, f3 := FilterIf(Name, search), FilterIf(Country, country), FilterIf(MinPrice, min);
    assert [] + f1 == f1;
    PushValue([], Name, search);
    PushValue(f1, Country, country);
    PushValue(f1 + f2, MinPrice, min);
    PushValue(f1 + f2 + f3, MaxPrice, max);
  }

  /** The query text as `queryParam` assembles it: head, joined clauses, tail. */
  lemma QueryText(fs: seq<Filter>, filters: bool)
    requires filters <==> |fs| > 0
    ensures QueryOf(fs) == (if filters then FilteredPrefix else UnfilteredQuery)
      + Join(Conditions(fs), Separator) + (if filters then FilteredSuffix else "")
  {
    if !filters {
      assert Join(Conditions(fs), Separator) == "";
    }
  }

  /** `queryParam`: the query text and the values bound to its placeholders, in order. */
  method QueryParam(search: Option<string>, country: Option<string>, min: Option<string>, max: Option<string>)
    returns (query: string, values: seq<string>)
    ensures query == QueryOf(Filters(search, country, min, max))
    ensures values == Values(Filters(search, country, min, max))
  {
    var filters := Truthy(search) || Truthy(country) || Truthy(min) || Truthy(max);
    var head := if filters then FilteredPrefix else UnfilteredQuery;
    query := head;
    var parts := new QueryParts();
    parts.NewQueryCondition(NameCondition, search, true);
    parts.NewQueryCondition(CountryCondition, country, false);
    parts.NewQueryCondition(MinCondition, min, false);
    parts.NewQueryCondition(MaxCondition, max, false);
    ConditionsPushed(search, country, min, max);
    ValuesPushed(search, country, min, max);
    assert [] + Pushed(NameCondition, search) == Pushed(NameCondition, search);
    assert [] + PushedValue(search, true) == PushedValue(search, true);
    ghost var body := Join(parts.conditions, Separator);
    query := query + Join(parts.conditions, Separator);
    ghost var tail := if filters then FilteredSuffix else "";
    if filters {
      query := query + FilteredSuffix;
    }
    assert query == head + body + tail;
    values := parts.values;
    QueryText(Filters(search, country, min, max), filters);
  }

  /** Without a truthy parameter, every hotel is listed by name and country with nothing bound. */
  lemma UnfilteredSearch(search: Option<string>, country: Option<string>, min: Option<string>, max: Option<string>)
    requires !Truthy(search) && !Truthy(country) && !Truthy(min) && !Truthy(max)
    ensures QueryOf(Filters(search, country, min, max)) == UnfilteredQuery
    ensures Values(Filters(search, country, min, max)) == []
  {
  }

  /** A name search alone asks for the name clause only, with the name wrapped in `%` bound to it. */
  lemma SearchByNameOnly(name: string)
    requires |name| > 0
    ensures QueryOf(Filters(Some(name), None, None, None)) == FilteredPrefix + NameCondition + FilteredSuffix
    ensures Values(Filters(Some(name), None, None, None)) == ["%" + name + "%"]
  {
    var fs := Filters(Some(name), None, None, None);
    assert fs == [Filter(Name, name)];
    assert Conditions(fs) == [NameCondition];
  }

  /** All four filters give the four clauses in order, joined with `and`. */
  lemma AllFilters(search: string, country: string, min: string, max: string)
    requires |search| > 0 && |country| > 0 && |min| > 0 && |max| > 0
    ensures QueryOf(Filters(Some(search), Some(country), Some(min), Some(max))) ==
      FilteredPrefix
      + (NameCondition + Separator + CountryCondition + Separator + MinCondition + Separator + MaxCondition)
      + FilteredSuffix
    ensures Values(Filters(Some(search), Some(country), Some(min), Some(max))) == ["%" + search + "%", country, min, max]
  {
    ConditionsPushed(Some(search), Some(country), Some(min), Some(max));
    ValuesPushed(Some(search), Some(country), Some(min), Some(max));
    JoinFour(NameCondition, CountryCondition, MinCondition, MaxCondition, Separator);
    assert Conditions(Filters(Some(search), Some(country), Some(min), Some(max))) ==
      [NameCondition, CountryCondition, MinCondition, MaxCondition];
    assert |Filters(Some(search), Some(country), Some(min), Some(max))| > 0;
  }

  lemma JoinFour(a: string, b: string, c: string, d: string, sep: string)
    ensures Join([a, b, c, d], sep) == a + sep + b + sep + c + sep + d
  {
    assert [c, d][1..] == [d];
    assert Join([c, d], sep) == c + sep + d;
    assert [b, c, d][1..] == [c, d];
    assert Join([b, c, d], sep) == b + sep + (c + sep + d);
    assert [a, b, c, d][1..] == [b, c, d];
  }

  /** The query text depends only on which parameters are truthy, never on what they hold. */
  lemma QueryDependsOnlyOnPresence(s1: Option<string>, c1: Option<string>, lo1: Option<string>, hi1: Option<string>,
                                   s2: Option<string>, c2: Option<string>, lo2: Option<string>, hi2: Option<string>)
    requires Truthy(s1) == Truthy(s2) && Truthy(c1) == Truthy(c2)
    requires Truthy(lo1) == Truthy(lo2) && Truthy(hi1) == Truthy(hi2)
    ensures QueryOf(Filters(s1, c1, lo1, hi1)) == QueryOf(Filters(s2, c2, lo2, hi2))
  {
    var fs1, fs2 := Filters(s1, c1, lo1, hi1), Filters(s2, c2, lo2, hi2);
    assert Kinds(fs1) == Kinds(fs2) by {
      KindsAppend(FilterIf(Name, s1) + FilterIf(Country, c1) + FilterIf(MinPrice, lo1), FilterIf(MaxPrice, hi1));
      KindsAppend(FilterIf(Name, s2) + FilterIf(Country, c2) + FilterIf(MinPrice, lo2), FilterIf(MaxPrice, hi2));
      KindsAppend(FilterIf(Name, s1) + FilterIf(Country, c1), FilterIf(MinPrice, lo1));
      KindsAppend(FilterIf(Name, s2) + FilterIf(Country, c2), FilterIf(MinPrice, lo2));
      KindsAppend(FilterIf(Name, s1), FilterIf(Country, c1));
      KindsAppend(FilterIf(Name, s2), FilterIf(Country, c2));
    }
    assert Conditions(fs1) == Conditions(fs2) by {
      forall i | 0 <= i < |fs1| ensures fs1[i].kind == fs2[i].kind {
        assert Kinds(fs1)[i] == Kinds(fs2)[i];
      }
    }
  }

  /** The kinds of a list of filters, in order. */
  function Kinds(fs: seq<Filter>): (ks: seq<Kind>)
    ensures |ks| == |fs| && forall i :: 0 <= i < |fs| ==> ks[i] == fs[i].kind
  {
    seq(|fs|, i requires 0 <= i < |fs| => fs[i].kind)
  }

  lemma KindsAppend(a: seq<Filter>, b: seq<Filter>)
    ensures Kinds(a + b) == Kinds(a) + Kinds(b)
  {
  }

  /** The number of `?` placeholders in a text. */
  function Placeholders(s: string): (n: nat) {
    if |s| == 0 then 0 else (if s[0] == '?' then 1 else 0) + Placeholders(s[1..])
  }

  lemma {:induction false} PlaceholdersAppend(a: string, b: string)
    ensures Placeholders(a + b) == Placeholders(a) + Placeholders(b)
  {
    if |a| > 0 {
      assert (a + b)[1..] == a[1..] + b;
      PlaceholdersAppend(a[1..], b);
    } else {
      assert a + b == b;
    }
  }

  lemma {:induction false} NoPlaceholder(s: string)
    requires '?' !in s
    ensures Placeholders(s) == 0
  {
    if |s| > 0 {
      assert s[0] != '?';
      NoPlaceholder(s[1..]);
    }
  }

  /** A text made of two pieces without `?` has no placeholder. */
  lemma NoPlaceholderIn(a: string, b: string)
    requires '?' !in a && '?' !in b
    ensures Placeholders(a + b) == 0
  {
    NoPlaceholder(a);
    NoPlaceholder(b);
    PlaceholdersAppend(a, b);
  }

  /** A text with a single `?` between two pieces without one has one placeholder. */
  lemma OnePlaceholderIn(a: string, b: string)
    requires '?' !in a && '?' !in b
    ensures Placeholders(a + "?") == 1 && Placeholders(a + "?" + b) == 1
  {
    NoPlaceholder(a);
    NoPlaceholder(b);
    PlaceholdersAppend(a, "?");
    PlaceholdersAppend(a + "?", b);
  }

  lemma {:induction false} PlaceholdersJoin(parts: seq<string>, sep: string)
    requires Placeholders(sep) == 0
    requires forall i :: 0 <= i < |parts| ==> Placeholders(parts[i]) == 1
    ensures Placeholders(Join(parts, sep)) == |parts|
  {
    if |parts| > 1 {
      PlaceholdersJoin(parts[1..], sep);
      PlaceholdersAppend(parts[0], sep);
      PlaceholdersAppend(parts[0] + sep, Join(parts[1..], sep));
    }
  }

  lemma UnfilteredQueryPlaceholders()
    ensures Placeholders(UnfilteredQuery) == 0
  {
    NoPlaceholderIn("select * from hotels", " order by hotelName, country");
  }

  lemma PrefixPlaceholders()
    ensures Placeholders(FilteredPrefix) == 0
  {
    NoPlaceholder(FilteredPrefix);
  }

  lemma SuffixPlaceholders()
    ensures Placeholders(FilteredSuffix) == 0
  {
    NoPlaceholder(FilteredSuffix);
  }

  lemma SeparatorPlaceholders()
    ensures Placeholders(Separator) == 0
  {
    NoPlaceholder(Separator);
  }

  /** Each clause holds exactly one placeholder. */
  lemma ConditionPlaceholders(kind: Kind)
    ensures Placeholders(ConditionOf(kind)) == 1
  {
    match kind
    case Name => OnePlaceholderIn("hotelName like ", "");
    case Country => OnePlaceholderIn("lower(country) = lower(", ")");
    case MinPrice => OnePlaceholderIn("price_per_night >= ", "");
    case MaxPrice => OnePlaceholderIn("price_per_night <= ", "");
  }

  /** The query has exactly one placeholder per bound value. */
  lemma PlaceholdersMatchValues(fs: seq<Filter>)
    ensures Placeholders(QueryOf(fs)) == |Values(fs)|
  {
    if |fs| == 0 {
      UnfilteredQueryPlaceholders();
    } else {
      var cs := Conditions(fs);
      forall i | 0 <= i < |cs| ensures Placeholders(cs[i]) == 1 {
        ConditionPlaceholders(fs[i].kind);
      }
      SeparatorPlaceholders();
      PlaceholdersJoin(cs, Separator);
      PrefixPlaceholders();
      SuffixPlaceholders();
      Enclosed(FilteredPrefix, Join(cs, Separator), FilteredSuffix);
    }
  }

  lemma Enclosed(head: string, body: string, tail: string)
    requires Placeholders(head) == 0 && Placeholders(tail) == 0
    ensures Placeholders(head + body + tail) == Placeholders(body)
  {
    PlaceholdersAppend(head, body);
    PlaceholdersAppend(head + body, tail);
  }

  /** What the `min`/`max` branch of `/hotels` decides. */
  datatype GateVerdict = BadIntegers | MinAboveMax | Proceed

  /**
   * The `min`/`max` check of `/hotels` on the trimmed values: each must be
   * absent, empty or a canonical integer; when both are truthy they are
   * compared as strings.
   */
  function Gate(min: Option<string>, max: Option<string>): (v: GateVerdict)
    ensures v == BadIntegers <==> (Truthy(min) && !CanonicalInt(min.value)) || (Truthy(max) && !CanonicalInt(max.value))
    ensures v == MinAboveMax ==> Truthy(min) && Truthy(max) && StrLt(max.value, min.value)
    ensures v == Proceed && Truthy(min) && Truthy(max) ==> StrLe(min.value, max.value)
  {
    ValidIntegerStringIsCanonical(min);
    ValidIntegerStringIsCanonical(max);
    if !(IsValidIntegerString(min) && IsValidIntegerString(max)) then BadIntegers
    else if (Truthy(min) && Truthy(max) && StrLe(min.value, max.value)) || !(Truthy(min) && Truthy(max)) then Proceed
    else
      StrLtTotal(min.value, max.value);
      MinAboveMax
  }

  /** When both bounds are truthy integers, the verdict follows their order as strings. */
  lemma GateOrder(min: Option<string>, max: Option<string>)
    requires Truthy(min) && Truthy(max) && CanonicalInt(min.value) && CanonicalInt(max.value)
    ensures Gate(min, max) == MinAboveMax <==> StrLt(max.value, min.value)
    ensures Gate(min, max) == Proceed <==> StrLe(min.value, max.value)
  {
    if StrLt(max.value, min.value) {
      StrLtAsymmetric(max.value, min.value);
    }
  }

  /** A lone bound is never compared. */
  lemma GateLoneBound(min: Option<string>, max: Option<string>)
    requires !(Truthy(min) && Truthy(max))
    ensures Gate(min, max) == Proceed <==>
      (!Truthy(min) || CanonicalInt(min.value)) && (!Truthy(max) || CanonicalInt(max.value))
  {
  }

  /**
   * The order check compares strings, not numbers: `min=9&max=10` is refused
   * while `min=10&max=9` gets through.
   */
  lemma GateComparesStrings()
    ensures Gate(Some("9"), Some("10")) == MinAboveMax
    ensures Gate(Some("10"), Some("9")) == Proceed
  {
    assert CanonicalInt("9") && CanonicalInt("10");
    assert StrLt("10", "9");
    GateOrder(Some("9"), Some("10"));
    GateOrder(Some("10"), Some("9"));
  }

  /** Non-canonical integers are refused: a decimal point, leading zeros. */
  lemma GateRefusesNonCanonical()
    ensures Gate(Some("1.5"), None) == BadIntegers
    ensures Gate(Some("5"), Some("007")) == BadIntegers
  {
    assert !CanonicalInt("1.5") by { assert "1.5"[1] == '.'; }
    assert !CanonicalInt("007");
  }

  /** The reply of `/hotels`: an error text with its status, or the query to run with its values. */
  datatype HotelsReply = Refused(status: nat, text: string) | Run(query: string, values: seq<string>)

  /**
   * The `/hotels` handler up to running the query: trims the parameters,
   * applies the gate, builds the query; `queryFails` is a failure of the store.
   */
  method Hotels(search: Option<string>, countryFilter: Option<string>, min: Option<string>, max: Option<string>, queryFails: bool)
    returns (reply: HotelsReply)
    ensures var s, c, lo, hi := TrimIfExist(search), TrimIfExist(countryFilter), TrimIfExist(min), TrimIfExist(max);
      match Gate(lo, hi)
      case BadIntegers => reply == Refused(400, IntegersText)
      case MinAboveMax => reply == Refused(400, OrderText)
      case Proceed =>
        if queryFails then reply == Refused(500, ServerFailureText)
        else reply == Run(QueryOf(Filters(s, c, lo, hi)), Values(Filters(s, c, lo, hi)))
  {
    var s := TrimIfExist(search);
    var c := TrimIfExist(countryFilter);
    var lo := TrimIfExist(min);
    var hi := TrimIfExist(max);
    if IsValidIntegerString(lo) && IsValidIntegerString(hi) {
      if (Truthy(lo) && Truthy(hi) && StrLe(lo.value, hi.value)) || !(Truthy(lo) && Truthy(hi)) {
        var query, values := QueryParam(s, c, lo, hi);
        if queryFails {
          reply := Refused(500, ServerFailureText);
        } else {
          reply := Run(query, values);
        }
      } else {
        reply := Refused(400, OrderText);
      }
    } else {
      reply := Refused(400, IntegersText);
    }
  }

  /** Whenever a price filter reaches the query, the bound value is a canonical integer. */
  lemma PriceValuesAreIntegers(min: Option<string>, max: Option<string>)
    requires Gate(TrimIfExist(min), TrimIfExist(max)) == Proceed
    ensures Truthy(TrimIfExist(min)) ==> CanonicalInt(TrimIfExist(min).value)
    ensures Truthy(TrimIfExist(max)) ==> CanonicalInt(TrimIfExist(max).value)
  {
  }
}
