/**
 * The pure rules of the search controller: how a filter edit treats the two
 * price filters, which query parameters it navigates to, and how the page
 * number and the custom price range are read back from query parameters.
 */
module Search {
  import opened Wrappers
  import opened Numbers
  import opened Strings
  import opened Facets

  /** `!!(b || b === 0)`: the bound holds a number, 0 included; NaN, null and
      undefined do not count. */
  predicate IsNumber(b: Option<Num>) {
    b.Some? && b.value.Int?
  }

  /** JavaScript truthiness of a bound: a number other than 0 (and not NaN). */
  predicate IsTruthy(b: Option<Num>) {
    b.Some? && b.value.Int? && b.value.value != 0
  }

  /** `h && h !== ''`: a filter category was named. */
  predicate HintGiven(hint: Option<string>) {
    hint.Some? && hint.value != ""
  }

  /** The page a filter edit navigates to: 1 whenever a category is named,
      the requested page otherwise. */
  function TargetPage(page: int, hint: Option<string>): int {
    if HintGiven(hint) then 1 else page
  }

  /** The price selection after a filter edit: the band key, the price group
      and the two custom bounds. */
  datatype PriceState = PriceState(option: string, price: FacetGroup, minCustom: Option<Num>, maxCustom: Option<Num>)

  /** The price rules of a filter edit, in the order the controller applies
      them: the price group is rebuilt from the selected band; an edit of the
      custom-price control drops the band; an edit of the band control while a
      custom range is set (min a number, max non-zero) drops the range. */
  function PriceRules(hint: Option<string>, option: string, minCustom: Option<Num>, maxCustom: Option<Num>): (r: PriceState)
    // the price group always reflects the band that survives
    ensures r.price == BandFilter(r.option)
    // the band is dropped exactly on a custom-price edit
    ensures r.option == (if hint == Some("customPrice") then "" else option)
    // the bounds change exactly when the band control is edited while a range is set, and then both go
    ensures (r.minCustom, r.maxCustom) != (minCustom, maxCustom)
            <==> hint == Some("price") && IsNumber(minCustom) && IsTruthy(maxCustom)
    ensures (r.minCustom, r.maxCustom) == (minCustom, maxCustom) || (r.minCustom == None && r.maxCustom == None)
    // after an edit of either price control, a band and a full custom range are never both left
    ensures hint == Some("price") || hint == Some("customPrice")
            ==> !(r.price != map[] && IsNumber(r.minCustom) && IsTruthy(r.maxCustom))
  {
    var price := BandFilter(option);
    if hint == Some("customPrice") then PriceState("", map[], minCustom, maxCustom)
    else if IsNumber(minCustom) && IsTruthy(maxCustom) && hint == Some("price") then PriceState(option, price, None, None)
    else PriceState(option, price, minCustom, maxCustom)
  }

  /** The `customprice` value: the decimal text of min, a comma, the decimal
      text of max. Splitting it and parsing the two pieces gives the pair back. */
  function CustomPriceText(min: int, max: int): (s: string)
    ensures ParseCustomPrice(s) == (Int(min), Int(max))
    ensures |s| >= 3
  {
    var a, b := IntToString(min), IntToString(max);
    ParseCustomPricePair(a, b);
    a + "," + b
  }

  /** `s.split(',')` and `parseInt` of the first two pieces; with no comma
      there is no second piece and the maximum reads as NaN. */
  function ParseCustomPrice(s: string): (r: (Num, Num))
    // a maximum is read only from text holding a comma
    ensures r.1 != NaN ==> ',' in s
  {
    var parts := Split(s, ',');
    assert ',' !in s ==> parts == [s] by {
      if ',' !in s {
        SplitWithoutSeparator(s, ',');
      }
    }
    (ParseInt(parts[0]), if |parts| > 1 then ParseInt(parts[1]) else NaN)
  }

  /** "a,b" reads as the pair of the parsed pieces. */
  lemma ParseCustomPricePair(a: string, b: string)
    requires ',' !in a && ',' !in b
    ensures ParseCustomPrice(a + "," + b) == (ParseInt(a), ParseInt(b))
  {
    SplitPair(a, b, ',');
    assert a + "," + b == a + [','] + b;
  }

  /** Text without a comma sets min from the whole text and max to NaN. */
  lemma ParseCustomPriceNoComma(s: string)
    requires ',' !in s
    ensures ParseCustomPrice(s) == (ParseInt(s), NaN)
  {
    SplitWithoutSeparator(s, ',');
  }

  /** The page a query change reads: the parsed `page` parameter when it is
      present and non-empty, 1 otherwise. */
  function PageFromParams(params: QueryParams): (n: Num)
    ensures ("page" !in params || params["page"] == "") ==> n == Int(1)
  {
    if "page" in params && params["page"] != "" then ParseInt(params["page"]) else Int(1)
  }

  /** A page written as `${p}` reads back as p. */
  lemma PageFromParamsRoundTrip(params: QueryParams, p: int)
    requires "page" in params && params["page"] == IntToString(p)
    ensures PageFromParams(params) == Int(p)
  {
  }

  /** The custom bounds after a query change: both read from a present,
      non-empty `customprice` parameter; otherwise the bounds held before. */
  function BoundsFromParams(params: QueryParams, minCustom: Option<Num>, maxCustom: Option<Num>): (r: (Option<Num>, Option<Num>))
    ensures ("customprice" !in params || params["customprice"] == "") ==> r == (minCustom, maxCustom)
    ensures "customprice" in params && params["customprice"] != "" ==> r.0.Some? && r.1.Some?
  {
    if "customprice" in params && params["customprice"] != "" then
      var (a, b) := ParseCustomPrice(params["customprice"]);
      (Some(a), Some(b))
    else
      (minCustom, maxCustom)
  }

  /** A range written as "min,max" reads back as that range, whatever the bounds were before. */
  lemma BoundsFromParamsRoundTrip(params: QueryParams, min: int, max: int, minCustom: Option<Num>, maxCustom: Option<Num>)
    requires "customprice" in params && params["customprice"] == CustomPriceText(min, max)
    ensures BoundsFromParams(params, minCustom, maxCustom) == (Some(Int(min)), Some(Int(max)))
  {
  }

  /** Whether a filter edit attaches `customprice`: min was a number on entry
      and max is still non-zero after the price rules have run. */
  predicate EmitsCustomPrice(hint: Option<string>, minCustom: Option<Num>, maxCustom: Option<Num>) {
    IsNumber(minCustom) && IsTruthy(maxCustom) && hint != Some("price")
  }

  /** The emission test reads min as it was on entry and max as the price
      rules left it: it holds exactly when min was a number on entry and max
      is still non-zero after the rules. */
  lemma EmitsCustomPriceAfterRules(hint: Option<string>, option: string, minCustom: Option<Num>, maxCustom: Option<Num>)
    ensures EmitsCustomPrice(hint, minCustom, maxCustom)
            <==> IsNumber(minCustom) && IsTruthy(PriceRules(hint, option, minCustom, maxCustom).maxCustom)
  {
  }

  /** An edit of the band control while a full custom range is set drops the
      range and navigates without `customprice`. */
  lemma PriceEditDropsRange(serialized: QueryParams, page: int, option: string, minCustom: Option<Num>, maxCustom: Option<Num>)
    requires IsNumber(minCustom) && IsTruthy(maxCustom) && "customprice" !in serialized
    ensures var r := PriceRules(Some("price"), option, minCustom, maxCustom);
      r.minCustom == None && r.maxCustom == None
      && "customprice" !in NavigationParams(serialized, page, Some("price"), minCustom, maxCustom)
  {
  }

  /** The query parameters a filter edit navigates to, given what the
      serializer returned for the merged filters, the requested page, the
      category hint and the custom bounds on entry. */
  function NavigationParams(serialized: QueryParams, page: int, hint: Option<string>,
                            minCustom: Option<Num>, maxCustom: Option<Num>): (p: QueryParams)
    ensures "page" in p && p["page"] == IntToString(TargetPage(page, hint))
    // customprice is attached exactly when the rules leave a full range (unless the serializer wrote one)
    ensures "customprice" in p <==> EmitsCustomPrice(hint, minCustom, maxCustom) || "customprice" in serialized
    ensures EmitsCustomPrice(hint, minCustom, maxCustom)
            ==> p["customprice"] == CustomPriceText(minCustom.value.value, maxCustom.value.value)
    // every other parameter is the serializer's
    ensures forall k :: k != "page" && k != "customprice" ==>
              (k in p <==> k in serialized) && (k in p ==> p[k] == serialized[k])
  {
    var withPage := serialized["page" := IntToString(TargetPage(page, hint))];
    if EmitsCustomPrice(hint, minCustom, maxCustom) then
      withPage["customprice" := CustomPriceText(minCustom.value.value, maxCustom.value.value)]
    else
      withPage
  }

  /** The parameters of a filter edit, read back by the query change that
      follows the navigation, give the target page, and give the custom range
      held on entry when one was attached; otherwise the bounds are kept. */
  lemma NavigationRoundTrip(serialized: QueryParams, page: int, hint: Option<string>,
                            minCustom: Option<Num>, maxCustom: Option<Num>,
                            heldMin: Option<Num>, heldMax: Option<Num>)
    requires "customprice" !in serialized
    ensures var p := NavigationParams(serialized, page, hint, minCustom, maxCustom);
      && PageFromParams(p) == Int(TargetPage(page, hint))
      && BoundsFromParams(p, heldMin, heldMax)
         == if EmitsCustomPrice(hint, minCustom, maxCustom) then (minCustom, maxCustom) else (heldMin, heldMax)
  {
    var p := NavigationParams(serialized, page, hint, minCustom, maxCustom);
    PageFromParamsRoundTrip(p, TargetPage(page, hint));
    if EmitsCustomPrice(hint, minCustom, maxCustom) {
      BoundsFromParamsRoundTrip(p, minCustom.value.value, maxCustom.value.value, heldMin, heldMax);
    }
  }

  /** With any category hint other than the two price controls, or with
      none, a selected band and a full custom range both pass through a
      filter edit, and the range is still attached as `customprice`. */
  lemma OtherHintKeepsBothPriceFilters(serialized: QueryParams, page: int, hint: Option<string>,
                                       option: string, minCustom: Option<Num>, maxCustom: Option<Num>)
    requires hint != Some("price") && hint != Some("customPrice")
    requires option != "" && IsNumber(minCustom) && IsTruthy(maxCustom)
    ensures var r := PriceRules(hint, option, minCustom, maxCustom);
      r.option == option && r.price == map[option := true]
      && r.minCustom == minCustom && r.maxCustom == maxCustom
    ensures "customprice" in NavigationParams(serialized, page, hint, minCustom, maxCustom)
  {
  }

  /** A non-numeric `page` parameter reads as NaN, not as page 1. */
  lemma NonNumericPageIsNaN(params: QueryParams)
    requires "page" in params && params["page"] != ""
    requires forall i :: 0 <= i < |params["page"]| ==> !IsDigit(params["page"][i])
    ensures PageFromParams(params) == NaN
  {
  }

  /** A bound of 0 counts as a number but not as truthy; NaN and an unset
      bound are neither. So min may be 0 while max may not. */
  lemma ZeroAndNaNBounds()
    ensures IsNumber(Some(Int(0))) && !IsTruthy(Some(Int(0)))
    ensures !IsNumber(Some(NaN)) && !IsTruthy(Some(NaN)) && !IsNumber(None) && !IsTruthy(None)
    ensures forall b :: IsTruthy(b) ==> IsNumber(b)
  {
  }
}
