/**
 * The search controller of the home page: the filter groups, the selected
 * price band, the custom price bounds, the page, and the result state, with
 * the three transitions that change them (a query change, a filter edit or
 * page request, a fetch and its completion).
 */
module Home {
  import opened Wrappers
  import opened Numbers
  import opened Facets
  import opened Search

  /** A product record; the controller never looks inside one. */
  datatype Product = Product(fields: map<string, string>)

  /** What the product source returns: one page of records and the total count. */
  datatype ResultPage = ResultPage(data: seq<Product>, total: int)

  /** What the query decoder hands back: the facet groups and the selected price band. */
  datatype DecodedQuery = DecodedQuery(brand: FacetGroup, os: FacetGroup, price: Option<string>,
                                       processor: FacetGroup, ram: FacetGroup, storage: FacetGroup)

  /** One request for a result page, with the arguments it was issued with. */
  datatype FetchRequest = FetchRequest(page: Num, minCustom: Option<Num>, maxCustom: Option<Num>, filters: FacetGroup)

  /** One navigation: the merged filters handed to the serializer and the
      query parameters navigated to. */
  datatype Navigation = Navigation(filters: FacetGroup, params: QueryParams)

  class HomeComponent {
    /** The query decoder and serializer of the home service; nothing is assumed of them. */
    const parseQueryParams: QueryParams -> DecodedQuery
    const serializeQueryParams: FacetGroup -> QueryParams

    const itemsPerPage: int := 24
    const filterPrice: seq<PriceBand> := FilterPrice

    var brand: FacetGroup
    var os: FacetGroup
    var price: FacetGroup
    var processor: FacetGroup
    var ram: FacetGroup
    var storage: FacetGroup
    var searchResult: bool
    var minCustom: Option<Num>
    var maxCustom: Option<Num>
    var page: Num
    var data: Option<seq<Product>>
    var totalItems: Option<int>
    var loading: bool
    var queryParams: QueryParams
    /** The selected price band key (`isPrice.options`); "" when none. */
    var priceOption: string

    /** Every navigation requested so far, oldest first. */
    var navigations: seq<Navigation>
    /** Every result page requested so far, oldest first. */
    var fetches: seq<FetchRequest>

    /** The six groups merged in the controller's order. */
    function Filters(): FacetGroup
      reads this`brand, this`os, this`price, this`processor, this`ram, this`storage
    {
      CollectFilters(brand, os, price, processor, ram, storage)
    }

    constructor (parseQueryParams: QueryParams -> DecodedQuery, serializeQueryParams: FacetGroup -> QueryParams)
      ensures this.parseQueryParams == parseQueryParams && this.serializeQueryParams == serializeQueryParams
      ensures brand == map[] && os == map[] && price == map[]
      ensures processor == map[] && ram == map[] && storage == map[]
      ensures searchResult && loading && page == Int(1) && priceOption == ""
      ensures minCustom == None && maxCustom == None
      ensures data == None && totalItems == None && queryParams == map[]
      ensures navigations == [] && fetches == []
    {
      this.parseQueryParams := parseQueryParams;
      this.serializeQueryParams := serializeQueryParams;
      brand, os, price, processor, ram, storage := map[], map[], map[], map[], map[], map[];
      searchResult, loading := true, true;
      minCustom, maxCustom := None, None;
      page := Int(1);
      data, totalItems := None, None;
      queryParams := map[];
      priceOption := "";
      navigations, fetches := [], [];
    }

    /** A change of the query parameters: load the groups and the band from the
        decoded query, read the page and the custom range, then fetch. */
    method OnQueryChange(params: QueryParams)
      modifies this`queryParams, this`brand, this`os, this`priceOption, this`processor, this`ram,
               this`storage, this`page, this`minCustom, this`maxCustom, this`price, this`fetches
      ensures queryParams == params
      ensures var q := parseQueryParams(params);
        brand == q.brand && os == q.os && processor == q.processor && ram == q.ram && storage == q.storage
        && priceOption == q.price.GetOr("")
      ensures page == PageFromParams(params)
      ensures (minCustom, maxCustom) == BoundsFromParams(params, old(minCustom), old(maxCustom))
      ensures price == map[priceOption := true]
      ensures fetches == old(fetches) + [FetchRequest(page, minCustom, maxCustom, Filters())]
    {
      LoadQuery(params);
      ReadPage();
      ReadCustomPrice();
      GetResults();
    }

    /** The first step of a query change: keep the parameters and copy the
        decoded groups and band (an absent band becomes ""). */
    method LoadQuery(params: QueryParams)
      modifies this`queryParams, this`brand, this`os, this`priceOption, this`processor, this`ram, this`storage
      ensures queryParams == params
      ensures var q := parseQueryParams(params);
        brand == q.brand && os == q.os && processor == q.processor && ram == q.ram && storage == q.storage
        && priceOption == q.price.GetOr("")
    {
      queryParams := params;
      var queryObj := parseQueryParams(queryParams);
      brand := queryObj.brand;
      os := queryObj.os;
      priceOption := queryObj.price.GetOr("");
      processor := queryObj.processor;
      ram := queryObj.ram;
      storage := queryObj.storage;
    }

    /** The page of a query change: the parsed `page` parameter, or 1 when it
        is absent or empty. */
    method ReadPage()
      modifies this`page
      ensures page == PageFromParams(queryParams)
    {
      if "page" in queryParams && queryParams["page"] != "" {
        page := ParseInt(queryParams["page"]);
      } else {
        page := Int(1);
      }
    }

    /** The custom range of a query change: both bounds parsed from a
        non-empty `customprice` parameter ("min,max"); the bounds are left as
        they were when the parameter is absent or empty. */
    method ReadCustomPrice()
      modifies this`minCustom, this`maxCustom
      ensures (minCustom, maxCustom) == BoundsFromParams(queryParams, old(minCustom), old(maxCustom))
    {
      if "customprice" in queryParams && queryParams["customprice"] != "" {
        var parts := Strings.Split(queryParams["customprice"], ',');
        minCustom := Some(ParseInt(parts[0]));
        // a missing second part reads as undefined, which parses to NaN
        maxCustom := Some(if |parts| > 1 then ParseInt(parts[1]) else NaN);
      }
    }

    /** A filter edit or a page request, with the category of the edited
        filter as `hint`: apply the price rules and navigate to the new
        query parameters. Nothing is fetched here. */
    method GetPage(page: int, hint: Option<string>)
      modifies this`price, this`priceOption, this`minCustom, this`maxCustom, this`navigations
      ensures var r := PriceRules(hint, old(priceOption), old(minCustom), old(maxCustom));
        priceOption == r.option && price == r.price && minCustom == r.minCustom && maxCustom == r.maxCustom
      ensures navigations == old(navigations) +
        [Navigation(Filters(), NavigationParams(serializeQueryParams(Filters()), page, hint, old(minCustom), old(maxCustom)))]
      ensures hint == Some("customPrice") ==>
        forall k :: k in Filters() ==> k in brand || k in os || k in processor || k in ram || k in storage
    {
      var isMinCustom := IsNumber(minCustom);
      ghost var entryMin, entryMax := minCustom, maxCustom;
      var target := page;
      if HintGiven(hint) {
        target := 1;
      }
      ApplyPriceRules(hint);
      var filters := Filters();
      var param := serializeQueryParams(filters)["page" := IntToString(target)];
      // the flag is from before the rules ran; maxCustom is read again
      if isMinCustom && IsTruthy(maxCustom) {
        param := param["customprice" := CustomPriceText(minCustom.value.value, maxCustom.value.value)];
      }
      assert param == NavigationParams(serializeQueryParams(filters), page, hint, entryMin, entryMax);
      navigations := navigations + [Navigation(filters, param)];
    }

    /** The price step of a filter edit: rebuild the price group from the
        selected band, then keep only one of the two price filters. */
    method ApplyPriceRules(hint: Option<string>)
      modifies this`price, this`priceOption, this`minCustom, this`maxCustom
      ensures var r := PriceRules(hint, old(priceOption), old(minCustom), old(maxCustom));
        priceOption == r.option && price == r.price && minCustom == r.minCustom && maxCustom == r.maxCustom
    {
      price := map[];
      if priceOption != "" {
        price := price[priceOption := true];
      }
      var isMinCustom := IsNumber(minCustom);
      if hint == Some("customPrice") {
        priceOption := "";
        price := map[];
      } else if isMinCustom && IsTruthy(maxCustom) && hint == Some("price") {
        minCustom := None;
        maxCustom := None;
      }
    }

    /** Request the result page for the current state; the price group is
        rebuilt with the band key set whatever it is, "" included. */
    method GetResults()
      modifies this`price, this`fetches
      ensures price == map[priceOption := true]
      ensures fetches == old(fetches) + [FetchRequest(page, minCustom, maxCustom, Filters())]
    {
      price := map[];
      price := price[priceOption := true];
      var filters := Filters();
      fetches := fetches + [FetchRequest(page, minCustom, maxCustom, filters)];
    }

    /** The completion of a fetch: the result page replaces the previous one. */
    method OnFetchComplete(result: ResultPage)
      modifies this`searchResult, this`loading, this`data, this`totalItems
      ensures searchResult <==> |result.data| != 0
      ensures !loading && data == Some(result.data) && totalItems == Some(result.total)
    {
      if |result.data| == 0 {
        searchResult := false;
      } else {
        searchResult := true;
      }
      loading := false;
      data := Some(result.data);
      totalItems := Some(result.total);
    }
  }

  /** A filter edit followed by the query change that its navigation causes:
      the page read back is the page the edit targeted, and the custom range
      read back is the one the price rules left, whether or not `customprice`
      was attached. The serializer must not write `customprice` itself. */
  method EditThenReload(c: HomeComponent, page: int, hint: Option<string>)
    requires forall g :: "customprice" !in c.serializeQueryParams(g)
    modifies c`queryParams, c`brand, c`os, c`priceOption, c`processor, c`ram, c`storage,
             c`page, c`minCustom, c`maxCustom, c`price, c`fetches, c`navigations
    ensures |c.navigations| == |old(c.navigations)| + 1
    ensures c.queryParams == c.navigations[|c.navigations| - 1].params
    ensures c.page == Int(TargetPage(page, hint))
    ensures var r := PriceRules(hint, old(c.priceOption), old(c.minCustom), old(c.maxCustom));
      c.minCustom == r.minCustom && c.maxCustom == r.maxCustom
    ensures c.fetches == old(c.fetches) + [FetchRequest(c.page, c.minCustom, c.maxCustom, c.Filters())]
  {
    ghost var entryMin, entryMax := c.minCustom, c.maxCustom;
    c.GetPage(page, hint);
    var nav := c.navigations[|c.navigations| - 1];
    ghost var ruledMin, ruledMax := c.minCustom, c.maxCustom;
    NavigationRoundTrip(c.serializeQueryParams(nav.filters), page, hint, entryMin, entryMax, ruledMin, ruledMax);
    c.OnQueryChange(nav.params);
  }
}
