# Search controller of the home page, modelled in Dafny

This project models `HomeComponent`, the controller behind a faceted
product search. The controller keeps:

- six facet groups (`brand`, `os`, `price`, `processor`, `ram`, `storage`), each an object from facet key to checkbox value;
- the selected discrete price band (`isPrice.options`);
- the custom price bounds `minCustom` and `maxCustom`;
- the page;
- the result state (`searchResult`, `loading`, `data`, `totalItems`).

Three transitions change this state:

- **Query change** (the `queryParamMap` subscription in `ngOnInit`). It loads the groups and the band from the decoded query. It reads `page`, which defaults to 1. It reads `customprice` as `"min,max"`. Then it requests results.
- **Filter edit or page request** (`getPage`). It rebuilds the price group from the band and applies the two price rules. It forces page 1 when a filter category is named. It merges the groups as `Object.assign` does. Then it navigates to the serialized parameters, adding `customprice` when a full range is held.
- **Fetch request and completion** (`getResults` and its callback). The request rebuilds the price group with the band key always set. The completion records the result page and the flags.

The project has six modules:

- `Wrappers`: `Option`.
- `Numbers`: JavaScript numbers as integers or NaN. It holds the decimal text that a template literal writes, and `parseInt` on integer text.
- `Strings`: `split` on one character, with its inverse `join`.
- `Facets`: the `Object.assign` merge of facet groups, the price group built from a band, and the list of price bands.
- `Search`: the pure rules. These are the price rules, the navigation parameters, and how the page and the custom range are read back from parameters.
- `Home`: the class `HomeComponent`. Its fields are updated in place by methods with field-level `modifies` frames. Each method is proved against the functions of `Search`.

The handler in `ngOnInit` is written as `OnQueryChange`, which runs four steps in the source's order: `LoadQuery`, `ReadPage`, `ReadCustomPrice` and `GetResults`. `getPage` is written as `GetPage`, which calls `ApplyPriceRules` for lines 86-101. Both are still proved whole.

The query decoder and serializer belong to the home service, and `home.service.ts` is not part of this model. They are functions given to the constructor. The one assumption about them is the type of the decoder's result: the groups are key-to-boolean maps and the band is text or nothing. Router navigations and fetch requests are recorded in two logs, `navigations` and `fetches`. The completion of a fetch is a separate method.

`EditThenReload` closes the loop. It runs a filter edit, then the query change that its navigation triggers. It proves that the page read back is the page the edit targeted. It also proves that the custom range read back is the one the price rules left.

Three behaviours of the code worth knowing:

- A query without `customprice` leaves both bounds as they were; nothing clears them (`ReadCustomPrice`, `BoundsFromParams`).
- A band and a full custom range can both stay active. The price rules run only for the `price` and `customPrice` hints (`OtherHintKeepsBothPriceFilters`), and a query change keeps stale bounds next to a decoded band.
- A non-empty `page` parameter that is not a number reads as NaN, not as 1 (line 71; `PageFromParams`, `NonNumericPageIsNaN`).

## Model

| member | source | states |
|---|---|---|
| Numbers.NatToString | src/app/home/home.component.ts:109 | The decimal text of a natural number is one or more digits with no leading zero (0 is written "0"), and its digit value is the number. |
| Numbers.IntToString | src/app/home/home.component.ts:109 | The text `${n}` for an integer starts with '-' exactly when n is negative. The rest is one or more digits with no leading zero (0 is "0"). It reads back to n under `parseInt`, and it never holds a comma. |
| Numbers.ParseInt | src/app/home/home.component.ts:71-77 | `parseInt(s, 10)` on an optional minus sign and digits. Text with no digit reads as NaN, and only text starting with '-' reads as a negative. Its round trip with `IntToString` is the first postcondition of `IntToString`. |
| Strings.Split | src/app/home/home.component.ts:75 | `split(',')` yields at least one piece. No piece holds the separator. Joining the pieces with the separator gives the text back. |
| Strings.SplitWithoutSeparator | src/app/home/home.component.ts:75 | Text without the separator splits into itself alone. |
| Strings.SplitPair | src/app/home/home.component.ts:75 | Two separator-free pieces joined by the separator split back into exactly those two pieces. |
| Facets.MergeGroups | src/app/home/home.component.ts:103 | `Object.assign({}, g0, g1, ...)` as a right-biased union. Every entry of the last group survives the merge unchanged. |
| Facets.CollectFilters | src/app/home/home.component.ts:103 | The six-group merge holds exactly the keys of the six groups, and `storage`, merged last, wins every clash. |
| Facets.MergeGroupsKeys | src/app/home/home.component.ts:103 | A key is in the `Object.assign` merge of any number of groups exactly when some group holds it. |
| Facets.MergeGroupsLastWins | src/app/home/home.component.ts:103 | In the merge, a key carries the value of the last group that holds it. |
| Facets.CollectFiltersIsMerge | src/app/home/home.component.ts:103 | The controller's six-group union is the general merge of brand, os, price, processor, ram and storage in that order, so the two lemmas above apply to it. |
| Facets.BandFilter | src/app/home/home.component.ts:86-87 | The price group rebuilt from a band holds exactly the band's key, set to true, when a band is selected, and is empty when the band is "". |
| Facets.FilterPriceBands | src/app/home/home.component.ts:38-47 | There are eight price bands with distinct keys, and selecting any one gives a price group holding exactly that key. |
| Search.PriceRules | src/app/home/home.component.ts:86-101 | After the price rules, the price group reflects the surviving band. The band is dropped exactly on a `customPrice` edit. The bounds change exactly on a `price` edit while min is a number (0 included) and max is non-zero, and then both are cleared. After an edit of either price control, a band and a full range are never both left. |
| Search.IsNumber | src/app/home/home.component.ts:88 | `!!(b \|\| b === 0)`: a bound counts as set when it holds a number, 0 included. NaN, null and undefined do not count. |
| Search.IsTruthy | src/app/home/home.component.ts:98 | The truthiness of a bound: a number other than 0. |
| Search.ZeroAndNaNBounds | src/app/home/home.component.ts:88-109 | A bound of 0 is a number but not truthy, so min may be 0 while max may not. NaN and an unset bound are neither. Every truthy bound is a number. |
| Search.HintGiven | src/app/home/home.component.ts:92 | `h && h !== ''`: a category hint was given. |
| Search.TargetPage | src/app/home/home.component.ts:92 | The page a filter edit navigates to: 1 when a hint is given, the requested page otherwise. |
| Search.CustomPriceText | src/app/home/home.component.ts:109 | The `customprice` text `"min,max"` is split and parsed back to the pair (min, max). |
| Search.ParseCustomPrice | src/app/home/home.component.ts:75-77 | `split(',')` and `parseInt` of the first two pieces. A maximum other than NaN is read only from text holding a comma. |
| Search.ParseCustomPricePair | src/app/home/home.component.ts:74-78 | Reading `"a,b"` sets min from a and max from b, for comma-free a and b. |
| Search.ParseCustomPriceNoComma | src/app/home/home.component.ts:74-78 | Reading text without a comma parses min from the whole text and makes max NaN, because `price[1]` is undefined. |
| Search.PageFromParams | src/app/home/home.component.ts:71-72 | The page is 1 when the `page` parameter is absent or empty. |
| Search.NonNumericPageIsNaN | src/app/home/home.component.ts:71 | A non-empty `page` parameter with no digit reads as NaN, not as page 1. |
| Search.PageFromParamsRoundTrip | src/app/home/home.component.ts:71-72 | A page parameter written as the decimal text of p reads back as p. |
| Search.BoundsFromParams | src/app/home/home.component.ts:74-78 | Without a non-empty `customprice` parameter, the bounds are the ones held before. With one, both bounds are set. |
| Search.BoundsFromParamsRoundTrip | src/app/home/home.component.ts:74-78 | A `customprice` parameter written as `"min,max"` reads back as (min, max), whatever bounds were held before. |
| Search.EmitsCustomPrice | src/app/home/home.component.ts:88-109 | Whether a filter edit attaches `customprice`: min is a number on entry, max is truthy, and the hint is not `price`. `EmitsCustomPriceAfterRules` ties it to line 109's test. |
| Search.EmitsCustomPriceAfterRules | src/app/home/home.component.ts:88-109 | `customprice` is attached exactly when min was a number on entry (0 included) and max is still non-zero after the price rules. min is read before the rules and max after them. |
| Search.PriceEditDropsRange | src/app/home/home.component.ts:98-109 | A `price` edit while a full range is held clears both bounds and navigates without `customprice`. |
| Search.NavigationParams | src/app/home/home.component.ts:105-109 | The navigation parameters are the serializer's output with `page` set to the target page: 1 when a category is named, the requested page otherwise. `customprice` is present exactly when emitted (or when the serializer wrote it), and when emitted it is the `"min,max"` text of the entry bounds. Every other key is the serializer's. |
| Search.NavigationRoundTrip | src/app/home/home.component.ts:71-109 | The parameters of a filter edit, read back by a query change, give the target page. They give the entry range when `customprice` was attached, and the bounds held otherwise. |
| Search.OtherHintKeepsBothPriceFilters | src/app/home/home.component.ts:94-109 | For every hint other than `price` and `customPrice` (none included), every selected band and every full custom range: the band, its price group and both bounds pass through unchanged, and `customprice` is still attached. |
| Home.HomeComponent.constructor | src/app/home/home.component.ts:21-37 | The initial state has empty groups, no band, page 1, `searchResult` and `loading` true, no bounds, no data and empty logs. |
| Home.HomeComponent.Filters | src/app/home/home.component.ts:103 | The merged filter object of the current groups, in the order of lines 103 and 120, as `CollectFilters` states. |
| Home.HomeComponent.OnQueryChange | src/app/home/home.component.ts:60-81 | A query change sets the groups and the band from the decoder's output, with an absent band becoming "". It reads the page and the bounds as `PageFromParams` and `BoundsFromParams` say. It rebuilds the price group and issues exactly one fetch with the new page, bounds and merged filters. |
| Home.HomeComponent.LoadQuery | src/app/home/home.component.ts:61-69 | The parameters are kept. The five groups and the band are those of the decoded query. |
| Home.HomeComponent.ReadPage | src/app/home/home.component.ts:71-72 | The page is the parsed `page` parameter, or 1 when it is absent or empty. |
| Home.HomeComponent.ReadCustomPrice | src/app/home/home.component.ts:74-78 | The bounds are those parsed from a non-empty `customprice`. Otherwise they are unchanged. |
| Home.HomeComponent.GetPage | src/app/home/home.component.ts:84-113 | A filter edit leaves the band, the price group and the bounds as `PriceRules` gives them. It records exactly one navigation to `NavigationParams` of the merged filters, with the entry bounds. With a `customPrice` edit, every merged key comes from a non-price group. Its `modifies` frame keeps the other groups, the page field and the fetch log unchanged. |
| Home.HomeComponent.ApplyPriceRules | src/app/home/home.component.ts:86-101 | The price step of a filter edit leaves the band, the price group and the bounds as `PriceRules` gives them. |
| Home.HomeComponent.GetResults | src/app/home/home.component.ts:115-121 | The price group becomes the band key set to true, even when the band is "". One fetch is issued with the current page, bounds and merged filters. |
| Home.HomeComponent.OnFetchComplete | src/app/home/home.component.ts:122-128 | `searchResult` is false exactly when the returned data is empty. `loading` becomes false. `data` and `totalItems` become the result's data and total. |
| Home.EditThenReload | src/app/home/home.component.ts:60-113 | After a filter edit and the query change that its navigation triggers, the page is the edit's target page. The bounds are those the price rules left. One fetch is issued with them. |

## Left out

- Angular wiring is not modelled: the component decorator, dependency injection and the `NgbRatingConfig` settings. They hold no logic.
- `window.scrollTo` and the window-width test are not modelled. They are a UI side effect that touches no field.
- `router.navigate` and the `queryParamMap` observable are not modelled. A navigation is recorded in the `navigations` log, and the subscription body is the method `OnQueryChange`.
- The HTTP call behind `getAllProducts` is not modelled, nor the ordering of overlapping fetches. A request is recorded in the `fetches` log, and its completion is the separate method `OnFetchComplete`.
- The query decoder and serializer are not modelled, because `home.service.ts` is not part of this model. They are arbitrary functions given to the constructor.
- Numbers are unbounded integers or NaN, while JavaScript numbers are doubles. Rounding above 2^53 is not modelled: `parseInt("9007199254740993", 10)` gives 9007199254740992, but `ParseInt` returns the exact integer. So the round trips through `IntToString`, `CustomPriceText` and `PageFromParamsRoundTrip` hold for every integer only in the model. Fractions, -0, and the exponent notation `${n}` writes for magnitudes of 1e21 and above are not modelled either.
- Numbers.ParseInt: only an optional minus sign followed by digits reads as a number. JavaScript's `parseInt` also skips leading white space, accepts '+', and stops at trailing junk ("12abc" reads as 12). The model reads those as NaN.
- The query parameter map is flat, one text per key. Repeated keys are not modelled.
- The model assumes the decoder returns the band as text or nothing (`DecodedQuery.price`). So the `typeof === 'string'` test at line 118 always holds here. A non-string band would leave `price` empty at line 118, which is not modelled.
- In the source the six groups, `queryParams`, the bounds, `data` and `totalItems` start undefined. The model starts the groups and `queryParams` as empty maps, which `Object.assign` treats the same, and the bounds, `data` and `totalItems` as `None`.
- The template's two-way bindings on the groups, the band and the bounds are not modelled as such: the caller writes those public fields before calling `GetPage`.
- Home.EditThenReload: requires the serializer never to write a `customprice` key, because the serializer's behaviour is not part of this model.
