/**
 * The filter objects of the search page: one facet group per category
 * (brand, os, price, processor, ram, storage), each an object from facet key
 * to checkbox value, the `Object.assign` merge that collects them, and the
 * list of discrete price bands.
 */
module Facets {

  /** A facet group: facet key to the value of its checkbox. */
  type FacetGroup = map<string, bool>

  /** A flat query-parameter map, key to text. */
  type QueryParams = map<string, string>

  /** `Object.assign({}, g0, g1, ...)`: later groups overwrite earlier ones. */
  function MergeGroups(groups: seq<FacetGroup>): (m: FacetGroup)
    // the last group's entries all survive the merge unchanged
    ensures |groups| > 0 ==> forall k :: k in groups[|groups| - 1] ==> k in m && m[k] == groups[|groups| - 1][k]
  {
    if groups == [] then map[]
    else MergeGroups(groups[..|groups| - 1]) + groups[|groups| - 1]
  }

  /** The merge holds every key of every group and no other key. */
  lemma {:induction false} MergeGroupsKeys(groups: seq<FacetGroup>, k: string)
    ensures k in MergeGroups(groups) <==> InSomeGroup(groups, k)
  {
    if groups != [] {
      var init := groups[..|groups| - 1];
      MergeGroupsKeys(init, k);
      if InSomeGroup(groups, k) && k !in groups[|groups| - 1] {
        var i :| 0 <= i < |groups| && k in groups[i];
        assert init[i] == groups[i];
      }
      if InSomeGroup(init, k) {
        var i :| 0 <= i < |init| && k in init[i];
        assert init[i] == groups[i];
      }
    }
  }

  /** Each key carries the value of the last group holding it. */
  lemma {:induction false} MergeGroupsLastWins(groups: seq<FacetGroup>, i: int, k: string)
    requires LastHolder(groups, i, k)
    ensures k in MergeGroups(groups) && MergeGroups(groups)[k] == groups[i][k]
  {
    var init := groups[..|groups| - 1];
    if i < |init| {
      assert init[i] == groups[i];
      forall j | i < j < |init| ensures k !in init[j] {
        assert init[j] == groups[j];
      }
      MergeGroupsLastWins(init, i, k);
    }
  }

  /** The controller's filter object, `Object.assign({}, brand, os, price,
      processor, ram, storage)`, written as the union of the six groups. */
  function CollectFilters(brand: FacetGroup, os: FacetGroup, price: FacetGroup,
                          processor: FacetGroup, ram: FacetGroup, storage: FacetGroup): (m: FacetGroup)
    ensures m.Keys == brand.Keys + os.Keys + price.Keys + processor.Keys + ram.Keys + storage.Keys
    // storage is merged last, so its entries win every clash
    ensures forall k :: k in storage ==> m[k] == storage[k]
  {
    brand + os + price + processor + ram + storage
  }

  /** The six-group union is the general merge of the six groups in that order,
      so it keeps every key of every group and the value of the last one. */
  lemma CollectFiltersIsMerge(brand: FacetGroup, os: FacetGroup, price: FacetGroup,
                              processor: FacetGroup, ram: FacetGroup, storage: FacetGroup)
    ensures CollectFilters(brand, os, price, processor, ram, storage)
            == MergeGroups([brand, os, price, processor, ram, storage])
  {
    var gs := [brand, os, price, processor, ram, storage];
    assert gs[..5] == [brand, os, price, processor, ram];
    assert [brand, os, price, processor, ram][..4] == [brand, os, price, processor];
    assert [brand, os, price, processor][..3] == [brand, os, price];
    assert [brand, os, price][..2] == [brand, os];
    assert [brand, os][..1] == [brand];
    assert [brand][..0] == [];
    assert MergeGroups([brand]) == brand;
    assert MergeGroups([brand, os]) == brand + os;
    assert MergeGroups([brand, os, price]) == brand + os + price;
    assert MergeGroups([brand, os, price, processor]) == brand + os + price + processor;
    assert MergeGroups([brand, os, price, processor, ram]) == brand + os + price + processor + ram;
  }

  /** Some group holds key `k`. */
  predicate InSomeGroup(groups: seq<FacetGroup>, k: string) {
    exists i :: 0 <= i < |groups| && k in groups[i]
  }

  /** Group `i` is the last group that holds key `k`. */
  predicate LastHolder(groups: seq<FacetGroup>, i: int, k: string) {
    0 <= i < |groups| && k in groups[i] && forall j :: i < j < |groups| ==> k !in groups[j]
  }

  /** The price group rebuilt from the selected band: the band's key set to
      true when a band is selected (non-empty), and nothing otherwise. */
  function BandFilter(option: string): (g: FacetGroup)
    ensures forall k :: k in g <==> option != "" && k == option
    ensures forall k :: k in g ==> g[k]
  {
    if option != "" then map[option := true] else map[]
  }

  /** One entry of the price-band list: the label shown and the facet key. */
  datatype PriceBand = PriceBand(name: string, value: string)

  /** The discrete price bands offered, in display order. */
  const FilterPrice: seq<PriceBand> := [
    PriceBand("Under $500", "isUnder500"),
    PriceBand("$500 to $600", "is500to600"),
    PriceBand("$600 to $700", "is600to700"),
    PriceBand("$700 to $800", "is700to800"),
    PriceBand("$800 to $900", "is800to900"),
    PriceBand("$900 to $1000", "is900to1000"),
    PriceBand("Above $1000", "isAbove1000"),
    PriceBand("All Results", "isAllResults")
  ]

  /** There are eight bands with distinct keys, and selecting any of them
      yields a price group holding exactly that key. */
  lemma FilterPriceBands()
    ensures |FilterPrice| == 8
    ensures forall i, j :: 0 <= i < j < |FilterPrice| ==> FilterPrice[i].value != FilterPrice[j].value
    ensures forall i :: 0 <= i < |FilterPrice| ==>
      BandFilter(FilterPrice[i].value) == map[FilterPrice[i].value := true]
  {
  }
}
