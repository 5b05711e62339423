/**
  The facet panel of the category page (`components/ProductFilters.js`): it
  splits each property's value list into the first ten values and the rest,
  expands a facet on "show more", decides which checkboxes are shown and
  which are checked, and encodes the selection into one query parameter per
  property. The router, the redux store and the HTTP calls are left out; the
  selection after a toggle is an input.
 */
module ProductFilters {
  import opened Wrappers
  import opened Strings
  import ProductsApi

  /** How many values of a facet are shown before "show more". */
  const VISIBLE_LIMIT: nat := 10

  /** One facet entry of `allFilters`: the values shown first, the remaining
      values (absent for a short list) and whether they are collapsed. */
  datatype Facet = Facet(main: seq<string>, other: Option<seq<string>>, hidden: bool)

  function OtherItems(f: Facet): seq<string> {
    match f.other
    case Some(items) => items
    case None => []
  }

  /** The facet entry built for one property's value list (lines 105-111). */
  function SplitFacet(values: seq<string>): (f: Facet)
    ensures f.main + OtherItems(f) == values
    ensures |f.main| == if |values| > VISIBLE_LIMIT then VISIBLE_LIMIT else |values|
    ensures f.hidden <==> OtherItems(f) != []
    ensures f.other.Some? <==> |values| > VISIBLE_LIMIT
  {
    if |values| > VISIBLE_LIMIT then
      Facet(values[..VISIBLE_LIMIT], Some(values[VISIBLE_LIMIT..]), true)
    else
      Facet(values, None, false)
  }

  /** The facet after "show more": the same values, no longer collapsed. */
  function Expanded(f: Facet): Facet {
    f.(hidden := false)
  }

  /** `showOthers(filter)` as a function of the whole `allFilters` map. */
  function ShowOthersIn(filters: map<string, Facet>, filter: string): map<string, Facet>
    requires filter in filters
  {
    filters[filter := Expanded(filters[filter])]
  }

  /** The `allFilters` entries built from the page's `properties`. */
  function FacetsOf(properties: map<string, seq<string>>): map<string, Facet> {
    map k | k in properties :: SplitFacet(properties[k])
  }

  /** The values rendered as checkboxes: `main`, then `other` once expanded. */
  function VisibleItems(f: Facet): seq<string> {
    f.main + (if !f.hidden then OtherItems(f) else [])
  }

  /** Whether the "show more" button is rendered. */
  predicate ShowMoreButton(f: Facet) {
    f.hidden
  }

  // ---------------------------------------------------------------------------
  // Checkboxes

  datatype Checkbox = Checkbox(item: string, checked: bool)

  /** The rule for a value of `main` (lines 183-186): checked when the
      facet's selection is non-empty and includes the value. */
  predicate CheckedInMain(selected: map<string, seq<string>>, filter: string, item: string) {
    filter in selected && |selected[filter]| > 0 && item in selected[filter]
  }

  /** The rule for a value of `other` (lines 196-199): checked when the
      facet has a selection that includes the value. */
  predicate CheckedInOther(selected: map<string, seq<string>>, filter: string, item: string) {
    filter in selected && item in selected[filter]
  }

  /** The checkboxes rendered for one facet, in order. */
  function RenderFacet(filter: string, f: Facet, selected: map<string, seq<string>>): seq<Checkbox> {
    var others := if !f.hidden then OtherItems(f) else [];
    seq(|f.main|, i requires 0 <= i < |f.main| => Checkbox(f.main[i], CheckedInMain(selected, filter, f.main[i])))
      + seq(|others|, i requires 0 <= i < |others| => Checkbox(others[i], CheckedInOther(selected, filter, others[i])))
  }

  // ---------------------------------------------------------------------------
  // Query encoding

  /** One query parameter for a selected list (lines 142-146): the
      comma-join of several values, the sole value of one, and `undefined`
      (`None`) for an empty list. */
  function EncodeValues(values: seq<string>): Option<string> {
    if |values| > 1 then Some(Join(values, ','))
    else if |values| == 1 then Some(values[0])
    else None
  }

  /** The `queryFilters` object `runFilter` builds. */
  function QueryParams(filters: map<string, seq<string>>): map<string, Option<string>> {
    map k | k in filters :: EncodeValues(filters[k])
  }

  /** What reaches the endpoint: serialising the request body drops the
      `undefined` parameters. */
  function WireBody(params: map<string, Option<string>>): map<string, string> {
    map k | k in params && params[k].Some? :: params[k].value
  }

  /** The loop at lines 139-147 filling `queryFilters` one key at a time. */
  method EncodeQuery(filters: map<string, seq<string>>) returns (params: map<string, Option<string>>)
    ensures params == QueryParams(filters)
  {
    params := map[];
    var pending := filters.Keys;
    while pending != {}
      invariant pending <= filters.Keys
      invariant params.Keys == filters.Keys - pending
      invariant forall k | k in params :: params[k] == EncodeValues(filters[k])
      decreases pending
    {
      var key :| key in pending;
      var values := filters[key];
      if |values| > 1 {
        params := params[key := Some(Join(values, ','))];
      } else {
        params := params[key := if |values| == 1 then Some(values[0]) else None];
      }
      pending := pending - {key};
    }
  }

  // ---------------------------------------------------------------------------
  // Component state

  /** The component's state: the facet entries and the current selection. */
  class FilterPanel {
    var allFilters: map<string, Facet>
    var selectedFilters: map<string, seq<string>>

    /** `useState({})` for both. */
    constructor ()
      ensures allFilters == map[] && selectedFilters == map[]
    {
      allFilters := map[];
      selectedFilters := map[];
    }

    /** The effect at lines 101-119: one `setAllFilters` per property,
        replacing that property's entry and keeping every other entry. */
    method LoadProperties(properties: map<string, seq<string>>)
      modifies this
      ensures allFilters == old(allFilters) + FacetsOf(properties)
      ensures selectedFilters == old(selectedFilters)
    {
      var pending := properties.Keys;
      while pending != {}
        invariant pending <= properties.Keys
        invariant selectedFilters == old(selectedFilters)
        invariant allFilters.Keys == old(allFilters).Keys + (properties.Keys - pending)
        invariant forall k | k in allFilters ::
          allFilters[k] == if k in properties && k !in pending then SplitFacet(properties[k]) else old(allFilters)[k]
        decreases pending
      {
        var property :| property in pending;
        var values := properties[property];
        var updated;
        if |values| > VISIBLE_LIMIT {
          updated := Facet(values[..VISIBLE_LIMIT], Some(values[VISIBLE_LIMIT..]), true);
        } else {
          updated := Facet(values, None, false);
        }
        allFilters := allFilters[property := updated];
        pending := pending - {property};
      }
      assert allFilters == old(allFilters) + FacetsOf(properties);
    }

    /** `showOthers(filter)`: the button is rendered only for an existing facet. */
    method ShowOthers(filter: string)
      requires filter in allFilters
      modifies this
      ensures allFilters == ShowOthersIn(old(allFilters), filter)
      ensures selectedFilters == old(selectedFilters)
    {
      var updated := allFilters[filter].(hidden := false);
      allFilters := allFilters[filter := updated];
    }

    /** `runFilter` once `useUpdateFilters` has produced `filters`: the
        selection becomes `filters` and the query parameters encode it. */
    method RunFilter(filters: map<string, seq<string>>) returns (params: map<string, Option<string>>)
      modifies this
      ensures selectedFilters == filters && allFilters == old(allFilters)
      ensures params == QueryParams(filters)
    {
      params := EncodeQuery(filters);
      selectedFilters := filters;
    }
  }

  // ---------------------------------------------------------------------------
  // Properties

  /** A collapsed facet shows its first ten values and the button; after
      "show more" it shows every value and no button. */
  lemma FacetVisibility(values: seq<string>)
    ensures VisibleItems(SplitFacet(values)) == values[..if |values| > VISIBLE_LIMIT then VISIBLE_LIMIT else |values|]
    ensures ShowMoreButton(SplitFacet(values)) <==> |values| > VISIBLE_LIMIT
    ensures VisibleItems(Expanded(SplitFacet(values))) == values
    ensures !ShowMoreButton(Expanded(SplitFacet(values)))
  {
    if |values| <= VISIBLE_LIMIT {
      assert values[..|values|] == values;
    }
  }

  /** `showOthers` expands one facet, keeping its values, and leaves every
      other facet as it was; doing it twice is doing it once. */
  lemma ShowOthersExpandsOnlyOne(filters: map<string, Facet>, filter: string)
    requires filter in filters
    ensures ShowOthersIn(filters, filter).Keys == filters.Keys
    ensures var f := ShowOthersIn(filters, filter)[filter];
      f.main == filters[filter].main && f.other == filters[filter].other && !f.hidden
    ensures forall g | g in filters && g != filter :: ShowOthersIn(filters, filter)[g] == filters[g]
    ensures ShowOthersIn(ShowOthersIn(filters, filter), filter) == ShowOthersIn(filters, filter)
  {
  }

  /** Loading the properties gives every property its split entry and keeps
      the entries of facets not among them. */
  lemma LoadedFacets(previous: map<string, Facet>, properties: map<string, seq<string>>)
    ensures (previous + FacetsOf(properties)).Keys == previous.Keys + properties.Keys
    ensures forall k | k in properties :: (previous + FacetsOf(properties))[k] == SplitFacet(properties[k])
    ensures forall k | k in previous && k !in properties :: (previous + FacetsOf(properties))[k] == previous[k]
  {
  }

  /** The two checked rules agree: a value is checked iff the facet's
      selection includes it. */
  lemma CheckedIffSelected(selected: map<string, seq<string>>, filter: string, item: string)
    ensures CheckedInMain(selected, filter, item) <==> filter in selected && item in selected[filter]
    ensures CheckedInOther(selected, filter, item) <==> filter in selected && item in selected[filter]
  {
  }

  /** The checkboxes of a facet are its visible values, in order, each
      checked iff it is selected. */
  lemma RenderFacetShowsSelection(filter: string, f: Facet, selected: map<string, seq<string>>)
    ensures |RenderFacet(filter, f, selected)| == |VisibleItems(f)|
    ensures forall i | 0 <= i < |VisibleItems(f)| ::
      RenderFacet(filter, f, selected)[i].item == VisibleItems(f)[i] &&
      (RenderFacet(filter, f, selected)[i].checked <==>
        filter in selected && VisibleItems(f)[i] in selected[filter])
  {
    var boxes := RenderFacet(filter, f, selected);
    var items := VisibleItems(f);
    forall i | 0 <= i < |items|
      ensures boxes[i].item == items[i] && (boxes[i].checked <==> filter in selected && items[i] in selected[filter])
    {
      CheckedIffSelected(selected, filter, items[i]);
    }
  }

  /** A non-empty list is sent as its comma-join. */
  lemma EncodeIsJoin(values: seq<string>)
    requires |values| >= 1
    ensures EncodeValues(values) == Some(Join(values, ','))
  {
  }

  /** Splitting a parameter on ',' recovers the selected values when none of
      them contains a comma. */
  lemma EncodeSplitRoundTrip(values: seq<string>)
    requires |values| >= 1
    requires forall i | 0 <= i < |values| :: ',' !in values[i]
    ensures EncodeValues(values).Some?
    ensures Split(EncodeValues(values).value, ',') == values
  {
    EncodeIsJoin(values);
    SplitJoin(values, ',');
  }

  /** The body the endpoint receives: a key whose list is non-empty carries
      its values joined by commas, and a key whose list was emptied is absent. */
  lemma WireBodyAt(filters: map<string, seq<string>>, k: string)
    ensures k in WireBody(QueryParams(filters)) <==> k in filters && |filters[k]| >= 1
    ensures k in WireBody(QueryParams(filters)) ==>
      WireBody(QueryParams(filters))[k] == Join(filters[k], ',')
  {
    if k in filters && |filters[k]| >= 1 {
      EncodeIsJoin(filters[k]);
    }
  }

  /** What reaches the endpoint: after encoding, sending and the endpoint's
      rewrite, each property with selected values filters on exactly those
      values at `properties.k`, a property whose list was emptied yields no
      filter, and a selected range arrives as the range the endpoint reads. */
  lemma SelectionReachesEndpoint(filters: map<string, seq<string>>, keys: seq<string>)
    requires forall k | k in filters && k != ProductsApi.RANGE_KEY ::
      forall i | 0 <= i < |filters[k]| :: ',' !in filters[k][i]
    requires forall k | k in filters :: !StartsWith(k, ProductsApi.PROPERTIES_PREFIX)
    requires ProductsApi.Enumerates(keys, WireBody(QueryParams(filters)).Keys)
    ensures var body := WireBody(QueryParams(filters));
      && (ProductsApi.RANGE_KEY in filters && |filters[ProductsApi.RANGE_KEY]| >= 1 ==>
            ProductsApi.RangeOf(body) == Some(Join(filters[ProductsApi.RANGE_KEY], ',')))
      && ProductsApi.RewriteKeys(ProductsApi.InitialQuery(body), keys).Ok?
      && var rewritten := ProductsApi.RewriteKeys(ProductsApi.InitialQuery(body), keys).value;
      && (forall k | k in filters :: k !in rewritten)
      && (forall k | k in filters && k != ProductsApi.RANGE_KEY && |filters[k]| >= 1 ::
            ProductsApi.PROPERTIES_PREFIX + k in rewritten &&
            rewritten[ProductsApi.PROPERTIES_PREFIX + k] == ProductsApi.List(filters[k]))
      && (forall k | k in filters && |filters[k]| == 0 :: ProductsApi.PROPERTIES_PREFIX + k !in rewritten)
  {
    var body := WireBody(QueryParams(filters));
    WireBodyAt(filters, ProductsApi.RANGE_KEY);
    assert ProductsApi.NoPropertyPathKey(body) by {
      forall k | k in body ensures !StartsWith(k, ProductsApi.PROPERTIES_PREFIX) {
        WireBodyAt(filters, k);
      }
    }
    ProductsApi.RewriteBuildsPropertyFilters(body, keys);
    var rewritten := ProductsApi.PropertyFilters(body);
    forall k | k in filters ensures k !in rewritten {
      ProductsApi.PropertyFiltersAt(body, k);
    }
    forall k | k in filters && k != ProductsApi.RANGE_KEY && |filters[k]| >= 1
      ensures ProductsApi.PROPERTIES_PREFIX + k in rewritten
      ensures rewritten[ProductsApi.PROPERTIES_PREFIX + k] == ProductsApi.List(filters[k])
    {
      WireBodyAt(filters, k);
      EncodeSplitRoundTrip(filters[k]);
      ProductsApi.PropertyFiltersAt(body, ProductsApi.PROPERTIES_PREFIX + k);
      ProductsApi.PrefixedKeyHasPrefix(k);
    }
    forall k | k in filters && |filters[k]| == 0
      ensures ProductsApi.PROPERTIES_PREFIX + k !in rewritten
    {
      WireBodyAt(filters, k);
      ProductsApi.PropertyFiltersAt(body, ProductsApi.PROPERTIES_PREFIX + k);
      ProductsApi.PrefixedKeyHasPrefix(k);
    }
  }

  /** A selected value that contains a comma is lost: "i5,10th" is sent as
      is, the endpoint splits it into two values, and a product whose
      property is "i5,10th" no longer matches its own value. */
  lemma CommaValueIsLost()
    ensures WireBody(QueryParams(map["cpu" := ["i5,10th"]])) == map["cpu" := "i5,10th"]
    ensures ProductsApi.RewriteKeys(ProductsApi.InitialQuery(map["cpu" := "i5,10th"]), ["cpu"]) ==
      Ok(map["properties.cpu" := ProductsApi.List(["i5", "10th"])])
    ensures !ProductsApi.ConditionHolds(ProductsApi.Product("c", 1, None, map["cpu" := "i5,10th"]),
                                        "properties.cpu", ProductsApi.List(["i5", "10th"]))
  {
    var filters := map["cpu" := ["i5,10th"]];
    forall k ensures k in WireBody(QueryParams(filters)) <==> k == "cpu" {
      WireBodyAt(filters, k);
    }
    WireBodyAt(filters, "cpu");
    assert Join(["i5,10th"], ',') == "i5,10th";
    CommaValueSplits();
    CommaValueRewrite();
    CommaValueUnmatched();
  }

  /** The product holding "i5,10th" fails the filter on its two pieces. */
  lemma CommaValueUnmatched()
    ensures !ProductsApi.ConditionHolds(ProductsApi.Product("c", 1, None, map["cpu" := "i5,10th"]),
                                        "properties.cpu", ProductsApi.List(["i5", "10th"]))
  {
    var p := ProductsApi.Product("c", 1, None, map["cpu" := "i5,10th"]);
    ProductsApi.PathValueOfProperty(p, "cpu", "");
    assert ProductsApi.PROPERTIES_PREFIX + "cpu" == "properties.cpu";
    assert ProductsApi.PathValue(p, "properties.cpu") == Some("i5,10th");
    assert "i5,10th" != "i5" && "i5,10th" != "10th";
  }

  /** The comma-split of "i5,10th". */
  lemma CommaValueSplits()
    ensures Split("i5,10th", ',') == ["i5", "10th"]
  {
    assert "i5" + [','] + "10th" == "i5,10th";
    SplitAtSeparator("i5", ',', "10th");
    SplitWithoutSeparator("10th", ',');
  }

  /** The rewrite of a body holding only "cpu": "i5,10th". */
  lemma CommaValueRewrite()
    requires Split("i5,10th", ',') == ["i5", "10th"]
    ensures ProductsApi.RewriteKeys(ProductsApi.InitialQuery(map["cpu" := "i5,10th"]), ["cpu"]) ==
      Ok(map["properties.cpu" := ProductsApi.List(["i5", "10th"])])
  {
    assert ProductsApi.PROPERTIES_PREFIX + "cpu" == "properties.cpu";
    var q := ProductsApi.InitialQuery(map["cpu" := "i5,10th"]);
    assert q == map["cpu" := ProductsApi.Scalar("i5,10th")];
    var added := q["properties.cpu" := ProductsApi.List(["i5", "10th"])];
    assert ProductsApi.RewriteKey(q, "cpu") == Ok(added - {"cpu"});
    assert added - {"cpu"} == map["properties.cpu" := ProductsApi.List(["i5", "10th"])];
    assert ["cpu"][..0] == [];
    assert ProductsApi.RewriteKeys(q, ["cpu"]) == ProductsApi.RewriteKey(q, "cpu");
  }
}
