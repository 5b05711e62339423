# Catalog filtering: a Dafny model

This project models the product-filtering core of a storefront's category
page. It has two parts.

- **The filter endpoint** (`pages/api/products.js`, module `ProductsApi`).
  The endpoint receives the shopper's selection and the current category.
  It reads an optional `"min-max"` price range, rewrites each other
  selection key `k` into a `properties.k` filter in place, and collects
  the category's id, its children's ids and its grandchildren's ids. It
  then returns the catalog products that match the categories, the
  property filters and the price test.
- **The facet panel** (`components/ProductFilters.js`, module
  `ProductFilters`). The panel turns each property's value list into a
  facet entry: the first ten values, the rest, and a "collapsed" flag.
  "Show more" expands one facet. The panel decides which checkboxes are
  shown and which are checked. It encodes the selection as one query
  parameter per property: the comma-join of the values.

Two helper modules support these. `Strings` holds JavaScript's
`split`/`join` on one separator character and the store's cast of a
price bound to a number. `Wrappers` holds `Option` and `Result`.

The store is replaced by values: `fetched` is what the children lookup
returns and `catalog` is the product collection. The selection's
`Object.keys` order is the explicit `keys` sequence. The rewrite loop
mutates the selection in place, so it is a method of the class
`QueryDocument`, proved against the function `RewriteKeys`. The panel's
state (`allFilters`, `selectedFilters`) is the class `FilterPanel`.

The headline results are these.

- `RewriteBuildsPropertyFilters`: whatever order the keys come in, the
  rewrite leaves exactly `properties.k ↦ split(value, ',')` for every
  key other than `Range`.
- `CategoryIdsTwoLevels`: collection reaches exactly two levels down.
- `ResponseSelectsMatchingProducts`: the endpoint's answer, product by
  product.
- `SelectionReachesEndpoint`: when no selected value contains a comma,
  each property with selected values arrives at the endpoint as a
  filter on exactly those values. A property whose list was emptied
  yields no filter, and the range arrives as the range the endpoint
  reads. `CommaValueIsLost` shows why the comma condition is needed: a
  value "i5,10th" arrives as the two values "i5" and "10th", and a
  product holding "i5,10th" no longer matches it.

The rewrite loop has one edge case. A selection key that is itself a
property path (`properties.a` next to `a`) makes the loop depend on key
order: one order throws a `TypeError`. `PropertyPathKeyCollision`
exhibits it, so the main theorem assumes no such key.

## Behaviour of note

- Category collection stops at grandchildren and keeps duplicate ids.
- Each price bound may be met by either the sale price or the base
  price. `PriceTestAdmitsEffectivePrice` proves that every product whose
  effective price is in range passes. It also shows a product that
  passes although its effective price is out of range.
- Every selection key other than `Range` becomes a filter. Keys are not
  checked against the category's declared attributes.
- Collected category ids and selected values are not deduplicated.
- A selected value that contains ',' is split apart by the endpoint,
  so that value can never be matched (`CommaValueIsLost`).
- A property whose selected list becomes empty is sent as `undefined`.
  Serialising the body drops it, so it yields no filter.

## Model

| member | source | states |
|---|---|---|
| `Strings.SplitJoin` | pages/api/products.js:16 | splitting a comma-join on ',' gives back the joined values when none contains a comma |
| `Strings.JoinSplit` | pages/api/products.js:16 | joining the pieces of a split gives back the original string |
| `ProductsApi.RangePart` | pages/api/products.js:9-10 | a given bound is exactly the index-th dash-separated piece of the range, and is non-empty and dash-free; the default is used iff there is no range, no such piece, or the piece is empty |
| `ProductsApi.RangeOfTwoParts` | pages/api/products.js:9-10 | for "a-b", min is a and max is b; an empty a gives 0 and an empty b gives the sentinel |
| `ProductsApi.RangeOfOnePart` | pages/api/products.js:9-10 | a range without a dash gives the sentinel as max; no range gives 0 and the sentinel |
| `Strings.DecimalRoundTrip` | pages/api/products.js:38-40 | the store's cast reads a number printed in decimal back as that number |
| `ProductsApi.PrintedRangeBounds` | pages/api/products.js:9-10 | a range printed as "m-n" gives the price bounds m and n |
| `ProductsApi.RewriteKey` | pages/api/products.js:15-18 | one pass deletes its key; its only failure is a TypeError (splitting a missing value or an array) |
| `ProductsApi.RewriteKeys` | pages/api/products.js:14-19 | the loop can fail only with a TypeError |
| `ProductsApi.RewriteErrorPersists` | pages/api/products.js:14-19 | once a pass throws, the whole loop has thrown |
| `ProductsApi.QueryDocument.constructor` | pages/api/products.js:7 | the selection starts as the request's strings |
| `ProductsApi.QueryDocument.RewriteAll` | pages/api/products.js:14-19 | the in-place loop succeeds iff the rewrite succeeds, leaving exactly its result; on failure it reports the rewrite's error |
| `ProductsApi.RewriteKeyAt` | pages/api/products.js:15-18 | one pass removes its key, adds the key's property path with the split value, and keeps every other entry |
| `ProductsApi.RewriteDoneAt` | pages/api/products.js:14-19 | after some passes, unreached keys keep their strings, reached keys are gone, and their paths hold the split values |
| `ProductsApi.PropertyFiltersAt` | pages/api/products.js:14-19 | a filter key is exactly `properties.k` for a non-Range key k, and holds k's comma-split value |
| `ProductsApi.RewriteBuildsPropertyFilters` | pages/api/products.js:14-19 | without property-path keys, the loop yields exactly the property filters in every key order |
| `ProductsApi.PropertyFiltersShape` | pages/api/products.js:14-19 | no original key survives, Range yields no filter, and each other key k maps to split(value, ',') under `properties.k` |
| `ProductsApi.PropertyPathKeyCollision` | pages/api/products.js:14-19 | with keys "a" and "properties.a", one key order throws and the other succeeds |
| `ProductsApi.CollectCategories` | pages/api/products.js:21-33 | the pushed array equals the requested id, the children, then each fetched child's children; an absent child list throws |
| `ProductsApi.GrandchildCount` | pages/api/products.js:25-33 | the grandchild part has one entry per child id of each fetched child |
| `ProductsApi.CategoryIdsLength` | pages/api/products.js:23-33 | the array starts with the id and the children in order; its length is 1 + the number of children + the sum of the grandchild counts (no deduplication) |
| `ProductsApi.GrandchildMember` | pages/api/products.js:25-33 | an id is among the grandchild ids iff some fetched child lists it |
| `ProductsApi.CategoryIdsTwoLevels` | pages/api/products.js:21-33 | an id is collected iff it is the category, a child, or a child of a child held by the store; nothing deeper |
| `ProductsApi.PathValueOfProperty` | pages/api/products.js:36 | the path `properties.k` reads property k when the product has it and nothing otherwise; a path without the prefix reads nothing |
| `ProductsApi.Selected` | pages/api/products.js:34-42 | a product is selected iff it is in the catalog and matches; there are never more results than products |
| `ProductsApi.PriceTestWithoutSale` | pages/api/products.js:37-41 | without a sale price, a product passes iff min <= price <= max |
| `ProductsApi.PriceTestOnSale` | pages/api/products.js:37-41 | a sale price in [min, max] passes whatever the base price |
| `ProductsApi.PriceTestAdmitsEffectivePrice` | pages/api/products.js:37-41 | an effective price in range passes; sale 40 with price 200 passes [60, 100] although 40 is out of range |
| `ProductsApi.Handle` | pages/api/products.js:5-43 | the handler answers what the endpoint's response function gives, errors included |
| `ProductsApi.ResponseSelectsMatchingProducts` | pages/api/products.js:5-43 | for a well-formed request, a product is returned iff it is in the catalog, in a collected category, has each selected property with one of its values, and passes the price test |
| `ProductFilters.SplitFacet` | components/ProductFilters.js:105-111 | main followed by other is the value list; main has min(n, 10) values; collapsed iff there are overflow values iff n > 10 |
| `ProductFilters.FacetVisibility` | components/ProductFilters.js:182-208 | a collapsed facet shows its first ten values and the button; after expansion it shows all values and no button |
| `ProductFilters.FilterPanel.constructor` | components/ProductFilters.js:88-89 | both facets and selection start empty |
| `ProductFilters.FilterPanel.LoadProperties` | components/ProductFilters.js:101-119 | every property gets its split entry and other entries stay; the selection is unchanged |
| `ProductFilters.LoadedFacets` | components/ProductFilters.js:103-116 | the loaded keys are the old keys plus the properties, each property's entry is its split, and other entries are unchanged |
| `ProductFilters.FilterPanel.ShowOthers` | components/ProductFilters.js:122-133 | only the named facet is expanded; the selection is unchanged |
| `ProductFilters.ShowOthersExpandsOnlyOne` | components/ProductFilters.js:122-133 | the facet keeps main and other and is no longer collapsed; other facets are untouched; applying it twice is applying it once |
| `ProductFilters.EncodeQuery` | components/ProductFilters.js:139-147 | every selected key gets its encoded parameter and no other key is added |
| `ProductFilters.FilterPanel.RunFilter` | components/ProductFilters.js:135-150 | the selection becomes the toggled selection, the facets stay, and the parameters encode it |
| `ProductFilters.EncodeIsJoin` | components/ProductFilters.js:142-146 | a non-empty list, of one value or of several, is sent as its comma-join |
| `ProductFilters.EncodeSplitRoundTrip` | components/ProductFilters.js:141-147 | splitting the parameter on ',' recovers the values when none contains a comma |
| `ProductFilters.WireBodyAt` | components/ProductFilters.js:139-166 | the body sent holds a key iff its list is non-empty, and then holds the comma-join of the list |
| `ProductFilters.SelectionReachesEndpoint` | components/ProductFilters.js:139-166 | when no non-range value contains a comma: the range arrives as the joined range, no selection key survives the rewrite, each property with values filters on exactly them, and an emptied property yields no filter |
| `ProductFilters.CommaValueIsLost` | components/ProductFilters.js:139-166 | the value "i5,10th" is sent as is, rewritten into the two values "i5" and "10th", and no longer matched by a product holding "i5,10th" |
| `ProductFilters.CheckedIffSelected` | components/ProductFilters.js:183-199 | both checked rules mean: the facet's selection includes the value |
| `ProductFilters.RenderFacetShowsSelection` | components/ProductFilters.js:179-209 | a facet's checkboxes are its visible values in order, each checked iff selected |

## Left out

- The store calls are not modelled as calls: `mongooseConnect`,
  `Category.find` and `Product.find`. Their answers are inputs (`fetched`,
  `catalog`), and `Product.find` is modelled as an in-order filter of
  the catalog.
- Several client calls are left out: `axios.post`, `router.push`, redux
  `dispatch`/`useSelector` and `console.log`. Serialising the request
  body is modelled only in one respect: it drops `undefined` parameters
  (`WireBody`).
- `useUpdateFilters` and the `Range` component are not part of this
  model. The toggled selection is an input of `FilterPanel.RunFilter`.
- The effect at components/ProductFilters.js:96-99 is left out. It only
  copies the category name and the stored selection into state.
- The markup, the styles and components/ProductCard.js are left out.
  They are presentation only.
- `MAX_SENTINEL` is the integer 99999999999999999999. In JavaScript
  that literal is the double 1e20. Prices and bounds are integers,
  because floating point is not modelled.
- `BoundValue` casts only non-empty digit strings. The store's other
  numeric forms (decimals, exponents, surrounding blanks) are treated
  as cast failures.
- `ProductsApi.Matches` treats an array filter value as membership, the
  way Mongoose casts it to `$in`. Property names containing '.' would
  be read as nested paths by the store; the model reads them as one
  name.
- The `all: true` flag sent at components/ProductFilters.js:167 is never
  read by the endpoint. No sort, limit or count appears there, so
  pagination and counting are not modelled.
- `ProductFilters.FilterPanel.ShowOthers` requires the facet to exist.
  Its only caller is the button rendered for an existing facet. On a
  missing facet the code would build an entry without `main`.
