# Product API core, modelled in Dafny

A small Express API serves CRUD operations over an in-memory list of
product records. This project models its core:

- the record store (`data/store.js`): a list seeded with three products,
  read by `getAll`/`getById` and changed by `create`, `update` and `remove`.
  It is the class `Store.ProductStore`, with a `seq<Record>` field and one
  method per operation;
- the request handlers (`controllers/productsController.js`): the listing
  query (case-insensitive name search, exact category filter, clamped
  `page`/`limit`, slicing), the per-category statistics (a loop building a
  tally map), and the lookup/create/update/delete handlers with their
  existence check. Handlers return their response or the error they pass
  to `next`;
- the error boundary (`errors/errorHandler.js`) and the API-key middleware
  (`middleware/auth.js`), as total functions.

A record is a `map<string, Value>`. That makes `Object.assign` a
right-biased map union (`Records.Assign`). Lookups compare the `id` field
with `===` against a string (`Records.HasId`), so a record whose `id` is not
that exact string never matches.

The code behaves as follows, and the model keeps this behaviour:

- Ids are not kept unique. `create` appends whatever it is given. A request
  body that carries an `id` overrides the generated one, because the body is
  assigned after `{ id: uuidv4() }`. `update` and `remove` act on every
  record with the id. `Store.CreateDuplicate` and
  `ProductsController.CreateWithTakenId` show the result: after a duplicate
  create, lookups still return the older record.
- A `limit` that parses to 0 falls back to the default 10, not to 1,
  because `parseInt(...) || 10` treats 0 as missing. A `page` of 0 gives 1.
- When a search is given, the filter reads `p.name.toLowerCase()` for every
  product. A product whose `name` is not a string makes this throw, and the
  client gets a 500. `ProductsController.ListProducts` returns that error.
- An empty `search` or `category` string applies no filter, because an
  empty string is falsy.
- A `PUT` whose body carries a different `id` renames the record. A lookup
  of the path id then finds nothing (`ProductsController.UpdateThenGet`).

Inputs the code gets from outside are parameters: the uuid of a new
product (`freshId`), the parsed `page`/`limit` (`Option<int>`, where `None`
stands for missing or NaN), the `x-api-key` header (`Option<string>`) and
the `API_KEY` environment value (`Option<string>`).

## Model

| member | source | states |
|---|---|---|
| `Store.ProductStore.constructor` | data/store.js:5-30 | the store starts with the seed list |
| `Store.SeedFacts` | data/store.js:5-30 | the seed has three records with ids '1', '2', '3', pairwise distinct, two in 'electronics' and one in 'kitchen' |
| `Store.ProductStore.GetAll` | data/store.js:32-34 | returns a sequence equal to the stored list, same elements and order, and changes nothing |
| `Store.Find` | data/store.js:36-38 | a found record is in the list and carries the id |
| `Store.FindAbsent` | data/store.js:36-38 | lookup gives nothing exactly when no record carries the id |
| `Store.FindFirst` | data/store.js:36-38 | lookup returns the first record that carries the id |
| `Store.FindIndex` | data/store.js:36-38 | a found record sits at an index before which no record carries the id |
| `Store.ProductStore.GetById` | data/store.js:36-38 | the linear scan returns the first-match lookup and changes nothing |
| `Store.ProductStore.Create` | data/store.js:40-42 | appends at the end: length grows by one and every earlier record stays in place |
| `Store.FindAfterCreate` | data/store.js:36-42 | after appending a record with a new id, lookup of that id returns it |
| `Store.CreateDuplicate` | data/store.js:36-42 | appending a record with an id already present is allowed; lookup still returns the older record and the id occurs once more |
| `Store.ProductStore.Update` | data/store.js:44-46 | same length and order; every record with the id becomes `u`, every other record is unchanged |
| `Store.UpdateAbsent` | data/store.js:44-46 | update with an id that matches nothing leaves the list identical |
| `Store.FindAfterUpdate` | data/store.js:36-46 | after an update, lookup gives the new record if it keeps the id, and nothing if it carries another id |
| `Store.ProductStore.Remove` | data/store.js:48-50 | keeps exactly the records with another id, in order; length drops by the number of matches; lookup then gives nothing |
| `Store.RemoveDropsId` | data/store.js:48-50 | after remove no record carries the id, and a record survives exactly when it was there with another id |
| `Store.RemoveLength` | data/store.js:48-50 | remove shortens the list by the number of matches, and leaves it identical when the id is absent |
| `Store.OccurrencesZero` | data/store.js:36-50 | the id occurs zero times exactly when lookup finds nothing |
| `Records.Assign` | controllers/productsController.js:60 | the merged record has the fields of both; body fields win; other existing fields are kept |
| `Records.CategoryKey` | controllers/productsController.js:83 | the tally key of a product: a string category is itself, a missing one is "undefined", `null` is "null", a boolean is "true"/"false", an object is "[object Object]", and an integer is its decimal digits without leading zeros, which read back give that integer (with a leading "-" when negative) |
| `Records.KeyCollisions` | controllers/productsController.js:83 | different category values can share a key: the number 5 and the string "5", a missing category and the string "undefined", `null` and the string "null" |
| `Records.Lower` | controllers/productsController.js:15-16 | lower-casing keeps the length, maps each character, and leaves no upper-case ASCII letter |
| `ProductsController.EffectivePage` | controllers/productsController.js:25 | page is at least 1; missing, NaN or 0 give 1; negatives give 1; positives are kept |
| `ProductsController.EffectiveLimit` | controllers/productsController.js:26 | limit is at least 1; missing, NaN or 0 give 10; negatives give 1; positives are kept |
| `ProductsController.PageSlice` | controllers/productsController.js:27-28 | the page is the contiguous run from `(page-1)*limit` of length `min(limit, max(0, total-(page-1)*limit))` |
| `ProductsController.ListProducts` | controllers/productsController.js:9-34 | fails exactly when a search is given and some product has no string name; otherwise 200 with `total` = size of the filtered set, the effective page and limit, and that page of the filtered set |
| `ProductsController.ListProductsIn` | controllers/productsController.js:9-34 | the handler lists the store's current contents: its answer is the listing of the list `getAll` returns, so `total` counts the filtered store |
| `ProductsController.SearchSemantics` | controllers/productsController.js:14-17 | the search keeps exactly the products whose lower-cased name contains the lower-cased term, in original order |
| `ProductsController.CategorySemantics` | controllers/productsController.js:20-22 | the category filter keeps exactly the products whose category equals the string, in original order |
| `ProductsController.FilteredSemantics` | controllers/productsController.js:13-22 | the filtered set is the AND of the given filters, independent of their order; with neither given it is the whole list |
| `ProductsController.SearchIgnoresCase` | controllers/productsController.js:14-17 | the search "LAP" finds the seed's laptop |
| `ProductsController.CategoryIsCaseSensitive` | controllers/productsController.js:20-22 | on the seed, "Electronics" finds nothing and "electronics" finds the first two products |
| `ProductsController.PastLastPage` | controllers/productsController.js:27-30 | a page past the end has no data, and `total` still counts the filtered set |
| `ProductsController.CountByCategory` | controllers/productsController.js:82-85 | the loop builds the tally: each count equals the number of products with that category key, only present keys appear, and the counts sum to the number of products |
| `ProductsController.TallyStep` | controllers/productsController.js:83 | counting one more product by bumping its key keeps the map a tally of the products seen |
| `ProductsController.ProductStats` | controllers/productsController.js:79-90 | answers 200 with `total` equal to the list length and `counts` the tally of the list |
| `ProductsController.TallyUnique` | controllers/productsController.js:81-86 | a list has exactly one tally, so the stats answer is determined by the list |
| `ProductsController.SumValuesRemove` | controllers/productsController.js:82-85 | the sum of a tally's counts can be split at any key |
| `ProductsController.SumValuesBump` | controllers/productsController.js:83 | incrementing one key of the tally adds one to the sum of counts |
| `ProductsController.SeedCategoryCounts` | controllers/productsController.js:81-86 | on the seed, electronics counts 2, kitchen 1, every other key 0 |
| `ProductsController.SeedTally` | controllers/productsController.js:81-86 | the stats of the seed are `{electronics: 2, kitchen: 1}` |
| `ProductsController.GetProductById` | controllers/productsController.js:36-44 | the first record with the id as a 200, or the NotFound error |
| `ProductsController.NewProduct` | controllers/productsController.js:48 | the new record has the body's fields plus `id`; a body `id` wins over the generated one |
| `ProductsController.CreateProduct` | controllers/productsController.js:46-54 | appends the new record and answers 201 with it |
| `ProductsController.UpdateProduct` | controllers/productsController.js:56-66 | absent id: NotFound and the store untouched; else the existing record overlaid with the body replaces every record with the id and is returned |
| `ProductsController.DeleteProduct` | controllers/productsController.js:68-77 | absent id: NotFound and the store untouched; else every record with the id is removed and the answer is 204 with no body |
| `ProductsController.CreateThenGet` | controllers/productsController.js:46-50 | a created record without a body id is found again under its fresh id |
| `ProductsController.CreateWithTakenId` | controllers/productsController.js:48-49 | a body id that is already taken creates a duplicate that lookups do not reach |
| `ProductsController.UpdateThenGet` | controllers/productsController.js:58-61 | body fields win, other fields persist, and lookup of the path id gives the merged record unless the body changed the id |
| `ErrorHandler.NotFoundHandler` | errors/errorHandler.js:5-7 | an unmatched route always gets 404 `{error: 'Route not found'}` |
| `ErrorHandler.HandleError` | errors/errorHandler.js:9-17 | an application error gets its own status and message; anything else gets 500 `{error: 'Internal Server Error'}` |
| `ErrorHandler.ClientStatus` | errors/errorHandler.js:9-17 | the client gets status 500 exactly when the handler itself answered 500, threw an unexpected error, or threw an application error with status 500; an application error's status and message reach the client unchanged; an unexpected error's detail never changes what the client gets |
| `ErrorHandler.UnexpectedIsOpaque` | errors/errorHandler.js:15-16 | two unexpected errors get the same response whatever they contain, distinct from any non-500 application error |
| `ErrorHandler.ProductNotFoundResponse` | errors/errorHandler.js:11-12 | the handlers' NotFound error reaches the client as 404 `{error: 'Product not found'}` |
| `Auth.ConfiguredKey` | middleware/auth.js:6 | the key is never empty; an unset or empty variable gives 'secret-api-key' |
| `Auth.Check` | middleware/auth.js:8-17 | missing or empty key: 401 'Missing API key'; a different key: 403 'Invalid API key'; proceeds exactly on the configured key |
| `Auth.MissingBeforeInvalid` | middleware/auth.js:9-16 | a request without a key gets 401, never 403; with the configured key a request proceeds exactly when it sends that key |

## Left out

- Express wiring (`server.js`, `routes/products.js`), middleware order, `app.listen` and route introspection (`scripts/inspectRoutes.js`): framework plumbing. `ErrorHandler.Settle` stands for the `next(err)` hand-off only.
- `res.json`, `res.status`, `res.end` and `console.error`: responses are returned values, and logging is not modelled.
- uuid generation: the fresh id is a parameter, and the model does not require it to be new to the store.
- `parseInt` on query strings: `page` and `limit` arrive already parsed. Query parameters given twice (arrays) are not modelled.
- `toLowerCase`: only ASCII letters are lower-cased. Unicode case mapping is not modelled.
- Records.CategoryKey: an integer category of magnitude 10^21 or more is keyed by its plain decimal digits, while JavaScript's `String(n)` writes such numbers in exponent form ("1e+21"); integers are unbounded here and floating-point formatting is not modelled.
- Numbers are integers: prices with a fraction, float precision of `(page-1)*limit` and the string form of non-integer categories are not modelled.
- Nested object and array field values are one opaque value `Obj`. A category holding an array would convert to its joined elements, not to "[object Object]"; this is not modelled.
- Property-key quirks of plain JavaScript objects in the stats tally (inherited keys such as `toString` or `__proto__`) are not modelled.
- Field order inside a record (JSON key order after `Object.assign`) is not modelled: records are maps.
- Request bodies are objects; a JSON array body is not modelled. `middleware/validateProduct`, `middleware/logger` and `errors/customErrors` are not part of this model: `NotFoundError` is taken to be an application error with status 404.
- Concurrency: requests are handled one at a time, as the single-threaded event loop does.
