# Frutaria record store and cart, in Dafny

This project models the request handlers of the three Express routers of the
Frutaria demo shop (`api/routes/users.js`, `api/routes/products.js`,
`api/routes/carts.js`). Every handler reads a whole JSON array from a file
and works on it in memory; every handler that changes a collection writes it
back. The model keeps the in-memory part:

- JSON values and the JavaScript operators the handlers use on them
  (`json.dfy`): property access, object spread, strict equality `===`,
  truthiness, and the number coercion of `+` and `*` (NaN included). A record (user, product, cart, line item, request body) is a
  field map `map<string, Value>`, so spreads, dropped fields and the removal of
  the `password` field are exact.
- The shared record-store logic (`store.dfy`): `find` / `findIndex` (first
  match wins), id assignment as "last element's id + 1, or 1 when empty",
  `{ id, ...body }`, and `splice`.
- `String.prototype.replace` with a string pattern (`strings.dfy`), used to
  derive a product's image URL from the uploaded file's path.
- One module per router (`users.dfy`, `products.dfy`, `carts.dfy`). The
  lookups are functions. The handlers that change the collection are methods
  of a class (`UserStore`, `ProductStore`, `CartStore`) whose one field is the
  collection held in the JSON file. Each method states the whole new
  collection and its answer.
- `addItem` in the cart router. It raises the quantity of the line item with
  the new item's id, or appends the new item, and adds `price * quantity` to
  `total_amount`. Lemmas prove that the total stays equal to the sum of
  `price * quantity` over the items, provided a bumped line item has the new
  item's price. A concrete counterexample shows this condition is needed. A
  further lemma extends the invariant to any sequence of `addItem` calls whose
  items take their prices from one catalogue.

Handler answers are a `Response`: `Ok(value)`, `NotFound` (HTTP 404),
`AuthFailure` (HTTP 401) or `Malformed`. `Malformed` covers requests or records
the model does not follow: those on which the JavaScript throws a TypeError
(a cart without an `items` array, a product created without a file), and
`addItem` operands that `+` would concatenate (strings, arrays, objects). In
that case the model changes nothing. `addItem`'s arithmetic on other operands
is modelled as JavaScript does it: null and false count as 0, true as 1, and
an undefined operand gives NaN, which the file and the answer hold as null.

Prices, quantities and totals are integers (for example cents), so
`price * quantity` is exact.

In `products.js` and `carts.js` the handlers pass a callback to
`readDataFromFile` / `writeDataToFile`. Those functions take no callback and
return a Promise, so as written the callbacks never run and those handlers
never answer. The model gives the operations those callbacks were meant to
perform.

Three behaviours of the code are easy to misread, and the model keeps them as
written:

- New ids are the LAST record's id + 1, not the largest id + 1.
- `addItem` adds `newItem.quantity` with no default of 1.
- Updates of carts and products REPLACE the record with `{ id, ...body }` and
  drop the fields the body lacks, except that a product keeps its original
  `imageUrl` when the body's is missing or falsy. Only users are merged.

## Model

| member | source | states |
|---|---|---|
| `Json.Get` | api/routes/carts.js:49 | property access `r.k`: the field's value when the record has the field, undefined exactly when it does not |
| `Json.Numeric` | api/routes/carts.js:133 | the number `+` and `*` take from an operand: undefined gives NaN, null and false 0, true 1, a number itself; strings, arrays and objects are exactly the operands left to concatenation |
| `Json.Add` | api/routes/carts.js:133 | `a + b` is NaN exactly when an operand is NaN, else the sum |
| `Json.Mul` | api/routes/carts.js:139 | `a * b` is NaN exactly when an operand is NaN, else the product |
| `Json.Stored` | api/routes/carts.js:142-144 | writing a number as JSON keeps a finite number and turns NaN into null, and only NaN |
| `Json.StoredNumberReadsBack` | api/routes/carts.js:139 | a stored number reads back as itself for arithmetic, except NaN, which was written as null and reads back as 0 |
| `Json.Spread` | api/routes/users.js:110 | `{ ...a, ...b }` has the fields of both; `b`'s value wins where both have the field |
| `Json.StrictEquals` | api/routes/users.js:43 | `===` on two property reads: undefined equals undefined, primitives compare by value, two objects or arrays are never equal |
| `Json.Truthy` | api/routes/products.js:107 | undefined, null, `0` and `""` are falsy; objects and arrays are truthy |
| `Store.FindIndex` | api/routes/users.js:107 | `findIndex` gives the first index whose element satisfies the predicate, and -1 exactly when none does |
| `Store.Find` | api/routes/users.js:73 | `find` gives the first satisfying element, and undefined exactly when none satisfies |
| `Store.IndexWith` | api/routes/carts.js:80 | `findIndex(c => c.key === n)`: the index holds a record whose `key` is `n`, no earlier record has it, and -1 means no record has it |
| `Store.ReplacedIsFoundAgain` | api/routes/users.js:107-111 | replacing the matched record by one with the same key keeps it the first match |
| `Store.PlusOne` | api/routes/users.js:90 | `id + 1`: a number is incremented, undefined gives NaN (stored as null), null gives 1, a string gets "1" appended |
| `Store.NextId` | api/routes/users.js:90 | the new id is 1 for an empty collection, else the last record's numeric id + 1 |
| `Store.WithId` | api/routes/carts.js:82-85 | `{ id, ...body }` has exactly the body's fields plus `id`; the body's values win, `id` included |
| `Store.NewRecord` | api/routes/users.js:89-92 | the created record has the body's fields and an `id`; without a body id, the id is the next id |
| `Store.RemoveAt` | api/routes/users.js:131 | `splice(i, 1)` drops exactly element `i`: length drops by one, earlier elements stay, later ones shift down by one, and the multiset loses only that element |
| `Store.CreatesNumberSequentially` | api/routes/users.js:89-93 | after a collection whose last id is n, creates without body ids append records numbered n+1, n+2, ... and keep the old records |
| `Store.CreatesFromEmptyNumberFromOne` | api/routes/users.js:89-93 | from an empty collection, N creates without body ids yield ids 1..N in order |
| `Strings.IndexOf` | api/routes/products.js:79 | the first index where the pattern occurs, and -1 exactly when it occurs nowhere |
| `Strings.ReplaceFirst` | api/routes/products.js:79 | `replace` with a string pattern rewrites only the first occurrence and leaves the rest of the string; without an occurrence the string is unchanged |
| `Users.WithoutPassword` | api/routes/users.js:47 | the login answer has every field of the user except `password`, with the same values |
| `Users.Login` | api/routes/users.js:43-50 | AuthFailure exactly when no user has both the body's email and password; otherwise the first such user, without its password |
| `Users.GetById` | api/routes/users.js:73-78 | the first user whose id is the number asked for, and NotFound exactly when there is none |
| `Users.UpdatedUserIsFound` | api/routes/users.js:107-111 | after a merge that keeps the id, looking the id up again gives the merged user |
| `Users.UserStore.Create` | api/routes/users.js:89-95 | the new user is `{ id: next id, ...body }`, is appended after all existing users and is returned |
| `Users.UserStore.Update` | api/routes/users.js:107-115 | NotFound and no change for an unknown id; otherwise only the first user with the id is replaced, by the shallow merge of the body over it, which is returned |
| `Users.UserStore.Delete` | api/routes/users.js:128-135 | NotFound and no change for an unknown id; otherwise exactly the first user with the id is removed and the others keep their order |
| `Products.ImageUrlOf` | api/routes/products.js:79 | the image URL is the file path with its first "public" cut out (the text before it followed by the text after it), or the path itself when it has none |
| `Products.UploadedImageUrl` | api/routes/products.js:79 | a file saved under `public/img/products/` gets the URL `/img/products/<name>` |
| `Products.GetById` | api/routes/products.js:63-68 | the first product whose id is the number asked for, and NotFound exactly when there is none |
| `Products.NewProduct` | api/routes/products.js:76-80 | the created product has the body's fields, an `id` (the body's, else the next id) and the derived `imageUrl` whatever the body says |
| `Products.SetField` | api/routes/products.js:107 | a field assigned undefined is absent from the stored record; other fields are kept |
| `Products.UpdatedProduct` | api/routes/products.js:104-108 | the updated product has the body's fields and `id`, and drops the original's other fields; `imageUrl` is the body's when truthy, else the original's |
| `Products.ImageReassignmentChangesNothing` | api/routes/products.js:111-113 | assigning the body's truthy `imageUrl` a second time leaves the updated product unchanged |
| `Products.ProductStore.Create` | api/routes/products.js:76-81 | with an uploaded file, the new product is appended and returned; without one, nothing changes |
| `Products.ProductStore.Update` | api/routes/products.js:96-127 | NotFound and no change for an unknown id; otherwise only the first product with the id is replaced, by the updated product |
| `Products.ProductStore.Delete` | api/routes/products.js:137-148 | NotFound and no change for an unknown id; otherwise exactly the first product with the id is removed and the others keep their order |
| `Carts.CartOfUser` | api/routes/carts.js:49-54 | the first cart whose `userId` is the number asked for, and NotFound exactly when there is none |
| `Carts.ItemIndex` | api/routes/carts.js:130 | the first line item whose `id` is strictly equal to the new item's, and -1 exactly when there is none |
| `Carts.AddItemTo` | api/routes/carts.js:128-139 | an item with the new item's id has its quantity raised by the new quantity, keeps its other fields and keeps the item count; otherwise the new item is appended after the untouched items; the total becomes `total + price * quantity` under JavaScript's coercion in both branches (NaN stored as null), and exactly the integer sum when all three are numbers; the bumped quantity likewise; no other cart field changes; Malformed exactly when an operand is a string, array or object, or the cart has no `items` array of objects |
| `Carts.MissingTotalIsRestartedFromZero` | api/routes/carts.js:139 | a cart without a total gets null from its first addItem; the second reads null as 0, so the total holds only the second item's amount |
| `Carts.ItemsAmountAfterReplace` | api/routes/carts.js:133-139 | replacing one line item changes the sum of `price * quantity` by the difference of the two line amounts |
| `Carts.ItemsAmountAfterAppend` | api/routes/carts.js:136-139 | appending a line item adds its amount to the sum |
| `Carts.BumpedLineAmount` | api/routes/carts.js:133-139 | raising a line item's quantity adds the new item's `price * quantity` to the line when both prices agree |
| `Carts.AddItemKeepsTotalConsistent` | api/routes/carts.js:130-139 | if the total equals the sum of `price * quantity` and the first line item with the new item's id, the one addItem bumps, has the new item's price, addItem succeeds and the equality still holds |
| `Carts.AddItemKeepsCatalogPrices` | api/routes/carts.js:130-137 | when line items and the new item take their prices from one catalogue, the items after addItem still do |
| `Carts.AddAllKeepsTotalConsistent` | api/routes/carts.js:121-139 | with prices from one catalogue, any sequence of addItem calls on a consistent cart succeeds and keeps the total equal to the sum |
| `Carts.RepricedItemBreaksTotal` | api/routes/carts.js:133-139 | bumping a line item priced 5 with a new item priced 7 leaves the total different from the sum of the items |
| `Carts.CartStore.Create` | api/routes/carts.js:61-65 | the new cart is `{ id: next id, ...body }` and is appended after all existing carts |
| `Carts.CartStore.Update` | api/routes/carts.js:80-95 | NotFound and no change for an unknown id; otherwise only the first cart with the id is replaced, by `{ id, ...body }`, which drops fields the body lacks |
| `Carts.CartStore.Delete` | api/routes/carts.js:104-115 | NotFound and no change for an unknown id; otherwise exactly the first cart with the id is removed and the others keep their order |
| `Carts.CartStore.AddItem` | api/routes/carts.js:122-151 | NotFound and no change when no cart has the `userId`; otherwise only the first such cart changes, as `AddItemTo` says, and every other cart and the order of all carts stay |

## Left out

- Reading and writing the JSON files (`readDataFromFile`, `writeDataToFile`): filesystem I/O, JSON parsing and Promises. The collection is the field of a store object. Read and write failures (HTTP 500) are not modelled.
- The callback/Promise mismatch in `products.js` and `carts.js` means, as written, those handlers never answer. This is asynchronous plumbing; the model gives the callbacks' operations instead.
- The GET-all handlers (`users.js:58-65`, `products.js:53-57`, `carts.js:39-43`) answer with the array as read and contain no logic.
- Express routing, HTTP status codes, `res.json` / `res.send` and the response texts are left out; answers are `Response` values. The server mounts each router under a prefix that its own paths repeat, so products and carts are served under `/products/products` and `/carts/carts`; this is routing, not modelled.
- The multer storage configuration (destination directory, file names from `Date.now()` and the MIME type) is a clock and library call. Create takes the saved file's path as input.
- `parseInt` of the path parameter: handlers take an integer. A non-numeric parameter gives NaN, which matches no record; that case is not modelled.
- Floating-point prices and totals are integers here. NaN comes only from `+` or `*` on undefined, in `addItem` and in id assignment, and is always stored as null, so `Json.Truthy` never meets it.
- Key order inside objects is not modelled: records are maps.
- `console.log` of the request body in the product update is output only.
- Store.PlusOne: when the last record's id is an array, JavaScript concatenates the array's string form with "1"; the model stores null instead.
- Carts.AddItemTo: when the cart's total, the new item's price or quantity, or the bumped item's quantity is a string, an array or an object, JavaScript concatenates (`+=`) or converts it (`*`), and stores a string or a number. The model answers Malformed and changes nothing. Null, booleans and missing operands are modelled as JavaScript computes them.
- Carts.AddItemTo: when the cart's `items` holds a non-object, JavaScript reads an undefined id for a number or string, and throws only on a null the scan reaches. The model answers Malformed for any non-object item.
- Products.ProductStore.Create: without an uploaded file, `req.file.path` throws a TypeError; the model answers Malformed and changes nothing.
- Lost updates between concurrent requests are left out: there is no concurrency logic to model.
- Removing one cart item, clearing a cart and adjusting stock at checkout do not appear in these routers, so they are not modelled. The storefront script `js/scripts.js` (DOM, `localStorage`, its own copy of the login lookup) and `api/server.js` (wiring) are not part of this model.
