# Purchase cart, fetch state and request construction of the market admin front-end

This project models, in Dafny, the parts of the market back-office front-end
(`frontendMarket`) that hold logic rather than markup:

- **The new-purchase form** (`PurchaseForm.tsx`). The form keeps a cart of
  lines keyed by product id. `addProducto` either grows the line for the
  selected product or appends a new one. `removeProducto` filters lines out.
  `calcularTotal` sums price times quantity. `handleSubmit` checks the client
  and the cart, then posts a payload. The form is the class
  `PurchaseForm.PurchaseFormState`. Its `formData` field is a value whose cart
  is a `seq`. The cart operations are specified by pure functions
  (`CartAdd`, `CartRemove`, `CartTotal`, `Validate`). The class keeps an
  invariant: one line per product id, positive quantities, and every line
  agreeing with the catalogue entry it was taken from.
- **The purchase list and detail pages** (`PurchaseList.tsx`,
  `PurchaseDetail.tsx`). `getStatusClass` maps a status to a badge colour.
  The detail page sums the lines' totals. Each page settles its request into
  `{data, loading, error}` through try/catch/finally. An abort is swallowed,
  a thrown value with a string message is shown verbatim, and anything else
  gets a generic message. Both files carry identical copies of
  `getStatusClass` and of the catch block; the model defines each once
  (`PurchaseDetail.StatusClass`, `Outcomes.Reported`).
- **The generic fetch hook** (`useFetch.ts`). It builds the URL from a
  hard-coded base, the endpoint and an optional query, stringifying every
  parameter value. Its state starts each run loading with no error, and on
  failure it keeps the previous data.
- **The request client** (`apiService.ts`). `apiRequest` forces
  `credentials: 'include'` and merges a JSON `Content-Type` under the caller's
  headers. On a response that is not OK it throws the body's message, or a
  default when that is missing or empty.

The network is never called. Every request's outcome is a value:
`Outcomes.FetchOutcome` for the views and the hook, `ApiService.Response` for
`apiRequest`. Where the URL or payload matters, the network is a function
parameter `respond` from the request to its outcome. A thrown JavaScript value
is `Outcomes.Thrown`: its optional `name`, and its `message` when that is a
string. The `URLSearchParams` encoding is a function parameter `encode`. The
base URL of `apiRequest` (read from the environment) is a parameter `base`.
Money amounts are integers (cents).

Three behaviours of the code are worth stating outright, because a reader
might expect otherwise:

- `apiRequest` and `useFetch` join base and path by plain concatenation,
  without normalising the slash between them
  (`ApiService.NoSlashNormalisation`, `UseFetch.FetchUrl`).
- `useFetch` clears only `error` at the start of a run and keeps the previous
  data. The purchase detail effect re-runs on a new id without resetting
  anything, not even `loading` (`PurchaseDetail.PurchaseFetch.Settle`).
- In `apiRequest`, a non-OK response whose body does not parse rethrows the
  parse error rather than an `Error` with the default message
  (`ApiService.Settle`).

## Model

| member | source | states |
|---|---|---|
| `Outcomes.FetchError` | frontendMarket/src/components/purchases/PurchaseDetail.tsx:39-43 | the object the views throw on a non-OK response carries the given message and is not an abort |
| `Outcomes.ErrorObject` | frontendMarket/src/hooks/useFetch.ts:38 | `new Error(message)`: an error named "Error" carrying the message; specified through the ensures of `ApiService.Settle` and `UseFetch.FetchHook.Settle`, which read its name and message |
| `Outcomes.HasMessage` | frontendMarket/src/components/purchases/PurchaseDetail.tsx:49-53 | `isErrorWithMessage`: the thrown value is an object with a string `message`; specified through `Outcomes.Reported`, whose cases split on it |
| `Outcomes.Reported` | frontendMarket/src/components/purchases/PurchaseDetail.tsx:47-66 | the shared catch block leaves `error` alone exactly when the value has a string message and is named AbortError; otherwise it shows that message, or the generic "Ocurrió un error inesperado." when there is no string message |
| `PurchaseDetail.StatusClass` | frontendMarket/src/components/purchases/PurchaseDetail.tsx:15-24 | COMPLETADO, and only it, gives the green class; CANCELADO, and only it, the red class; every other string the yellow class |
| `PurchaseDetail.PurchaseTotal` | frontendMarket/src/components/purchases/PurchaseDetail.tsx:128 | the `reduce` of the lines' totals from 0; specified by `PurchaseTotalAppend`, `PurchaseTotalSingle` and `PurchaseTotalBounds` |
| `PurchaseDetail.PurchaseTotalAppend` | frontendMarket/src/components/purchases/PurchaseDetail.tsx:128 | the displayed total splits over concatenation of lines, so it is the sum of the lines' totals |
| `PurchaseDetail.PurchaseTotalSingle` | frontendMarket/src/components/purchases/PurchaseDetail.tsx:128 | no lines total 0; one line totals its own amount |
| `PurchaseDetail.PurchaseTotalBounds` | frontendMarket/src/components/purchases/PurchaseDetail.tsx:128 | with non-negative line amounts the total is non-negative and at least each line's amount |
| `PurchaseDetail.PurchaseFetch.constructor` | frontendMarket/src/components/purchases/PurchaseDetail.tsx:27-29 | the hook starts with no purchase, loading, no error |
| `PurchaseDetail.PurchaseFetch.Settle` | frontendMarket/src/components/purchases/PurchaseDetail.tsx:34-70 | loading ends false on every path; a parsed purchase is stored; a non-OK response sets "Compra no encontrada" and keeps the purchase; a thrown value updates `error` as the catch block says and keeps the purchase |
| `PurchaseDetail.PurchaseFetch.Run` | frontendMarket/src/components/purchases/PurchaseDetail.tsx:31-74 | one effect run requests `/purchases/<id>` under the base and settles as `Settle` says |
| `PurchaseDetail.FirstLoad` | frontendMarket/src/components/purchases/PurchaseDetail.tsx:26-77 | from the initial state a purchase is present exactly when the request succeeded; non-OK gives "Compra no encontrada"; an abort shows no error; loading ends false |
| `PurchaseList.PurchaseListFetch.constructor` | frontendMarket/src/components/purchases/PurchaseList.tsx:72-74 | the page starts with an empty list, loading, no error |
| `PurchaseList.PurchaseListFetch.Settle` | frontendMarket/src/components/purchases/PurchaseList.tsx:79-115 | loading ends false on every path; a parsed list replaces `purchases`; a non-OK response sets "No se pudieron cargar las compras" and keeps the list; a thrown value updates `error` as the catch block says |
| `PurchaseList.PurchaseListFetch.Run` | frontendMarket/src/components/purchases/PurchaseList.tsx:76-120 | the mount effect requests `/purchases/all` under the base and settles as `Settle` says |
| `PurchaseList.FirstLoad` | frontendMarket/src/components/purchases/PurchaseList.tsx:71-120 | from the initial state a failed request leaves the list `[]`; non-OK gives "No se pudieron cargar las compras"; an AbortError is never surfaced; another message is surfaced verbatim; no message gives the generic string; loading ends false |
| `PurchaseForm.LineIndex` | frontendMarket/src/components/purchases/PurchaseForm.tsx:147 | `findIndex`: the first line with the id, or -1 when no line has it |
| `PurchaseForm.ProductIndex` | frontendMarket/src/components/purchases/PurchaseForm.tsx:143 | the first catalogue entry with the id, or -1 when none has it |
| `PurchaseForm.Lookup` | frontendMarket/src/components/purchases/PurchaseForm.tsx:143 | `productos.find`: the first catalogue entry with the id, or nothing; specified by `LookupFinds` and by `FindProducto`, whose loop is proved to return it |
| `PurchaseForm.LookupFinds` | frontendMarket/src/components/purchases/PurchaseForm.tsx:143 | `find` returns an entry exactly when some catalogue entry has the id, and that entry is in the catalogue with that id |
| `PurchaseForm.FindProducto` | frontendMarket/src/components/purchases/PurchaseForm.tsx:143 | the linear search returns the first catalogue entry with the id, or nothing |
| `PurchaseForm.FindLineIndex` | frontendMarket/src/components/purchases/PurchaseForm.tsx:147 | the linear search returns the index of the first line with the id, or -1 |
| `PurchaseForm.AddLine` | frontendMarket/src/components/purchases/PurchaseForm.tsx:146-170 | the `findIndex` and the grow-or-append branch build exactly the cart `CartAdd` describes |
| `PurchaseForm.CartAdd` | frontendMarket/src/components/purchases/PurchaseForm.tsx:146-172 | if the id is in the cart, the length is unchanged, only that line's quantity grows by `q` and every other line is untouched; otherwise one line with the entry's id, name and price and quantity `q` is appended and earlier lines are unchanged |
| `PurchaseForm.CartAddValid` | frontendMarket/src/components/purchases/PurchaseForm.tsx:138-172 | adding a positive quantity keeps one line per product id and positive quantities |
| `PurchaseForm.CartAddTotal` | frontendMarket/src/components/purchases/PurchaseForm.tsx:138-172 | adding `q` units of a product priced `p` raises `calcularTotal` by `p * q` |
| `PurchaseForm.CartAddFromCatalogue` | frontendMarket/src/components/purchases/PurchaseForm.tsx:143-170 | after adding an entry that `find` returned, every line still carries the name and price of its catalogue entry |
| `PurchaseForm.CartAddKeeps` | frontendMarket/src/components/purchases/PurchaseForm.tsx:143-172 | adding a positive quantity of an entry `find` returned keeps one line per id, positive quantities and catalogue agreement, and raises the total by price times quantity |
| `PurchaseForm.CartRemove` | frontendMarket/src/components/purchases/PurchaseForm.tsx:179-184 | a line survives exactly when it was in the cart and its id differs from the removed id |
| `PurchaseForm.CartRemoveValid` | frontendMarket/src/components/purchases/PurchaseForm.tsx:179-184 | removal keeps one line per product id and positive quantities |
| `PurchaseForm.CartRemoveAbsent` | frontendMarket/src/components/purchases/PurchaseForm.tsx:182 | removing an id no line carries leaves the cart unchanged |
| `PurchaseForm.CartRemoveAppend` | frontendMarket/src/components/purchases/PurchaseForm.tsx:182 | removal splits over concatenation, so the remaining lines keep their order |
| `PurchaseForm.CartRemovePresent` | frontendMarket/src/components/purchases/PurchaseForm.tsx:179-184 | in a valid cart, removing a present id drops exactly one line |
| `PurchaseForm.CartRemoveFromCatalogue` | frontendMarket/src/components/purchases/PurchaseForm.tsx:179-184 | after removal every line still carries the name and price of its catalogue entry |
| `PurchaseForm.CartTotal` | frontendMarket/src/components/purchases/PurchaseForm.tsx:251-253 | `calcularTotal`, the `reduce` of price times quantity from 0; specified by `CartTotalAppend`, `CartTotalSingle`, `CartTotalUpdate` and `CartAddTotal` |
| `PurchaseForm.CartTotalAppend` | frontendMarket/src/components/purchases/PurchaseForm.tsx:251-253 | `calcularTotal` splits over concatenation, so it is the sum of price times quantity |
| `PurchaseForm.CartTotalSingle` | frontendMarket/src/components/purchases/PurchaseForm.tsx:252 | a one-line cart totals that line's price times quantity |
| `PurchaseForm.CartTotalUpdate` | frontendMarket/src/components/purchases/PurchaseForm.tsx:251-253 | replacing one line changes the total by the difference of the two lines' amounts |
| `PurchaseForm.PayloadLines` | frontendMarket/src/components/purchases/PurchaseForm.tsx:207-210 | the submitted lines are the cart lines in order, each reduced to product id and quantity |
| `PurchaseForm.PayloadLinesValid` | frontendMarket/src/components/purchases/PurchaseForm.tsx:204-211 | the payload of a valid cart names each product once, each with a positive quantity |
| `PurchaseForm.Validate` | frontendMarket/src/components/purchases/PurchaseForm.tsx:189-211 | a payload is built exactly when a client is chosen and the cart is non-empty; client 0 gives "Debe seleccionar un cliente" (checked first); an empty cart gives "Debe agregar al menos un producto"; the payload copies client, payment method and the mapped lines |
| `PurchaseForm.SubmitError` | frontendMarket/src/components/purchases/PurchaseForm.tsx:233-245 | the submit catch block shows a thrown string message, aborts included, and otherwise "Ocurrió un error al procesar la compra." |
| `PurchaseForm.PurchaseFormState.constructor` | frontendMarket/src/components/purchases/PurchaseForm.tsx:42-59 | the form starts from `initialFormData` (client 0, EFECTIVO, empty cart), no selection, quantity 1, loading, no error, not submitting |
| `PurchaseForm.PurchaseFormState.Load` | frontendMarket/src/components/purchases/PurchaseForm.tsx:62-114 | the clients are requested from `/customers/all` first and the catalogue from `/products/all` only if that succeeded; the URLs requested are returned in order; each non-OK response sets its own message; thrown values go through the shared catch block; loading ends false |
| `PurchaseForm.PurchaseFormState.SelectCliente` | frontendMarket/src/components/purchases/PurchaseForm.tsx:116-121 | only the client id of `formData` changes |
| `PurchaseForm.PurchaseFormState.SelectMedioPago` | frontendMarket/src/components/purchases/PurchaseForm.tsx:123-128 | only the payment method of `formData` changes |
| `PurchaseForm.PurchaseFormState.SelectProducto` | frontendMarket/src/components/purchases/PurchaseForm.tsx:130-132 | the selection becomes the given id |
| `PurchaseForm.PurchaseFormState.SetCantidad` | frontendMarket/src/components/purchases/PurchaseForm.tsx:134-136 | the quantity becomes the given number |
| `PurchaseForm.PurchaseFormState.AddProducto` | frontendMarket/src/components/purchases/PurchaseForm.tsx:138-177 | with no selection, a quantity below 1 or an id outside the catalogue nothing changes; otherwise the cart becomes `CartAdd` of the found entry, the total rises by its price times the quantity, the selection resets to 0 and the quantity to 1; the cart invariant is kept |
| `PurchaseForm.PurchaseFormState.TakeProducto` | frontendMarket/src/components/purchases/PurchaseForm.tsx:146-176 | once `find` has returned an entry, the cart becomes `CartAdd` of it, the total rises by its price times the quantity, the selection resets to 0 and the quantity to 1, and the form invariant is kept |
| `PurchaseForm.PurchaseFormState.RemoveProducto` | frontendMarket/src/components/purchases/PurchaseForm.tsx:179-184 | the cart becomes `CartRemove`; an absent id changes nothing; a present id drops exactly one line; the cart invariant is kept |
| `PurchaseForm.PurchaseFormState.Submit` | frontendMarket/src/components/purchases/PurchaseForm.tsx:186-249 | a failed check sets its message and sends nothing; otherwise a POST to `/purchases/create` with a JSON Content-Type carrying the `Validate` payload is sent, a created purchase's id is returned for navigation, a non-OK response sets "Error al guardar la compra", a thrown value sets `SubmitError`, and submitting ends false; the cart is untouched |
| `UseFetch.NatToString` | frontendMarket/src/hooks/useFetch.ts:27 | the decimal form of a number is non-empty, all digits, without a leading zero |
| `UseFetch.IntToString` | frontendMarket/src/hooks/useFetch.ts:27 | `String(n)` for an integer: a minus sign before the digits of `-n` when negative; specified by `IntToStringRoundTrip` |
| `UseFetch.JsString` | frontendMarket/src/hooks/useFetch.ts:27 | `String(value)` for a string, number or boolean parameter; `StringifyAllDistinct` states that each parameter's value is converted by it |
| `UseFetch.NatToStringRoundTrip` | frontendMarket/src/hooks/useFetch.ts:27 | reading the digits back gives the number |
| `UseFetch.IntToStringRoundTrip` | frontendMarket/src/hooks/useFetch.ts:27 | `String(n)` starts with '-' exactly for negative `n` and reads back as `n` |
| `UseFetch.KeyIndex` | frontendMarket/src/hooks/useFetch.ts:27 | the position of a key in the accumulated record, or -1 when absent |
| `UseFetch.Put` | frontendMarket/src/hooks/useFetch.ts:27 | `acc[key] = value` on a record kept in property order; specified by `PutAssigns` |
| `UseFetch.PutAssigns` | frontendMarket/src/hooks/useFetch.ts:27 | the assignment adds `key` and no other key, `key` then holds `value`, and every entry for another key survives |
| `UseFetch.StringifyAll` | frontendMarket/src/hooks/useFetch.ts:25-31 | the record the `reduce` builds from the parameters' entries; specified by `StringifyAllKeys`, `StringifyAllDistinct` and `StringifyParams` |
| `UseFetch.StringifyAllKeys` | frontendMarket/src/hooks/useFetch.ts:24-31 | the stringified record has exactly the parameters' keys |
| `UseFetch.StringifyAllDistinct` | frontendMarket/src/hooks/useFetch.ts:24-31 | for an object's entries (distinct keys), each parameter becomes one entry in order, its value converted with `String` |
| `UseFetch.StringifyParams` | frontendMarket/src/hooks/useFetch.ts:25-31 | the `reduce` loop builds the record `StringifyAll` describes |
| `UseFetch.FetchUrl` | frontendMarket/src/hooks/useFetch.ts:20-35 | the URL starts with base plus endpoint, unnormalised; without params that is all; with any params object exactly one `?` and the encoded query follow |
| `UseFetch.EmptyParamsKeepQuestionMark` | frontendMarket/src/hooks/useFetch.ts:22-34 | an empty params object leaves a trailing `?` |
| `UseFetch.RequestUrl` | frontendMarket/src/hooks/useFetch.ts:20-35 | the URL as the hook computes it by reassignment is `FetchUrl` |
| `UseFetch.FetchHook.constructor` | frontendMarket/src/hooks/useFetch.ts:10-12 | the hook starts with no data, loading, no error |
| `UseFetch.FetchHook.Start` | frontendMarket/src/hooks/useFetch.ts:16-17 | every run starts loading with no error and keeps the data |
| `UseFetch.FetchHook.Settle` | frontendMarket/src/hooks/useFetch.ts:37-45 | loading ends false; success stores the parsed result; non-OK sets "Error al cargar los datos"; a thrown value sets its message; on failure the previous data survives |
| `UseFetch.FetchHook.Run` | frontendMarket/src/hooks/useFetch.ts:14-49 | one run fetches `FetchUrl` and settles; a success leaves no error |
| `ApiService.RequestUrl` | frontendMarket/src/services/apiService.ts:5 | the URL is the base followed by the path, character for character |
| `ApiService.NoSlashNormalisation` | frontendMarket/src/services/apiService.ts:5 | a base ending in '/' and a path starting with '/' give a doubled slash, unlike the same address written without it |
| `ApiService.BuildInit` | frontendMarket/src/services/apiService.ts:5-12 | credentials are always "include", whatever the caller passed; method, body and signal pass through; the headers are the caller's plus Content-Type, the caller winning on conflict, and Content-Type is application/json unless the caller set it |
| `ApiService.Truthy` | frontendMarket/src/services/apiService.ts:16 | the `||` test on the error body's message: present and non-empty; specified through `ApiService.Settle`, which falls back to the default message exactly when it fails |
| `ApiService.CallerContentTypeWins` | frontendMarket/src/services/apiService.ts:8-11 | a caller whose headers include Content-Type gets its header object through unchanged: the caller wins on conflict, for any headers |
| `ApiService.Settle` | frontendMarket/src/services/apiService.ts:14-23 | an OK body is returned unchanged; a non-OK response throws an Error with the body's message when truthy, else "Error en la solicitud", never empty; a body that does not parse and anything fetch throws are rethrown unchanged |
| `ApiService.ApiRequest` | frontendMarket/src/services/apiService.ts:3-24 | the request sent is the built URL and options, and a result is returned exactly when that request's response is OK |

## Left out

- Network I/O, `AbortController`, and React effect scheduling are not modelled. Each response or thrown value is a parameter, and an abort is a thrown value named AbortError. That React ignores state updates after unmount is not modelled, and neither are stale responses overtaken by newer ones.
- Floating-point money is not modelled: amounts are integer cents. The `toFixed` formatting and the unit-price division in `PurchaseDetail.tsx:108` are display code.
- `parseInt` returning NaN is not modelled: the input handlers take integers. A NaN quantity would pass the `cantidad <= 0` guard.
- UseFetch.FetchUrl: the `URLSearchParams` percent-encoding is the parameter `encode`, so nothing is proved about the query text itself.
- UseFetch.StringifyAll: `Object.entries` lists integer-like keys first, in numeric order; the model keeps the given order.
- UseFetch.IntToString: numbers are integers, so the `String` of fractions, exponents, NaN and Infinity is not modelled.
- UseFetch.FetchHook.Settle: the catch block copies `(err as Error).message` whatever its type, but `Outcomes.Thrown` only carries a string message. A thrown object whose `message` is not a string (say `{message: 42}`) would put that value into `error`; the model gives `None`. A thrown `null` or `undefined` makes the catch block itself throw; the model also treats it as a value without a message.
- PurchaseDetail.FirstLoad, PurchaseList.FirstLoad: an OK response is `Succeeded(data)` with a parsed value, so a body that parses to `null` is not expressible. The views would store that `null`, and `purchase.Some? <==> outcome.Succeeded?` would then not describe them.
- PurchaseForm.PurchaseFormState.Submit: the request body is the `Payload` value; its `JSON.stringify` serialisation is not modelled.
- ApiService.BuildInit: only plain-object headers are modelled. A `Headers` instance or an array of pairs spreads differently. Header names are compared as object keys, without case folding.
- ApiService.RequestInit: request options other than method, body, signal, credentials and headers are not modelled; the spread passes them through unchanged.
- ApiService.Settle: only a string `message` in an error body is modelled. Other truthy values would be converted to a string.
- The `console.error` logging in `apiRequest` and the environment lookup of its base URL (`apiConfig.ts`) are not modelled. The base is a parameter.
- PurchaseForm.PurchaseFormState.AddProducto: line 152 writes the new quantity into the line object that the previous state array also holds. The model treats lines as values, so this aliasing is not captured.
- PurchaseForm.PurchaseFormState.Load: requires the form to be still loading, because the effect runs once, on mount, before the form is shown.
- PurchaseForm.PurchaseFormState.Submit: `navigate` is left out; the method returns the created purchase's `idCompra`, which it assumes the response carries.
- Rendering is not modelled: loading and error screens, tables, `ProductTable`, and the `disabled` conditions of the buttons.
- `useProduct.ts`, `Dashboard.tsx`, `ProductService.ts`, `PurchaseService.ts` and the presentational components are not part of this model.
- `useFetch` re-runs whenever the `options` object changes identity. That scheduling concern is not modelled.
- The interface files (`Purchase.ts`, `PurchaseItem.ts`, `Product.ts`) use field names that differ from the components'. The model uses the shapes the components read.
