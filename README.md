# RocketShoes cart store, modelled in Dafny

This project models the shopping cart of the RocketShoes storefront. It covers two pieces.

- The cart store of `useCart`. It holds the cart as an ordered list of lines. Each line is a product id with a quantity. The store keeps a copy of the cart in the `@RocketShoes:cart` storage slot and offers three operations: `addProduct`, `removeProduct` and `updateProductAmount`.
- The header badge. It counts the distinct products in the cart and shows "1 item" or "N itens".

Files:

- `cart_items.dfy` (module `CartItems`): the `Item` line and the helpers the store runs on the cart. `FirstMatch` is `find`. `Without` is `filter`. `IncrementMatching` and `AssignMatching` are the two `forEach` loops, proved against the functions `Incremented` and `WithAmount`. The lemmas show that, when ids are unique, these helpers change exactly one line.
- `use_cart.dfy` (module `UseCart`): the storage slot, the lookup results and the messages. `AddOutcome`, `RemoveOutcome` and `UpdateOutcome` give the outcome of each operation. Lemmas state each branch and prove the invariants. `Store` is a class with fields `cart`, `stored` and `log`. Its methods follow the source step by step and are proved to reach exactly the outcome given by the outcome functions `AddOutcome`, `RemoveOutcome` and `UpdateOutcome`.
- `header.dfy` (module `Header`): `CartSize` is the `reduce` over a dictionary of seen ids, proved equal to the number of distinct ids. `Label` builds the badge text.

Outside inputs are passed in as parameters:

- The two remote lookups (`GET products/{id}` and `GET stock/{id}`) become the parameters `ProductLookup` (found, missing, failed) and `StockLookup` (an amount, or failed).
- The storage slot is `Slot`: empty, garbled, or holding a cart.
- Each toast or console message is appended to `log` as a `Notice`.

Two behaviours of the code are easy to miss, and the model keeps both:

- `addProduct` on a product that is not in the cart and has stock below 1 does nothing and emits no message. There is no else branch, so there is no out-of-stock toast.
- `updateProductAmount` fetches stock before it checks `amount <= 0`. So a failed stock lookup reports the update error even when the amount is zero or negative. The amount is ignored silently only once the stock lookup has answered.

## Model

| member | source | states |
|---|---|---|
| CartItems.FirstMatch | src/hooks/useCart.tsx:48 | `find` gives None exactly when no line has the id; otherwise it gives the position of a line with that id, and no earlier line has it |
| CartItems.FirstMatchUnique | src/hooks/useCart.tsx:48 | when ids are unique, `find` returns the one line that carries the id |
| CartItems.Incremented | src/hooks/useCart.tsx:53-55 | definition of the increment pass: same length and ids in the same order, every line with the id one unit higher, every other line unchanged |
| CartItems.WithAmount | src/hooks/useCart.tsx:107-109 | definition of the assign pass: same length and ids in the same order, every line with the id holds the new amount, every other line unchanged |
| CartItems.Without | src/hooks/useCart.tsx:82 | definition of the filter: no line of the result has the id, the result is never longer, and it is strictly shorter when the id was present |
| CartItems.IncrementMatching | src/hooks/useCart.tsx:53-55 | the `forEach` loop gives the cart where every line with the id has its amount raised by one and every other line is unchanged |
| CartItems.AssignMatching | src/hooks/useCart.tsx:107-109 | the `forEach` loop gives the cart where every line with the id has the new amount and every other line is unchanged |
| CartItems.IncrementedIsPointUpdate | src/hooks/useCart.tsx:51-57 | when ids are unique, the increment pass changes exactly the line with the id, by one, and keeps the order and all other lines |
| CartItems.WithAmountIsPointUpdate | src/hooks/useCart.tsx:106-111 | when ids are unique, the assign pass changes exactly the line with the id and keeps the order and all other lines |
| CartItems.WithoutMembers | src/hooks/useCart.tsx:82 | `filter` keeps a line exactly when the line was in the cart and its id differs |
| CartItems.WithoutAbsent | src/hooks/useCart.tsx:82 | filtering out an id that no line has gives back the same cart |
| CartItems.WithoutUnique | src/hooks/useCart.tsx:82 | when ids are unique, filtering out the id of line k deletes that line and keeps the other lines in order |
| CartItems.DeleteKeepsUnique | src/hooks/useCart.tsx:82-84 | deleting one line from a cart with unique ids keeps the ids unique |
| UseCart.LoadCart | src/hooks/useCart.tsx:25-39 | the initial cart is the stored cart when the slot holds one that parses, and empty when the slot is missing or does not parse |
| UseCart.LoadNotices | src/hooks/useCart.tsx:30-35 | loading emits the console diagnostic exactly when the stored text does not parse, and otherwise emits nothing |
| UseCart.Text | src/hooks/useCart.tsx:34-121 | the wording of each message: the console text at 34 and the toasts at 59, 72, 89, 113 and 121, each non-empty |
| UseCart.TextsDistinct | src/hooks/useCart.tsx:34-121 | two messages have the same wording exactly when they are the same message |
| UseCart.AddOutcome | src/hooks/useCart.tsx:41-74 | definition: the commit, rejection or silent skip that addProduct reaches for each lookup result; the generic message exactly when the product is missing or a lookup fails, a skip only for a new product with stock below 1, and a commit always holds the product |
| UseCart.RemoveOutcome | src/hooks/useCart.tsx:76-91 | definition: removeProduct commits exactly when the id is present, and the committed cart no longer holds it and is shorter; otherwise the removal message; never a silent skip |
| UseCart.UpdateOutcome | src/hooks/useCart.tsx:93-123 | definition: updateProductAmount gives the update message exactly when the id is absent or stock fails, a silent skip exactly when the id is present, stock answered and the amount is ≤ 0, and commits only an amount with 0 < amount ≤ stock |
| UseCart.Store.constructor | src/hooks/useCart.tsx:25-39 | the store starts with the loaded cart, the slot as it was read, and only the parse diagnostic (if any) in its log |
| UseCart.Store.Persist | src/hooks/useCart.tsx:56-57 | a commit sets the cart and writes the same cart to storage, with no message |
| UseCart.Store.Notify | src/hooks/useCart.tsx:59 | a toast adds one message and leaves cart and storage untouched |
| UseCart.Store.AddProduct | src/hooks/useCart.tsx:41-74 | `addProduct` ends in the outcome `AddOutcome` gives: on a commit, cart and storage both hold the new cart; on a rejection, one message is added and nothing else changes; on a skip, nothing changes. A well-formed cart stays well-formed |
| UseCart.Store.RemoveProduct | src/hooks/useCart.tsx:76-91 | `removeProduct` ends in the outcome `RemoveOutcome` gives, with the same commit, reject and skip rules, and keeps a well-formed cart well-formed |
| UseCart.Store.UpdateProductAmount | src/hooks/useCart.tsx:93-123 | `updateProductAmount` ends in the outcome `UpdateOutcome` gives, with the same commit, reject and skip rules, and keeps a well-formed cart well-formed |
| UseCart.AddFails | src/hooks/useCart.tsx:43-44 | when the product is missing or any lookup fails, add is rejected with "Erro na adição do produto" and nothing else happens |
| UseCart.AddExisting | src/hooks/useCart.tsx:48-61 | for a product already in the cart, if stock ≥ amount + 1 then exactly that line goes up by one and the result is committed; otherwise the call is rejected as out of stock |
| UseCart.AddNew | src/hooks/useCart.tsx:62-69 | for a product not in the cart, if stock ≥ 1 then a line of amount 1 is appended at the end and committed; otherwise nothing happens and no message is emitted |
| UseCart.RemoveAbsent | src/hooks/useCart.tsx:80-89 | removing an id that is not in the cart is rejected with the removal message, and the cart is unchanged |
| UseCart.RemovePresent | src/hooks/useCart.tsx:80-84 | removing an id that is in the cart commits a cart holding exactly the lines with other ids |
| UseCart.RemoveExisting | src/hooks/useCart.tsx:80-84 | when ids are unique, removal deletes exactly the line with the id and keeps the order of the rest |
| UseCart.UpdateAbsent | src/hooks/useCart.tsx:99-121 | updating an id that is not in the cart is rejected with the update message, whatever the amount and the stock |
| UseCart.UpdateStockFails | src/hooks/useCart.tsx:101-121 | for an id in the cart, a failed stock lookup is rejected with the update message, whatever the amount |
| UseCart.UpdateBelowFloor | src/hooks/useCart.tsx:101-104 | for an id in the cart, once stock has answered, an amount ≤ 0 gives no change and no message |
| UseCart.UpdateExisting | src/hooks/useCart.tsx:104-115 | for an id in the cart and an amount > 0, if stock ≥ amount then exactly that line takes the amount and the result is committed; otherwise the call is rejected as out of stock |
| UseCart.AddKeepsWellformed | src/hooks/useCart.tsx:51-68 | a committed add keeps ids unique and every amount ≥ 1 |
| UseCart.RemoveKeepsWellformed | src/hooks/useCart.tsx:80-84 | a committed removal keeps ids unique and every amount ≥ 1 |
| UseCart.UpdateKeepsWellformed | src/hooks/useCart.tsx:104-111 | a committed update keeps ids unique and every amount ≥ 1 |
| UseCart.AddStockBound | src/hooks/useCart.tsx:51-68 | after a committed add, the cart holds the product, and its line holds no more than the stock this call observed |
| UseCart.UpdateStockBound | src/hooks/useCart.tsx:104-111 | after a committed update, the cart holds the product, and its line holds no more than the stock this call observed |
| UseCart.AddTwiceScenario | src/hooks/useCart.tsx:41-69 | with an empty cart and stock 5, adding id 1 gives [1×1]; adding it again gives [1×2] |
| UseCart.AddOverStockScenario | src/hooks/useCart.tsx:51-61 | with cart [1×3] and stock 3, adding id 1 is rejected as out of stock |
| UseCart.UpdateOverStockScenario | src/hooks/useCart.tsx:106-115 | with cart [3×2] and stock 1, setting the amount to 5 is rejected as out of stock |
| Header.CartSize | src/components/Header/index.tsx:15-22 | the reduce gives the number of distinct ids in the cart, which is at most the number of lines, and 0 for the empty cart |
| Header.DistinctIdsMembers | src/components/Header/index.tsx:15-22 | an id is counted exactly when some line carries it |
| Header.DistinctAtMostLength | src/components/Header/index.tsx:15-22 | the count is at most the number of lines, and equals it exactly when ids are unique |
| Header.AppendPresent | src/components/Header/index.tsx:16-19 | appending a line whose id is already present leaves the count unchanged |
| Header.AppendAbsent | src/components/Header/index.tsx:16-19 | appending a line with a new id raises the count by one |
| Header.DecimalText | src/components/Header/index.tsx:34 | the printed count is a non-empty string of decimal digits with no leading zero: it starts with `0` only when it is exactly `0`, and never for a count of 10 or more |
| Header.DecimalRoundTrip | src/components/Header/index.tsx:34 | reading the printed count back as a decimal number gives the count |
| Header.Label | src/components/Header/index.tsx:34 | the badge text starts with a digit and ends in " item" or " itens" |
| Header.LabelShowsCount | src/components/Header/index.tsx:34 | the badge label is exactly the count's decimal text followed by " item" (count 1) or " itens" (any other count), and its leading digits read back as the count |
| Header.LabelSingular | src/components/Header/index.tsx:34 | the label is "1 item" exactly when the count is 1; every other count, 0 included, ends in " itens" |

## Left out

- React context, the provider component, the `useCart` hook and the JSX rendering are framework wiring. The model keeps only the state they hold.
- The HTTP calls are not modelled. Their results are operation parameters, and a failure is a parameter value.
- The second `GET products/{id}` in `addProduct` (src/hooks/useCart.tsx:64) is not modelled. The model assumes it returns the product the first lookup found, and the new line gets the requested id. So a failure of that second lookup is not modelled either. In the source, such a failure would end in the generic addition message.
- UseCart.Store.Persist: a `localStorage.setItem` that throws (a full quota, say) is not modelled; the write always succeeds. In the source, `setCart` has already run when the write throws, so the new cart stays in state, the slot keeps its old text, and the `catch` shows the operation's error toast (src/hooks/useCart.tsx:72, 89, 121). The rows for `Store.AddProduct`, `Store.RemoveProduct` and `Store.UpdateProductAmount` ("a rejection changes nothing", "storage holds the committed cart") rest on this.
- UseCart.AddStockBound: holds only for a cart with unique ids. A stored slot with two lines of one id, such as [1×1, 1×5] with stock 2, commits [1×2, 1×6], because the stock check reads the first line and the increment raises both.
- `localStorage` and JSON are not modelled. The slot is a `Slot` value that is already parsed. Stored text that parses to something other than a list of lines, such as `null`, is not modelled.
- Toast delivery and `console.error` are not modelled. Each message is appended to the store's `log` as a `Notice`, and `Text` gives its wording.
- Overlapping asynchronous operations are not modelled. In the source, the last writer wins. In the model, each operation runs to completion on the current state.
- Aliasing is not modelled. The source's `forEach` mutates line objects that the earlier state shares through a shallow copy. Lines here are values, and the resulting new cart is the same.
- Product metadata (title, price, image) is not modelled. It is carried along but never read by this logic.
- Ids and amounts are unbounded integers. JavaScript numbers are doubles, so non-integer or NaN amounts in stored or fetched data are not modelled.
- The header's routing link, logo and styles are not modelled. The badge dictionary is keyed by the id's text in the source and by the integer id here. Distinct integers print as distinct texts, so the count is the same.
