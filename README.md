# react-pizza: cart, order action and helpers in Dafny

This project models the logic of a pizza storefront's client:

- the **cart slice**: an ordered list of line items `{pizzaId, name, quantity, unitPrice, totalPrice}`, its five reducers (add, delete, increase, decrease with auto-removal, clear) and its four selectors (the cart, total quantity, total price, quantity of one pizza);
- the **order action**: the validation of the phone field by a fixed regular expression, the parsing of the priority flag, and the decision to return field errors or to submit the order and clear the cart;
- the **helpers** the order view uses: the Spanish label of an order status and the rounded minutes left until delivery.

Files and modules:

- `cart_slice.dfy`, module `CartSlice`: the `LineItem` datatype, the class `CartStore` whose field `cart` the reducer methods reassign, the pure functions that specify each reducer (`Without`, `Increased`, `Decreased`), the selectors, and the lemmas about them.
- `phone_regex.dfy`, module `PhoneRegex`: the pattern as twelve quantified character classes, the language predicate `Matches`, and what it accepts and rejects.
- `create_order_action.dfy`, module `OrderAction`: the pure `Decide` function and the `CreateOrderAction` method that clears the cart after a successful submission.
- `helpers.dfy`, module `Helpers`: `TranslateStatus` and `CalcMinutesLeft`.

Modelling choices:

- Prices are integer cents, so `unitPrice * quantity` and the sums are exact. Quantities are plain integers: the source does not keep them positive by type, so the model states positivity as an invariant the reducers keep.
- A line item is a value. Where the source changes the item found by `find` in place, the model replaces the entry at the index of the first match.
- `increaseItemQuantity` and `decreaseItemQuantity` dereference `find(...)!`, so a matching entry is a precondition of both.
- `addItem` does not check for an existing id (src/features/cart/cartSlice.ts:16). The model adds no such check. The members that need unique ids take `UniqueIds` as a hypothesis: the lemmas `WithoutUnique`, `UpdatePreservesUnique` and `DecreaseLowersTotalQuantity`, and the total-quantity clause of `DecreaseItemQuantity`.
- When a decrement reaches 0, the source runs the `deleteItem` reducer, which removes every entry with that id, not only the decremented one. The model does the same. `DecreaseWithDuplicateDropsMore` shows that with a duplicate id the total quantity then falls by more than one.
- The regular expression is anchored at both ends and has no groups. So it accepts a string exactly when the string splits into twelve consecutive chunks, each fitting the class and length bounds of its piece. The lazy `{1,4}?` and `{1,3}?` change which split is found, not whether one exists, and they still need at least one digit. `\s` is the ECMAScript set of whitespace and line-terminator code points.
- The form arrives as a map from field names to strings, as `Object.fromEntries` builds it. A missing phone field is `undefined`, which the regular expression test reads as the text `"undefined"`, so it is rejected.
- `calcMinutesLeft` takes the current time and the delivery time as integer milliseconds. `Math.round(x)` rounds halves toward +infinity, which gives `(delivery - now + 30000) / 60000` in Euclidean integer division.

- The order form's tests expect a 21% priority surcharge (src/__tests__/CreateOrder.test.tsx:198-200), but no such computation exists in the modelled code.
- The action parses the cart field with `JSON.parse` before it checks the phone (src/features/order/createOrderAction.ts:24), so a missing or malformed cart field rejects the action whatever the phone is. Whether that parse succeeds is a parameter of `CreateOrderAction`.

## Model

| member | source | states |
|---|---|---|
| CartSlice.CartStore.constructor | src/features/cart/cartSlice.ts:7-9 | the slice starts with an empty cart |
| CartSlice.CartStore.AddItem | src/features/cart/cartSlice.ts:15-17 | the payload is appended as the last entry and the earlier entries are unchanged; both cart invariants are kept when the payload satisfies them |
| CartSlice.CartStore.DeleteItem | src/features/cart/cartSlice.ts:18-20 | the new cart is the filter of the old one by id; no entry with the id remains; both invariants are kept |
| CartSlice.CartStore.IncreaseItemQuantity | src/features/cart/cartSlice.ts:21-25 | the new cart is `Increased(old cart, id)`; the length is unchanged; the total quantity grows by exactly 1; both invariants are kept |
| CartSlice.CartStore.DecreaseItemQuantity | src/features/cart/cartSlice.ts:26-33 | the new cart is `Decreased(old cart, id)`, including the nested call to the delete reducer at quantity 0; both invariants are kept; with unique ids the total quantity falls by exactly 1 |
| CartSlice.CartStore.ClearCart | src/features/cart/cartSlice.ts:34-36 | the cart becomes empty, and then the total quantity and the total price are both 0 |
| CartSlice.FindIndex | src/features/cart/cartSlice.ts:22 | the result is present exactly when some entry has the id; it is then the index of the first such entry |
| CartSlice.Without | src/features/cart/cartSlice.ts:19 | the filtered cart is no longer than the input |
| CartSlice.WithoutMembers | src/features/cart/cartSlice.ts:19 | the filter keeps exactly the entries whose id differs from the deleted one |
| CartSlice.Increased | src/features/cart/cartSlice.ts:21-25 | the cart after an increase: the entry at the first match's index gets quantity + 1 and is repriced; what this means is stated by `IncreaseShape` |
| CartSlice.Decreased | src/features/cart/cartSlice.ts:26-33 | the cart after a decrease: the first match gets quantity - 1 and is repriced, then at 0 every entry with the id is filtered out; what this means is stated by `DecreaseShape` |
| CartSlice.WithoutConcat | src/features/cart/cartSlice.ts:19 | the filter distributes over concatenation, so the kept entries stay in their original order |
| CartSlice.WithoutAbsent | src/features/cart/cartSlice.ts:18-20 | deleting an id that no entry has leaves the cart unchanged |
| CartSlice.AddThenDeleteRestores | src/features/cart/cartSlice.ts:15-20 | adding an item whose id was absent and then deleting that id restores the original cart |
| CartSlice.DeletePreserves | src/features/cart/cartSlice.ts:18-20 | the delete reducer keeps every `totalPrice = unitPrice * quantity` and every positive quantity |
| CartSlice.IncreaseShape | src/features/cart/cartSlice.ts:21-25 | the first matching entry gets one more unit and is repriced; its id, name and unit price stay; the length and all other entries are unchanged |
| CartSlice.IncreasePreserves | src/features/cart/cartSlice.ts:23-24 | the increase reducer keeps both cart invariants |
| CartSlice.DecreaseShape | src/features/cart/cartSlice.ts:26-33 | from quantity 1, the result is the cart without every entry of that id; otherwise the first match gets one unit fewer and is repriced, and the length and all other entries are unchanged |
| CartSlice.DecreasePreserves | src/features/cart/cartSlice.ts:29-32 | the decrease reducer keeps both invariants, so no entry is ever left at quantity 0 |
| CartSlice.WithoutIgnoresTarget | src/features/cart/cartSlice.ts:29-32 | changing an entry that has the deleted id does not change what the filter keeps, so the decremented entry's new fields do not matter once it is removed |
| CartSlice.WithoutUnique | src/features/cart/cartSlice.ts:32 | with unique ids, the nested delete removes exactly the decremented entry |
| CartSlice.SumBy | src/features/cart/cartSlice.ts:52-56 | the left fold of `reduce` over one field of each entry; its meaning is stated by the `SumBy` lemmas below |
| CartSlice.GetTotalCartQuantity | src/features/cart/cartSlice.ts:52-53 | with every quantity positive, the total quantity is at least the number of lines |
| CartSlice.GetTotalCartPrice | src/features/cart/cartSlice.ts:55-56 | with no negative line price, the total price is not negative |
| CartSlice.SumByAtLeastLength | src/features/cart/cartSlice.ts:52-53 | a fold of fields that are all at least 1 is at least the number of entries |
| CartSlice.SumByNonNegative | src/features/cart/cartSlice.ts:55-56 | a fold of fields that are all non-negative is non-negative |
| CartSlice.SumByShift | src/features/cart/cartSlice.ts:52-56 | the starting accumulator of the fold behind both total selectors only shifts the sum |
| CartSlice.SumByConcat | src/features/cart/cartSlice.ts:52-56 | the sum of both total selectors is additive over concatenated carts |
| CartSlice.SumByUpdate | src/features/cart/cartSlice.ts:52-56 | replacing one entry changes a total by the difference of that entry's field |
| CartSlice.SumByRemove | src/features/cart/cartSlice.ts:52-56 | removing one entry lowers a total by that entry's field |
| CartSlice.IncreaseRaisesTotalQuantity | src/features/cart/cartSlice.ts:52-53 | the total quantity after an increase is exactly one more |
| CartSlice.IncreaseRaisesTotalPrice | src/features/cart/cartSlice.ts:55-56 | when the incremented entry is correctly priced, the total price after an increase grows by exactly its unit price |
| CartSlice.DecreaseLowersTotalQuantity | src/features/cart/cartSlice.ts:26-33 | the total quantity after a decrease is exactly one less when ids are unique or the entry stays above quantity 0 |
| CartSlice.DecreaseWithDuplicateDropsMore | src/features/cart/cartSlice.ts:32 | with a duplicate id, a decrease to 0 removes both entries, and the total quantity falls by 3 |
| CartSlice.GetCurrentQuantityById | src/features/cart/cartSlice.ts:58-59 | the quantity of the first entry with the id, or 0 when no entry has it |
| CartSlice.QuantityByIdAfterAdd | src/features/cart/cartSlice.ts:15-17 | after adding an item with an absent id, the quantity by id is the payload's quantity |
| CartSlice.QuantityByIdAfterDelete | src/features/cart/cartSlice.ts:18-20 | after deleting an id, the quantity by id is 0 |
| CartSlice.QuantityByIdAfterIncrease | src/features/cart/cartSlice.ts:21-25 | after an increase, the quantity by id is one more |
| CartSlice.QuantityByIdAfterDecrease | src/features/cart/cartSlice.ts:26-33 | after a decrease, the quantity by id is one less; at quantity 1 that is the 0 of an absent id |
| CartSlice.FirstIndexIs | src/features/cart/cartSlice.ts:22 | an index whose entry has the id and has no earlier match is the index `find` yields |
| CartSlice.ExampleCart | src/__tests__/Cart.test.tsx:314-344 | on the two-pizza test cart: deleting pizza 1 leaves only pizza 2; increasing pizza 1 gives 3 units at 38.97; decreasing it gives a line price of 12.99; the totals are 3 pizzas and 40.97, the expected values at line 197; the total of 53.96 after the increase is computed, not a test value |
| Helpers.RoundHalfUp | src/utils/helpers.ts:21 | `Math.round`: the result is the integer in (x - 0.5, x + 0.5], so halves round up |
| Helpers.CalcMinutesLeft | src/utils/helpers.ts:18-22 | the result is the integer within half a minute of the time to delivery, rounding halves up |
| Helpers.MinutesLeftIsRounded | src/utils/helpers.ts:21 | the integer formula equals `Math.round` of the exact quotient `(delivery - now) / 60000` |
| Helpers.MinutesLeftExamples | src/utils/helpers.ts:18-22 | a delivery now gives 0 minutes, and one 1,800,000 ms later gives 30 |
| Helpers.MinutesLeftMonotone | src/utils/helpers.ts:18-22 | a later delivery never gives fewer minutes |
| Helpers.MinutesLeftNegativeIff | src/utils/helpers.ts:21 | the result is negative exactly when the delivery is more than 30,000 ms in the past |
| Helpers.TranslateStatus | src/utils/helpers.ts:24-35 | the label is always one of the three Spanish labels or "Desconocido" |
| Helpers.TranslateKnownStatuses | src/utils/helpers.ts:25-31 | "preparing", "on the way" and "delivered" get "En preparación", "En camino" and "Entregado" |
| Helpers.TranslateStatusUnknownIff | src/utils/helpers.ts:32-33 | a status gets "Desconocido" exactly when it is none of the three statuses of an order record |
| Helpers.TranslateStatusInjective | src/utils/helpers.ts:24-35 | distinct order statuses get distinct labels |
| PhoneRegex.Matches | src/features/order/createOrderAction.ts:10 | the anchored pattern as a language: the string splits into one chunk per piece, each inside its class and its length bounds; its meaning is stated by the lemmas below |
| PhoneRegex.IsValidPhone | src/features/order/createOrderAction.ts:9-12 | `isValidPhone`: `Matches` of the twelve pieces of the pattern; what it accepts and rejects is stated by the lemmas below |
| PhoneRegex.DigitBounds | src/features/order/createOrderAction.ts:10 | a match holds at least the summed minimum and at most the summed maximum of the digit pieces |
| PhoneRegex.PhoneDigitBounds | src/features/order/createOrderAction.ts:10 | every accepted phone holds between 5 and 24 digits |
| PhoneRegex.EmptyPhoneRejected | src/features/order/createOrderAction.ts:9-12 | the empty string is rejected |
| PhoneRegex.EndsInDigit | src/features/order/createOrderAction.ts:10 | a match of a pattern ending in a required digit piece ends in a digit |
| PhoneRegex.PhoneEndsInDigit | src/features/order/createOrderAction.ts:10 | every accepted phone is non-empty and ends with a digit |
| PhoneRegex.MatchChars | src/features/order/createOrderAction.ts:10 | a match uses only digits, `+ - . ( )` and whitespace |
| PhoneRegex.MatchNoPlus | src/features/order/createOrderAction.ts:10 | pieces other than `\+?` never match a `+` |
| PhoneRegex.PlusOnlyFirst | src/features/order/createOrderAction.ts:10 | after a leading optional `+` piece, no `+` can occur beyond index 0 |
| PhoneRegex.PhoneCharacters | src/features/order/createOrderAction.ts:10 | every accepted phone uses only digits, `+ - . ( )` and whitespace, with `+` only at index 0 |
| PhoneRegex.LetterRejected | src/features/order/createOrderAction.ts:10 | a string with an ASCII letter anywhere is rejected |
| PhoneRegex.LettersRejected | src/features/order/createOrderAction.ts:10 | "abc" is rejected |
| PhoneRegex.MinBelowMax | src/features/order/createOrderAction.ts:10 | when each piece's minimum is at most its maximum, the summed digit minimum is at most the summed maximum |
| PhoneRegex.DigitRunMatches | src/features/order/createOrderAction.ts:10 | a run of digits of any length between the summed minimum and maximum matches a pattern whose non-digit pieces are optional |
| PhoneRegex.DigitRunAccepted | src/features/order/createOrderAction.ts:10 | every all-digit string of length 5 to 24 is accepted |
| PhoneRegex.PlusThenDigitRunMatches | src/features/order/createOrderAction.ts:10 | a `+` followed by a fitting digit run matches a pattern that starts with `\+?` |
| PhoneRegex.PlusDigitRunAccepted | src/features/order/createOrderAction.ts:10 | `+` followed by 5 to 24 digits is accepted |
| PhoneRegex.PhoneExamples | src/features/order/createOrderAction.ts:10 | "+5491123456789" and "5491123456789" are accepted |
| PhoneRegex.MatchesWith | src/features/order/createOrderAction.ts:10 | a fitting first chunk followed by a match of the remaining pieces is a match |
| PhoneRegex.ChunksMatch | src/features/order/createOrderAction.ts:10 | one fitting chunk per piece, concatenated in order, is a match |
| PhoneRegex.DashedPhoneAccepted | src/features/order/createOrderAction.ts:10 | "123-456-7890" is accepted |
| OrderAction.Decide | src/features/order/createOrderAction.ts:22-36 | the result is the errors object exactly when the phone fails the pattern, and it then holds only the phone message; otherwise the order to submit is every form field with the parsed priority flag |
| OrderAction.CreateOrderAction | src/features/order/createOrderAction.ts:19-36 | a cart field that does not parse makes the action fail before the phone check, with the cart untouched; otherwise an invalid phone returns the errors and leaves the cart alone; a valid phone with a created order clears the cart and redirects to `/order/<id>`; a failed submission leaves the cart alone |
| OrderAction.ParsePriority | src/features/order/createOrderAction.ts:25 | `data.priority === 'true'`: only a priority field with exactly the text "true" gives true; `PriorityExamples` states the cases |
| OrderAction.PriorityExamples | src/features/order/createOrderAction.ts:25 | the priority flag is on for the text "true" only, and off for "on", "false" or a missing field |
| OrderAction.BadPhoneYieldsErrors | src/features/order/createOrderAction.ts:29-32 | a phone containing a lower-case letter, or a missing phone, yields the phone error |
| OrderAction.EmptyPhoneYieldsErrors | src/features/order/createOrderAction.ts:29-32 | an empty phone yields the phone error |
| OrderAction.GoodPhoneSubmits | src/features/order/createOrderAction.ts:29-33 | a form with phone "+5491123456789" is submitted with all its fields |
| OrderAction.SubmittedPhoneIsWellFormed | src/features/order/createOrderAction.ts:29-33 | a submitted order's phone ends in a digit and holds 5 to 24 digits |

## Left out

- CartSlice.CartStore.GetCart: `getCart` returns the cart array itself, so the function returns the `cart` field and carries no contract beyond that.
- The Redux wiring (`createSlice`, the action creators, the store, Immer drafts): the reducers are modelled directly as methods on the state.
- JavaScript floating point: prices are exact integer cents, so the display of `12.99 * 3` as `38.97` through float rounding is not modelled.
- `formatCurrency` and `formatDate`: they only call the `Intl` formatters.
- Helpers.CalcMinutesLeft: the clock read `new Date()` and the parsing of the date string are not modelled; both instants are integer milliseconds, and the float division before `Math.round` is treated as exact.
- OrderAction.CreateOrderAction: reading the request, `JSON.parse` of the cart field, the order service call and the redirect are foreign. Whether the parse succeeds and the service's answer are parameters, and the redirect is its path. The parsed cart value itself is not modelled: the order keeps the field as the submitted text. Form values that are files are not modelled.
- The priority surcharge of 21% and the user slice (name, address lookup) are not part of the modelled code.
- The React components, the route table and the order loaders only render, route or fetch.
