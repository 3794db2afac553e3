# Verified model of the i78 order-handling rules

The i78 storefront takes purchase orders from three front doors: a web form, an HTTP function the chat bot calls, and the Telegram bot's guided conversation. Admin screens then review, filter, price and edit those orders. Most of the system is CRUD glue over a hosted database. This project models the small rules in between and proves what each one promises:

- **Order placement.** The HTTP function checks, in order, the API key, the required fields and the daily limit. It then resolves the voucher and builds the insert record and the reply. The web form derives the fee, the payment status and the "limit reached" lock. The two paths disagree in three places, and the model follows the code as written.
- **Telegram bot.** A class holds the session dictionary and the registered-user dictionary. The conversation runs product link → quantity → notes → recipient → address → contact. Each text update goes to the message handler and then to every command handler whose pattern occurs anywhere in the text. Next to it sit the bot's status label tables.
- **Public order tracking.** Phone and address masking, the timeline steps, the QR and edit-button conditions, and the bank settings with their defaults.
- **Admin screens.**
  - the user and order list filters;
  - the dashboard and user-detail statistics, plus the admin gate;
  - the role dictionary and the banned set;
  - the voucher insert record and the active toggle;
  - the order-edit patch, where "nothing else changes" is the point;
  - the settings parse/serialise round trip.
- **Small builders.**
  - the banner;
  - the VietQR bank-code normalisation and image URL;
  - the two password-change rule sets (profile page and reset page).

The database, auth, RPCs and the chat transport are modelled as inputs:

- a query result is an `Option` (`None` when the query failed or found nothing);
- the rows a query returns are a `seq`;
- the generated order code, today's order count and the API's reply are parameters.

Money and counts are unbounded integers. `parseInt` without a radix skips leading whitespace and one sign, reads a `0x`/`0X` prefix as base 16 and otherwise decimal digits, and returns `Option<int>` with NaN as `None`. `parseFloat` is the same decimal reading without the prefix rule, on whole numbers. `toLowerCase` and `toUpperCase` are ASCII case mapping. `Math.ceil(n*0.4)` and `Math.ceil(k*0.5)` are the integers `(2n+4)/5` and `(k+1)/2`. `encodeURIComponent` is a function parameter.

Module layout:

- Shared modules, used by every page:
  - `Common`: `Option` and JavaScript `||`;
  - `Text`: case, whitespace, `includes`, `split`/`join`;
  - `JsNumber`: `parseInt`, `parseFloat` and `toString`;
  - `Seqs`: `filter` and its counts;
  - `KeyValue`: the `forEach` dictionary build, `find` and upsert;
  - `Schema`: the database enums and rows;
  - `OrderStats`: the counting and fee sums.
- One module per source file.
- `PlacementCompare`: states the disagreements between the two placement paths.

The two placement paths disagree in three places. The model follows each path's code:

- The web form writes `paid` when the fee is not positive (src/pages/Order.tsx:103). The HTTP function always writes `unpaid` (supabase/functions/api-place-order/index.ts:114). See `PlacementCompare.NoVoucherPaymentDisagreement`.
- The HTTP function checks the daily count only for a positive limit, so 0 means "unlimited" (supabase/functions/api-place-order/index.ts:59). The form locks whenever the count is at least the limit, so a limit of 0 always locks (src/pages/Order.tsx:76). See `PlacementCompare.ZeroLimitDisagreement`.
- The form charges `fee_amount` only for a `paid` voucher (src/pages/Order.tsx:88). The HTTP function charges it whatever the voucher type (supabase/functions/api-place-order/index.ts:88-91). See `PlacementCompare.FreeVoucherFeeDisagreement`.

The users page keeps a filtered copy of the user list, and its effect refilters only when the users, the search text or either select changes (src/pages/admin/Users.tsx:47-49). Banning, unbanning or changing a role therefore leaves the shown list stale until the next of those changes. The model keeps that copy as a field and proves the staleness (`UsersAdmin.BanWhileActiveFiltered`).

## Model

| member | source | states |
|---|---|---|
| Schema.StatusName | src/integrations/supabase/types.ts:301-307 | each of the six order statuses has a database name that parses back to it |
| Schema.PaymentName | src/integrations/supabase/types.ts:308 | each payment status's name parses back to it |
| Schema.VoucherTypeName | src/integrations/supabase/types.ts:309 | each voucher type's name ("free", "paid") parses back to it |
| Schema.RoleName | src/integrations/supabase/types.ts:300 | each app role's name parses back to it |
| Schema.ParseInverse | src/integrations/supabase/types.ts:300-309 | every name that parses is the name of what it parses to (the converse round trip) |
| Schema.StatusNames | src/pages/TrackOrder.tsx:11-18 | the status table's keys in order: one per status, the i-th being the i-th status's name |
| Schema.StatusIndex | src/pages/TrackOrder.tsx:11-18 | the position of a status within the six-entry table |
| Common.OrElse | supabase/functions/api-place-order/index.ts:57 | `s \|\| fallback`: the string when it is present and non-empty, the fallback otherwise |
| Common.NullIfEmpty | supabase/functions/api-place-order/index.ts:110-111 | `s \|\| null`: present exactly when the string is present and non-empty, and then unchanged |
| JsNumber.ParseInt | supabase/functions/api-place-order/index.ts:57 | `parseInt` without a radix yields a number exactly when, after leading whitespace and one sign, either a decimal digit follows or a "0x"/"0X" prefix and then a hexadecimal digit |
| JsNumber.HexLower | supabase/functions/api-place-order/index.ts:57 | `parseInt("0x1f")` is 31 |
| JsNumber.HexUpperNegative | supabase/functions/api-place-order/index.ts:57 | `parseInt("-0X1F")` is -31: the sign comes before the prefix |
| JsNumber.HexPrefixAlone | supabase/functions/api-place-order/index.ts:57 | `parseInt("0x")` is NaN |
| JsNumber.ParseFloat | src/pages/admin/OrderDetail.tsx:190 | `parseFloat` yields a number exactly when a decimal digit follows the whitespace and sign; it has no prefix rule |
| JsNumber.ParseIntIsDecimalWithoutPrefix | src/pages/admin/OrderDetail.tsx:190 | on text without a "0x" prefix, `parseInt` and `parseFloat` read the same number |
| JsNumber.FloatIgnoresHexPrefix | src/pages/admin/OrderDetail.tsx:190 | `parseFloat("0x1f")` is 0 |
| JsNumber.ParseFloatOrZero | src/pages/admin/OrderDetail.tsx:190 | `parseFloat(text) \|\| 0`: the parsed value, or 0 when the text is NaN |
| JsNumber.NatToString | src/pages/admin/Settings.tsx:63 | `toString` of a natural number: at least one character, all digits, with the value of the number |
| JsNumber.IntToStringRoundTrip | src/pages/admin/Settings.tsx:63 | `parseInt` of an integer's `toString` gives the integer back |
| JsNumber.NumberToStringRoundTrip | src/pages/admin/Settings.tsx:63 | the same round trip holds for NaN, printed as "NaN" |
| JsNumber.ParseIntOrZero | src/pages/admin/Settings.tsx:89 | `parseInt(text) \|\| 0`: the parsed value, or 0 when the text is NaN |
| Text.ToUpperIdempotent | src/pages/admin/Vouchers.tsx:47 | upper-casing twice is upper-casing once |
| Text.TrimEmptyIff | src/pages/admin/Users.tsx:95 | a string trims to "" exactly when it is all whitespace |
| Text.RemoveSpacesTrim | src/components/PaymentQRCode.tsx:15 | removing all whitespace makes a preceding `trim` redundant |
| Text.RemoveSpacesLower | src/components/PaymentQRCode.tsx:15 | whitespace removal commutes with lower-casing |
| Text.JoinSplit | src/pages/TrackOrder.tsx:86-88 | `split(",")` then `join(",")` gives the string back |
| Text.SplitCount | src/pages/TrackOrder.tsx:86 | `split` yields one more piece than the string has separators |
| Text.JoinPrefix | src/pages/TrackOrder.tsx:88 | re-joining the first m pieces gives a prefix of the whole string |
| Seqs.FilterIsSubsequence | src/pages/admin/Users.tsx:133-157 | `filter` keeps a subsequence of its input, order preserved |
| Seqs.FilterMember | src/pages/admin/Orders.tsx:52-67 | an element survives `filter` exactly when it is in the input and passes the test |
| Seqs.FilterFilter3 | src/pages/admin/Users.tsx:133-157 | three successive `filter` calls are one filter on the conjunction |
| Seqs.FilterPartition | src/pages/admin/Users.tsx:151-155 | a test and its negation split the input between them |
| Seqs.FilterDisjoint | src/pages/admin/Dashboard.tsx:56-58 | two tests that never both hold count together what their disjunction counts |
| Seqs.FilterSingle | supabase/functions/api-place-order/index.ts:84-86 | when exactly one element passes the test, the filter is that element alone |
| Seqs.FilterTwo | supabase/functions/api-place-order/index.ts:84-86 | when two elements pass, the filter keeps at least two |
| Seqs.FilterLengthAppend | src/pages/admin/Dashboard.tsx:56-58 | the number kept from a concatenation is the sum of the numbers kept from its parts |
| Seqs.FilterLengthPermutation | src/pages/admin/Dashboard.tsx:56-58 | the number of elements that pass a test is the same for any reordering of the input |
| KeyValue.BuildMap | src/pages/admin/Settings.tsx:30-33 | the `forEach` loop builds exactly the dictionary where a later row with the same key overwrites an earlier one |
| KeyValue.LastWinsKeys | src/pages/admin/Settings.tsx:30-33 | a key is in the dictionary exactly when some row carries it |
| KeyValue.LastWinsValue | src/pages/admin/Settings.tsx:30-33 | a key's value is the value of the last row with that key |
| KeyValue.FindFirst | src/components/Layout/Banner.tsx:41-43 | `rows.find(...)` finds something exactly when some row has the key |
| KeyValue.FindFirstAgreesWithLastWins | src/components/Layout/Banner.tsx:41-43 | with unique keys, `find` and the `forEach` dictionary give the same value |
| KeyValue.UpsertLookup | src/pages/admin/Settings.tsx:48-58 | after upserting pairs on the key, each upserted key holds its last value and other keys are untouched |
| PlaceOrderApi.HttpStatus | supabase/functions/api-place-order/index.ts:19-143 | only the preflight and the success reply carry status 200 |
| PlaceOrderApi.JsonNumberQuantity | supabase/functions/api-place-order/index.ts:105 | a JSON number quantity is stored as that number |
| PlaceOrderApi.MissingLimitIsUnlimited | supabase/functions/api-place-order/index.ts:51-59 | with no `daily_order_limit` row the limit is 0 and never blocks |
| PlaceOrderApi.ZeroParses | supabase/functions/api-place-order/index.ts:57 | `parseInt("0")` is 0 |
| PlaceOrderApi.ZeroLimitIsUnlimited | supabase/functions/api-place-order/index.ts:59 | a limit of 0 skips the count check whatever the count |
| PlaceOrderApi.FindActiveVoucher | supabase/functions/api-place-order/index.ts:80-92 | `.single()` on (code, active): a voucher is found only if it is an active row with that exact code, and none is found when no such row exists |
| PlaceOrderApi.FindActiveVoucherUnique | supabase/functions/api-place-order/index.ts:81-86 | a code held by exactly one active row finds that row |
| PlaceOrderApi.FindActiveVoucherAmbiguous | supabase/functions/api-place-order/index.ts:86 | two active rows with the code make `.single()` fail, so no voucher is found |
| PlaceOrderApi.AppliedVoucher | supabase/functions/api-place-order/index.ts:80-92 | a voucher is applied only for a truthy voucher_code and only an active listed row |
| PlaceOrderApi.AppliedVoucherFound | supabase/functions/api-place-order/index.ts:80-92 | a truthy voucher_code held by exactly one active row applies that row |
| PlaceOrderApi.ApiRecord | supabase/functions/api-place-order/index.ts:77-115 | the insert record is pending and unpaid; voucher_id and service_fee come from the found voucher (fee_amount, null as 0, regardless of type), else null and 0; the other fields pass through, with user_id, email and notes nulled when empty |
| PlaceOrderApi.HandleRequest | supabase/functions/api-place-order/index.ts:8-145 | preflight answers first; 401 exactly for a missing or wrong key; 400 exactly for a falsy required field after a valid key; 429 exactly when the limit blocks after both; an insert is attempted exactly when every check passed, with the record above; success returns the inserted order's code, id, status and fee, and an insert error or a non-JSON body gives 500 |
| OrderForm.ActiveVouchers | src/pages/Order.tsx:48-57 | the fetched vouchers are exactly the active rows, in table order |
| OrderForm.SelectVoucher | src/pages/Order.tsx:87 | `find` by id: none exactly when no listed voucher has the id, otherwise a listed voucher with that id |
| OrderForm.FormFee | src/pages/Order.tsx:88 | the fee is fee_amount for a "paid" voucher and 0 for a "free" voucher or none |
| OrderForm.FormPayment | src/pages/Order.tsx:103 | "unpaid" exactly when the fee is positive, otherwise "paid", never "refunded" |
| OrderForm.OrNull | src/pages/Order.tsx:95-100 | `value \|\| null`: null exactly for "" |
| OrderForm.FormRecord | src/pages/Order.tsx:87-104 | the form's insert record: pending, unpaid exactly when its fee is positive and paid otherwise, the fee of the selected voucher, the generated code; product link, quantity, recipient, contact and address passed through; voucher id, email and notes as typed, or null when empty; the signed-in user's id, or null for a guest |
| OrderForm.ZeroLimitLocks | src/pages/Order.tsx:66-76 | a stored limit of "0" locks the form whatever the count |
| OrderForm.NaNLimitNeverLocks | src/pages/Order.tsx:67-76 | a limit that parses to NaN never locks |
| OrderForm.PositiveLimitLocks | src/pages/Order.tsx:66-76 | a positive limit locks exactly when a count came back and reached it |
| OrderForm.OrderPage.constructor | src/pages/Order.tsx:25-38 | the page starts with no vouchers, unlocked, no user and the initial form (quantity 1) |
| OrderForm.OrderPage.FetchVouchers | src/pages/Order.tsx:48-57 | a successful fetch stores the active vouchers; a failed one keeps the list; nothing else changes |
| OrderForm.OrderPage.CheckDailyLimit | src/pages/Order.tsx:59-78 | with a settings row the lock becomes the limit test; without one it is unchanged; nothing else changes |
| OrderForm.OrderPage.SetQuantity | src/pages/Order.tsx:165 | the quantity field becomes `parseInt` of the input, NaN included; nothing else changes |
| OrderForm.OrderPage.HandleSubmit | src/pages/Order.tsx:80-115 | an insert is attempted exactly when a code was generated, with the form's record; the redirect to /track/code happens exactly after a successful insert, with the same code as the record |
| OrderForm.SelectedVoucherIsActive | src/pages/Order.tsx:48-57 | a voucher selected from the fetched list is an active table row; an id matching no active row selects nothing |
| PlacementCompare.ZeroLimitDisagreement | src/pages/Order.tsx:76 | for a stored limit of "0" the HTTP function never blocks while the form always locks |
| PlacementCompare.NoVoucherPaymentDisagreement | supabase/functions/api-place-order/index.ts:112-114 | with no voucher both paths charge 0, but the HTTP function writes "unpaid" and the form "paid" |
| PlacementCompare.FreeVoucherFeeDisagreement | supabase/functions/api-place-order/index.ts:88-91 | the HTTP function applies the only active "free" voucher with the sent code, and when it stores a positive fee the order is charged that fee and unpaid; the form selecting the same voucher charges 0 and writes paid (with src/pages/Order.tsx:88) |
| TrackOrder.PhoneVisible | src/pages/TrackOrder.tsx:81 | the integer form of `Math.ceil(n*0.4)`: the least v with 5v ≥ 2n |
| TrackOrder.MaskPhone | src/pages/TrackOrder.tsx:79-83 | a phone of at most 4 characters is returned unchanged; a longer one keeps its length and its first ceil(0.4·n) characters, and every later character is '*' |
| TrackOrder.MaskPhoneHidesMost | src/pages/TrackOrder.tsx:81-82 | at least three fifths (rounded down) of a longer phone is masked |
| TrackOrder.AddressVisible | src/pages/TrackOrder.tsx:87 | the integer form of `Math.ceil(k*0.5)` |
| TrackOrder.MaskAddress | src/pages/TrackOrder.tsx:85-89 | the masked address is the kept pieces followed by ", ***", which it always ends with |
| TrackOrder.AddressKeptIsPrefix | src/pages/TrackOrder.tsx:86-88 | the kept part is a prefix of the address, and all of it when there is no comma |
| TrackOrder.AddressKeptPieces | src/pages/TrackOrder.tsx:86-88 | the kept part splits back into exactly the first ceil(k/2) pieces of the address |
| TrackOrder.SplitJoin | src/pages/TrackOrder.tsx:86-88 | pieces without the separator rejoined and split give the pieces back |
| TrackOrder.IndexOf | src/pages/TrackOrder.tsx:126 | `indexOf`: the first position holding the name, or -1 when none does |
| TrackOrder.StepActiveKnown | src/pages/TrackOrder.tsx:125-126 | timeline step i is lit for a known status exactly when the status's index in the table is at least i |
| TrackOrder.StepActiveUnknown | src/pages/TrackOrder.tsx:126 | an unknown status lights no step |
| TrackOrder.LateStatusesLightEverything | src/pages/TrackOrder.tsx:11-18 | cancelled and awaiting_payment, last in the table, light all four steps |
| TrackOrder.StepsLitInOrder | src/pages/TrackOrder.tsx:126 | a lit step implies every earlier step is lit |
| TrackOrder.NoQrWithoutDebt | src/pages/TrackOrder.tsx:224 | a paid order, or one without a positive fee, never shows the QR code |
| TrackOrder.TrackingCodeRevealsQr | src/pages/TrackOrder.tsx:224 | an unpaid order with a positive fee shows the QR code exactly when a non-empty tracking code is set, and not without one |
| TrackOrder.NewOrderView | src/pages/TrackOrder.tsx:224-236 | a pending order without a tracking code offers the edit request and no QR code |
| TrackOrder.EditButtonOnlyWhilePending | src/pages/TrackOrder.tsx:236 | an order in any status other than pending shows no edit button |
| TrackOrder.BankSettingsOf | src/pages/TrackOrder.tsx:66-70 | bank name, account number and account name are the stored values, or "MBank", "" and "" when missing or empty |
| TrackOrder.MissingBankSettings | src/pages/TrackOrder.tsx:61-70 | with none of the bank keys stored the settings are ("MBank", "", "") |
| TrackOrder.TrackPage.constructor | src/pages/TrackOrder.tsx:26 | the page starts with blank bank name, account number and account name |
| TrackOrder.TrackPage.LoadBankSettings | src/pages/TrackOrder.tsx:56-71 | the rows fill a dictionary by `forEach` and the settings are read from it; no data keeps the previous settings |
| TelegramBot.NewUser | telegram-bot/index.js:50-60 | a new bot user records the chat, the Telegram id and no orders, with a missing username or first name stored as "" |
| TelegramBot.OrderBody | telegram-bot/index.js:294-303 | the posted body carries the session's link, quantity, recipient, address and the contact answer, notes nulled when empty, and no voucher, user id or email |
| TelegramBot.Answer | telegram-bot/index.js:243-356 | answering a session never opens a session for another chat |
| TelegramBot.AddOrder | telegram-bot/index.js:331-334 | the order code is appended to that chat's orders; the registered chats are unchanged |
| TelegramBot.Bot.constructor | telegram-bot/index.js:15-17 | the bot starts with no users and no sessions, which is a valid state |
| TelegramBot.Bot.Start | telegram-bot/index.js:45-60 | /start registers an unknown chat and leaves a known one and every session as they were; validity is kept |
| TelegramBot.Bot.StartOrder | telegram-bot/index.js:177-187 | /order opens a fresh session at the product-link step exactly for a registered chat; users are unchanged |
| TelegramBot.Bot.OnMessage | telegram-bot/index.js:204-356 | the message handler alone: its new sessions, new users and posted body are those of the step functions; validity is kept |
| TelegramBot.Bot.Receive | telegram-bot/index.js:45-204 | one text update as the library dispatches it: the message handler, then `/start` and `/order` for every text that contains them; an `/order` inside a contact answer is undone by the session delete after the request; validity is kept |
| TelegramBot.OrderInAnswerRestarts | telegram-bot/index.js:177-187 | an answer containing "/order" before the contact step restarts a registered chat's session at the product link and posts nothing |
| TelegramBot.OrderAtContactCloses | telegram-bot/index.js:287-354 | a contact answer containing "/order" still posts the order and leaves no session |
| TelegramBot.PlainTextOnlyMessageHandler | telegram-bot/index.js:45-204 | a text containing neither "/start" nor "/order" changes only what the message handler changes |
| TelegramBot.OrderLinkRestarts | telegram-bot/index.js:177-187 | the product link "https://shop.example/order/123" is accepted by the step but the session ends up fresh again |
| TelegramBot.Bot.AnswerStep | telegram-bot/index.js:240-356 | the switch on the session's step: the session dictionary after the answer, the body posted at the contact step, and the order recorded on a successful reply |
| TelegramBot.TransitionAdvancesOneStep | telegram-bot/index.js:243-289 | an accepted answer moves exactly one step on and changes only that step's field; only the contact step submits; only a bad quantity stays |
| TelegramBot.InvalidQuantityKeepsSession | telegram-bot/index.js:250-255 | a quantity answer that is NaN or below 1 changes no session and posts nothing |
| TelegramBot.NoSessionNoChange | telegram-bot/index.js:240-241 | a message from a chat without a session changes no state |
| TelegramBot.CancelClosesSession | telegram-bot/index.js:232-236 | the cancel button deletes the chat's session from any step and posts nothing |
| TelegramBot.MenuButtonsIgnored | telegram-bot/index.js:209-230 | the order, track, account and menu button texts are intercepted before the session and change no state |
| TelegramBot.OtherChatsUntouched | telegram-bot/index.js:204-356 | a message from one chat leaves every other chat's session as it was |
| TelegramBot.ContactClosesSession | telegram-bot/index.js:287-355 | the contact answer posts the order body and deletes the session on success and on failure; only a success appends the returned code to the chat's orders |
| TelegramBot.ConversationPostsAnswers | telegram-bot/index.js:244-303 | a full conversation posts the link, the parsed quantity, the recipient, the address and the contact, and the answer "Không" for notes is sent as null |
| TelegramBot.PostedBodyRequiredFields | telegram-bot/index.js:294-303 | the posted body passes the HTTP function's required-field check exactly when the text answers are non-empty |
| TelegramBot.PostedBodyHasNoVoucher | telegram-bot/index.js:296-303 | the bot never sends a voucher code, so no voucher is ever applied to its orders |
| TelegramBot.StatusText | telegram-bot/index.js:386-395 | the five listed codes get a label; any other code is returned unchanged |
| TelegramBot.StatusTextRawForUnlisted | telegram-bot/index.js:386-395 | the table lists "processing" and "delivered" instead of ordered, completed and awaiting_payment, which are shown raw |
| TelegramBot.PaymentStatusText | telegram-bot/index.js:397-404 | the three payment codes get a label; any other code is returned unchanged |
| TelegramBot.PaymentStatusTextLabelsAll | telegram-bot/index.js:397-404 | every payment status stored in the database gets a label |
| OrderDetail.ApplyPatch | src/pages/admin/OrderDetail.tsx:46-56 | the update changes only the eight patched fields: id, order code, user, product link, quantity, voucher, email and notes are kept, and the patch reads back from the result |
| OrderDetail.SaveStoresEdits | src/pages/admin/OrderDetail.tsx:42-56 | saving an order edited only in the patched fields stores exactly the edited order |
| OrderDetail.UpdateById | src/pages/admin/OrderDetail.tsx:56 | `.eq("id", id)`: the patch applies to the rows with the route id and no other row changes |
| OrderDetail.DeleteById | src/pages/admin/OrderDetail.tsx:67 | the delete removes exactly the rows with the route id and keeps the others in order |
| OrderDetail.DeleteMissingId | src/pages/admin/OrderDetail.tsx:67 | deleting an id no row has changes nothing |
| OrderDetail.OptionsCoverEnums | src/pages/admin/OrderDetail.tsx:147-171 | every status and payment status is selectable and every option is one of them, with no guard on the current value |
| OrderDetail.ServiceFeeInput | src/pages/admin/OrderDetail.tsx:190 | a fee input that does not parse becomes 0 |
| OrderDetail.ApplyEdit | src/pages/admin/OrderDetail.tsx:123-201 | each of the eight onChange handlers sets exactly its own field (the fee through `parseFloat(v) \|\| 0`, tracking code and admin notes as present values) and changes nothing else |
| OrderDetail.OrderDetailPage.constructor | src/pages/admin/OrderDetail.tsx:15-17 | the page holds the route id and no order yet |
| OrderDetail.OrderDetailPage.Load | src/pages/admin/OrderDetail.tsx:24-40 | the fetched order replaces the page's order |
| OrderDetail.OrderDetailPage.Edit | src/pages/admin/OrderDetail.tsx:123-201 | an edit applies to the loaded order and leaves its unpatched fields alone |
| OrderDetail.OrderDetailPage.HandleUpdate | src/pages/admin/OrderDetail.tsx:42-63 | the save sends the patch of the current order to the route id |
| OrderDetail.OrderDetailPage.HandleDelete | src/pages/admin/OrderDetail.tsx:65-75 | the delete targets the route id |
| OrderDetail.SaveTouchesOnlyTarget | src/pages/admin/OrderDetail.tsx:46-56 | after a save, rows with other ids are unchanged and the target row differs only in patched fields |
| VouchersAdmin.InsertRecord | src/pages/admin/Vouchers.tsx:46-51 | the code is the typed code upper-cased (same length, no lower-case letter); type and description pass through; a fee is stored only for, and exactly as entered for, a "paid" voucher |
| VouchersAdmin.InsertCodeIdempotent | src/pages/admin/Vouchers.tsx:47 | re-entering a stored code stores the same code |
| VouchersAdmin.LowerCaseCodeNeverStored | src/pages/admin/Vouchers.tsx:47 | a code containing a lower-case letter is never stored as typed |
| VouchersAdmin.AfterSubmit | src/pages/admin/Vouchers.tsx:53-61 | after a successful insert the form resets to "", "", free, 0; after a failure it is kept |
| VouchersAdmin.ToggleById | src/pages/admin/Vouchers.tsx:78-81 | the toggle writes the negated current flag to the rows with that id and changes nothing else |
| VouchersAdmin.ToggleTwiceRestores | src/pages/admin/Vouchers.tsx:76-81 | toggling twice restores the table |
| VouchersAdmin.ToggleFlips | src/pages/admin/Vouchers.tsx:80 | toggling a row with its current flag flips it |
| UsersAdmin.FilterUsersIsOneFilter | src/pages/admin/Users.tsx:132-157 | the three filter steps together are one filter keeping users that pass search, role and status |
| UsersAdmin.SearchStepIsFilter | src/pages/admin/Users.tsx:136-143 | a trim-empty query keeps everybody; otherwise the untrimmed, lower-cased query must occur in the lower-cased name or email |
| UsersAdmin.RoleStepIsFilter | src/pages/admin/Users.tsx:146-148 | the role filter keeps users whose role entry equals the filter |
| UsersAdmin.StatusStepIsFilter | src/pages/admin/Users.tsx:151-155 | "banned" keeps the banned set's users, "active" the others |
| UsersAdmin.FilterUsersSubsequence | src/pages/admin/Users.tsx:133-157 | the result is a subsequence of the users, holding exactly the users that pass every test |
| UsersAdmin.NoFilterListsEverybody | src/pages/admin/Users.tsx:132-157 | a trim-empty search with both filters "all" lists every user in order |
| UsersAdmin.BannedActivePartition | src/pages/admin/Users.tsx:151-155 | the "banned" and "active" results together count every user the other filters keep |
| UsersAdmin.NoRoleMatchesNeither | src/pages/admin/Users.tsx:147 | a user with no role entry matches neither "admin" nor "user" |
| UsersAdmin.NewRole | src/pages/admin/Users.tsx:79 | the new role is "user" exactly when the current one is "admin" |
| UsersAdmin.ShownRole | src/pages/admin/Users.tsx:297 | `roles[id] \|\| "user"` is "admin" exactly when the user's entry is admin, and "user" otherwise, including a user with no entry |
| UsersAdmin.ToggleFlipsShownRole | src/pages/admin/Users.tsx:79 | toggling from the shown role demotes an admin and promotes anyone else, including a user with no entry (with src/pages/admin/Users.tsx:297) |
| UsersAdmin.UpdateRoleRows | src/pages/admin/Users.tsx:81-84 | the update rewrites the role of that user's rows and no other row |
| UsersAdmin.RoleWithoutRowNotStored | src/pages/admin/Users.tsx:81-87 | for a user with no role row the update changes no row, yet the page then shows that user as admin |
| UsersAdmin.IdSet | src/pages/admin/Users.tsx:67-69 | `new Set(ids)` holds exactly the listed ids |
| UsersAdmin.UsersPage.constructor | src/pages/admin/Users.tsx:22-32 | the page starts with no users, roles, bans or reason, a blank search, both selects on "all", and an empty shown list in sync |
| UsersAdmin.UsersPage.SetSearchQuery | src/pages/admin/Users.tsx:202 | the search text is set and the shown list becomes the filter of the current state; nothing else changes |
| UsersAdmin.UsersPage.SetRoleFilter | src/pages/admin/Users.tsx:209 | the role select is set and the shown list is refiltered; nothing else changes |
| UsersAdmin.UsersPage.SetStatusFilter | src/pages/admin/Users.tsx:220 | the status select is set and the shown list is refiltered; nothing else changes |
| UsersAdmin.UsersPage.ClearFilters | src/pages/admin/Users.tsx:235-239 | all three controls go back to their defaults and every user is shown, in order |
| UsersAdmin.UsersPage.Refilter | src/pages/admin/Users.tsx:47-49 | the effect brings the shown list in sync with the current state and changes nothing else |
| UsersAdmin.UsersPage.FetchUsers | src/pages/admin/Users.tsx:51-76 | each query that came back replaces its part of the state (the roles by the `forEach` dictionary); the others are kept; the shown list is refiltered exactly when the profiles came back |
| UsersAdmin.UsersPage.SetBanReason | src/pages/admin/Users.tsx:339 | the reason field is set and nothing else, the shown list included |
| UsersAdmin.UsersPage.ToggleRole | src/pages/admin/Users.tsx:78-92 | the role sent is the toggled one; only a successful update changes that user's entry, and nothing else changes, the shown list included |
| UsersAdmin.UsersPage.BanUser | src/pages/admin/Users.tsx:94-113 | a trim-empty reason is refused without a write; otherwise (user, reason) is inserted and, on success, the user joins the banned set and the reason is cleared; the shown list is not refiltered |
| UsersAdmin.UsersPage.UnbanUser | src/pages/admin/Users.tsx:115-130 | a successful delete removes only that user from the banned set; the shown list is not refiltered |
| UsersAdmin.BanThenUnban | src/pages/admin/Users.tsx:94-130 | on the page, banning a user who was not banned and unbanning them, both succeeding, restores the banned set, clears the reason and leaves users, roles, controls and the list on screen as they were, in sync if they were |
| UsersAdmin.BannedUserStaysListed | src/pages/admin/Users.tsx:47-49 | under "active", a listed user is no longer in the list the new state would give once banned |
| UsersAdmin.DemotedAdminStaysListed | src/pages/admin/Users.tsx:47-49 | under "admin", a listed admin is no longer in the list the new state would give once demoted |
| UsersAdmin.BanWhileActiveFiltered | src/pages/admin/Users.tsx:94-108 | on a page in sync under "active", a successful ban inserts (user, reason), bans the user and leaves them on screen, so the page is out of sync |
| OrdersAdmin.FilterOrdersIsOneFilter | src/pages/admin/Orders.tsx:52-67 | the search and status steps are one filter on both conditions |
| OrdersAdmin.FilterOrdersMembers | src/pages/admin/Orders.tsx:52-67 | the result is a subsequence of the orders holding exactly the orders that match the term (code or recipient, case-insensitive) and the status |
| OrdersAdmin.NoFilterListsEverything | src/pages/admin/Orders.tsx:52-67 | an empty search with status "all" lists every order in order |
| OrdersAdmin.FilterOptions | src/pages/admin/Orders.tsx:96-101 | the options are "all" followed by the six status names in table order |
| OrdersAdmin.StatusOptionKeepsThatStatus | src/pages/admin/Orders.tsx:63-65 | choosing a status option keeps exactly the orders with that status |
| OrderStats.CountStatus | src/pages/admin/Dashboard.tsx:56-58 | a status count never exceeds the number of orders |
| OrderStats.CountStatusSnoc | src/pages/admin/Dashboard.tsx:56-58 | the count of orders with status s: 0 for no orders, and one more order adds 1 exactly when it has status s |
| OrderStats.FeeTotalIsSum | src/pages/admin/Dashboard.tsx:59 | the `reduce` left fold of fees (null as 0) equals the sum taken from the front |
| OrderStats.FeeSumAppend | src/pages/admin/Dashboard.tsx:59 | the fee sum of two lists is the sum of their sums |
| OrderStats.FeeSumPermutation | src/pages/admin/Dashboard.tsx:59 | the fee sum is the same for any reordering of the orders |
| OrderStats.OrderIrrelevant | src/pages/admin/Dashboard.tsx:56-59 | the `reduce` total and every status count are the same for any reordering of the orders |
| OrderStats.FeeTotalNonNegative | src/pages/admin/Dashboard.tsx:59 | non-negative fees give a non-negative total |
| OrderStats.FeeTotalNoFees | src/pages/admin/Dashboard.tsx:59 | orders without a fee total 0 |
| OrderStats.CountThreeStatuses | src/pages/admin/Dashboard.tsx:56-58 | the counts of three distinct statuses add up to at most the number of orders |
| Dashboard.ComputeStats | src/pages/admin/Dashboard.tsx:51-63 | total is the number of orders; pending, shipping and completed are the counts of orders with exactly that status, together at most total; totalFees is the sum of fees with null as 0 |
| Dashboard.CheckAdmin | src/pages/admin/Dashboard.tsx:25-49 | no session goes to sign-in; the dashboard is shown only when an (user, admin) row exists, `.maybeSingle()` requiring exactly one |
| Dashboard.NonAdminSentHome | src/pages/admin/Dashboard.tsx:33-43 | a signed-in user with no admin row is sent home |
| UserDetail.UserOrders | src/components/admin/UserDetailDialog.tsx:50-56 | the dialog's orders are exactly the table's orders of that user |
| UserDetail.ComputeUserStats | src/components/admin/UserDetailDialog.tsx:70-82 | totalOrders is the number of the user's orders, completedOrders is the count of those with status completed (at most totalOrders), totalSpent is the fee sum with null as 0 |
| UserDetail.TicketQuery | src/components/admin/UserDetailDialog.tsx:59-68 | tickets are queried exactly when orders came back and are non-empty, by the list of their codes in order |
| UserDetail.BadgeOfEachStatus | src/components/admin/UserDetailDialog.tsx:92-100 | cancelled is destructive; ordered, shipping and completed are default; pending and the unlisted awaiting_payment are secondary |
| UserDetail.BadgeOfUnknown | src/components/admin/UserDetailDialog.tsx:99 | an unknown status falls back to secondary |
| SettingsAdmin.HundredParses | src/pages/admin/Settings.tsx:36 | `parseInt("100")` is 100 |
| SettingsAdmin.ParseSettings | src/pages/admin/Settings.tsx:35-41 | the limit is `parseInt` of the stored text, 100 when missing or empty; the two switches are on only for the exact text "true"; the text defaults to ""; the colour is never empty and defaults to "#EE4D2D" |
| SettingsAdmin.BoolString | src/pages/admin/Settings.tsx:64 | a boolean prints as "true" exactly when it is true |
| SettingsAdmin.Serialise | src/pages/admin/Settings.tsx:62-68 | save writes five pairs under five distinct keys |
| SettingsAdmin.SavedValue | src/pages/admin/Settings.tsx:48-68 | after saving, each of the five keys holds the value written for it |
| SettingsAdmin.SaveThenLoad | src/pages/admin/Settings.tsx:36-40 | saving and reading back gives the same settings whatever the table held, except that an empty colour comes back as the default (with src/pages/admin/Settings.tsx:62-68) |
| SettingsAdmin.SettingsPage.constructor | src/pages/admin/Settings.tsx:12-18 | the page starts at 100, off, "", "#EE4D2D", off |
| SettingsAdmin.SettingsPage.FetchSettings | src/pages/admin/Settings.tsx:24-46 | fetched rows are read through the `forEach` dictionary; a failed query keeps the settings |
| SettingsAdmin.SettingsPage.SetLimitInput | src/pages/admin/Settings.tsx:89 | the limit input never stores NaN: text that does not parse becomes 0; nothing else changes |
| SettingsAdmin.SettingsPage.SetBannerEnabled | src/pages/admin/Settings.tsx:102 | the switch sets only banner_enabled |
| SettingsAdmin.SettingsPage.SetBannerText | src/pages/admin/Settings.tsx:112 | the input sets only banner_text |
| SettingsAdmin.SettingsPage.SetBannerColor | src/pages/admin/Settings.tsx:123-128 | the two colour inputs set only banner_color |
| SettingsAdmin.SettingsPage.SetMaintenanceMode | src/pages/admin/Settings.tsx:146-150 | the switch sets only maintenance_mode |
| SettingsAdmin.SettingsPage.HandleSave | src/pages/admin/Settings.tsx:60-74 | the saved table holds each written pair and reads back as the current settings (an empty colour as the default) |
| Banner.BannerOf | src/components/Layout/Banner.tsx:40-48 | visible only for the exact text "true"; text defaults to ""; colour never empty, defaulting to "#EE4D2D"; each taken from the first row with its key |
| Banner.Dismiss | src/components/Layout/Banner.tsx:51 | the close button hides the banner and keeps its text and colour (with src/components/Layout/Banner.tsx:63) |
| Banner.BannerQuery | src/components/Layout/Banner.tsx:35-38 | `.in("key", [...])`: the rows returned are exactly the table's rows with one of the three banner keys |
| Banner.FindFirstFilter | src/components/Layout/Banner.tsx:38-43 | dropping rows that do not carry key k leaves `find` for k unchanged |
| Banner.BannerOfQuery | src/components/Layout/Banner.tsx:35-43 | the banner read from the query's rows is the banner read from the whole table |
| Banner.BannerAgreesWithSettings | src/components/Layout/Banner.tsx:35-43 | with unique keys, the banner reading its query's rows and the settings page reading the whole table get the same visibility, text and colour (with src/pages/admin/Settings.tsx:37-39) |
| Banner.BannerAfterSave | src/components/Layout/Banner.tsx:35-51 | once the table reads as the upsert of a save, the banner read through its query renders exactly when it was enabled with a non-empty text (with src/pages/admin/Settings.tsx:62-68) |
| Banner.SavedRowsMeetRequirements | src/pages/admin/Settings.tsx:62-68 | the five rows a save writes have unique keys and read as their upsert, so the save lemma applies to them |
| PaymentQr.NormaliseBank | src/components/PaymentQRCode.tsx:15 | the normalised name contains no whitespace and no upper-case letter |
| PaymentQr.NormaliseBankIsLowerWithoutSpaces | src/components/PaymentQRCode.tsx:15 | the normalised name is the lower-cased name with all whitespace removed (the trim adds nothing) |
| PaymentQr.NormaliseBankIdempotent | src/components/PaymentQRCode.tsx:15 | normalising twice is normalising once |
| PaymentQr.BankCode | src/components/PaymentQRCode.tsx:16-21 | "mb", "mbank" and "mbbank" map to "mbbank"; any other name is its own code |
| PaymentQr.BankCodeIdempotent | src/components/PaymentQRCode.tsx:16-21 | a bank code maps to itself |
| PaymentQr.BankCodeIgnoresSpacing | src/components/PaymentQRCode.tsx:15-21 | names that differ only in spacing and capitals get the same code |
| PaymentQr.QrUrl | src/components/PaymentQRCode.tsx:22 | the URL starts with the VietQR image address for the bank code and account number |
| PaymentQr.QrUrlFields | src/components/PaymentQRCode.tsx:22 | when the pieces hold no '&', the URL splits at '&' into exactly the address with the amount, addInfo with the encoded order code, and accountName with the encoded name |
| PaymentQr.PaymentCard | src/components/PaymentQRCode.tsx:24-32 | the not-configured alert is shown exactly for an empty account number |
| ProfilePassword.ChangePassword | src/pages/Profile.tsx:70-93 | mismatch exactly when new differs from confirm; too short exactly when they agree and new is under 6; otherwise the update is called with the new password |
| ProfilePassword.MismatchReportedFirst | src/pages/Profile.tsx:71-87 | when both rules fail only the mismatch is reported |
| ProfilePassword.AfterChange | src/pages/Profile.tsx:91-101 | a successful update clears all three fields; a refusal or failed update keeps them |
| ProfilePassword.EnabledButtonOutcome | src/pages/Profile.tsx:187 | through the enabled button the new password is non-empty, and the current password never matters |
| ResetPassword.Issues | src/pages/Reset.tsx:12-18 | the schema reports a too-short or too-long password (length outside 6..128) and, independently, a mismatched confirmation; none exactly for a valid, confirmed password |
| ResetPassword.ShownError | src/pages/Reset.tsx:50-55 | a toast is shown exactly when the update is not called, with the message of the first issue |
| ResetPassword.ShownErrorTellsCause | src/pages/Reset.tsx:13-16 | each of the three messages is shown exactly when its rule is the first one broken |
| ResetPassword.ResetOutcome | src/pages/Reset.tsx:39-73 | the update is called, with the password itself, exactly when the schema passes; otherwise the first issue is reported |
| ResetPassword.LengthReportedBeforeMismatch | src/pages/Reset.tsx:45-55 | a length problem is the error shown even when the confirmation also differs |
| ResetPassword.ResetAcceptsOnlyWhatProfileAccepts | src/pages/Reset.tsx:12-18 | every password the reset page sets, the profile page would set too (with src/pages/Profile.tsx:71-93) |
| ResetPassword.ErrorOrderDiffers | src/pages/Reset.tsx:50-52 | for ("abc", "abd") the profile page reports a mismatch while the reset page reports "too short" (with src/pages/Profile.tsx:71-87) |
| ResetPassword.ProfileHasNoUpperBound | src/pages/Reset.tsx:13 | a 129-character password passes the profile page and is rejected as too long by the reset page (with src/pages/Profile.tsx:80) |

## Left out

- Every database call (select, insert, update, delete, upsert, RPC) is an input or an output, not a model of the database. Row-level security is not modelled. `.single()` and `.maybeSingle()` are modelled only as "exactly one matching row".
- The `generate_order_code` RPC and the cancelled-order cleanup function are not modelled; their bodies are not in the repository, so the code is a parameter.
- Auth sessions, `onAuthStateChange`, the recovery-session check on the reset page, the password-reset e-mail dialog and the banner's realtime channel are not modelled; for the admin gate the session is a parameter. They belong to the hosted service.
- Telegram polling and HTTP calls are not modelled (the HTTP function's reply is a parameter `ApiReply`), and neither are `bot.sendMessage` texts, the `fs` persistence of the bot users and the express webhook. They are I/O.
- `bot.emit` re-dispatch of the order and account buttons is not modelled: an emitted `text` event reaches no `onText` handler, so those buttons change no state in the model. `TelegramBot.Bot.Receive` dispatches as the library does with its default options: the message handler first, then every `onText` handler whose unanchored pattern occurs in the text, so any text containing "/order", a link included, restarts a registered chat's session at every step before contact. Of the other patterns, /menu, /tk, /track and /help only send replies.
- Non-text Telegram messages and the /track, /tk, /menu and /help replies are not modelled; they only send text.
- The race between the daily-count check and the insert is not modelled. Neither is the concurrency of `Promise.all` in the settings save, which is modelled as five upserts in sequence.
- Floating point is not modelled: `Math.ceil` of n·0.4 and k·0.5 are integer formulas, and `toLocaleString` is dropped. Money is an unbounded integer.
- PlaceOrderApi.JsonNumberQuantity: a JSON number quantity is a whole number in the model, so `parseInt` of a fractional number (2.5 gives 2) or of one printed with an exponent (1e21 gives 1) is not modelled.
- JsNumber.ParseFloat: reads only the leading whole number; fractions, exponents and "Infinity" are not modelled, because fees are integers here.
- TelegramBot.ContactClosesSession and TelegramBot.Bot.AnswerStep: the contact step is one atomic step. In the bot the session is deleted only after `await axios.post` settles (telegram-bot/index.js:294-354). A second message from the same chat during the request still finds the session at the contact step and posts a second order. That interleaving is not modelled. Only the synchronous `onText` handlers of the same update are placed before the delete (`TelegramBot.Bot.Receive`).
- UsersAdmin.UsersPage.FetchUsers: the three state updates are taken as one render, so the list is refiltered once with all three parts. This relies on React 18 batching updates after an `await`; the React version is not part of this model.
- Time zones and "midnight today" are not modelled; today's count is a parameter.
- `encodeURIComponent` is an opaque function parameter. `QrUrlFields` assumes only that it escapes '&'.
- String lengths count characters, not UTF-16 code units. Case mapping covers ASCII letters only, and whitespace is the ASCII subset of `\s`.
- The label tables are lookups on their listed keys only; inherited `Object.prototype` names such as "constructor" are not modelled.
- The JSON body of the HTTP function is modelled as optional strings plus a quantity that is null, a number or a string. Other JSON types for the text fields are not modelled.
- Voucher deletion on the voucher page, the profile-name update, and all rendering and routing are not modelled; they are single calls or layout.
- The tracking page's order and voucher fetches are not modelled, the order and the voucher being inputs to the display conditions.
- The dashboard's recent-orders list is not modelled, and neither is the `created_at` ordering of the user dialog's orders. Counts and fee sums do not depend on order (`OrderStats.OrderIrrelevant`).
- The support-ticket rows are not modelled: `UserDetail.TicketQuery` states only when tickets are queried and with which codes.
