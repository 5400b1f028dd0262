# Marketplace front end: the logic inside the pages

This project models the decision logic of a React marketplace front end whose
pages run on hard-coded mock data. It covers:

- the in-memory list filters of the Orders, Billing and Messages pages and of
  the MultiSelect component: a case-insensitive substring search plus an
  `"all"`-or-equal selector;
- the card-form input formatters (card number grouping, `MM/YY` expiry, the
  security-code sanitizer). Billing and Payment both use them, and they are
  modelled once;
- the form validations of the Payment and Profile pages. Each builds an
  error map keyed by field and reports success exactly when the map is empty;
- the Checkout page's price state: the quantity, the extras, the promo code
  and the derived total;
- the small state machines around these: card-form editing, save/cancel of
  the profile forms, and sending a message.

Modules, one per source file plus shared helpers:

| file | module | models |
|---|---|---|
| `wrappers.dfy` | `Wrappers` | `Option` |
| `seqs.dfy` | `Seqs` | `filter`, an `includes`-based toggle and removal, order-preserving subsequences |
| `text.dfy` | `Text` | ASCII `toLowerCase`, `includes`, `trim`, `\s`/`\D` stripping |
| `errormap.dfy` | `ErrorMaps` | recording a message under a key, `Object.keys(..).length === 0` |
| `cardformat.dfy` | `CardFormat` | `formatCardNumber`, `formatExpiryDate`, the security-code sanitizer |
| `billing.dfy` | `Billing` | `src/pages/Billing.tsx` |
| `payment.dfy` | `Payment` | `src/pages/Payment.tsx` |
| `checkout.dfy` | `Checkout` | `src/pages/Checkout.tsx` |
| `orders.dfy` | `Orders` | `src/pages/Orders.tsx` |
| `profile.dfy` | `Profile` | `src/pages/Profile.tsx` |
| `multiselect.dfy` | `MultiSelect` | `src/components/MultiSelect.tsx` |
| `messages.dfy` | `Messages` | `src/pages/Messages.tsx` |

The Billing, Payment, Checkout, Profile and Messages pages become classes.
The state hooks that their handlers update become fields, and each handler
becomes a method that updates those fields synchronously. The other hooks are
not fields. The Billing and Orders filter selections are the parameters
`TransactionCriteria` and `OrderCriteria` of their filter functions. Orders
has no class, and its `selectedOrder` hook only feeds the details dialog,
which is not modelled. MultiSelect's `value` is a parameter of its handlers,
which return the new value, and its `open` and `searchValue` hooks are not
modelled as state. Derived values and pure helpers become functions. A handler that reads its argument from a DOM event
takes the value as a parameter. Money is held in whole cents. Each regular
expression becomes an explicit predicate over characters.

## Model

| member | source | states |
|---|---|---|
| Seqs.Remove | src/components/MultiSelect.tsx:49-51 | `filter(v => v !== x)`: exactly the elements other than `x` remain, in order, each with its multiplicity; the list is unchanged when `x` is absent |
| Seqs.Toggle | src/components/MultiSelect.tsx:42-47 | membership of `x` flips; a present `x` is removed and the rest stay in order; an absent `x` is appended at the end |
| Seqs.ToggleNoDup | src/pages/Checkout.tsx:52-58 | toggling never introduces a duplicate |
| Seqs.ToggleTwice | src/pages/Checkout.tsx:52-58 | two toggles restore membership, and restore the list itself when `x` was absent |
| Seqs.RemoveIdempotent | src/components/MultiSelect.tsx:49-51 | removing twice is removing once |
| Text.TrimmedBlank | src/pages/Payment.tsx:64 | `!s.trim()` holds exactly when `s` is whitespace only |
| Text.IsTrimmedEmpty | src/pages/Profile.tsx:93 | the "required" test `!s.trim()` is true exactly when `s` is whitespace only |
| CardFormat.CardNumberText | src/pages/Billing.tsx:131-144 | the value `formatCardNumber` returns: the bare digits when fewer than four were typed, otherwise a non-empty text; CardNumberShape gives its full layout |
| CardFormat.FormatCardNumber | src/pages/Billing.tsx:131-144 | the loop's output is the card-number function's value: only digits and spaces, and removing the spaces leaves the first sixteen input digits |
| CardFormat.CardNumberShape | src/pages/Billing.tsx:131-144 | only digits and spaces; removing the spaces leaves the first min(16, n) digits; with 4 or more digits, groups of four separated by single spaces (a space exactly at every fifth position, at most 19 characters, a last group of 1-4 digits); with fewer, the bare digits |
| CardFormat.CardNumberIdempotent | src/pages/Billing.tsx:131-144 | formatting a formatted card number changes nothing |
| CardFormat.ExpiryDateText | src/pages/Billing.tsx:146-152 | fewer than 2 digits: those digits; otherwise the first two digits, `/`, and up to two more; at most 5 characters |
| CardFormat.ExpiryDateDigits | src/pages/Billing.tsx:146-152 | the digits of the output are the first four digits of the input |
| CardFormat.ExpiryDateIdempotent | src/pages/Billing.tsx:146-152 | formatting a formatted expiry date changes nothing |
| CardFormat.SecurityCodeText | src/pages/Billing.tsx:162 | only digits, at most four, a prefix of the input's digits, of length min(4, n) |
| CardFormat.SecurityCodeIdempotent | src/pages/Billing.tsx:162 | sanitizing a sanitized code changes nothing |
| Billing.FilteredTransactions | src/pages/Billing.tsx:120-129 | a transaction is kept iff the lowercased query occurs in its lowercased id, order number or service and the type is `"all"` or equal; the result is an order-preserving subsequence that keeps every matching occurrence, so each transaction appears as often as in the input if it matches and never otherwise; no query and `"all"` keep everything |
| Billing.AllMatchWithoutCriteria | src/pages/Billing.tsx:120-129 | with an empty query and type `"all"` every transaction matches |
| Billing.DateAndServiceIgnored | src/pages/Billing.tsx:49-51 | the date-range and service selections do not change the filtered list |
| Billing.BillingPage.constructor | src/pages/Billing.tsx:52-59 | the dialog starts closed with every card field empty |
| Billing.BillingPage.SetAddingCard | src/pages/Billing.tsx:52 | the dialog's open state becomes the given one |
| Billing.BillingPage.HandleCardInputChange | src/pages/Billing.tsx:154-166 | only the edited field changes, to its formatted value (grouped number, `MM/YY` expiry, sanitized code, name as typed) |
| Billing.BillingPage.AddPaymentMethod | src/pages/Billing.tsx:168-171 | closes the dialog and resets number, expiry, code and name to `""` |
| Payment.FieldError | src/pages/Payment.tsx:39-74 | per field: the "required" message iff the field is missing, the format message iff it is present but invalid, none iff it is valid |
| Payment.PaymentErrors | src/pages/Payment.tsx:39-78 | the error map holds exactly the failing fields, each with its field's message |
| Payment.PaymentErrorsEmptyIff | src/pages/Payment.tsx:76-77 | the error map is empty iff every field is valid |
| Payment.CheckCardNumber | src/pages/Payment.tsx:43-47 | "required" when nothing is left after removing whitespace, else "invalid" for fewer than 13 characters; no other key changes |
| Payment.CheckExpiryDate | src/pages/Payment.tsx:50-54 | "required" when empty, else the format message unless it reads two digits, `/`, two digits |
| Payment.CheckSecurityCode | src/pages/Payment.tsx:57-61 | "required" when empty, else the format message unless it is 3 or 4 digits |
| Payment.CheckFirstName | src/pages/Payment.tsx:64-68 | "required" when blank after trimming, else "Only letters allowed" unless every character is an ASCII letter or whitespace |
| Payment.CheckLastName | src/pages/Payment.tsx:70-74 | as for the first name, under the last-name key |
| Payment.FormattedCardNumberValid | src/pages/Payment.tsx:45 | a formatted card number passes the length check iff at least 13 digits were typed |
| Payment.FormattedExpiryDateValid | src/pages/Payment.tsx:52 | a formatted expiry passes the `MM/YY` check iff at least 4 digits were typed |
| Payment.FormattedSecurityCodeValid | src/pages/Payment.tsx:59 | a sanitized code passes the 3-or-4-digit check iff at least 3 digits were typed |
| Payment.PaymentPage.constructor | src/pages/Payment.tsx:15-23 | the form starts empty with no errors |
| Payment.PaymentPage.ValidateForm | src/pages/Payment.tsx:39-78 | the error map becomes the per-field map, and the result is true iff the whole form is valid |
| Payment.PaymentPage.HandleInputChange | src/pages/Payment.tsx:104-120 | only the edited field changes, to its formatted value; if that field showed an error, only that error becomes `""` |
| Payment.PaymentPage.SetSaveAsDefault | src/pages/Payment.tsx:21 | only the checkbox changes |
| Payment.PaymentPage.HandleSubmit | src/pages/Payment.tsx:122-128 | proceeds iff validation succeeds, leaving the validation's error map |
| Checkout.FindExtra | src/pages/Checkout.tsx:46 | none iff no extra has the id; otherwise the first extra with that id |
| Checkout.PriceOf | src/pages/Checkout.tsx:45-48 | the price of any listed extra carrying the id, 0 when no listed extra carries it |
| Checkout.ExtrasTotal | src/pages/Checkout.tsx:45-48 | `extrasTotal` is at least the price of each selected id; SumOfAppend, SumOfRemove and ExtrasTotalToggle say how it moves |
| Checkout.SumOfAppend | src/pages/Checkout.tsx:45-48 | the `reduce` over one more selected id adds exactly that id's price |
| Checkout.SumOfRemove | src/pages/Checkout.tsx:45-48 | removing every occurrence of an id lowers the `reduce` by its price once per occurrence |
| Checkout.ExtrasTotalToggle | src/pages/Checkout.tsx:52-58 | on a list without duplicates, toggling an id adds or subtracts exactly its price |
| Checkout.Discount | src/pages/Checkout.tsx:49 | 10.00 iff the promo is applied, else 0 |
| Checkout.Total | src/pages/Checkout.tsx:43-50 | the total is at least price * quantity + fee - the promo discount, and at least price * quantity + fee without the promo |
| Checkout.TotalIncrement | src/pages/Checkout.tsx:43-50 | one more package raises the total by exactly the package price |
| Checkout.TotalPositive | src/pages/Checkout.tsx:43-50 | with at least one package the total is at least price + fee - discount, which is positive |
| Checkout.UnknownExtraFree | src/pages/Checkout.tsx:36-41 | an id the page does not list costs nothing |
| Checkout.PromoCodeAnyCase | src/pages/Checkout.tsx:60-64 | `SAVE10` and `Save10` are accepted |
| Checkout.CheckoutPage.constructor | src/pages/Checkout.tsx:15-18 | quantity 1, no extras, empty code, promo not applied |
| Checkout.CheckoutPage.Increment | src/pages/Checkout.tsx:129 | quantity + 1, and the total rises by the package price; quantity stays at least 1 and the extras stay free of duplicates |
| Checkout.CheckoutPage.Decrement | src/pages/Checkout.tsx:120 | `max(1, q - 1)`: one less above 1, stays at 1 |
| Checkout.CheckoutPage.ToggleExtra | src/pages/Checkout.tsx:52-58 | the extras become the toggled list, with no duplicates, and the total moves by exactly that extra's price |
| Checkout.CheckoutPage.SetPromoCode | src/pages/Checkout.tsx:225 | only the code changes |
| Checkout.CheckoutPage.ApplyPromoCode | src/pages/Checkout.tsx:60-64 | the promo is applied afterwards iff it was already or the lowercased code is `save10`; it is never cleared |
| Orders.FilteredOrders | src/pages/Orders.tsx:107-116 | an order is kept iff the lowercased query occurs in its lowercased order number, gig title or seller name and the status filter is `"all"` or equal; the result is an order-preserving subsequence that keeps every matching occurrence, so each order appears as often as in the input if it matches and never otherwise; no query and `"all"` keep everything |
| Orders.AllMatchWithoutCriteria | src/pages/Orders.tsx:107-116 | with an empty query and status `"all"` every order matches |
| Orders.DateRangeIgnored | src/pages/Orders.tsx:40 | the date-range selection does not change the filtered list |
| Orders.StatusOnlyFilter | src/pages/Orders.tsx:113 | with no query, a status filter keeps exactly the orders in that status |
| Orders.EmptyStateFor | src/pages/Orders.tsx:224-240 | with a query typed or a status other than `"all"`, the "No orders found for your criteria" heading and the adjust-criteria hint; otherwise "You haven't placed any orders yet", the ready-to-find hint, and the Browse link, which shows exactly with that heading |
| Orders.EmptyStateTruthful | src/pages/Orders.tsx:220-240 | with no criterion active the empty state shows only when there are no orders; when orders exist, it shows the criteria message and no link |
| Orders.CanDownload | src/pages/Orders.tsx:336 | the download button shows iff the status string is `completed` or `delivered` (the same test at line 348) |
| Orders.StatusBadge | src/pages/Orders.tsx:118-133 | the green badge is used exactly for the statuses that allow a download |
| Orders.StatusLabelsDistinct | src/pages/Orders.tsx:118-125 | every status has its own badge caption |
| Orders.StatusIcon | src/pages/Orders.tsx:135-147 | the check-circle icon iff a download is allowed, the clock iff in progress |
| Orders.NameInjective | src/pages/Orders.tsx:30 | distinct statuses have distinct names |
| Profile.ValidateEmail | src/pages/Profile.tsx:75-78 | an accepted email has at least five characters, holds an `@`, and does not start with one; ValidateEmailIff gives its exact language |
| Profile.ValidateEmailIff | src/pages/Profile.tsx:75-78 | the computed check accepts exactly the strings of the form part `@` part `.` part, with no whitespace or `@` in any part |
| Profile.ValidateEmailSound | src/pages/Profile.tsx:75-78 | an accepted email matches the pattern |
| Profile.ValidateEmailComplete | src/pages/Profile.tsx:75-78 | a string matching the pattern is accepted |
| Profile.ValidEmailShape | src/pages/Profile.tsx:75-78 | an accepted email holds exactly one `@` and no whitespace |
| Profile.ValidatePhone | src/pages/Profile.tsx:80-83 | an accepted phone number has at least ten characters (the ten digits) and starts with `+` or a phone character |
| Profile.ValidPhoneShape | src/pages/Profile.tsx:80-83 | an accepted phone number has at least ten characters, and a `+` only at its start |
| Profile.ValidateZipCode | src/pages/Profile.tsx:85-88 | an accepted zip code has 5 characters, or 10 with `-` at position 5, and a digit at every other position |
| Profile.ValidZipCodeDigits | src/pages/Profile.tsx:85-88 | an accepted zip code carries exactly 5 or 9 digits, the hyphen being the only non-digit |
| Profile.ZipCodeExamples | src/pages/Profile.tsx:85-88 | `94105` and `94105-1234` are accepted; `9410`, `94105-123` and `94105 1234` are not |
| Profile.ProfileFieldError | src/pages/Profile.tsx:90-107 | no message iff the key's check passes; for email and phone, "required" iff blank and the format message iff present but malformed |
| Profile.ProfileErrors | src/pages/Profile.tsx:90-111 | the map holds exactly the failing profile keys, with their messages, and no billing key |
| Profile.ProfileErrorsEmptyIff | src/pages/Profile.tsx:109-110 | the profile error map is empty iff the profile is valid |
| Profile.BillingFieldError | src/pages/Profile.tsx:113-137 | no message iff the key's check passes; for the zip code, "required" iff blank and the format message iff present but malformed |
| Profile.BillingErrors | src/pages/Profile.tsx:113-140 | the map holds exactly the failing billing keys, with their messages; the full name is keyed `billingFullName`, never a profile key |
| Profile.BillingErrorsEmptyIff | src/pages/Profile.tsx:138-139 | the billing error map is empty iff the billing details are valid |
| Profile.BillingIgnoresOptionalFields | src/pages/Profile.tsx:113-140 | company name, state, VAT number and invoice choice never affect the errors |
| Profile.CheckFullName | src/pages/Profile.tsx:93-95 | records "Full name is required" iff the name is blank after trimming; no other key changes |
| Profile.CheckEmail | src/pages/Profile.tsx:97-101 | "required" when blank, else "Invalid email format" when the email check fails |
| Profile.CheckPhone | src/pages/Profile.tsx:103-107 | "required" when blank, else "Invalid phone number" when the phone check fails |
| Profile.CheckBillingFullName | src/pages/Profile.tsx:116-118 | "Full name is required" under `billingFullName` iff blank |
| Profile.CheckCountry | src/pages/Profile.tsx:120-122 | "Country is required" iff blank |
| Profile.CheckAddress | src/pages/Profile.tsx:124-126 | "Address is required" iff blank |
| Profile.CheckCity | src/pages/Profile.tsx:128-130 | "City is required" iff blank |
| Profile.CheckZipCode | src/pages/Profile.tsx:132-136 | "required" when blank, else "Invalid zip code format" when the zip check fails |
| Profile.ProfilePage.constructor | src/pages/Profile.tsx:37-73 | the sample profile and billing data, nothing being edited, no errors |
| Profile.ProfilePage.StartEditProfile | src/pages/Profile.tsx:214 | enters profile editing |
| Profile.ProfilePage.StartEditBilling | src/pages/Profile.tsx:309 | enters billing editing |
| Profile.ProfilePage.ValidateProfileForm | src/pages/Profile.tsx:90-111 | the error map becomes the profile error map; the result is true iff the profile is valid |
| Profile.ProfilePage.ValidateBillingForm | src/pages/Profile.tsx:113-140 | the error map becomes the billing error map; the result is true iff the billing details are valid |
| Profile.ProfilePage.SaveProfile | src/pages/Profile.tsx:142-150 | profile editing ends iff validation passes, and the errors are those of the validation |
| Profile.ProfilePage.SaveBilling | src/pages/Profile.tsx:152-160 | billing editing ends iff validation passes, and the errors are those of the validation |
| Profile.ProfilePage.CancelEdit | src/pages/Profile.tsx:162-169 | leaves only the chosen edit mode, and clears every error |
| MultiSelect.FilteredOptions | src/components/MultiSelect.tsx:38-40 | an option is kept iff its lowercased label contains the lowercased search; an order-preserving subsequence in which each matching option keeps its multiplicity and every other one is absent; an empty search keeps all |
| MultiSelect.HandleSelect | src/components/MultiSelect.tsx:42-47 | membership of the value flips; a present value loses every occurrence and the rest keep their order and counts; an absent one is appended at the end |
| MultiSelect.SelectOfSelectedIsRemove | src/components/MultiSelect.tsx:42-51 | clicking a selected option gives the same value as removing its badge |
| MultiSelect.HandleSelectTwice | src/components/MultiSelect.tsx:42-47 | selecting an unselected option twice gives back the value |
| MultiSelect.HandleRemove | src/components/MultiSelect.tsx:49-51 | the value loses every occurrence of the removed one; the rest keep their order and counts |
| MultiSelect.HandleRemoveIdempotent | src/components/MultiSelect.tsx:49-51 | removing the same value twice is removing it once |
| MultiSelect.SelectedOptions | src/components/MultiSelect.tsx:53 | the options whose value is selected, as an order-preserving subsequence of the options in which each such option keeps its multiplicity and every other one is absent |
| MultiSelect.SelectedOptionsBySet | src/components/MultiSelect.tsx:53 | the shown selection depends only on which values are selected |
| MultiSelect.SelectedAfterSelect | src/components/MultiSelect.tsx:42-53 | after a click, exactly the options carrying the clicked value change their shown state |
| Messages.FilteredConversations | src/pages/Messages.tsx:142-145 | a conversation is kept iff the lowercased query occurs in the lowercased seller name or gig title; an order-preserving subsequence in which each matching conversation keeps its multiplicity and every other one is absent; an empty query keeps all |
| Messages.FindConversation | src/pages/Messages.tsx:147 | none iff no conversation has the selected id (always none when nothing is selected); otherwise the first with that id |
| Messages.MessagesPage.SelectedConv | src/pages/Messages.tsx:147 | a conversation of the whole list, not of the filtered one, carrying the selected id; none iff no conversation has that id |
| Messages.NothingSelectedFindsNone | src/pages/Messages.tsx:38 | a `null` selection finds no conversation |
| Messages.MessagesPage.constructor | src/pages/Messages.tsx:38-40 | conversation "1" selected, empty draft, empty search |
| Messages.MessagesPage.SelectConversation | src/pages/Messages.tsx:203 | the id becomes the selection; a conversation is shown iff one has that id |
| Messages.MessagesPage.SetSearchQuery | src/pages/Messages.tsx:186 | the search changes and the selected conversation does not |
| Messages.MessagesPage.SetNewMessage | src/pages/Messages.tsx:315 | only the draft changes |
| Messages.MessagesPage.SendMessage | src/pages/Messages.tsx:149-155 | sends iff the trimmed draft is non-empty and a conversation is selected; a send clears the draft, otherwise nothing changes; no conversation changes |
| Messages.MessagesPage.HandleKeyPress | src/pages/Messages.tsx:157-162 | Enter without Shift sends as above; any other key changes nothing |

## Left out

- Rendering: JSX, styling, icons, dialogs, popovers and their open state, the selected order in the Orders details dialog, and the static pages (Browse, GigDetail, Reviews and the presentational components).
- Side effects with no stateable result: `navigate`, toasts, `console.log` of the sent message. The same holds for `makeDefault` and `removeCard`, which only show a toast. `HandleSubmit` returns whether it would navigate, and `SendMessage` whether it would send.
- Messages.MessagesPage.SendMessage: the source does not append the message to the conversation, and the model does not either. The `sent` result is the model's own account of the guard.
- Floating-point money and `toFixed(2)`: every amount is in integer cents, and each one on the Checkout page (75, 5.25, 10, 25/15/20/30) is exact in cents.
- Lowercasing is ASCII-based: Unicode case mapping is not modelled. `\s` and `trim` use the full set of ECMAScript WhiteSpace and LineTerminator characters, listed in `text.dfy`. The JavaScript regular-expression engine is not modelled; each regex is an explicit character predicate.
- String lengths: JavaScript's `.length` counts UTF-16 code units, while a Dafny string counts characters. The only length test this affects is the card number's `.length < 13` (`src/pages/Payment.tsx:45`). The formatter leaves only ASCII digits and spaces in that field, so the two counts agree on every value the form can hold.
- Error maps use a datatype key (`PaymentField`, `ErrorKey`, each with `Key()` giving the source's string) rather than free strings. So the model cannot write a key the source never uses. `handleInputChange` is called only with the form's own field names, and field names outside them are not modelled.
- The inline `onChange` setters of the Profile inputs and of the Billing filters, and the MultiSelect `onChange` callback, are not modelled. `HandleSelect` and `HandleRemove` return the value they pass to it.
- The mock data lists of each page: the filters are stated for all lists. `MessagesPage` takes its conversations as a constructor argument. Checkout's extras and prices are constants.
- The `disabled` states of the promo button and the send button are not modelled, as they are JSX attributes. `SendMessage` repeats the blank-draft check itself, as the source does.
- React state batching and re-render timing: every handler is a synchronous update.
