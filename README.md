# VendorConnect page logic in Dafny

VendorConnect connects street-food vendors with the suppliers of their raw
materials. The front end has three pages with real logic, and this project
models them.

- **The login page** is a mock OTP login. The user picks a role (vendor or
  supplier) and types a ten-digit phone number. "Send OTP" waits briefly and
  then shows a random six-digit demo code. Typing that code writes the
  session (`isLoggedIn`, `userType`, `userPhone`) to the browser store and
  opens the dashboard of the chosen role.
- **The supplier dashboard** is reached through a session gate. It loads the
  saved catalog, or installs and saves two seed products when none is saved.
  The supplier can add, delete and mark products in or out of stock, and
  every change is written back to the store. It counts the products in
  stock and out of stock. Its logout removes only the three session keys.
- **The vendor dashboard** is reached through its own gate. The vendor
  picks a business type and then sees six street-food listings. A search box
  filters them, case-insensitively on the English name and as typed on the
  Hindi name. Each card has a contact button that opens a WhatsApp deep link
  with a pre-filled bilingual message; the button is disabled when the
  product is out of stock. Its logout clears the whole store.

How the model is built:

- The browser store (`BrowserStore`) is a map from keys to values. A value
  is text or the supplier's product list itself.
- Each page is a class: `LoginPage.LoginForm`,
  `SupplierPage.SupplierDashboard` and `VendorPage.VendorDashboard`. The
  page's state and its store are fields, and each handler is a method.
  `navigate` is recorded in the field `route`.
- Each method's contract gives the new state as a pure function of the old
  one. The list operations and the login state machine (`LoginFlow`) are
  those pure functions, and their properties are proved as lemmas.
- `Scenarios` and `Journeys` run the pages one after another on one
  browser. They prove cross-page facts:
  - a login passes exactly the gate of the dashboard it opens;
  - a wrong code is bounced by the gate;
  - the supplier's catalog survives the supplier's own logout;
  - the catalog is lost when a vendor logs out on the same browser.
- String handling is modelled exactly: digit stripping and truncation,
  ASCII `toLowerCase`, `includes`, and the decimal form of the code.
  `encodeURIComponent` is written out over UTF-8 with upper-case `%XY`
  escapes, and a decoder is proved to invert it.
- Values the program takes from the environment are parameters:
  - the random code (`code`, the value `Math.floor(100000 +
    Math.random() * 900000)` produced, in [100000, 999999]);
  - the `Date.now()` product id;
  - the number `parseFloat` read from the price text.

## Model

| member | source | states |
|---|---|---|
| Text.DigitsOnlySpec | src/pages/Login.tsx:128 | stripping `\D` leaves only digits, as a subsequence of the input, keeps each digit as often as it occurs in the input, and leaves a digit string unchanged |
| Text.KeepDigits | src/pages/Login.tsx:128 | the normalised input is all digits, at most `max` long, of length min(number of digits, max), and is the prefix of the input's digits |
| Text.KeepDigitsIdempotent | src/pages/Login.tsx:149 | normalising a normalised value changes nothing |
| Text.KeepDigitsOfDigits | src/pages/Login.tsx:149 | a digit string within the limit passes through unchanged |
| Text.ToLower | src/pages/VendorDashboard.tsx:201 | lower-casing keeps the length and maps each character through ASCII lower-casing |
| Text.ToLowerIdempotent | src/pages/VendorDashboard.tsx:201 | lower-casing twice equals once, and the result has no upper-case ASCII letter |
| Text.IncludesSpec | src/pages/VendorDashboard.tsx:201-202 | `includes` holds iff the query occurs at some position |
| Text.IncludesInfix | src/pages/VendorDashboard.tsx:201-202 | a string includes every infix of it |
| Text.IncludesEmpty | src/pages/VendorDashboard.tsx:201-202 | every string includes the empty query |
| Text.IncludesNeedsChar | src/pages/VendorDashboard.tsx:201-202 | a query with a character the string lacks is not included |
| Text.DecimalString | src/pages/Login.tsx:35 | `toString` of a non-negative integer is a non-empty digit string |
| Text.DecimalRoundTrip | src/pages/Login.tsx:35 | reading the decimal string back gives the number |
| Text.DecimalLength | src/pages/Login.tsx:35 | a number with k decimal digits prints as k characters |
| Text.SixDigitCode | src/pages/Login.tsx:35 | every code in [100000, 999999] prints as exactly six digits that read back as the code |
| UriComponent.Utf8 | src/pages/VendorDashboard.tsx:182 | a character's UTF-8 encoding has one to four bytes |
| UriComponent.Utf8RoundTrip | src/pages/VendorDashboard.tsx:182 | the UTF-8 bytes of a character decode back to it, and the lead byte announces the length |
| UriComponent.HexDigit | src/pages/VendorDashboard.tsx:182 | a hex digit is an unreserved character |
| UriComponent.HexRoundTrip | src/pages/VendorDashboard.tsx:182 | reading a written hex digit gives its value |
| UriComponent.Escape | src/pages/VendorDashboard.tsx:182 | one escaped byte is three characters |
| UriComponent.EscapeAll | src/pages/VendorDashboard.tsx:182 | n escaped bytes are 3n characters |
| UriComponent.EscapedBytes | src/pages/VendorDashboard.tsx:182 | reading k escapes yields k bytes from at least 3k characters |
| UriComponent.DecodeEscapes | src/pages/VendorDashboard.tsx:182 | a decoded escape sequence consumes at least 3 and at most all characters |
| UriComponent.EscapedByteOf | src/pages/VendorDashboard.tsx:182 | an escaped byte reads back as that byte |
| UriComponent.EscapedBytesOf | src/pages/VendorDashboard.tsx:182 | escaped bytes read back as those bytes, whatever follows |
| UriComponent.DecodeEscapesOf | src/pages/VendorDashboard.tsx:182 | the escapes of a character's UTF-8 bytes decode to the character and consume exactly those escapes |
| UriComponent.DecodeEncodedChar | src/pages/VendorDashboard.tsx:182 | decoding reads one encoded character back and continues with the rest |
| UriComponent.DecodeEncode | src/pages/VendorDashboard.tsx:182 | `decodeURIComponent(encodeURIComponent(s)) == s` for every string |
| UriComponent.EncodeAlphabet | src/pages/VendorDashboard.tsx:182 | the encoding consists only of unreserved characters and '%' |
| UriComponent.EscapeAllAlphabet | src/pages/VendorDashboard.tsx:182 | escapes consist only of unreserved characters and '%' |
| VendorCatalog.SearchSpec | src/pages/VendorDashboard.tsx:200-203 | the filtered list is a subsequence of the products, in order, and holds each matching product as often as it is listed: a product is kept iff its lower-cased name includes the lower-cased query or its Hindi name includes the query |
| VendorCatalog.SearchEmptyQuery | src/pages/VendorDashboard.tsx:200-203 | the empty query keeps every product |
| VendorCatalog.SearchIdempotent | src/pages/VendorDashboard.tsx:200-203 | filtering twice with one query equals filtering once |
| VendorCatalog.NameMatchIgnoresCase | src/pages/VendorDashboard.tsx:201 | a product whose name matches a query also matches the lower-cased query |
| VendorCatalog.MessageNamesProduct | src/pages/VendorDashboard.tsx:181 | the WhatsApp message includes the Hindi name and the English name |
| VendorCatalog.WhatsAppLinkCarriesMessage | src/pages/VendorDashboard.tsx:182 | the link is "https://wa.me/91" + phone + "?text=" followed by a value that decodes back to the message and holds no character that could end the query value |
| VendorCatalog.ContactAction | src/pages/VendorDashboard.tsx:403 | the contact button opens a link iff the product is in stock, and the link is the product's WhatsApp link |
| VendorPage.VendorDashboard.constructor | src/pages/VendorDashboard.tsx:40-45 | the page starts with no business type, no query, no products, no profile and bulk deals off |
| VendorPage.VendorDashboard.FilteredProducts | src/pages/VendorDashboard.tsx:200-203 | the page's filtered list is an ordered subsequence of its products holding exactly those matching the search box, each as often as it is listed |
| VendorPage.VendorDashboard.VisibleProducts | src/pages/VendorDashboard.tsx:205 | no card is shown before profile setup; afterwards exactly the matching products are, each as often as it is listed |
| VendorPage.VendorDashboard.Mount | src/pages/VendorDashboard.tsx:49-166 | a visitor without a vendor session is sent to "/" with nothing loaded; a vendor gets the stored phone (or "") and the six listings; the store is only read |
| VendorPage.VendorDashboard.ChooseBusinessType | src/pages/VendorDashboard.tsx:239 | a business-type button sets a non-empty business type |
| VendorPage.VendorDashboard.SetupProfile | src/pages/VendorDashboard.tsx:169-178 | the profile becomes set iff a business type was chosen; otherwise nothing changes |
| VendorPage.VendorDashboard.SetSearchQuery | src/pages/VendorDashboard.tsx:309 | after typing, the visible cards are exactly the products matching the new query |
| VendorPage.VendorDashboard.ToggleBulkDeals | src/pages/VendorDashboard.tsx:318 | the switch flips; switched on, every card with a non-zero bulk price shows it; switched off, no card shows one |
| VendorPage.VendorDashboard.Logout | src/pages/VendorDashboard.tsx:191-193 | the store is emptied (the saved supplier catalog too), no gate admits anyone, and the page goes to "/" |
| SupplierCatalog.WithoutIdSpec | src/pages/SupplierDashboard.tsx:153 | deleting removes exactly the entries with the id, keeps the others in order and as often as they are listed, and is a no-op for an absent id |
| SupplierCatalog.WithoutIdIdempotent | src/pages/SupplierDashboard.tsx:153 | deleting twice equals deleting once |
| SupplierCatalog.WithoutIdKeepsUnique | src/pages/SupplierDashboard.tsx:153 | deleting keeps ids unique |
| SupplierCatalog.ToggleStockSpec | src/pages/SupplierDashboard.tsx:164-166 | toggling keeps length, order and every field except the stock flag, and flips the flag exactly on entries with the id |
| SupplierCatalog.ToggleStockTwice | src/pages/SupplierDashboard.tsx:164-166 | toggling twice restores the list |
| SupplierCatalog.ToggleStockKeepsIds | src/pages/SupplierDashboard.tsx:164-166 | toggling keeps ids unique and is a no-op for an absent id |
| SupplierCatalog.AppendFreshKeepsUnique | src/pages/SupplierDashboard.tsx:130 | appending a product with a fresh id keeps ids unique |
| SupplierCatalog.CountsAddUp | src/pages/SupplierDashboard.tsx:220-244 | in-stock count plus out-of-stock count equals the total |
| SupplierCatalog.AddCounts | src/pages/SupplierDashboard.tsx:117-132 | an added product raises the in-stock count by one and leaves the out-of-stock count |
| SupplierSeed.SeedCatalogSpec | src/pages/SupplierDashboard.tsx:74-99 | the seed holds two products with distinct ids, both in stock |
| BrowserStore.GetItem | src/pages/SupplierDashboard.tsx:57-59 | `getItem` returns the stored value iff the key is present, and null otherwise |
| Session.DashboardFor | src/pages/Login.tsx:69-73 | a login goes to the vendor dashboard iff the role is "vendor", else to the supplier dashboard, never to "/" |
| Session.SignIn | src/pages/Login.tsx:59-61 | a login adds the three session keys and keeps every other key |
| Session.SignOut | src/pages/SupplierDashboard.tsx:177-179 | the supplier's logout removes exactly the three session keys and keeps every other entry |
| Session.SignInAdmits | src/pages/SupplierDashboard.tsx:57-64 | after a login as a role that role's gate admits, every other role's gate refuses, and the stored phone is the one typed |
| Session.SignOutRejects | src/pages/SupplierDashboard.tsx:176-179 | after the supplier's logout no gate admits |
| SupplierPage.LoadFrom | src/pages/SupplierDashboard.tsx:69-72 | the seed is used iff nothing truthy is saved, and a saved list is used unchanged |
| SupplierPage.SupplierDashboard.InStockCount | src/pages/SupplierDashboard.tsx:232 | the in-stock counter never exceeds the total |
| SupplierPage.SupplierDashboard.OutOfStockCount | src/pages/SupplierDashboard.tsx:244 | the two counters add up to the total |
| SupplierPage.SupplierDashboard.constructor | src/pages/SupplierDashboard.tsx:37-53 | the page starts with no products, the form closed and the empty draft |
| SupplierPage.SupplierDashboard.Mount | src/pages/SupplierDashboard.tsx:55-103 | a visitor without a supplier session is sent to "/" with nothing loaded; a supplier gets the stored phone and the saved list unchanged, or, with none saved, the seed list, which is also saved |
| SupplierPage.SupplierDashboard.EditDraft | src/pages/SupplierDashboard.tsx:280-358 | a form field's change replaces the draft |
| SupplierPage.SupplierDashboard.SetAddingProduct | src/pages/SupplierDashboard.tsx:258 | the "Add Product" and "Cancel" buttons open and close the form |
| SupplierPage.SupplierDashboard.AddProduct | src/pages/SupplierDashboard.tsx:105-150 | an empty name or price changes nothing; otherwise exactly the new in-stock product is appended, the store is in sync, the form is reset and closed, and a fresh id keeps ids unique |
| SupplierPage.SupplierDashboard.DeleteProduct | src/pages/SupplierDashboard.tsx:152-161 | the list becomes the list without the id, the store is in sync, and ids stay unique |
| SupplierPage.SupplierDashboard.ToggleStockStatus | src/pages/SupplierDashboard.tsx:163-174 | the list becomes the toggled list, the store is in sync, and ids stay unique |
| SupplierPage.SupplierDashboard.Logout | src/pages/SupplierDashboard.tsx:176-185 | the session keys are removed, the saved catalog stays in sync, no gate admits, and the page goes to "/" |
| LoginFlow.InitialFormValid | src/pages/Login.tsx:12-17 | the initial form satisfies the form invariant |
| LoginFlow.SelectRole | src/pages/Login.tsx:102 | choosing a role sets it and keeps the invariant |
| LoginFlow.EditPhoneAsWritten | src/pages/Login.tsx:124-133 | the phone input as written: it normalises the typed value unless a code has been sent, and changes nothing else |
| LoginFlow.EditPhone | src/pages/Login.tsx:124-133 | the phone input, closed once "Send OTP" is pressed: it normalises the typed value, and it keeps the invariant |
| LoginFlow.EditOtp | src/pages/Login.tsx:145-152 | the OTP input works only once a code is sent, keeps at most six digits, and keeps the invariant |
| LoginFlow.ChangeNumber | src/pages/Login.tsx:182-186 | "Change Number" clears the sent flag, the code and the typed OTP, keeps the phone and role, and keeps the invariant |
| LoginFlow.Submit | src/pages/Login.tsx:47-83 | a login happens iff a code was sent and the typed code equals it, for the chosen role and phone; a press while loading does nothing (Busy) iff loading; before a code is sent a phone not ten long is rejected and a ten-long one starts the wait; after it, a different typed code is refused |
| LoginFlow.OtpArrives | src/pages/Login.tsx:34-38 | the delivered code is six digits that read back as the drawn number, and the OTP step opens |
| LoginFlow.SendOtpPreservesValid | src/pages/Login.tsx:21-45 | requesting a code and its arrival keep the invariant |
| LoginFlow.TypingShownCodeLogsIn | src/pages/Login.tsx:55-73 | typing the shown code and submitting signs in as the chosen role and goes to its dashboard |
| LoginFlow.WrongCodeRejected | src/pages/Login.tsx:76-82 | any other typed code is refused |
| LoginFlow.LoginSignsIn | src/pages/Login.tsx:55-73 | a login is for a ten-digit phone and a known role, and what it writes passes exactly the gate of the dashboard it goes to |
| LoginFlow.NoLoginBeforeCode | src/pages/Login.tsx:50-53 | no login happens before a code has been sent |
| LoginFlow.PhoneEditDuringDelay | src/pages/Login.tsx:131 | as written, a number shortened during the wait gets the code and is signed in with nine digits |
| LoginFlow.PhoneFixedDuringDelay | src/pages/Login.tsx:131 | with the input closed during the wait, the code is for the checked ten-digit number |
| LoginPage.LoginForm.constructor | src/pages/Login.tsx:12-17 | the page starts as the initial form, which is valid |
| LoginPage.LoginForm.SelectRole | src/pages/Login.tsx:102 | the fields follow `LoginFlow.SelectRole` and stay valid |
| LoginPage.LoginForm.EditPhoneAsWritten | src/pages/Login.tsx:124-133 | the fields follow `LoginFlow.EditPhoneAsWritten`: an edit is taken unless a code has been sent; the form stays valid when no code is awaited |
| LoginPage.LoginForm.EditPhone | src/pages/Login.tsx:124-133 | the corrected input: the fields follow `LoginFlow.EditPhone`, which also ignores edits while a code is awaited, and stay valid |
| LoginPage.LoginForm.EditOtp | src/pages/Login.tsx:149 | the fields follow `LoginFlow.EditOtp` and stay valid |
| LoginPage.LoginForm.ChangeNumber | src/pages/Login.tsx:182-186 | the fields follow `LoginFlow.ChangeNumber` and stay valid |
| LoginPage.LoginForm.Submit | src/pages/Login.tsx:47-83 | a code request only starts the wait; a login writes the session, passes the role's gate and navigates to the role's dashboard; anything else changes nothing |
| LoginPage.LoginForm.OtpArrives | src/pages/Login.tsx:34-38 | the fields follow `LoginFlow.OtpArrives` and stay valid |
| Journeys.RequestCode | src/pages/Login.tsx:21-45 | choosing a role, typing a ten-digit phone and sending leaves the form waiting for the code, with the store untouched |
| Journeys.SignInWith | src/pages/Login.tsx:47-83 | the right code writes the session and navigates to the role's dashboard; a wrong one changes neither store nor route |
| Journeys.SignInWithShownCode | src/pages/Login.tsx:55-73 | typing the shown code yields a session the role's gate admits, holding the phone typed |
| Scenarios.VendorJourney | src/pages/VendorDashboard.tsx:49-166 | a vendor who signs in and sets up a profile sees all six listings and their phone |
| Scenarios.WrongCodeJourney | src/pages/VendorDashboard.tsx:51-58 | after a wrong code the login page stays and the vendor dashboard sends the visitor to "/" |
| Scenarios.SupplierFirstVisit | src/pages/SupplierDashboard.tsx:69-102 | a supplier on a browser with no saved catalog gets the seed catalog, saved |
| Scenarios.SupplierJourney | src/pages/SupplierDashboard.tsx:176-180 | a supplier who deletes a product, logs out and logs in again finds the catalog without it |
| Scenarios.VendorVisit | src/pages/VendorDashboard.tsx:191-193 | a vendor's visit ending in logout leaves an empty store |
| Scenarios.VendorLogoutDropsCatalog | src/pages/VendorDashboard.tsx:192 | after a vendor logs out, the next supplier gets the seed catalog, whatever was saved |

The views that only decide what to render (`VendorPage.VendorDashboard.ShowsBulkDeal`,
`ShowsNoResults`, the `Route.Path` strings) are written out as predicates
and functions beside the members above.

## Left out

- The login delays are modelled as steps.
  - The delay after a correct code (src/pages/Login.tsx:63-75) is one atomic
    step, since the store is written before it and the redirect uses the
    values captured at submit time.
  - The delay after "Send OTP" is kept as its own step, `OtpArrives`,
    because what can happen during it matters (see Findings).
  - Toasts and their texts are not modelled.
- LoginPage.LoginForm.EditPhone: the login page class, and every journey
  built on it, runs the corrected phone input of the Findings row, which
  ignores edits while a code is awaited. Its preservation of
  `LoginFlow.Valid`, and every `Journeys` and `Scenarios` result, hold for
  that corrected page. The input as written is
  `LoginPage.LoginForm.EditPhoneAsWritten`; it keeps `Valid` only when no
  code is awaited.
- HTML form validation (`required`, `maxLength`) is not modelled. It only
  blocks submits that the handlers would reject anyway without a change of
  state: an empty phone, or an empty code.
- JSON and `localStorage` serialisation are not modelled.
  - The store holds the product list itself.
  - Any non-empty text under `supplierProducts` is treated as unreadable.
    The entry effect then keeps the product list and the store as they
    were; the header phone is still set (src/pages/SupplierDashboard.tsx:66).
    In the browser the effect throws at src/pages/SupplierDashboard.tsx:71,
    or `JSON.parse` yields something that is not a list.
- SupplierPage.SupplierDashboard.AddProduct: the price is the number
  `parseFloat` produced, passed in as a real. The price text is never
  checked to be numeric, so NaN is not modelled.
- SupplierPage.SupplierDashboard.AddProduct: the new id is the `Date.now()`
  string, passed in. Ids stay unique only when the caller supplies a fresh
  one.
- `editingProduct` is declared in the supplier page and never used, so it
  is not modelled.
- Text.ToLower: only ASCII A-Z are lower-cased. JavaScript's full Unicode
  case mapping is not modelled; the Hindi names are matched as typed in any
  case.
- Text.Includes works on Unicode scalar values, where JavaScript works on
  UTF-16 code units. The two agree on all text in the Basic Multilingual
  Plane, which includes Devanagari.
- UriComponent.Encode: lone surrogates cannot occur in a Dafny string, so
  the URIError that `encodeURIComponent` throws for them is not modelled.
- `window.open` is not modelled: only the URL it is given.
- Rendering is not modelled: layout, badges, icons, the rating and
  "best for" chips, and the landing page src/pages/Index.tsx.
- A dashboard's entry effect runs once per page mount. Unmounting and
  remounting a page is not modelled separately; it is a new page object.
- There is no contact number check: the WhatsApp link is built from
  whatever phone the listing carries.

## Findings

| source | as written | input that shows it | evidently intended | confidence | as-written member | corrected member |
|---|---|---|---|---|---|---|
| src/pages/Login.tsx:131 | The phone input is disabled only once `isOtpSent` is set. It stays editable during the 1.5 s wait after "Send OTP", whose length check has already passed. | Type 9876543210 and press "Send OTP". Delete the last digit before the code arrives, then type the shown code. The session stores the nine-digit number 987654321. | The input stays closed while the code is awaited (`isLoading`), so the number checked and stored is the one the code was sent for. | medium; not executed | LoginFlow.PhoneEditDuringDelay | LoginFlow.PhoneFixedDuringDelay |

`LoginFlow.EditPhoneAsWritten` is the input as written.
`LoginFlow.EditPhone`, which the login page class uses, ignores edits while
the code is awaited. With it, `LoginFlow.Valid` holds in every reachable
state, and a login is always for a ten-digit number (`LoginFlow.LoginSignsIn`).
