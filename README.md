# FineDine front end: a verified model of its client-side logic

FineDine's front end is a React application for browsing a restaurant menu,
signing in and managing an owner's own menu items. Almost all of it is markup and
HTTP plumbing. This Dafny project models the parts of it that carry rules:

- the menu page's name normalisation and the rule that picks the items each
  category section shows (`menu_show.dfy`);
- the registration and login form rules (`validation.dfy`);
- the toast queue with its timed expiry (`toast_provider.dfy`);
- the authentication store and its four network actions (`auth_store.dfy`);
- the two route guards (`protected_route.dfy`, `guest_route.dfy`);
- the quantity stepper and the add-to-cart action of the item page (`menu_detail.dfy`);
- the owner's item list with its delete action (`my_menu.dfy`);
- the two-step phone verification wizard (`phone_verification.dfy`).

Helpers: `wrappers.dfy` (an `Option` type; `Js.Completion`, which is what a JavaScript
call ends in, a value or a thrown error; JavaScript truthiness and string conversion
of a value that may be `undefined` or `null`, kept apart as `Js.Nullable`) and `seqs.dfy` (`filter`, `map` and a counter on sequences,
with the lemmas about them that the modules use).

Everything the code receives from outside is a parameter:

- the reply of each HTTP request, or the exception it ended in (`Js.Completion`);
- the answer of `window.confirm`;
- the value read from `localStorage`;
- the id a toast is given;
- the firing of a timer (`Provider.Expire`).

Everything the code does to the outside, apart from console logging, is part of a result or of the new state:

- the requests sent;
- the alerts raised;
- the route navigated to;
- the value written to `localStorage`.

React state becomes class fields. A page's handlers become methods that update
those fields. The auth store becomes a class whose methods are its actions.
Functions that only compute a value (`normalize`, `itemsToShow`, the guards, the
form rules) become Dafny functions.

The store defines no start-up restore: `initializeAuth` is called in `src/main.jsx`
but never defined in `src/store/useAuthStore.jsx`. A store is therefore modelled as
the store module creates it: the persisted token and no user.

## Model

| member | source | states |
|---|---|---|
| `MenuShow.Normalize` | src/components/MenuShow.jsx:7-10 | a non-string gives ""; the result never contains `_`, a white-space character (JavaScript's `\s`) or an upper-case letter, and is no longer than the input |
| `MenuShow.NormalizeIsCanonical` | src/components/MenuShow.jsx:9 | the three passes (lower-case, drop `_`, drop white space) equal a one-pass reference: lower-case each character and keep it unless it is `_` or white space, in the original order |
| `MenuShow.NormalizeAppend` | src/components/MenuShow.jsx:9 | normalising a concatenation is concatenating the normalised parts, so surviving characters keep their order |
| `MenuShow.NormalizeIdempotent` | src/components/MenuShow.jsx:9 | normalising a normalised name returns it unchanged |
| `MenuShow.FindSubcategory` | src/components/MenuShow.jsx:68-70 | returns the index of the first subcategory whose normalised name equals the key, or nothing exactly when none matches |
| `MenuShow.ItemsToShow` | src/components/MenuShow.jsx:61-72 | with no subcategories, or no selection (`null` or ""), a section shows its `items` or `[]` when they are missing; otherwise it shows the first matching subcategory's items, or `[]` when none matches |
| `MenuShow.EmptySelectionIsNoSelection` | src/components/MenuShow.jsx:85-86 | choosing the placeholder option (value "") shows the same items as having no selection |
| `MenuShow.SelectionUpToNormalization` | src/components/MenuShow.jsx:68-70 | two non-empty selections that normalise alike show the same items; "" is excluded because it means no selection while "_", which normalises alike, is a real one |
| `MenuShow.Tabs` | src/components/MenuShow.jsx:25-27 | nothing is rendered for an empty `menus`; otherwise the tabs are the `category` names of the first menu's categories, in order |
| `MenuShow.Sections` | src/components/MenuShow.jsx:60-72 | one item list per category of the first menu, in order, each chosen by `ItemsToShow` with the one shared selection |
| `MenuShow.MenuShowView.constructor` | src/components/MenuShow.jsx:16-17 | no category and no subcategory selected at first |
| `MenuShow.MenuShowView.HandleCategoryClick` | src/components/MenuShow.jsx:29-31 | the clicked category becomes selected and the subcategory selection is reset to `null` |
| `MenuShow.MenuShowView.SelectSubcategory` | src/components/MenuShow.jsx:86 | the dropdown's value becomes the selection and the selected category is untouched |
| `Validation.MatchDigitsIff` | src/utils/validation.jsx:16 | the anchored pattern `^\d{lo,hi}$` accepts a string if and only if all its characters are ASCII digits and its length is between `lo` and `hi` |
| `Validation.NameValid` | src/utils/validation.jsx:4-7 | `name` passes if and only if it is present and has at least 2 characters |
| `Validation.EmailValid` | src/utils/validation.jsx:8 | `email` passes if and only if it is present, not empty, and passes the e-mail format test |
| `Validation.PasswordValid` | src/utils/validation.jsx:9-12 | `password` passes if and only if it is present and has at least 8 characters; `LoginValid` uses the same rule (lines 26-29) |
| `Validation.CountryCodeValid` | src/utils/validation.jsx:13 | `countryCode` passes if and only if it is present and not empty |
| `Validation.PhoneNumberValid` | src/utils/validation.jsx:14-17 | `phoneNumber` passes if and only if it is present, only ASCII digits, and 7 to 15 characters long |
| `Validation.OtpValid` | src/utils/validation.jsx:18-21 | `otp` passes if and only if it is present and exactly 6 characters long |
| `Validation.RegisterValid` | src/utils/validation.jsx:3-22 | `registerSchema`: every one of the six field rules holds, so a passing form has all six fields present and non-empty, a name of at least 2 and a password of at least 8 characters, a 6-character code and an all-digit phone number |
| `Validation.LoginValid` | src/utils/validation.jsx:24-30 | `loginSchema`: passes if and only if `email` is present, non-empty and passes the format test, and `password` is present with at least 8 characters; no other field is checked |
| `Validation.MissingRequiredFieldRejected` | src/utils/validation.jsx:3-22 | a registration form that lacks any of the six required fields, or sends it as "", is rejected |
| `Validation.LoginIgnoresOtherFields` | src/utils/validation.jsx:24-30 | two forms that agree on `email` and `password` get the same login verdict, whatever their other fields |
| `Validation.RegisterImpliesLogin` | src/utils/validation.jsx:3-30 | every form that passes the registration rules passes the login rules |
| `Validation.OtpAcceptsNonDigits` | src/utils/validation.jsx:18-21 | "abcdef" passes the OTP rule although it has no digit: the rule constrains the length only |
| `Validation.PhoneRejectsPlusSign` | src/utils/validation.jsx:16 | a number written with a leading "+" fails the phone rule |
| `ToastProvider.Without` | src/components/ToastProvider.jsx:20-22 | a toast is kept if and only if it was in the list and its id differs from the removed id |
| `ToastProvider.WithoutAppend` | src/components/ToastProvider.jsx:21 | removal distributes over concatenation, so the kept toasts stay in their original order |
| `ToastProvider.WithoutAbsent` | src/components/ToastProvider.jsx:21 | removing an id that no toast carries leaves the list unchanged |
| `ToastProvider.WithoutLength` | src/components/ToastProvider.jsx:21 | the list shrinks by exactly the number of toasts that carry the id |
| `ToastProvider.WithoutTwice` | src/components/ToastProvider.jsx:13-15 | removing an id a second time changes nothing, so an expiry firing after a dismissal is harmless |
| `ToastProvider.WithoutCommute` | src/components/ToastProvider.jsx:14 | removals of two ids give the same list in either order, so expiries may fire in any order |
| `ToastProvider.PushThenRemove` | src/components/ToastProvider.jsx:10-14 | removing the fresh id of a toast just appended gives back the list from before the append |
| `ToastProvider.Provider.constructor` | src/components/ToastProvider.jsx:7 | the queue starts empty with no timer pending |
| `ToastProvider.Provider.Push` | src/components/ToastProvider.jsx:9-18 | appends exactly `{id, message, type}` with `type` defaulting to "success"; schedules one expiry, with `duration` defaulting to 3000, only when the duration is positive; returns the id it used |
| `ToastProvider.Provider.Remove` | src/components/ToastProvider.jsx:20-22 | the list becomes `Without(old list, id)`; pending timers are untouched |
| `ToastProvider.Provider.Expire` | src/components/ToastProvider.jsx:12-16 | a firing timer leaves the pending set and removes its own toast's id and nothing else |
| `ToastProvider.UseToast` | src/components/ToastProvider.jsx:57-61 | returns the provider exactly when one is present, and throws "useToast must be used within ToastProvider" otherwise |
| `ToastProvider.PushThenExpire` | src/components/ToastProvider.jsx:9-16 | pushing with the default duration and a fresh id, then letting that timer fire, leaves the toasts and the pending timers as they were before |
| `AuthStore.InitialSession` | src/store/useAuthStore.jsx:4-6 | no user; the token and the stored value are both what storage held |
| `AuthStore.WithAuth` | src/store/useAuthStore.jsx:8-11 | `setAuth(u, t)` sets user `u` and token `t` and stores `t` as a string: an absent token as "undefined", a `null` one as "null" |
| `AuthStore.AfterCommit` | src/store/useAuthStore.jsx:43-46 | a reply that arrived with `success` replaces the session with `setAuth(user, token)`; any other outcome leaves it unchanged |
| `AuthStore.ReloadRestoresToken` | src/store/useAuthStore.jsx:4-11 | a store created after `setAuth(u, t)` holds token `t` again |
| `AuthStore.ReloadForgetsUser` | src/store/useAuthStore.jsx:3-6 | a store created from storage never has a user |
| `AuthStore.TokenlessSuccessPersistsUndefined` | src/store/useAuthStore.jsx:4-11 | a `success` reply whose token is absent or `null` stores "undefined" or "null", which a later store reads back as a truthy string token rather than as the empty value |
| `AuthStore.SignedOutBearerIsNull` | src/store/useAuthStore.jsx:3-15 | signed out, after `logout` or when storage holds no token, the token is `null` and a bearer header built from it reads "Bearer null" |
| `AuthStore.CommitDependsOnlyOnReply` | src/store/useAuthStore.jsx:43-46 | a committing reply gives the same session whatever came before; a non-committing one leaves the session as it was |
| `AuthStore.Store.constructor` | src/store/useAuthStore.jsx:3-6 | the initial session, not loading |
| `AuthStore.Store.SetLoading` | src/store/useAuthStore.jsx:7 | sets `isLoading` and nothing else |
| `AuthStore.Store.SetAuth` | src/store/useAuthStore.jsx:8-11 | the session becomes `WithAuth(u, t)` and the loading flag is untouched |
| `AuthStore.Store.Logout` | src/store/useAuthStore.jsx:12-15 | user and token become `null` and the stored token is removed |
| `AuthStore.Store.Perform` | src/store/useAuthStore.jsx:34-51 | the shared action shape: loading goes true then false, the request is sent once, the reply is returned or the exception re-thrown, and the session is committed only on `success` when the action commits |
| `AuthStore.Store.SendOTP` | src/store/useAuthStore.jsx:17-33 | sends the phone, never changes the session, returns the reply as it is even without `success`, re-throws an exception; loading goes true then false |
| `AuthStore.Store.VerifyOTP` | src/store/useAuthStore.jsx:34-51 | sends phone and code; the session becomes `AfterCommit(old session, reply)`; the reply is returned or the exception re-thrown; loading goes true then false |
| `AuthStore.Store.Register` | src/store/useAuthStore.jsx:52-69 | as `VerifyOTP`, sending the registration data |
| `AuthStore.Store.Login` | src/store/useAuthStore.jsx:70-87 | as `VerifyOTP`, sending e-mail and password |
| `ProtectedRoute.Decide` | src/utils/ProtectedRoute.jsx:5-19 | the spinner while loading, whatever the session; otherwise the page if and only if token and user are both truthy, and a replacing redirect to `/login` when not |
| `ProtectedRoute.TokenWithoutUserRedirects` | src/utils/ProtectedRoute.jsx:7-18 | a token with a `null` user is redirected to `/login` |
| `ProtectedRoute.SuccessfulSignInOpensPage` | src/utils/ProtectedRoute.jsx:18 | after a `success` reply carrying a user and a non-empty token, the protected page is shown |
| `ProtectedRoute.FailedSignInKeepsVerdict` | src/utils/ProtectedRoute.jsx:18 | a sign-in that fails or throws does not change the guard's verdict |
| `ProtectedRoute.LogoutRedirects` | src/utils/ProtectedRoute.jsx:18 | after `logout` the guard redirects to `/login` |
| `ProtectedRoute.IsAuthenticated` | src/utils/ProtectedRoute.jsx:7 | `!!token && !!user`: authenticated only with a user and a non-empty string token; a `null`, absent or "" token, or a missing user, never authenticates |
| `ProtectedRoute.ReloadRedirects` | src/utils/ProtectedRoute.jsx:6-18 | the guard's verdict on a store created from storage alone, whatever token storage holds: a redirect to `/login`, since such a store has no user |
| `GuestRoute.Decide` | src/utils/GuestRoute.jsx:5-18 | the spinner while loading; otherwise the page if and only if not authenticated, and a replacing redirect to `/` when authenticated |
| `GuestRoute.GuardsAreComplementary` | src/utils/GuestRoute.jsx:17 | when not loading, exactly one of the two guards renders its page |
| `GuestRoute.GuardsRedirectAcross` | src/utils/GuestRoute.jsx:17 | the protected guard redirects to `/login` exactly when the guest guard shows its page, and the guest guard redirects to `/` exactly when the protected guard shows its page |
| `GuestRoute.BothSpinWhileLoading` | src/utils/GuestRoute.jsx:9-15 | while loading both guards show the spinner |
| `MenuDetail.Next` | src/pages/MenuDetail.jsx:126-139 | minus gives `max(1, q - 1)`, which is at least 1 and, from a quantity of at least 1, never above the old value; plus gives `q + 1` |
| `MenuDetail.RunStaysPositive` | src/pages/MenuDetail.jsx:127-136 | from a quantity of at least 1, any sequence of clicks leaves it at least 1 |
| `MenuDetail.RunBounded` | src/pages/MenuDetail.jsx:127-136 | `n` clicks move the quantity by at most `n` either way |
| `MenuDetail.MenuDetailPage.constructor` | src/pages/MenuDetail.jsx:11 | the quantity starts at 1 |
| `MenuDetail.MenuDetailPage.Decrement` | src/pages/MenuDetail.jsx:127 | the quantity becomes `max(1, quantity - 1)` and stays at least 1 |
| `MenuDetail.MenuDetailPage.Increment` | src/pages/MenuDetail.jsx:136 | the quantity grows by one and stays at least 1 |
| `MenuDetail.MenuDetailPage.HandleAddToCart` | src/pages/MenuDetail.jsx:33-59 | without a truthy token: no request, the login alert and navigation to `/login`; with one: the request `{menuItemId: id, quantity}` with the current quantity and the header `Bearer ${token}`, then navigation to `/cart` on `success`, the server's message as `alert` shows it ("undefined" when absent, "null" when `null`) and no navigation otherwise, nothing on an exception |
| `MyMenu.WithoutId` | src/pages/MyMenu.jsx:44 | an item is kept if and only if it was in the list and its `_id` differs; the list shrinks by the number of items with that `_id` |
| `MyMenu.WithoutIdAppend` | src/pages/MyMenu.jsx:44 | deletion distributes over concatenation, so the kept items stay in their original order |
| `MyMenu.WithoutAbsentId` | src/pages/MyMenu.jsx:44 | deleting an id that no item carries leaves the list unchanged |
| `MyMenu.DeleteFromMiddle` | src/pages/MyMenu.jsx:43-45 | deleting the one item with an id gives back the items before and after it, in order |
| `MyMenu.MyMenuPage.constructor` | src/pages/MyMenu.jsx:8 | the list starts empty |
| `MyMenu.MyMenuPage.FetchMyItems` | src/pages/MyMenu.jsx:13-28 | sends the request with the header `Bearer ${token}` ("Bearer null" for a `null` token); the list is replaced by the reply's items only on `success`, and kept on failure or exception |
| `MyMenu.MyMenuPage.HandleDelete` | src/pages/MyMenu.jsx:32-49 | a declined confirm sends nothing and keeps the list; a confirmed delete sends the request with the header `Bearer ${token}` ("Bearer null" for a `null` token), and the list becomes `WithoutId(old list, id)` only on `success` |
| `PhoneVerification.PhoneVerificationPage.constructor` | src/pages/PhoneVarification.jsx:21-22 | the wizard starts at step 1 with an empty phone |
| `PhoneVerification.PhoneVerificationPage.OnSubmitPhone` | src/pages/PhoneVarification.jsx:46-60 | the phone becomes country code followed by number, even if sending fails; `sendOTP` is called with it; step 2 follows whenever `sendOTP` does not throw, `success` or not; a throw keeps the step and raises "Failed to send OTP: " and the error's message |
| `PhoneVerification.PhoneVerificationPage.OnSubmitOTP` | src/pages/PhoneVarification.jsx:62-74 | `verifyOTP` is called with the recorded phone; navigation to `/register` whenever it does not throw; a throw stays on the step and raises "OTP Verification Failed: " and the error's message; the session changes as `AfterCommit` says |
| `PhoneVerification.PhoneVerificationPage.HandleBack` | src/pages/PhoneVarification.jsx:76-81 | back to step 1 with the phone reset to "" |
| `PhoneVerification.SendThenVerify` | src/pages/PhoneVarification.jsx:46-74 | after a send that does not throw, the code is verified against the same full number it was sent to, and the page navigates to `/register` exactly when verification does not throw |

## Left out

- Console output (`console.log` and `console.error` in `src/pages/PhoneVarification.jsx`, `src/pages/MyMenu.jsx` and `src/pages/MenuDetail.jsx`) is not modelled: it changes no state and nothing reads it.
- `MenuShow.Normalize`: `toLowerCase` is modelled for the ASCII letters A–Z only. Other characters pass through unchanged, including the Unicode letters whose lower case differs or is longer.
- `Validation.NameValid`, `Validation.PasswordValid`, `Validation.OtpValid`, `Validation.RegisterValid` and `Validation.LoginValid` count characters (Unicode scalar values). JavaScript counts UTF-16 code units, so the two differ for characters outside the Basic Multilingual Plane.
- `Validation.EmailValid`: the e-mail format test is the schema library's own regular expression, which is not part of this model. It is a parameter, `isEmail`.
- The schemas' error messages are not modelled, and neither is how a form library reports them. Only the verdicts are.
- `PhoneVerification.PhoneVerificationPage`: the page imports two schemas that `src/utils/validation.jsx` does not export, so its forms' validation is not modelled. Only the wizard's transitions are. The form resets (`resetPhone`, `resetOTP`) are not modelled either.
- `MenuShow`: the subcategory `items` field is taken to be present. Scrolling to a section, the loading message, the item dialog and the menu fetch (`fetchMenus`, which belongs to the menu store) are not modelled.
- `MenuDetail`: the fetch of the item itself, and the "Loading..." state before it arrives, are not modelled.
- `AuthStore.AuthReply`: a reply's `user` is `None` whether it is absent or `null`; the code only tests it for truthiness, where the two agree.
- `AuthStore.Store`: a reply whose body is not JSON is one more way for the request to throw, and is covered by `Threw`. The request URLs and headers are not modelled.
- `ToastProvider.Provider.Push`: the id (clock plus random digits) is a parameter, and its uniqueness is not guaranteed. A `null` type or duration, which defaults do not replace, is not modelled.
- Concurrency is not modelled: the model runs each handler to completion. Not modelled are interleaved handlers, out-of-order replies, stale captured state (the `items` that `handleDelete` filters), and updates after a page is left.
- Adding a menu item to the cart from lists and dialogs, and the cart page's totals, are not modelled: they are not part of the files modelled here, and the totals are floating-point sums.
- The start-up session restore (`initializeAuth`) is not part of this model: the store does not define it, so the call in `src/main.jsx` throws a `TypeError` when the application starts, and nothing catches it. The model describes the store and the pages as their own code defines them, not that failed start.
