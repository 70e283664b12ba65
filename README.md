# marketplace-view: session state, guards, carousel and form submission

This project models the client-side logic of a React marketplace front end
that runs over a remote REST API. Nearly all of that front end fetches data
and renders it. Five pieces have behaviour worth stating and proving:

- **AuthContext** (`auth_context.dfy`). The auth provider keeps a logged-in flag
  and a `token` entry in `localStorage`. The class `AuthProvider` holds these two
  values. Its constructor, the mount effect, `login` and `logout` are proved
  against the functions `Mounted`, `Initialised`, `AfterLogin` and `AfterLogout`
  on a `Session` value. `localStorage` is the map of module `Storage`
  (`storage.dfy`). The provider holds no user id.
- **Guards** (`guards.dfy`). `GuestOnlyRoute` is a pure choice between a
  replacing redirect to `/` and the wrapped children.
- **AdDetails** (`ad_details.dfy`). The image carousel of the advertisement
  page: the `nextImage` and `prevImage` updaters, the `currentImageIndex` state
  they update, and the indicator dots.
- **Register** (`register.dfy`). The registration form record and its two change
  handlers. The multipart body is built by a loop, then there is the rule that
  derives the error text, and the `loading`/`error` discipline of the submit
  handler. That handler is split at its `await` into `BeginSubmit` and
  `FinishSubmit`.
- **AddAdvertisement** (`add_advertisement.dfy`). The body of title, description
  and images, the bearer header, the mapping from the response to either an
  error or a navigation, and the logged-out gate.

Each network request is an input value of type `FetchOutcome`. It either
completes with a `Response` (the `ok` flag, the raw text, and what reading
`.message` of the decoded JSON yields) or it throws.

Behaviour of the code that the model keeps as it is:

- The provider holds no user id, and there is no authenticated-only guard.
  `login` stores only its first argument (`src/context/AuthContext.jsx:19-22`).
  The login page passes a second argument, which is ignored
  (`src/pages/Login.jsx:26`).
- `logout` removes the token only after the logout request completes
  (`src/context/AuthContext.jsx:24-34`). A thrown request leaves the state as it was.
- The nav bar has only a home link (`src/components/NavBar.jsx`).
- `AddAdvertisement` reads `userId` from the auth context, but the context does
  not provide one. The request path is therefore `/advertisement/undefined`,
  and a success navigates to `/user/undefined`. The model keeps this as
  `UserIdText`.
- With no stored token, the bearer header reads `Bearer null`.

## Model

| member | source | states |
|---|---|---|
| Storage.GetItem | src/context/AuthContext.jsx:15 | `getItem` yields a value iff the key is stored, and then the stored string; an absent key reads as null |
| Common.Truthy | src/pages/Register.jsx:69 | an optional string is truthy iff it is present and not "" |
| Common.OrElse | src/pages/AddAdvertisement.jsx:44 | `v || fallback` yields `v` when it is truthy and `fallback` otherwise |
| AuthContext.HasToken | src/context/AuthContext.jsx:16 | `!!token` holds iff a token is stored under "token" and it is not "" |
| Storage.SetItem | src/context/AuthContext.jsx:20 | after `setItem`, the key reads back the new value; every other key reads as before; no other key appears |
| Storage.RemoveItem | src/context/AuthContext.jsx:30 | after `removeItem`, the key reads as absent; every other key reads as before; removing an absent key changes nothing |
| AuthContext.Mounted | src/context/AuthContext.jsx:12 | before the mount effect runs, the provider is logged out and storage is untouched |
| AuthContext.Initialised | src/context/AuthContext.jsx:14-17 | after initialisation, the flag is true iff a token is stored and is not "" (absent or "" gives false); storage is unchanged; the invariant holds |
| AuthContext.AfterLogin | src/context/AuthContext.jsx:19-22 | `login(t)` sets the flag from either prior state; `token` then reads `t`, overwriting any previous value; no other key changes and no other key is added |
| AuthContext.AfterLogout | src/context/AuthContext.jsx:24-34 | after a completed request (any status), the token is gone, the flag is false and other keys are kept; after a thrown request, the state is exactly as before |
| AuthContext.InitialisedIdempotent | src/context/AuthContext.jsx:14-17 | running the mount effect again reads the same state |
| AuthContext.LoginConsistentIffNonEmpty | src/context/AuthContext.jsx:16-21 | after `login(t)`, "flag equals stored token non-empty" holds iff `t` is not "" |
| AuthContext.LoginEmptyTokenLostOnReload | src/context/AuthContext.jsx:14-22 | `login("")` sets the flag, but a reload then reads logged out |
| AuthContext.LogoutCompletedConsistent | src/context/AuthContext.jsx:24-31 | a completed logout leaves the flag consistent with storage, from any state |
| AuthContext.LogoutIdempotent | src/context/AuthContext.jsx:24-31 | on the completing path, a second logout yields the same state as the first |
| AuthContext.AuthProvider.constructor | src/context/AuthContext.jsx:11-12 | the provider starts logged out over the storage it finds |
| AuthContext.AuthProvider.Initialise | src/context/AuthContext.jsx:14-17 | the mount effect moves the provider's state as `Initialised` says |
| AuthContext.AuthProvider.Login | src/context/AuthContext.jsx:19-22 | `login` moves the provider's state as `AfterLogin` says; the only argument used is the token |
| AuthContext.AuthProvider.Logout | src/context/AuthContext.jsx:24-35 | `logout` moves the provider's state as `AfterLogout` says, for both request outcomes |
| Guards.GuestOnlyRoute | src/components/GuestOnlyRoute.jsx:4-11 | the result is a redirect iff logged in; the redirect goes to "/" and replaces the history entry; when logged out, the result is the children unchanged |
| Guards.GuestOnlyRouteIgnoresChildren | src/components/GuestOnlyRoute.jsx:5-11 | the decision depends only on the flag; children never show through while logged in |
| AdDetails.NextImage | src/pages/AdDetails.jsx:35-39 | for `0 <= i < n`, next is in `[0, n)` and equals `(i+1) mod n` |
| AdDetails.PrevImage | src/pages/AdDetails.jsx:41-45 | for `0 <= i < n`, prev is in `[0, n)` and equals `(i-1+n) mod n` |
| AdDetails.PrevUndoesNext | src/pages/AdDetails.jsx:35-45 | `prev(next(i)) == i` for an index in range |
| AdDetails.NextUndoesPrev | src/pages/AdDetails.jsx:35-45 | `next(prev(i)) == i` for an index in range |
| AdDetails.SingleImageStays | src/pages/AdDetails.jsx:36-44 | with one image, both controls keep the index at 0 |
| AdDetails.NextTimesShifts | src/pages/AdDetails.jsx:35-39 | `k <= n` clicks on next move the index forward by `k`, wrapping once past the last image |
| AdDetails.NextPeriod | src/pages/AdDetails.jsx:35-39 | `n` clicks on next return to the starting index |
| AdDetails.NextTimesPeriodic | src/pages/AdDetails.jsx:35-39 | the click sequence has period `n`: `k + n` clicks on next land on the same index as `k` clicks, for every `k` |
| AdDetails.Indicators | src/pages/AdDetails.jsx:75-84 | there is one dot per image; dot `k` is highlighted iff `k` is the current index |
| AdDetails.HighlightedCount | src/pages/AdDetails.jsx:75-84 | the number of highlighted dots is 1 when the index is in range and 0 otherwise |
| AdDetails.ExactlyOneHighlighted | src/pages/AdDetails.jsx:75-84 | while the index is in range, exactly one dot is highlighted |
| AdDetails.Carousel.constructor | src/pages/AdDetails.jsx:12 | the index starts at 0 |
| AdDetails.Carousel.Next | src/pages/AdDetails.jsx:35-39 | the next control (which exists only for `n > 0`) applies `NextImage` and keeps an in-range index in range |
| AdDetails.Carousel.Prev | src/pages/AdDetails.jsx:41-45 | the previous control (which exists only for `n > 0`) applies `PrevImage` and keeps an in-range index in range |
| Register.TextKeysMatchFields | src/pages/Register.jsx:11-22 | the declared order lists each of the nine text fields, `confPassword` included, under nine distinct keys, none of which is `profileImage` |
| Register.WithField | src/pages/Register.jsx:33-36 | `handleChange` replaces exactly the named field; every other field and the image are unchanged |
| Register.WithFirstFile | src/pages/Register.jsx:38-41 | `handleFileChange` sets the image to the first selected file (none when nothing is selected); every text field is unchanged |
| Register.RegisterBodyKeys | src/pages/Register.jsx:48-55 | the body's keys are the text keys in declaration order, each entry carrying that field's current text; then `profileImage` once, carrying the selected file, and only when an image is set |
| Register.BuildRegisterBody | src/pages/Register.jsx:48-55 | the loop appends each text field with its current value in declaration order, then the image when set, producing `RegisterBody` |
| Register.RegisterErrorMessage | src/pages/Register.jsx:63-74 | a parsed body with a truthy `message` gives that message; a parsed body without one gives "Registration failed"; a body that does not parse gives the raw text |
| Register.RegisterErrorEmptyIff | src/pages/Register.jsx:67-74 | the error text is "" (so the error is not shown) iff the body does not parse and is empty |
| Register.RegisterEffect | src/pages/Register.jsx:57-79 | the result navigates to `/login` iff the request completes OK; a thrown request yields its own message as the error; a non-OK response yields `RegisterErrorMessage` |
| Register.LoggedInRedirect | src/pages/Register.jsx:27-31 | a redirect to "/" happens iff logged in |
| Register.RegisterPage.constructor | src/pages/Register.jsx:11-24 | the form starts empty with no image, no error and not loading |
| Register.RegisterPage.HandleChange | src/pages/Register.jsx:33-36 | the form becomes `WithField` of the old form; the flags are unchanged |
| Register.RegisterPage.HandleFileChange | src/pages/Register.jsx:38-41 | the form becomes `WithFirstFile` of the old form; the flags are unchanged |
| Register.RegisterPage.BeginSubmit | src/pages/Register.jsx:43-61 | once submit starts, `loading` is true and `error` is cleared; the request posts `RegisterBody` of the form to `/register` |
| Register.RegisterPage.FinishSubmit | src/pages/Register.jsx:63-82 | after every outcome `loading` is false; success navigates and leaves the error alone; any failure sets the error from `RegisterEffect` |
| Register.RegisterPage.HandleSubmit | src/pages/Register.jsx:43-83 | the whole handler: success navigates to `/login` with the error "", failure shows its error, and `loading` ends false |
| AddAdvertisement.PageView | src/pages/AddAdvertisement.jsx:54-56 | the form is rendered iff logged in |
| AddAdvertisement.BearerHeader | src/pages/AddAdvertisement.jsx:34 | the header is "Bearer " followed by the stored token, or "Bearer null" when none is stored |
| AddAdvertisement.BuildAdBody | src/pages/AddAdvertisement.jsx:21-28 | the appends and the indexed loop produce `AdBody`: title, description, then each image in selection order |
| AddAdvertisement.AdBodyLayout | src/pages/AddAdvertisement.jsx:21-28 | the body has `2 + |images|` entries; the title text comes first and the description text second; image `i` sits at position `2 + i` under key `images` |
| AddAdvertisement.AdErrorText | src/pages/AddAdvertisement.jsx:39-51 | the exact limit message becomes the friendly limit text; any other truthy message is shown as sent; a missing message gives "Failed to create advertisement"; a body that cannot be read gives the exception's message |
| AddAdvertisement.AdEffect | src/pages/AddAdvertisement.jsx:39-51 | the result navigates to `/user/undefined` iff the response is OK; a thrown request shows its own message; a non-OK response shows `AdErrorText` |
| AddAdvertisement.DecodedErrorVisible | src/pages/AddAdvertisement.jsx:41-45 | the error text from a decoded server answer is never "" |
| AddAdvertisement.AdEffectNeverClears | src/pages/AddAdvertisement.jsx:19-52 | an error is written iff the request is not an OK response; the text written for a decoded non-OK answer is never "" |
| AddAdvertisement.AddAdvertisementPage.constructor | src/pages/AddAdvertisement.jsx:9-12 | the page starts with empty fields, no images and no error |
| AddAdvertisement.AddAdvertisementPage.SetTitle | src/pages/AddAdvertisement.jsx:69 | typing in the title input replaces the title only |
| AddAdvertisement.AddAdvertisementPage.SetDescription | src/pages/AddAdvertisement.jsx:79 | typing in the description replaces the description only |
| AddAdvertisement.AddAdvertisementPage.HandleImageChange | src/pages/AddAdvertisement.jsx:15-17 | the new selection replaces the old one; nothing else changes |
| AddAdvertisement.AddAdvertisementPage.HandleSubmit | src/pages/AddAdvertisement.jsx:19-52 | this runs only when the form is rendered; it posts `AdBody` with the bearer header; success navigates and keeps the previous error; failure replaces the error; the fields are unchanged |

## Left out

- Network requests (`fetch`) are not modelled. Each request is a `FetchOutcome` input. The model does not tie the `text` and `json` of a `Response` to each other.
- Non-string `message` values are not modelled. A `message` is either a string or absent.
- `console.error` calls are not modelled: the logout failure and the logging in the details page.
- React hooks, effect timing, re-rendering and `StrictMode` are not modelled. Each handler runs as one sequential method.
- `AdDetails.Carousel.Next` and `AdDetails.Carousel.Prev` take the image count `n` at the time of each click. The index is not reset when the advertisement changes. This matches the code, but an index left over from a longer image list is outside the range lemmas.
- The browser's `required` checks on form inputs are not modelled. Neither is the disabled submit button while `loading`, which prevents double submission. Each submit is modelled as running to completion.
- `localStorage.setItem` turns a non-string token into a string. This is not modelled: the token is a string.
- The user-detail fetch and date formatting of the details page are not modelled. Neither are the screens that only fetch and display data (home, search, profiles, my advertisements, login), nor the app wiring and nav bar markup. They hold no logic beyond loading and error flags.
