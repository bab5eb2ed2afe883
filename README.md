# Raffine frontend core, in Dafny

Raffine is a booking marketplace for premium services. This project models the client-side state logic of its React frontend and proves properties of that model:

- **Catalog page** (`Home`): search, category, service-type, price and rating filters over the fetched catalog, followed by one of three stable sorts or the catalog order. A "displayed" counter reveals results six at a time.
- **Cart and favourites stores** (`Cart`, `Favorites`): ordered lists keyed by the service `id`. Each store has its own operations, loads from `localStorage` and recovers from a corrupt entry there. It takes the profile's list at sign-in when that list is non-empty. After every change it writes through to `localStorage` and, while signed in, to the profile endpoint.
- **Session store** (`Auth`): anonymous or signed in, mirrored into `localStorage` under `raffine_user`, with a self-healing startup load.
- **Sign-up and sign-in forms** (`FormRules`, `Register`, `Login`):
  - field checks, with their exact messages in their fixed order;
  - the email pattern `\S+@\S+\.\S+` and the password pattern `(?=.*[a-z])(?=.*[A-Z])(?=.*\d)`, each given its regular-expression meaning;
  - error clearing while the user types;
  - the remember-me pre-fill and the remember-me storage rule.
- **Service card** (`ServiceCard`): the star row drawn for a rating, and the two buttons that call the stores.

Helper modules:
- `Domain` holds the shared records and the `localStorage` class.
- `Strings` holds ASCII `toLowerCase`, `includes` and `trim`.
- `Seqs` holds `Array.prototype.filter` as `Keep`, and a stable sort by an integer key.

Modelling conventions:
- Ratings are integers in tenths of a star: 4.9 is 49, and the threshold `'4.0'` is 40. Prices are integers.
- A `localStorage` value is either an encoded document (`Json`) or raw text (`Raw`). Raw text is what a remembered email, or a corrupt entry, looks like. `JSON.parse` succeeds exactly on an encoded document of the expected kind.
- A collaborator call (sign-in request, profile read) becomes a parameter holding its result or its error message.
- Each write-through effect is one atomic step:
  - it sets the store's key;
  - while signed in, it appends the payload to the store's `pushed` log.

Two behaviours of the catalog page's reveal counter are worth stating outright:

- The counter is capped at the result count. On ten results it goes 6, then 10, and stays at 10 (`Home.RevealOnTenResults`).
- Only `handleSearch` resets the counter to 6. The search box's `onSearchChange` is wired straight to `setSearchQuery`, so typing keeps the counter where it is (`Home.HomePage.SearchChange`).

## Model

| member | source | states |
|---|---|---|
| Domain.BackendRef | src/context/CartContext.jsx:53 | `_id \|\| id`: the store id when it is present and non-empty, otherwise the frontend id |
| Domain.LocalStorage.constructor | src/context/AuthContext.jsx:11 | the storage starts with the entries the browser holds |
| Domain.LocalStorage.GetItem | src/context/CartContext.jsx:13 | `getItem`: a value exactly when the key is present, and then the stored one |
| Domain.LocalStorage.SetItem | src/context/CartContext.jsx:48 | `setItem`: the key holds the new value and every other key is untouched |
| Domain.LocalStorage.RemoveItem | src/pages/Login.jsx:72 | `removeItem`: the key is absent afterwards and every other key is untouched |
| Strings.Lower | src/pages/Home.jsx:45-49 | same length; every ASCII capital becomes its lowercase letter; every other character is kept |
| Strings.Includes | src/pages/Home.jsx:47-49 | true exactly when the needle occurs at some position of the haystack |
| Strings.IncludesEmpty | src/pages/Home.jsx:44 | every string includes the empty string |
| Strings.Trim | src/pages/Register.jsx:36-38 | the result is a substring of the input with only whitespace on either side, and it neither starts nor ends with whitespace |
| Strings.TrimEmptyIffAllSpace | src/pages/Register.jsx:36 | trimming yields the empty string exactly when the input is all whitespace |
| Seqs.Keep | src/pages/Home.jsx:46-82 | `filter`: an order-preserving subsequence; every kept element satisfies the predicate; each element is kept exactly as often as in the input when it satisfies the predicate, otherwise never |
| Seqs.KeepKeep | src/pages/Home.jsx:41-83 | two filters in a row are one filter by the conjunction |
| Seqs.SortBy | src/pages/Home.jsx:88-94 | the result is a permutation of the input, ordered by the key |
| Seqs.SortIsStable | src/pages/Home.jsx:88-94 | the elements sharing any one key come out in the order they went in |
| Home.SortOrderOf | src/pages/Home.jsx:86-100 | each of the three labels selects its sort, and only that label does; any other value keeps the catalog order |
| Home.AnyThresholdMet | src/pages/Home.jsx:78-81 | true exactly when the rating reaches at least one selected threshold |
| Home.FilterServices | src/pages/Home.jsx:40-83 | the five-step chain never lengthens the catalog, and every result lies in the price range, inclusive at both ends, whatever the other controls |
| Home.Matches | src/pages/Home.jsx:43-83 | the reference meaning of a match: a listing matches exactly when it passes the guard of each step, where a step with an empty control passes everything and the price range always applies |
| Home.FilterIsGuardChain | src/pages/Home.jsx:43-83 | the page's chain, with its skipped steps, equals five unconditional filters whose guards keep everything when their control is empty |
| Home.FilterIsExact | src/pages/Home.jsx:40-83 | the five-step filter chain equals one filter by the conjunction of the active predicates, so nothing matching is missing and nothing extra is kept, in catalog order |
| Home.FilterResultsMatch | src/pages/Home.jsx:43-83 | every result comes from the catalog and passes each active predicate; the price range, inclusive at both ends, always applies |
| Home.FilterKeepsEveryMatch | src/pages/Home.jsx:40-83 | every catalog listing that matches is kept, as many times as it occurs |
| Home.OnlyPriceFilterWhenControlsEmpty | src/pages/Home.jsx:44-83 | with an empty query, no category, no types and no thresholds, only the price filter applies |
| Home.EmptySearchKeepsAll | src/pages/Home.jsx:44-50 | filtering by the empty query keeps every listing, so the `if (searchQuery)` guard changes no result |
| Home.SortServices | src/pages/Home.jsx:85-100 | the result is a permutation of the filtered list; Recommended keeps it as is; the three sorts give non-decreasing price, non-increasing price and non-increasing rating |
| Home.SortServicesIsStable | src/pages/Home.jsx:86-95 | listings of equal price under the price sorts, and of equal rating under Top Rated, keep their filtered order |
| Home.FilteredAndSorted | src/pages/Home.jsx:40-103 | exactly the matching listings, each as often as in the catalog; the filtered catalog order for Recommended, otherwise non-decreasing price, non-increasing price or non-increasing rating |
| Home.LoadMore | src/pages/Home.jsx:126-128 | `min(displayed + 6, n)`: the counter never passes the result count; it is exactly `displayed + 6` while that is below the count, and the count otherwise; it grows whenever results are hidden |
| Home.RevealAfterPresses | src/pages/Home.jsx:126-128 | after k presses from a count within the list, the counter is `min(displayed + 6k, n)` |
| Home.RevealReachesEnd | src/pages/Home.jsx:126-131 | enough presses reveal the whole list |
| Home.RevealOnTenResults | src/pages/Home.jsx:126-128 | on ten results the counter goes 6, then 10, then 10 |
| Home.HomePage.constructor | src/pages/Home.jsx:7-19 | initial page state: Recommended, 6 shown, empty query, no category, the default sidebar filters, loading |
| Home.HomePage.ReceiveCatalog | src/pages/Home.jsx:21-37 | a successful response replaces the catalog, and a failed one keeps it; loading ends either way; nothing else changes |
| Home.HomePage.Results | src/pages/Home.jsx:40-103 | the page's result list holds exactly the catalog listings matching the current query, category and sidebar filters, each as often as in the catalog |
| Home.HomePage.Shown | src/pages/Home.jsx:130 | `slice(0, displayed)`: the first `min(displayed, n)` results |
| Home.HomePage.HasMore | src/pages/Home.jsx:131 | true exactly when fewer results are shown than there are |
| Home.HomePage.HandleSearch | src/pages/Home.jsx:105-108 | sets the query and resets the counter to 6; nothing else changes |
| Home.HomePage.SearchChange | src/pages/Home.jsx:139 | sets the query and keeps the counter; nothing else changes |
| Home.HomePage.HandleCategoryClick | src/pages/Home.jsx:110-113 | clicking the selected category clears it, and any other category becomes selected; the counter resets to 6 |
| Home.HomePage.HandleSortChange | src/pages/Home.jsx:115-117 | sets the sort and keeps the counter; nothing else changes |
| Home.HomePage.SetFilters | src/pages/Home.jsx:143 | sets the sidebar filters and keeps the counter; nothing else changes |
| Home.HomePage.HandleLoadMore | src/pages/Home.jsx:126-128 | the counter becomes `LoadMore` of itself and the current result count; nothing else changes |
| Auth.ParseUser | src/context/AuthContext.jsx:13-14 | only an encoded user record parses, and it parses to that record |
| Auth.Startup | src/context/AuthContext.jsx:10-21 | an absent or empty stored value leaves the store anonymous and storage alone; a parseable one signs that user in; an unparseable one removes the key and leaves the store anonymous |
| Auth.SignIn | src/context/AuthContext.jsx:23-33 | the user is set and authenticated; the key holds the encoded user; every other key is untouched |
| Auth.SignOut | src/context/AuthContext.jsx:35-39 | no user and not authenticated; the key is removed; every other key is untouched |
| Auth.TransitionsMirror | src/context/AuthContext.jsx:23-39 | after a sign-in or a sign-out from any state, the key is present exactly when authenticated, and it holds the signed-in user |
| Auth.StartupMirrors | src/context/AuthContext.jsx:10-21 | the startup load ends mirrored unless the stored value was the empty string |
| Auth.SignOutIdempotent | src/context/AuthContext.jsx:35-39 | signing out twice is signing out once |
| Auth.SignOutUndoesSignIn | src/context/AuthContext.jsx:23-39 | sign-in followed by sign-out restores storage when no user was stored before |
| Auth.RestartRestoresSession | src/context/AuthContext.jsx:10-27 | a startup load after a sign-in restores that signed-in session |
| Auth.Session.constructor | src/context/AuthContext.jsx:6-7 | starts anonymous |
| Auth.Session.Load | src/context/AuthContext.jsx:10-21 | the new state is `Startup` of the storage it found |
| Auth.Session.Login | src/context/AuthContext.jsx:23-27 | the new state is `SignIn` of the old one |
| Auth.Session.RegisterUser | src/context/AuthContext.jsx:29-33 | exactly the same effect as `Login` |
| Auth.Session.Logout | src/context/AuthContext.jsx:35-39 | the new state is `SignOut` of the old one |
| Cart.FindLine | src/context/CartContext.jsx:62 | true exactly when some line has the identity |
| Cart.Increment | src/context/CartContext.jsx:64-68 | same length; lines with the identity gain one, and the others are unchanged |
| Cart.AddLine | src/context/CartContext.jsx:60-72 | with an existing line, only that line's quantity grows by one and the length is kept; otherwise the service is appended with quantity 1 and the existing lines are unchanged |
| Cart.RemoveLines | src/context/CartContext.jsx:74-76 | exactly the lines with another identity, in order, each as often as before; no-op when the identity is absent |
| Cart.SetQuantity | src/context/CartContext.jsx:83-87 | same length; lines with the identity get the quantity, and the others are unchanged |
| Cart.WithQuantity | src/context/CartContext.jsx:78-88 | zero or less is `RemoveLines`; otherwise the length and every service are kept, and only matching quantities change |
| Cart.CartCount | src/context/CartContext.jsx:94-96 | the sum of the line quantities, added from 0; with positive quantities every line's quantity is at most that sum |
| Cart.CountAfterAdd | src/context/CartContext.jsx:60-96 | with one line per identity, adding any service raises the cart count by exactly one |
| Cart.CountAtLeastLength | src/context/CartContext.jsx:94-96 | with positive quantities, the count is at least the number of lines |
| Cart.AddKeepsUnique | src/context/CartContext.jsx:60-72 | adding keeps at most one line per identity |
| Cart.AddKeepsPositive | src/context/CartContext.jsx:60-72 | adding keeps every quantity at least 1 |
| Cart.RemoveKeepsInvariants | src/context/CartContext.jsx:74-76 | removing keeps unique identities and positive quantities |
| Cart.UpdateKeepsInvariants | src/context/CartContext.jsx:78-88 | setting a quantity keeps unique identities and positive quantities |
| Cart.AddTwice | src/context/CartContext.jsx:60-72 | adding a new service twice appends one line of quantity 2 |
| Cart.Payload | src/context/CartContext.jsx:52-55 | one `{ service: _id \|\| id, quantity }` per line, same order and length |
| Cart.FormatRemote | src/context/CartContext.jsx:32-36 | one line per remote entry, in remote order, with the service fields, the quantity and `id := _id` |
| Cart.SyncedCart | src/context/CartContext.jsx:31-38 | a non-empty remote cart replaces the local one with exactly `FormatRemote` of it, so each line carries the remote `_id` as id and the remote quantity; a missing or empty one keeps the local cart |
| Cart.SyncThenPushRoundTrip | src/context/CartContext.jsx:32-55 | pushing a freshly synced cart sends back each remote `_id` and quantity in order |
| Cart.ParseCart | src/context/CartContext.jsx:16 | only an encoded cart parses, and it parses to its lines |
| Cart.CartStore.constructor | src/context/CartContext.jsx:9 | starts empty with nothing pushed |
| Cart.CartStore.Load | src/context/CartContext.jsx:12-21 | a parseable stored cart is loaded; an unparseable one removes the key and keeps the cart; an absent or empty one changes nothing |
| Cart.CartStore.Mount | src/context/CartContext.jsx:12-58 | after the load and the write-through, the cart is the stored one or unchanged, and storage always holds the encoded cart |
| Cart.CartStore.WriteThrough | src/context/CartContext.jsx:47-58 | storage holds the encoded cart with every other key kept; the payload is pushed exactly when signed in |
| Cart.CartStore.AddToCart | src/context/CartContext.jsx:60-72 | the cart becomes `AddLine` of the old one, then it is written through |
| Cart.CartStore.RemoveFromCart | src/context/CartContext.jsx:74-76 | the cart becomes `RemoveLines` of the old one, then it is written through |
| Cart.CartStore.UpdateQuantity | src/context/CartContext.jsx:78-88 | the cart becomes `WithQuantity` of the old one, then it is written through |
| Cart.CartStore.ClearCart | src/context/CartContext.jsx:90-92 | the cart becomes empty, then it is written through |
| Cart.CartStore.GetCartCount | src/context/CartContext.jsx:94-96 | exactly `CartCount` of the cart, the sum of its quantities: 0 for an empty cart, and at least the number of lines when quantities are positive |
| Cart.CartStore.SyncOnLogin | src/context/CartContext.jsx:24-45 | only when signed in and the profile read succeeds, the cart becomes `SyncedCart`; a replacement is written through; otherwise nothing changes |
| Cart.CartStore.OnSessionChange | src/context/CartContext.jsx:24-58 | on a session change the current cart is written and, when signed in, pushed at once; then the cart becomes `SyncedCart` when signed in and the read succeeds, and a replacement is written and pushed as well; signing out writes without pushing |
| Favorites.IsFavorite | src/context/FavoritesContext.jsx:64-66 | true exactly when some entry has the identity |
| Favorites.Toggle | src/context/FavoritesContext.jsx:54-61 | a present identity removes every entry with it and keeps the rest in order; an absent one appends the service |
| Favorites.ToggleFlips | src/context/FavoritesContext.jsx:54-66 | a toggle flips `isFavorite` of the toggled identity |
| Favorites.ToggleLeavesOthers | src/context/FavoritesContext.jsx:54-66 | a toggle leaves `isFavorite` of every other identity unchanged |
| Favorites.ToggleTwiceFromAbsent | src/context/FavoritesContext.jsx:54-61 | toggling a new service twice gives back the exact list |
| Favorites.ToggleTwiceFromPresent | src/context/FavoritesContext.jsx:54-61 | toggling a present service twice leaves the other entries in order, with the service at the end |
| Favorites.ToggleKeepsUnique | src/context/FavoritesContext.jsx:54-61 | a toggle keeps the identities distinct |
| Favorites.Payload | src/context/FavoritesContext.jsx:49 | one `_id \|\| id` per entry, same order and length |
| Favorites.FormatRemote | src/context/FavoritesContext.jsx:30-33 | one entry per remote service, in order, with `id := _id` |
| Favorites.SyncedFavorites | src/context/FavoritesContext.jsx:29-35 | a non-empty remote list replaces the local one with exactly `FormatRemote` of it, each entry carrying its `_id` as id; a missing or empty one keeps it |
| Favorites.SyncThenPushRoundTrip | src/context/FavoritesContext.jsx:30-49 | pushing freshly synced favourites sends back each remote `_id` in order |
| Favorites.ParseFavorites | src/context/FavoritesContext.jsx:16 | only an encoded favourites list parses, and it parses to its services |
| Favorites.FavoritesStore.constructor | src/context/FavoritesContext.jsx:9 | starts empty with nothing pushed |
| Favorites.FavoritesStore.Load | src/context/FavoritesContext.jsx:12-21 | a parseable stored list is loaded; an unparseable one removes the key and keeps the list; an absent or empty one changes nothing |
| Favorites.FavoritesStore.Mount | src/context/FavoritesContext.jsx:12-52 | after the load and the write-through, the list is the stored one or unchanged, and storage always holds the encoded list |
| Favorites.FavoritesStore.WriteThrough | src/context/FavoritesContext.jsx:44-52 | storage holds the encoded list with every other key kept; the ids are pushed exactly when signed in |
| Favorites.FavoritesStore.ToggleFavorite | src/context/FavoritesContext.jsx:54-62 | the list becomes `Toggle` of the old one, then it is written through |
| Favorites.FavoritesStore.IsFavoriteId | src/context/FavoritesContext.jsx:64-66 | true exactly when some favourite has the identity |
| Favorites.FavoritesStore.SyncOnLogin | src/context/FavoritesContext.jsx:24-42 | only when signed in and the profile read succeeds, the list becomes `SyncedFavorites`; a replacement is written through; otherwise nothing changes |
| Favorites.FavoritesStore.OnSessionChange | src/context/FavoritesContext.jsx:24-52 | on a session change the current favourites are written and, when signed in, pushed at once; then they become `SyncedFavorites` when signed in and the read succeeds, and a replacement is written and pushed as well; signing out writes without pushing |
| FormRules.MatchesEmail | src/pages/Register.jsx:44 | true exactly when some substring is non-space characters, `@`, non-space characters, `.`, non-space characters |
| FormRules.EmailPattern | src/pages/Register.jsx:44 | the meaning of `\S+@\S+\.\S+` as a search anywhere in the string: non-space characters, `@`, non-space characters, `.`, non-space characters; any match has at least five characters, an `@` and a `.` |
| FormRules.EmailShapeIffPattern | src/pages/Register.jsx:44 | a match of the pattern exists exactly when a one-character-before, one-character-after match exists |
| FormRules.ComplexityOnOneLine | src/pages/Register.jsx:52 | with no line break, the lookaheads hold exactly when the password has a lowercase letter, an uppercase letter and a digit |
| FormRules.ComplexityNeedsAllThree | src/pages/Register.jsx:52 | a password passing the lookaheads has all three kinds of character |
| FormRules.MeetsComplexity | src/pages/Register.jsx:52 | the meaning of the three lookaheads tried from every start position, each looking ahead within one line; a passing password has at least three characters |
| FormRules.NameError | src/pages/Register.jsx:36-40 | 'Name is required' exactly when the name is all whitespace; 'at least 2' exactly when the trimmed length is 1; otherwise no error |
| FormRules.EmailError | src/pages/Register.jsx:42-46 | 'required' exactly when empty; 'invalid' exactly when non-empty and not matching; no error exactly when matching |
| FormRules.RegisterPasswordError | src/pages/Register.jsx:48-54 | 'required' when empty, then 'at least 6' when shorter than six, then the complexity message; no error exactly when six or more characters pass the lookaheads |
| FormRules.LoginPasswordError | src/pages/Login.jsx:49-53 | 'required' when empty, then 'at least 6'; no error exactly when there are six or more characters; no complexity rule |
| FormRules.ConfirmError | src/pages/Register.jsx:56-60 | 'Please confirm' exactly when empty; 'do not match' exactly when non-empty and different; no error exactly when equal and non-empty |
| FormRules.TermsError | src/pages/Register.jsx:62-64 | an error, the terms message, exactly when the terms are not accepted |
| Register.RegisterErrors | src/pages/Register.jsx:33-64 | the map has only the five field keys; each key is present exactly when its check fails, and then holds that check's one message |
| Register.RegisterValidIff | src/pages/Register.jsx:66-67 | the map is empty exactly when the trimmed name has 2 or more characters, the email matches, the password has 6 or more characters and passes the lookaheads, the confirmation equals it, and the terms are accepted |
| Register.RegisterForm.constructor | src/pages/Register.jsx:8-15 | empty fields, terms not accepted, no errors |
| Register.RegisterForm.HandleChange | src/pages/Register.jsx:18-31 | only the named field takes the value; that field's error is blanked only when it was showing; other errors are kept |
| Register.RegisterForm.SetTermsAccepted | src/pages/Register.jsx:228-232 | the checkbox sets the terms flag; its error is blanked only when it was showing |
| Register.RegisterForm.Validate | src/pages/Register.jsx:33-68 | the errors become `RegisterErrors` of the fields, and the result is true exactly when that map is empty |
| Register.RegisterForm.CheckName | src/pages/Register.jsx:36-40 | the name step adds exactly `NameError` of the name under the name key, and nothing when it passes |
| Register.RegisterForm.CheckEmail | src/pages/Register.jsx:42-46 | the email step adds exactly `EmailError` of the email, and nothing when it passes |
| Register.RegisterForm.CheckPassword | src/pages/Register.jsx:48-54 | the password step adds exactly `RegisterPasswordError` of the password, and nothing when it passes |
| Register.RegisterForm.CheckConfirm | src/pages/Register.jsx:56-60 | the confirmation step adds exactly `ConfirmError` of the two passwords, and nothing when it passes |
| Login.LoginErrors | src/pages/Login.jsx:40-54 | the map has only the email and password keys; each is present exactly when its check fails, and then holds that check's message |
| Login.LoginValidIff | src/pages/Login.jsx:55-56 | the map is empty exactly when the email matches and the password has 6 or more characters |
| Login.SavedEmail | src/pages/Login.jsx:19-20 | a saved email is found exactly when non-empty text is stored under `raffine_remember_email` |
| Login.Remembered | src/pages/Login.jsx:68-73 | the key is present exactly when remember-me is set, and then holds the email; every other key is untouched |
| Login.RememberedEmailIsPrefilled | src/pages/Login.jsx:69-70 | a remembered valid email is what the next mount pre-fills |
| Login.ForgottenEmailIsNotPrefilled | src/pages/Login.jsx:71-72 | after a submit without remember-me, the next mount pre-fills nothing |
| Login.LoginForm.constructor | src/pages/Login.jsx:9-15 | empty fields, remember-me off, no errors, not loading |
| Login.LoginForm.OnMount | src/pages/Login.jsx:18-23 | a saved email pre-fills the email and ticks remember-me; otherwise the form is unchanged |
| Login.LoginForm.Validate | src/pages/Login.jsx:40-57 | the errors become `LoginErrors` of the fields, and the result is true exactly when that map is empty |
| Login.LoginForm.ApplyRemember | src/pages/Login.jsx:68-73 | storage becomes `Remembered` of the old storage, the flag and the email |
| Login.LoginForm.SignInWith | src/pages/Login.jsx:66-83 | the remember rule applies whatever the outcome; success signs the user in and keeps the errors; failure sets the errors to exactly `{form: message}` and leaves the session; loading ends |
| Login.LoginForm.Submit | src/pages/Login.jsx:59-84 | an invalid form stops after validation, touching neither storage nor the session, and the request is made exactly when the form is valid; a valid form ends with `SignInWith`'s effects and no field errors |
| ServiceCard.FloorStars | src/components/ServiceCard.jsx:71 | the whole stars at or below the rating |
| ServiceCard.CeilStars | src/components/ServiceCard.jsx:96 | the whole stars at or above the rating; the floor or one more |
| ServiceCard.HasHalfStar | src/components/ServiceCard.jsx:72 | `rating % 1 !== 0`: true exactly when ceil is floor plus one, the case where the half star takes the one slot between them |
| ServiceCard.RenderStars | src/components/ServiceCard.jsx:69-109 | `max(0, floor)` full stars, then one half star exactly when the rating is not whole, then `max(0, 5 - ceil)` empty stars |
| ServiceCard.HalfStarSplitsTheRating | src/components/ServiceCard.jsx:71-72 | the rating is not whole exactly when ceil is floor plus one; it is whole exactly when it equals its floor |
| ServiceCard.FiveStarsInRange | src/components/ServiceCard.jsx:70-108 | from 0 to 5 stars, full plus half plus empty is 5 |
| ServiceCard.AboveFiveOverflows | src/components/ServiceCard.jsx:96-106 | above 5 stars no empty star is drawn and at least five full ones are |
| ServiceCard.ServiceCard.constructor | src/components/ServiceCard.jsx:7-10 | the card holds its service and the two stores |
| ServiceCard.ServiceCard.IsFavorite | src/components/ServiceCard.jsx:11 | true exactly when the favourites hold the card's identity |
| ServiceCard.ServiceCard.HandleFavorite | src/components/ServiceCard.jsx:17-19 | one `ToggleFavorite` of the card's service; the cart is untouched |
| ServiceCard.ServiceCard.HandleBookNow | src/components/ServiceCard.jsx:29-31 | one `AddToCart` of the card's service; the favourites are untouched |

## Left out

- The backend, and the `fetch` wrappers the frontend calls it through, are not part of this model. The sign-in request and the profile read appear as parameters carrying a result or an error message. Pushes to the profile are recorded in `pushed` logs; whether they succeed is not modelled.
- Asynchronous timing is not modelled:
  - Effects and requests are modelled as if they ran one after the other.
  - On a session change both effects run, in the order `Cart.CartStore.OnSessionChange` and `Favorites.FavoritesStore.OnSessionChange` state: the write-through first, then the sync. Overlapping write-throughs, and a profile read that returns after later changes, are not modelled.
  - In `Mount`, React first writes the initial empty list and then the loaded one. Only the final write is modelled.
- Animation, `alert`, navigation, markup, the map/grid view toggle and the card's click handler are presentation only.
- `JSON.stringify` and `JSON.parse` are not modelled character by character. Values are typed as encoded documents or raw text. A document of another kind under a key is treated as unparseable, although `JSON.parse` would accept it. Storage is written only by the stores themselves, so that case arises only from hand edits. JSON such as `null` under `raffine_user` is also outside the model.
- Login.LoginForm.OnMount: an encoded document under `raffine_remember_email` (never written by the app) does not pre-fill; the page would pre-fill its text.
- Strings cover ASCII only: `toLowerCase` lowercases A to Z, and `trim` and `\s` use the six ASCII whitespace characters. Full Unicode case mapping and whitespace are not modelled.
- String lengths count characters, whereas JavaScript's `length` counts UTF-16 code units. A character outside the Basic Multilingual Plane counts once here and twice in the page, so the "at least 2" name rule and the "at least 6" password rules can differ on such input.
- Floating point is not modelled. Ratings and thresholds are tenths, and `parseFloat` of the threshold strings is replaced by those integers. Prices are integers.
- The sign-up submit handler (src/pages/Register.jsx:70-88) calls a `register` function that the session context does not provide. Only `validate` and the change handlers are modelled.
- The sign-in form's own change handler (src/pages/Login.jsx:25-38) is not modelled. It repeats the sign-up rule that `Register.RegisterForm.HandleChange` states.
- Display-only service fields are not modelled: `image`, `alt`, `badge`, `reviews`, `price`, `priceRange`, `priceLabel` and `originalPrice`.
- Service identities are compared by equality only. They are modelled as optional strings, although the backend schema declares `id` as a number.
