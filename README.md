# A verified model of the gallery app's search, account and login logic

The app is a React Native art gallery. It searches two museum catalogs through a
small backend and shows the results as a list. Users can sign in, keep a set of
favourite artworks and edit their profile. This project models the parts of the
app that hold deterministic logic, in Dafny, and proves what they promise.

- **Result pipeline (App.tsx).**
  - `norm` is the identity normalisation of artist and title strings.
  - `dedupeByArtistTitle` keeps the first artwork of every `norm(artist)|norm(title)` key.
  - `handleSearch` ranks results: fuzzy hits first, then a substring fallback when
    there are fewer than six hits, then a cap of sixty.
  - The search screen's state (`query`, `results`, `loading`, `err`,
    `searchPerformed`) is a class. Its handlers `handleQueryChange` and
    `handleSearch` are methods, and `fetchSearchFromBff` is the backend call with
    its blank-keyword guard.
- **Account state (context/AuthContext.tsx).**
  - The signed-in profile and the favourites set are a class.
  - `login`, `logout`, `toggleFavorite` and `updateProfile` are its methods.
  - The profile shallow merge `{...user, ...data}` and the login profile defaults
    are functions.
- **Login form (components/LoginScreen.tsx).**
  - The form's five state fields are a class.
  - Its methods are the two submit handlers, the mode toggle and the submit-button
    dispatch.

Some things the app does not compute itself. Each of these is a parameter of the
operations that use it:

- the engine's Unicode tables (`toLowerCase`, `\s`, `\p{Letter}`, `\p{Number}`), as
  `Text.CharTables`;
- the Fuse.js fuzzy matcher, as a function from the items and the query to the hits;
- the backend's answers, as `SearchScreen.BffReply` and `AuthBackend.AuthReply`;
- the current time;
- whether a storage write or a sign-out failed.

Each awaited call is modelled as one atomic step of its handler.

One might expect `norm` to be idempotent, but the code does not have that
property. It collapses white space before it strips symbols, so
`"a ! b"` normalises to `"a  b"`, and normalising that again gives `"a b"`.
`Normalize.NormNotIdempotent` proves this for any Unicode tables that treat these
four characters in the standard way. The model follows the code.

Modules, one file each:
- `Wrappers`: Option, Result and JS string truthiness.
- `Sequences`: `filter`, shared by the symbol strip and the ranking fallback.
- `Text`: string primitives.
- `Normalize`: `norm`.
- `Artwork`: the item record.
- `Dedupe`: `dedupeByArtistTitle`.
- `Ranking`: the ranking block.
- `SearchScreen`: the search state.
- `AuthBackend`: backend reply types.
- `AuthContext`: account state.
- `LoginScreen`: the login form.

## Model

| member | source | states |
|---|---|---|
| Wrappers.OrEmpty | App.tsx:180 | a non-empty string is kept, a missing or empty one becomes "" |
| Text.ToLower | App.tsx:181 | `toLowerCase()` maps each code point and concatenates the mappings in order; text whose characters all lower-case to themselves is unchanged |
| Text.IsBlank | App.tsx:97 | `!s.trim()` holds exactly when the leading run of white space covers the whole string |
| Text.Contains | App.tsx:326-327 | `includes`: the needle occurs at some position; every prefix occurs, including the empty string, and nothing longer than the haystack does |
| Text.LeadingSpaces | App.tsx:184 | the length of the maximal run of white space at the start of a string |
| Text.TrailingSpaces | App.tsx:184 | the length of the maximal run of white space at the end of a string |
| Text.Trim | App.tsx:184 | `trim()` gives the slice after the leading white space, only white space follows it, neither end of it is white space, and it is empty exactly when the input is all white space |
| Text.SplitHead | context/AuthContext.tsx:105 | `split(sep)[0]`: a prefix of the input without `sep`, which is the whole input or is followed by `sep` |
| Text.SplitHeadOfJoin | App.tsx:190 | splitting `n + sep + m` at the first `sep` gives back `n` when `n` has no `sep` |
| Normalize.CollapseSpaces | App.tsx:182 | `replace(/\s+/g, " ")`: no two adjacent white-space characters are left, every white space left is the plain space, the length does not grow, and a non-space first character is kept (that everything else survives in order is `CollapseSpacesKeepsText`; that each run leaves exactly one space is `CollapseSpacesRun`) |
| Normalize.CollapseSpacesRun | App.tsx:182 | a whole non-empty run of white space, followed by text or by nothing, becomes exactly one plain space |
| Normalize.CollapseSpacesText | App.tsx:182 | characters that are not white space are copied through unchanged and in order |
| Normalize.CollapseSpacesKeepsText | App.tsx:182 | collapsing changes only white space: any filter that drops white space gives the same text, in the same order, before and after |
| Normalize.StripSymbols | App.tsx:183 | `replace(/[^\p{Letter}\p{Number}\s]/gu, "")`: a character survives exactly when it is a letter, a number or white space, and no white space other than the plain space comes back |
| Normalize.StripSymbolsAppend | App.tsx:183 | stripping a concatenation strips each part, so the survivors keep their order |
| Normalize.StripSymbolsOfKept | App.tsx:183 | text made only of letters, numbers and white space is unchanged |
| Normalize.StripSymbolsDrops | App.tsx:183 | a symbol disappears and its neighbours close up |
| Text.TrimOfUnpadded | App.tsx:184 | text that neither starts nor ends with white space is unchanged by `trim()` |
| Text.TrimSplits | App.tsx:184 | the input is its leading white space, then the trimmed text, then trailing white space |
| Normalize.TrimOfText | App.tsx:184 | trimming text made only of letters, numbers and plain spaces leaves only letters, numbers and plain spaces |
| Normalize.TrimKeepsText | App.tsx:184 | trimming removes only white space: any filter that drops white space gives the same text before and after |
| Normalize.Norm | App.tsx:179-185 | the result holds only letters, numbers and the plain space, has no white space at either end, and is "" for a missing or empty input |
| Normalize.NormOfWord | App.tsx:179-185 | a word of letters and numbers that lower-case to themselves normalises to itself |
| Normalize.NormOfTwoWords | App.tsx:179-185 | two such words separated by any non-empty run of white space normalise to the two words joined by one plain space |
| Normalize.NormKeepsWordBreak | App.tsx:179-185 | the white space between two words is never lost: `u + w + v` and `u + v` normalise differently, so "claude monet" and "claudemonet" give different identity keys |
| Normalize.NormKeepsText | App.tsx:179-185 | with its spaces taken out, `norm(s)` is exactly the letters and numbers of the lower-cased input, in order: only white space and symbols are removed and nothing is reordered |
| Normalize.NormIgnoresCaseAndSymbols | App.tsx:179-185 | `"A  b!"` and `"a b"` both normalise to `"a b"`: case, doubled spaces and punctuation do not change the identity |
| Normalize.IdentityKey | App.tsx:190 | the key contains a bar, and splitting it at its first bar gives back the normalised artist and the normalised title |
| Normalize.IdentityKeyUnambiguous | App.tsx:190 | two identity keys (normalised artist, bar, normalised title) are equal exactly when both normalised artists and both normalised titles are equal |
| Normalize.NormNotIdempotent | App.tsx:179-185 | `norm("a ! b")` is `"a  b"` and `norm("a  b")` is `"a b"`, so `norm` is not idempotent |
| Artwork.Ids | App.tsx:329 | `new Set(ranked.map(x => x.id))` holds the id of every item and nothing else |
| Dedupe.DedupeByArtistTitle | App.tsx:186-196 | the `seen`-set loop computes `Deduped` over the identity key, which the lemmas below characterise |
| Dedupe.DedupedKeys | App.tsx:189-194 | every key of the input is carried by some output item, and the output has no other key |
| Dedupe.DedupedDistinct | App.tsx:190-193 | no two output items share a key |
| Dedupe.DedupedPositions | App.tsx:188-194 | the output is the input items at strictly increasing positions, each position is the first occurrence of its key, and every first occurrence is kept |
| Dedupe.KeptPositionsPick | App.tsx:188-194 | the kept positions strictly increase, and the output holds the input's items at those positions |
| Dedupe.KeptPositionsFirst | App.tsx:188-194 | a position is kept exactly when no earlier item has the same key |
| Dedupe.DedupedLength | App.tsx:186-196 | the output is no longer than the input |
| Dedupe.DedupedOfDistinct | App.tsx:186-196 | input whose keys are already distinct comes back unchanged |
| Dedupe.DedupedIdempotent | App.tsx:186-196 | deduplicating twice equals deduplicating once |
| Dedupe.DedupedPrefersFirstList | App.tsx:191-194 | in the dedupe of `a + b`, an item whose key occurs in `a` is an item of `a` |
| Sequences.Filter | App.tsx:324-330 | `filter` keeps exactly the elements the predicate accepts, never grows the list, and keeps or drops a one-element list whole |
| Sequences.FilterAppend | App.tsx:324-330 | filtering a concatenation filters each part, so the kept elements stay in their original order |
| Sequences.FilterAll | App.tsx:324-330 | a list whose every element is accepted filters to itself |
| Sequences.FilterOfFilter | App.tsx:324-330 | filtering by one predicate and then another is one filter by both |
| Ranking.MatchesQuery | App.tsx:325-327 | the substring test on the lower-cased artist or title; the empty query matches every item |
| Ranking.FallbackMatches | App.tsx:322-330 | the two filters amount to one filter of `merged` by "matches the lower-cased query and has an id the fuzzy pass did not return", so the appended items are exactly those, in `merged` order |
| Ranking.FallbackMatchesAppend | App.tsx:324-330 | the fallback of `a + b` is the fallback of `a` followed by that of `b`: `merged` order is kept |
| Ranking.Rank | App.tsx:321-332 | at most 60 items; with at least 6 fuzzy hits, exactly their first `min(60, n)` items; with fewer, the result is the fuzzy hits in their order followed by the first fallback matches that fit under 60, so its length is `min(60, hits + matches)`, and every later item is a substring match from `merged` with a fresh id |
| Ranking.RankKeepsFallbackUnderCap | App.tsx:321-332 | below 6 fuzzy hits, when everything fits under the cap, every fresh substring match is in the result |
| Ranking.RankFallbackFires | App.tsx:322-331 | below 6 fuzzy hits, a single fresh substring match makes the result longer than the fuzzy hits |
| Ranking.RankDrawsFromMerged | App.tsx:321-332 | when the fuzzy matcher only returns items of `merged`, so does the ranking, and an empty `merged` gives no results |
| Ranking.RankNothingMatches | App.tsx:321-332 | with no fuzzy hits and no substring match, the result is empty |
| SearchScreen.FetchSearchFromBff | App.tsx:96-109 | a blank keyword gives `[]` whatever the backend would answer; otherwise every failure is the one "cannot reach the search service" error, and a body without an `items` array gives `[]` |
| SearchScreen.SearchScreen.constructor | App.tsx:212-216 | the initial empty query, empty results, no error, not loading and no search performed |
| SearchScreen.SearchScreen.HandleQueryChange | App.tsx:246-256 | the query takes the new text; a blank text resets results to empty, the error to none and `searchPerformed` to false; otherwise those stay; the 60-item bound is kept |
| SearchScreen.SearchScreen.ShowRanked | App.tsx:321-332 | the ranking block as written (append the fallback below six hits, keep the first 60) leaves `Rank` of the fetched items as the results, at most 60 of them |
| SearchScreen.SearchScreen.HandleSearch | App.tsx:300-339 | a blank query or a search in flight changes nothing; otherwise the search is marked performed and loading ends false; a failed fetch shows its error and keeps the old results; a successful fetch clears the error and shows `Rank` of the fetched items; the 60-item bound is kept |
| AuthContext.MergeProfile | context/AuthContext.tsx:176 | `{...user, ...data}`: every field present in the patch takes the patch's value (possibly undefined), and every other field keeps the user's |
| AuthContext.Then | context/AuthContext.tsx:176 | two patches spread in order: a field takes the later patch's value when that patch has it, and the earlier patch's otherwise |
| AuthContext.ProfileExtensionality | context/AuthContext.tsx:7-13 | profiles that agree on every field are equal |
| AuthContext.MergeNoChanges | context/AuthContext.tsx:176 | merging the empty patch leaves the profile unchanged |
| AuthContext.MergeIdempotent | context/AuthContext.tsx:176 | merging a patch twice equals merging it once |
| AuthContext.MergeSequential | context/AuthContext.tsx:176 | two updates in a row equal one update with the two patches spread together |
| AuthContext.Toggled | context/AuthContext.tsx:145-151 | the id flips membership and every other id keeps its membership |
| AuthContext.ToggleTwice | context/AuthContext.tsx:145-153 | toggling the same id twice restores the set |
| AuthContext.ToggleCommutes | context/AuthContext.tsx:145-153 | toggling two ids gives the same set in either order |
| AuthContext.ProfileFromLogin | context/AuthContext.tsx:100-108 | `uid` and `email` come from the backend user; `displayName` is the backend's when non-empty and otherwise the login email up to its first `@`; an empty `photoURL` becomes undefined; a missing `createdAt` becomes the login time |
| AuthContext.AuthProvider.constructor | context/AuthContext.tsx:45-47 | nobody is signed in and there are no favourites |
| AuthContext.AuthProvider.Login | context/AuthContext.tsx:93-115 | a non-empty backend error, or an exception's message, is returned and the user is unchanged; otherwise no error is returned, and a returned user becomes `ProfileFromLogin` of it |
| AuthContext.AuthProvider.Logout | context/AuthContext.tsx:134-141 | a successful sign-out clears the user, and a failed one leaves it |
| AuthContext.AuthProvider.ToggleFavorite | context/AuthContext.tsx:144-166 | the favourites become `Toggled` of the old set, and the user is not touched |
| AuthContext.AuthProvider.UpdateProfile | context/AuthContext.tsx:169-191 | with nobody signed in it returns failure with "User not logged in" and leaves the user absent; otherwise the user becomes `MergeProfile` of the old user and the patch, and success is reported exactly when the storage write did not fail |
| LoginScreen.ValidationError | components/LoginScreen.tsx:36-74 | the backend is called exactly when both fields are non-empty and, for sign-up, the password has at least 6 characters; missing fields are reported first, and the length message only for sign-up |
| LoginScreen.ErrorAfterReply | components/LoginScreen.tsx:45-60 | an exception shows the fixed "unexpected error" message, a non-empty backend error is shown as is, and otherwise no error is shown |
| LoginScreen.SignedInUser | components/LoginScreen.tsx:48-55 | `onLoginSuccess` receives a user exactly when the backend returned one with no error, and never alongside an error message |
| LoginScreen.LoginForm.constructor | components/LoginScreen.tsx:29-33 | empty fields, login mode, not loading, no error |
| LoginScreen.LoginForm.SetEmail | components/LoginScreen.tsx:148 | the email field takes the typed text and nothing else changes |
| LoginScreen.LoginForm.SetPassword | components/LoginScreen.tsx:163 | the password field takes the typed text and nothing else changes |
| LoginScreen.LoginForm.CallBackend | components/LoginScreen.tsx:42-60 | after the call, loading is false whatever the outcome, the error is `ErrorAfterReply`, and the user reported is `SignedInUser` |
| LoginScreen.LoginForm.HandleLogin | components/LoginScreen.tsx:36-62 | missing fields set the required-fields message with no backend call and loading unchanged; otherwise the backend is called and loading ends false; email, password and mode never change |
| LoginScreen.LoginForm.HandleSignUp | components/LoginScreen.tsx:64-96 | as for login, with a short password rejected, once both fields are present, by its own message and no backend call |
| LoginScreen.LoginForm.ToggleAuthMode | components/LoginScreen.tsx:98-102 | the mode flips, the error is cleared, and email and password stay |
| LoginScreen.LoginForm.Submit | components/LoginScreen.tsx:176 | the button runs sign-up validation and the sign-up call exactly in sign-up mode, and login otherwise |

## Left out

- Fuse.js scoring (App.tsx:311-321) is a foreign library with floating-point thresholds and weights. It is an uninterpreted function parameter. `Ranking.RankDrawsFromMerged` assumes only that it returns items of `merged`.
- Network I/O is left out: `fetchWithTimeout` with its abort timer, the HTTP requests themselves and the JSON decoding. A search request's outcome is the `BffReply` parameter, so the model keeps what `fetchSearchFromBff` does with each outcome.
- `fetchTodayPickFromBff`, `fetchTodayPick` and the pick-of-the-day state are I/O around a backend sampler that is not part of this model.
- The commented-out catalog adapters (`fetchFromMet`, `fetchFromAIC`, `aicIiif`) are dead code.
- `Keyboard.dismiss()` in `handleSearch` is a UI side effect.
- Concurrency is not modelled: every handler is one atomic step. State changes that another handler could observe while a request is pending are not captured. Examples are `loading` being true during a search, or the form's button being disabled while it loads.
- The exact Unicode tables are not modelled: which characters are letters, numbers or white space, and what each lower-cases to. `toLowerCase` is modelled one code point at a time, so context-sensitive mappings such as the final sigma are not represented.
- Strings are sequences of code points. `password.length` in the sign-up check counts UTF-16 units, so a password with characters outside the Basic Multilingual Plane is measured differently.
- Persistence is left out: AsyncStorage and Firestore writes, the auth-change subscription that loads favourites, and the `isLoading` flag it clears. A failed profile write is the `storageError` parameter of `UpdateProfile`. `ToggleFavorite` models only the in-memory set; its storage writes happen after that set is assigned.
- `AuthContext.AuthProvider.Logout`: the sign-out helper in firebase.js catches its own errors, so with that helper the user is always cleared. The model keeps the `catch` branch as a parameter.
- `signup` in AuthContext and `setUser` are not modelled. The login form calls the backend helpers directly.
- `AuthContext.MergeProfile`: a patch can set `uid` or `email` only to a string. A patch that sets them explicitly to `undefined` is not representable.
- `createdAt` is any value in the source. Here it is optional text, and the login time is a parameter.
- The mock `loginWithEmail` is not modelled. Its possible answers are all values of `AuthReply`.
- `console.error` and `console.log` calls are left out.
- Rendering, styles and the other screens are UI only.
