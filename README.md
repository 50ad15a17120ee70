# VAYARA session core in Dafny

VAYARA is a cosmetics scanner web app. A user scans or types a product
barcode and sees whether the product is cruelty-free. The user can also
search the catalog, keep favorites, browse a scan history and group
products into custom lists. Everything the app remembers between visits
lives in the browser's local storage. The app keeps no server state.

This project models the deterministic core of the app and proves what it
promises:

- **The persistent store** (`Storage.Store`):
  - one field per storage key;
  - reads that fall back to a default when a key is missing or
    unreadable;
  - the list rules of the mutators: idempotent append for favorites, and
    dedup, move-to-front and a cap (50 for history, 10 for searches).
- **The product catalog** (`Catalog`):
  - the three-product constant;
  - lookup by barcode and by id;
  - case-insensitive search on name or brand;
  - recommendations drawn from the certified products.
- **The application root** (`Navigation.App`):
  - the four state cells;
  - one method per event handler;
  - the choice of what is rendered for a screen name.
- **The bottom navigation bar** (`BottomNavigation`): when the bar is
  hidden, and which item is active.
- **The screen handlers that change the store or their own lists.** Each
  screen is a small class holding its state cells:
  - product detail;
  - search;
  - history;
  - favorites;
  - custom lists;
  - registration form;
  - scanner.

  Where a screen mirrors the store, a ghost predicate (`Synced`) states
  the correspondence, and every handler preserves it.
- **End-to-end sessions** (`Scenarios`) that drive the root, the screens
  and the store together.

Generic helpers model the JavaScript built-ins the code relies on:

- `Lists` models `filter`, `find`, `map(...).filter(Boolean)` and
  `slice(0, n)`;
- `Text` models `trim`, `toLowerCase` and `includes`.

Proofs about the catalog go through small lemmas that state its ids and
certifications. Proofs about the screens go through lemmas about these
generic helpers.

The code is followed wherever it departs from the intended design:

- `searchProducts("")` returns the whole catalog. The blank-query guard
  lives in the search screen (`SearchScreen.BlankGuardMatters`).
- `handleNavigation` accepts any string. An unlisted name becomes
  `Screen.Unlisted` and renders nothing. So does `product-detail` with no
  selected product (`Navigation.Rendered`).
- `handleFindAlternatives` has no precondition.
- A barcode miss calls `alert` and leaves the state as it was. The model
  returns `NotFound` instead.
- The `Screen` union in src/types/index.ts:26-39 lacks `custom-lists` and
  `badges`, although the root renders both. The `Screen` datatype has all
  fifteen screens.
- The start-up effect also checks the saved language. That check always
  passes, because the language read never yields the empty string.

## Model

| member | source | states |
|---|---|---|
| Storage.Read | src/utils/storage.ts:3-9 | a stored value is returned as it is; a missing or unreadable cell yields the default, so a read never fails |
| Storage.AddOnce | src/utils/storage.ts:14-19 | the id is appended at the end only when absent: the old list is a prefix, membership becomes old membership plus the id, a present id leaves the list unchanged |
| Storage.AddOnceIdempotent | src/utils/storage.ts:14-19 | adding the same id twice is adding it once |
| Storage.AddOnceNoDup | src/utils/storage.ts:14-19 | a duplicate-free favorites list stays duplicate-free |
| Storage.Promote | src/utils/storage.ts:45-49 | the new entry is at index 0 and nowhere else, the length is at most the cap, and every entry was either old or the new one |
| Storage.PromoteTail | src/utils/storage.ts:47 | the result is the new entry followed by the old list without it, cut to cap - 1 |
| Storage.PromoteKeepsOrder | src/utils/storage.ts:47 | the other entries keep their relative order, the exact resulting length, and no other entry is lost when the cap does not bite |
| Storage.PromoteNoDup | src/utils/storage.ts:45-49 | promoting into a duplicate-free list keeps it duplicate-free |
| Storage.PromoteFullDropsOldest | src/utils/storage.ts:47 | a full log receiving a new entry drops its last (oldest) entry |
| Storage.PromoteExistingKeepsLength | src/utils/storage.ts:47 | re-adding a logged entry within the cap keeps the length |
| Storage.PromoteOldest | src/utils/storage.ts:47 | re-adding the oldest entry moves it from the end to the front, the others shift back by one |
| Storage.PromoteIdempotent | src/utils/storage.ts:45-49 | promoting the same entry twice is promoting it once |
| Storage.ToggleTwiceAbsent | src/utils/storage.ts:24-33 | toggling an absent id twice restores the list exactly |
| Storage.ToggleTwicePresent | src/utils/storage.ts:24-33 | toggling a present id twice keeps the same multiset of ids, with the id moved to the end |
| Storage.Store.FavoritesGet | src/utils/storage.ts:3-9 | the stored list, or [] for a missing or corrupt key |
| Storage.Store.FavoritesSet | src/utils/storage.ts:11-13 | after a set, the next read returns exactly the list written |
| Storage.Store.FavoritesAdd | src/utils/storage.ts:14-19 | the stored list becomes the idempotent append; a present id leaves the key untouched; duplicate-freedom is kept |
| Storage.Store.FavoritesRemove | src/utils/storage.ts:20-23 | the stored list loses every occurrence of the id and keeps the rest in order; duplicate-freedom is kept |
| Storage.Store.FavoritesToggle | src/utils/storage.ts:24-33 | returns true exactly when the id was absent; afterwards membership equals the returned value; the list is the append or the removal |
| Storage.Store.HistoryGet | src/utils/storage.ts:37-44 | the stored log, or [] for a missing or corrupt key |
| Storage.Store.HistoryAdd | src/utils/storage.ts:45-49 | the key holds the promoted log with cap 50; the id is at its head |
| Storage.Store.LanguageGet | src/utils/storage.ts:53-55 | the stored language, or "en" when absent or empty; never the empty string |
| Storage.Store.LanguageSet | src/utils/storage.ts:56-58 | the raw value is written; the next read returns it (or "en" for the empty string) |
| Storage.Store.SearchesGet | src/utils/storage.ts:62-69 | the stored searches, or [] for a missing or corrupt key |
| Storage.Store.SearchesAdd | src/utils/storage.ts:70-74 | the key holds the promoted list with cap 10; the query is stored exactly as given |
| Storage.Store.SubscriptionGet | src/utils/storage.ts:78-85 | the stored subscription, or the free tier with no features |
| Storage.Store.SubscriptionSet | src/utils/storage.ts:86-88 | the key holds exactly the subscription written, and the next read returns it |
| Storage.Store.StatsGet | src/utils/storage.ts:92-111 | the stored statistics, or the all-zero record |
| Storage.Store.StatsUpdate | src/utils/storage.ts:112-114 | the key holds exactly the statistics written (overwritten wholesale), and the next read returns them |
| Storage.Store.LaunchMarked | src/App.tsx:31-33 | the launch marker counts only when present and non-empty (truthy); no ensures of its own, used by `Navigation.App.Startup` and `Navigation.App.LanguageContinue` |
| Lists.Filter | src/utils/mockData.ts:46-49 | `filter`: exactly the elements satisfying the test, in their original order |
| Lists.Without | src/utils/storage.ts:22 | `filter(id => id !== x)`: every occurrence of x removed, the rest in order, no change when x is absent |
| Lists.FindFirst | src/utils/mockData.ts:41 | `find`: nothing exactly when no element satisfies the test, otherwise an element that does |
| Lists.FindFirstIsFirst | src/utils/mockData.ts:41 | `find` returns the first element satisfying the test |
| Lists.Take | src/utils/mockData.ts:56 | `slice(0, n)`: the prefix of length min(n, length) |
| Lists.FilterMap | src/components/HistoryScreen.tsx:25-27 | `map(f).filter(Boolean)`: never longer than its input |
| Lists.FilterMapMembership | src/components/HistoryScreen.tsx:25-27 | a value is kept exactly when some input maps to it |
| Lists.FilterMapAppend | src/components/HistoryScreen.tsx:25-27 | the mapping works element by element, so it distributes over concatenation |
| Lists.FilterMapAllSome | src/components/HistoryScreen.tsx:25-27 | when every input maps to a value, nothing is dropped and output i is the value of input i |
| Catalog.CatalogKeysDistinct | src/utils/mockData.ts:3-38 | product ids and barcodes are pairwise distinct, and the catalog has no duplicates |
| Catalog.CatalogIds | src/utils/mockData.ts:3-38 | the catalog holds products "1", "2", "3" in that order |
| Catalog.CatalogCertification | src/utils/mockData.ts:3-38 | products "1" and "3" are certified, product "2" is not |
| Catalog.FindProductByBarcode | src/utils/mockData.ts:40-42 | a hit is a catalog product with exactly that barcode; a miss means no product has it |
| Catalog.BarcodeLookupUnique | src/utils/mockData.ts:40-42 | looking up the barcode of a catalog product finds that very product |
| Catalog.KnownBarcodes | src/utils/mockData.ts:40-42 | "1234567890123" finds product "1", "0000000000000" finds nothing |
| Catalog.FindProductById | src/components/HistoryScreen.tsx:26 | a hit is a catalog product with that id; a miss means no product has it |
| Catalog.IdLookupUnique | src/components/HistoryScreen.tsx:26 | looking up the id of a catalog product finds that very product |
| Catalog.ProductsWithIds | src/components/FavoritesScreen.tsx:24-26 | exactly the catalog products whose id is listed, in catalog order, with no duplicates; unknown ids do not show |
| Catalog.ProductsWithIdsSpelled | src/components/CustomListsScreen.tsx:102 | the listed-id filter over the three catalog entries, entry by entry |
| Catalog.Matches | src/utils/mockData.ts:46-48 | a product matches when its lower-cased name or brand includes the query; no ensures of its own, characterised through `Catalog.SearchProducts` |
| Catalog.SearchProducts | src/utils/mockData.ts:44-50 | exactly the catalog products whose lower-cased name or brand contains the lower-cased query, in catalog order |
| Catalog.SearchCaseInsensitive | src/utils/mockData.ts:45-48 | searching for a query and for its lower-cased form gives the same result |
| Catalog.SearchEmptyQuery | src/utils/mockData.ts:44-50 | the empty query returns the whole catalog |
| Catalog.GetRecommendations | src/utils/mockData.ts:52-58 | only certified catalog products, in catalog order, at most three when a non-empty category is given |
| Catalog.RecommendationsWithoutCategory | src/utils/mockData.ts:52-58 | with no category or the empty one, exactly the certified products |
| Catalog.RecommendationsIgnoreCategory | src/utils/mockData.ts:54-57 | any two non-empty categories give the same result |
| Catalog.CertifiedProducts | src/utils/mockData.ts:53 | the certified filter yields products "1" and "3" |
| Catalog.RecommendationsOnCatalog | src/utils/mockData.ts:52-58 | on this catalog every call yields products "1" and "3" |
| Text.LeadingSpaces | src/components/ScannerScreen.tsx:22 | the count of leading whitespace never exceeds the length |
| Text.LeadingSpacesSpec | src/components/ScannerScreen.tsx:22 | the counted prefix is whitespace and the next character is not |
| Text.TrimStart | src/components/ScannerScreen.tsx:22 | the result is a suffix of the input |
| Text.TrimStartSpec | src/components/ScannerScreen.tsx:22 | what is dropped is whitespace, and what is kept starts with a non-space |
| Text.TrimEnd | src/components/ScannerScreen.tsx:22 | the result is a prefix of the input |
| Text.TrimEndSpec | src/components/ScannerScreen.tsx:22 | what is dropped is whitespace, and what is kept ends with a non-space |
| Text.Trim | src/components/ScannerScreen.tsx:22-23 | `trim()`: the result is empty or starts and ends with a non-space |
| Text.TrimIsInfix | src/components/ScannerScreen.tsx:22-23 | the result is a contiguous middle part, with only whitespace cut on either side |
| Text.TrimEmptyIffBlank | src/components/SearchScreen.tsx:31 | `if (s.trim())` fails exactly on blank input |
| Text.TrimIdempotent | src/components/SearchScreen.tsx:47 | trimming twice is trimming once |
| Text.TrimKeepsTrimmed | src/components/ScannerScreen.tsx:22-23 | a string with no whitespace at either end is kept whole and is not blank |
| Text.LowerChar | src/utils/mockData.ts:45 | the result is never an upper-case letter, and other characters are kept |
| Text.Lower | src/utils/mockData.ts:45 | `toLowerCase()`: same length, each character lower-cased |
| Text.LowerIdempotent | src/utils/mockData.ts:45 | lower-casing twice is lower-casing once |
| Text.Contains | src/utils/mockData.ts:47-48 | `includes`: a string can only include a substring no longer than itself; `Text.ContainsAt` gives the positional meaning |
| Text.ContainsAt | src/utils/mockData.ts:47-48 | `includes` holds exactly when the substring occurs at some position |
| Text.ContainsEmpty | src/utils/mockData.ts:47-48 | every string includes the empty string |
| Navigation.ScreenOf | src/App.tsx:90-221 | the screen a name selects; naming it back gives the original string |
| Navigation.ScreenNamesRoundTrip | src/App.tsx:57-59 | parsing the name of any screen `ScreenOf` can produce gives that screen back |
| Navigation.Rendered | src/App.tsx:121-129 | nothing is rendered exactly for an unlisted name or for product-detail with no product; otherwise the named screen |
| Navigation.App.constructor | src/App.tsx:23-26 | initial state: splash screen, "en", nothing selected, first launch |
| Navigation.App.Startup | src/App.tsx:28-37 | with the launch marker, the stored language is restored and the first-launch flag cleared; without it, nothing changes |
| Navigation.App.SplashComplete | src/App.tsx:39-45 | language selection on a first launch, home otherwise |
| Navigation.App.LanguageSelect | src/App.tsx:47-50 | the language is set and persisted; the screen stays |
| Navigation.App.LanguageContinue | src/App.tsx:52-55 | the launch marker "true" is written, so the next start-up sees it, and the screen is home |
| Navigation.App.Navigate | src/App.tsx:57-59 | the screen becomes whatever the name selects, unchecked |
| Navigation.App.ProductFound | src/App.tsx:61-70 | a hit selects the product and opens the detail screen; a miss reports NotFound and changes nothing |
| Navigation.App.ProductSelect | src/App.tsx:72-75 | the product is selected and the detail screen opens |
| Navigation.App.Back | src/App.tsx:77-80 | always home, with nothing selected |
| Navigation.App.FindAlternatives | src/App.tsx:82-84 | recommendations screen, with no condition on the selection |
| Navigation.App.LanguageChange | src/App.tsx:86-88 | the language changes in memory only |
| BottomNavigation.HideBottomNav | src/components/BottomNavigation.tsx:52-65 | on a screen where the bar is hidden no item is active |
| BottomNavigation.IsActive | src/components/BottomNavigation.tsx:72 | an item is active when its screen is the current one; no ensures of its own, characterised by `BottomNavigation.AtMostOneActive` and `BottomNavigation.SelectingItemActivatesIt` |
| BottomNavigation.HiddenScreensOfApp | src/components/BottomNavigation.tsx:52-65 | the bar is hidden exactly on the ten listed screens |
| BottomNavigation.NavTargetsVisible | src/components/BottomNavigation.tsx:18-49 | none of the five item targets hides the bar |
| BottomNavigation.AtMostOneActive | src/components/BottomNavigation.tsx:72 | at most one item is active for any screen name |
| BottomNavigation.UnlistedScreenShowsBarUnmarked | src/components/BottomNavigation.tsx:52-72 | an unknown name shows the bar with no item active |
| BottomNavigation.SelectingItemActivatesIt | src/components/BottomNavigation.tsx:77 | selecting item i navigates to its screen, where the bar shows and only item i is active |
| ProductDetail.ProductDetailView.constructor | src/components/ProductDetailScreen.tsx:24-30 | the flag is the stored membership; the id is promoted to the head of the history log; tidiness is kept |
| ProductDetail.ProductDetailView.ToggleFavorite | src/components/ProductDetailScreen.tsx:32-35 | the flag becomes the negation of the old membership and equals the new stored membership |
| SearchScreen.ResultsFor | src/components/SearchScreen.tsx:30-43 | the results the effect settles on are catalog products in catalog order; `SearchScreen.ResultsForMeaning` says which |
| SearchScreen.ResultsForMeaning | src/components/SearchScreen.tsx:30-43 | a blank query settles on no results, any other on exactly the matching catalog products |
| SearchScreen.BlankGuardMatters | src/components/SearchScreen.tsx:31 | the guard is what keeps the empty query from listing the whole catalog |
| SearchScreen.SearchView.constructor | src/components/SearchScreen.tsx:26-28 | empty query and results, recent searches read from the store |
| SearchScreen.SearchView.SetQuery | src/components/SearchScreen.tsx:30-43 | a changed blank query clears the results; a changed non-blank one starts a search; the settled invariant is kept |
| SearchScreen.SearchView.SearchTimerFires | src/components/SearchScreen.tsx:33-37 | the results become the catalog search on the current query, and searching stops |
| SearchScreen.SearchView.RecordSearch | src/components/SearchScreen.tsx:47-48 | the query is promoted in the stored searches and the cell re-reads the store |
| SearchScreen.SearchView.HandleSearch | src/components/SearchScreen.tsx:45-51 | blank input does nothing; otherwise the trimmed input heads the stored list (at most 10) and the query is the untrimmed input |
| SearchScreen.SearchView.ClearRecentSearch | src/components/SearchScreen.tsx:53-57 | every occurrence is removed, the rest keep their order, and the same list is written to the store |
| SearchScreen.ClearKeepsStoredListTidy | src/components/SearchScreen.tsx:53-57 | clearing an entry keeps the stored list duplicate-free and within 10 |
| HistoryScreen.ResolveIds | src/components/HistoryScreen.tsx:24-28 | no longer than the log, and only catalog products named by the log |
| HistoryScreen.ResolveMembership | src/components/HistoryScreen.tsx:25-27 | exactly the catalog products some entry names |
| HistoryScreen.ResolveAppend | src/components/HistoryScreen.tsx:25-27 | resolution follows log order entry by entry |
| HistoryScreen.ResolveKnownIds | src/components/HistoryScreen.tsx:25-27 | with only known ids, one product per entry, entry i showing id i |
| HistoryScreen.UnknownIdDropped | src/components/HistoryScreen.tsx:26-27 | an unknown id does not show |
| HistoryScreen.HistoryView.constructor | src/components/HistoryScreen.tsx:23-29 | the view is the resolved log, at most 50 entries for a tidy store |
| HistoryScreen.HistoryView.Select | src/components/HistoryScreen.tsx:58 | tapping entry i hands on exactly that product, a catalog product named in the log |
| HistoryScreen.HistoryView.ClearHistory | src/components/HistoryScreen.tsx:31-34 | the key is deleted, so the next read is [], and the view is empty |
| FavoritesScreen.RemoveCommutesWithResolution | src/components/FavoritesScreen.tsx:29-32 | removing an id from the stored list and then resolving is resolving and then dropping that product |
| FavoritesScreen.FavoritesView.constructor | src/components/FavoritesScreen.tsx:23-27 | the view is the catalog products with a stored favorite id, in catalog order |
| FavoritesScreen.FavoritesView.RemoveFavorite | src/components/FavoritesScreen.tsx:29-32 | the id leaves the store and its product leaves the view; the rest stay in order; the view stays in step with the store |
| CustomLists.MockLists | src/components/CustomListsScreen.tsx:28-45 | two lists, ids "1" and "2", both created now with a category |
| CustomLists.ListProducts | src/components/CustomListsScreen.tsx:102 | exactly the catalog products the list names, in catalog order (a subsequence of the catalog), no duplicates |
| CustomLists.ResolveOneAndThree | src/components/CustomListsScreen.tsx:102 | ids naming "1" and "3" but not "2" resolve to those two products |
| CustomLists.ResolveTwo | src/components/CustomListsScreen.tsx:102 | ids naming only "2" resolve to that product |
| CustomLists.MockRoutineContents | src/components/CustomListsScreen.tsx:28-36 | the first mock list shows products "1" and "3" |
| CustomLists.MockShoppingContents | src/components/CustomListsScreen.tsx:37-44 | the second mock list shows product "2" |
| CustomLists.PreviewOf | src/components/CustomListsScreen.tsx:131-150 | nothing for an empty list; otherwise up to three leading thumbnails and a +n badge exactly past three, thumbnails plus n being the count |
| CustomLists.NoOverflowBadge | src/components/CustomListsScreen.tsx:146-150 | with three catalog products no list shows the badge |
| CustomLists.CustomListsView.constructor | src/components/CustomListsScreen.tsx:21-47 | the mock lists, the form closed and empty, category custom |
| CustomLists.CustomListsView.OpenCreateModal | src/components/CustomListsScreen.tsx:91 | the form opens |
| CustomLists.CustomListsView.CloseCreateModal | src/components/CustomListsScreen.tsx:201 | the form closes |
| CustomLists.CustomListsView.SetNewListName | src/components/CustomListsScreen.tsx:167 | the name cell holds the typed text |
| CustomLists.CustomListsView.SelectCategory | src/components/CustomListsScreen.tsx:184 | the category cell holds the chosen category |
| CustomLists.CustomListsView.CreateList | src/components/CustomListsScreen.tsx:49-62 | a blank name changes nothing; otherwise exactly one empty list with the untrimmed name and the category is appended, and the form is reset and closed |
| CustomLists.CustomListsView.DeleteList | src/components/CustomListsScreen.tsx:64-66 | the new lists are exactly the filter of the old ones by a different id: every list with the id goes, every other one stays, copies included, in its order; an unknown id changes nothing |
| Register.FieldOf | src/components/RegisterScreen.tsx:46-48 | a recognised key names the field whose key it is |
| Register.FieldKeysRoundTrip | src/components/RegisterScreen.tsx:46-48 | every field is reachable through its key |
| Register.WithField | src/components/RegisterScreen.tsx:47 | the spread update sets that field and no other |
| Register.WithFieldLaws | src/components/RegisterScreen.tsx:47 | the last write wins, and writing back a field's value changes nothing |
| Register.IsPasswordValid | src/components/RegisterScreen.tsx:50 | the hint's test (at least six characters); a valid password is never empty |
| Register.DoPasswordsMatch | src/components/RegisterScreen.tsx:51 | the confirmation equals the password and is non-empty; no ensures of its own, used by `Register.SubmitDecision` and `Register.EnabledIffRegisters` |
| Register.SubmitDisabled | src/components/RegisterScreen.tsx:204 | the button's `disabled` expression; no ensures of its own, characterised by `Register.EnabledIffRegisters` |
| Register.SubmitDecision | src/components/RegisterScreen.tsx:30-44 | ignored exactly when a required field is empty or the terms are unchecked; mismatch exactly when otherwise the passwords differ; registration passes email, password and name unchanged |
| Register.EnabledIffRegisters | src/components/RegisterScreen.tsx:204 | when not loading, the button is enabled exactly when a submission registers |
| Register.ShortPasswordAccepted | src/components/RegisterScreen.tsx:50 | a five-character password is flagged as invalid yet leaves the button enabled and registers |
| Register.RegisterView.constructor | src/components/RegisterScreen.tsx:19-28 | an empty form, terms unchecked, not loading |
| Register.RegisterView.UpdateFormData | src/components/RegisterScreen.tsx:46-48 | only the field the key names changes; an unknown key changes none of the four |
| Register.RegisterView.ToggleTerms | src/components/RegisterScreen.tsx:180 | the checkbox flips |
| Register.RegisterView.HandleSubmit | src/components/RegisterScreen.tsx:30-44 | the outcome is the submit decision on the form, and a registration ends with loading off |
| Scanner.MockBarcodeFindsProduct | src/components/ScannerScreen.tsx:32 | the simulated barcode finds catalog product "1" |
| Scanner.ScannerView.constructor | src/components/ScannerScreen.tsx:18-19 | empty field, not scanning |
| Scanner.ScannerView.SetManualBarcode | src/components/ScannerScreen.tsx:109 | the field holds the typed text |
| Scanner.ScannerView.HandleManualSubmit | src/components/ScannerScreen.tsx:21-25 | nothing exactly for blank input; otherwise the trimmed text, non-empty and with no edge whitespace |
| Scanner.ScannerView.SimulateScan | src/components/ScannerScreen.tsx:27-29 | scanning starts and the button is disabled |
| Scanner.ScannerView.ScanButtonDisabled | src/components/ScannerScreen.tsx:88 | the scan button is disabled while a scan runs; no ensures of its own, used by `SimulateScan` and `ScanTimerFires` |
| Scanner.ScannerView.ScanTimerFires | src/components/ScannerScreen.tsx:30-33 | scanning stops before the fixed barcode is emitted |
| Scenarios.FirstAndSecondLaunch | src/App.tsx:28-55 | a first launch goes splash, language selection, home; the next launch goes straight home in the chosen language |
| Scenarios.ReturningUser | src/App.tsx:28-45 | a saved "fr" with the launch marker lands on home in French |
| Scenarios.CameraScan | src/components/ScannerScreen.tsx:27-34 | a camera scan emits the simulated barcode |
| Scenarios.ScanOpensProduct | src/App.tsx:61-70 | a camera scan opens product "1" and puts "1" at the head of the history |
| Scenarios.TypeAndSubmit | src/components/ScannerScreen.tsx:21-25 | a typed barcode without edge whitespace is emitted as typed |
| Scenarios.UnknownBarcodeStays | src/App.tsx:61-70 | an unregistered barcode reports NotFound and leaves the scanner open with nothing selected |
| Scenarios.ToggleTwice | src/components/ProductDetailScreen.tsx:32-35 | two toggles answer opposite values and restore both the flag and the stored membership |
| Scenarios.ToggleProductTwo | src/components/ProductDetailScreen.tsx:32-35 | on a fresh store product "2" becomes a favorite, then stops being one |

## Left out

- Rendering, styling, icons, copy text and the presentation-only screens (splash, language selection, home, badges, account, settings, premium, FAQ, login, header) are not modelled. SplashScreen.tsx and LanguageSelection.tsx only forward their callbacks to the root, whose handlers are modelled.
- Timers are modelled in one of two ways:
  - The search debounce and the simulated scan are two-phase. `SetQuery` or `SimulateScan` starts the wait, and `SearchTimerFires` or `ScanTimerFires` ends it. Cancelling a pending search timer is modelled as restarting the wait.
  - The registration delay is collapsed, so `HandleSubmit` completes at once.
- `localStorage` and JSON are abstracted into one `Cell` per key: `Missing`, `Corrupt` (empty or unparsable text) or `Stored`. The encoding itself is not modelled.
- A cell holding well-formed JSON of the wrong shape (`null`, an object, a number where a list is expected) is not modelled. The getters in src/utils/storage.ts return such a value as parsed, and `favorites.add`, `remove` and `toggle` (and the screens' `includes` calls) then throw; in the model every stored value is well typed and the mutators never fail.
- `alert` calls are modelled as returned values (`ScanOutcome.NotFound`, `SubmitOutcome.PasswordMismatch`).
- `Date.now()` and `new Date()` in the custom-lists screen are modelled as parameters. Uniqueness of list ids is not claimed.
- Translation lookup is not modelled; the language is an opaque string.
- Non-ASCII case folding is not modelled. `Text.LowerChar` maps only `A`-`Z`.
- String lengths count Unicode scalar values, not UTF-16 code units. JavaScript's `length` counts code units, so for characters outside the Basic Multilingual Plane the six-character password hint (`Register.IsPasswordValid`) can disagree: three emoji have length 3 in the model and 6 in the app.
- Whitespace is limited to tab, line feed, vertical tab, form feed, carriage return, the space, the no-break space and the byte-order mark. `trim()` also strips the other Unicode space separators and the line and paragraph separators, which the model does not.
- Floating-point display math on the premium and badge screens is not modelled.
- Subscription and stats values are modelled as records. The `any` type the source gives their setters is not modelled.
- Search debounce cancellation under concurrent updates is not modelled beyond the restart described above.
