# Diet app core, modelled in Dafny

This project models the small pieces of logic in a React Native diet-tracking
app (DietAppIos) and proves properties about them:

- **Body-mass index (VKİ) results** (`vki_results.dfy`, module `VkiResults`):
  the index `weight / (height/100)²`, computed only when both parameters are
  present and positive; the eight-row category table and the if/else threshold
  chain that picks a row; the progress-bar target `vki > 50 ? 1 : vki/50`; and
  the screen state (`vki`, `category`, `description`, `categoryColor`) as a
  class whose methods write it.
- **Calorie information** (`calorie_info.dfy`, module `CalorieInfo`): the
  constant five-meal food catalogue, the search that flattens all meals and
  keeps the foods whose lower-cased name includes the lower-cased query, the
  active-tab list shown when the query is empty, and the list title.
- **JavaScript string operations** (`js_text.dfy`, module `JsText`):
  `toLowerCase` and `includes` as the search uses them.
- **Root layout guard** (`root_layout.dfy`, module `RootLayout`): the redirect
  decided from the authentication flag and the first route segment, returned
  as an optional route; the dark/default theme choice.
- **Authentication context** (`auth_context.dfy`, module `AuthContext`): the
  provider's single flag with `Login` and `Logout`, the `useAuth` hook's
  missing-provider error, and a session of calls on a fresh provider.
- `wrappers.dfy` holds `Option` and `Result`.

The index is a Dafny `real`, i.e. exact rational arithmetic. Route changes,
thrown errors and `undefined` are values (`Option`, `Result`), not effects.

The model follows the code in two places where one might expect otherwise:
an empty search shows the active tab's list (not an empty list), and a
missing or non-positive height or weight leaves the screen state unchanged
rather than raising an error.

## Model

| member | source | states |
|---|---|---|
| `VkiResults.DetermineBand` | app/vkiResults.tsx:134-167 | the chain always selects one of the 8 rows, and the value lies in that row's band: at or above its lower threshold, below its upper one |
| `VkiResults.BandUnique` | app/vkiResults.tsx:134-167 | no other row's band contains the value, so exactly one row applies |
| `VkiResults.BandIsThresholdCount` | app/vkiResults.tsx:135-163 | the selected row's index is the number of thresholds 16, 17, 18.5, 25, 30, 35, 40 that the value reaches |
| `VkiResults.CountBetweenSorted` | app/vkiResults.tsx:135-163 | against ascending thresholds, a value between the (k-1)-th and k-th threshold reaches exactly k of them |
| `VkiResults.BandMonotone` | app/vkiResults.tsx:135-163 | a larger index never gets a lower row |
| `VkiResults.BandEdges` | app/vkiResults.tsx:135-163 | bands are lower-inclusive at the code thresholds: 16 gives row 1, 16.95 row 1, 18.5 row 3 ("Normal kilolu"), 40 row 7, although the row labels read '16.0 – 16.9' and so on |
| `VkiResults.CategoriesDistinct` | app/vkiResults.tsx:9-18 | the eight category names are pairwise different |
| `VkiResults.HighlightAtMostOne` | app/vkiResults.tsx:177 | at most one row is highlighted, and showing a row's own category highlights only that row |
| `VkiResults.Vki` | app/vkiResults.tsx:120-125 | the index times the squared height in metres gives back the weight, and a positive weight gives a positive index |
| `VkiResults.VkiExample` | app/vkiResults.tsx:120-125 | 170 cm and 70 kg give an index between 24.22 and 24.23, in row 3 |
| `VkiResults.ProgressTarget` | app/vkiResults.tsx:69 | for a non-negative index the target lies in [0, 1]; it is 1 exactly from 50 upwards, and index/50 below |
| `VkiResults.VkiResultsScreen.constructor` | app/vkiResults.tsx:24-27 | the screen starts with index 0, empty category and description, colour '#A1FFDB' |
| `VkiResults.VkiResultsScreen.DetermineCategory` | app/vkiResults.tsx:134-168 | category, description and colour are all written from the same table row, the one the chain selects |
| `VkiResults.VkiResultsScreen.CalculateVki` | app/vkiResults.tsx:118-132 | with both inputs present and positive the index is the formula's value and the fields show its row; otherwise all four fields keep their old values; the state stays either initial or consistent |
| `VkiResults.ShowResults` | app/vkiResults.tsx:24-27 | on a fresh screen, one computation gives a positive index exactly when both inputs are present and positive, with that row's category and colour and only that row highlighted; otherwise 0, '' and '#A1FFDB' with nothing highlighted; the progress target is in [0, 1] either way |
| `JsText.LowerChar` | app/calorieInfo.tsx:93 | lower-casing a character yields at least one character and leaves a non-upper-case character as it is |
| `JsText.ToLower` | app/calorieInfo.tsx:93 | `toLowerCase` as a character-by-character mapping; its promises are carried by `ToLowerLength`, `ToLowerAppend`, `ToLowerIsLower`, `ToLowerOfLower` and `ToLowerIdempotent` |
| `JsText.ToLowerLength` | app/calorieInfo.tsx:93 | lower-casing never shortens a string and keeps it empty exactly when it was empty |
| `JsText.ToLowerAppend` | app/calorieInfo.tsx:93 | lower-casing a concatenation concatenates the lower-cased parts |
| `JsText.ToLowerIsLower` | app/calorieInfo.tsx:93 | a lower-cased string has no upper-case letter left |
| `JsText.ToLowerOfLower` | app/calorieInfo.tsx:93 | a string without upper-case letters is its own lower-case form |
| `JsText.ToLowerIdempotent` | app/calorieInfo.tsx:93 | lower-casing twice equals lower-casing once |
| `JsText.Includes` | app/calorieInfo.tsx:93 | `includes` as a left-to-right scan of start positions; `IncludesIsOccurs` proves it holds exactly when the query occurs contiguously in the name |
| `JsText.IncludesIsOccurs` | app/calorieInfo.tsx:93 | `includes` holds exactly when the query occurs as a contiguous part of the name |
| `JsText.IncludesEmpty` | app/calorieInfo.tsx:93 | every string includes the empty string |
| `CalorieInfo.Lookup` | app/calorieInfo.tsx:95 | indexing the catalogue by a tab key gives a list exactly when some meal has that key, and then that meal's list; otherwise undefined, which is `foodData[tab]` for every key `activeTab` can hold (inherited property names are treated as absent) |
| `CalorieInfo.Search` | app/calorieInfo.tsx:92-94 | every result matches the query and comes from the searched list, and there are never more results than foods |
| `CalorieInfo.SearchIsSubsequence` | app/calorieInfo.tsx:92 | the results are an order-preserving subsequence of the searched list |
| `CalorieInfo.SearchCounts` | app/calorieInfo.tsx:92-94 | each food occurs in the results as often as in the input when it matches, and not at all otherwise |
| `CalorieInfo.SearchSoundAndComplete` | app/calorieInfo.tsx:91-94 | with non-empty search text the list is sound and complete, counted with multiplicity, over kahvalti ++ ogle ++ aksam ++ aburcubur ++ meyveler, in that order |
| `CalorieInfo.TabListUnchanged` | app/calorieInfo.tsx:95 | with empty search text the list is the active tab's list, unchanged |
| `CalorieInfo.SearchDependsOnLowerCase` | app/calorieInfo.tsx:93 | two queries with the same lower-case form give the same results |
| `CalorieInfo.FilteredDependsOnLowerCase` | app/calorieInfo.tsx:91-95 | any two search texts with the same lower-case form show the same list: both are empty, or both search the catalogue alike |
| `CalorieInfo.SearchSeesLowerCase` | app/calorieInfo.tsx:93 | searching with a query gives the same results as searching with its lower-cased form |
| `CalorieInfo.Flatten` | app/calorieInfo.tsx:92 | a food is in the flattened list exactly when it is in some meal's list; `AllFoodsInOrder` gives the order |
| `CalorieInfo.FilteredFoods` | app/calorieInfo.tsx:91-95 | with non-empty search text the list is defined, no longer than the catalogue, and holds only catalogue foods that match; with empty text it is the active tab's list (completeness, multiplicity and order in `SearchSoundAndComplete`) |
| `CalorieInfo.AllFoodsInOrder` | app/calorieInfo.tsx:8-81 | flattening the catalogue puts the five meals one after another in declaration order |
| `CalorieInfo.CatalogueShape` | app/calorieInfo.tsx:8-81 | the catalogue holds 62 foods, each with a positive calorie value |
| `CalorieInfo.SearchBounded` | app/calorieInfo.tsx:92-94 | a search never returns more than 62 foods |
| `CalorieInfo.PilavHeadsLunchAndDinner` | app/calorieInfo.tsx:25-38 | 'Pilav (1 porsiyon)' opens both the lunch and the dinner list and occurs once in each |
| `CalorieInfo.PilavNotInOtherMeals` | app/calorieInfo.tsx:9-79 | Pilav is not listed for breakfast, snacks or fruit |
| `CalorieInfo.PilavListedTwice` | app/calorieInfo.tsx:8-81 | the flattened catalogue holds Pilav exactly twice |
| `CalorieInfo.PilavTwice` | app/calorieInfo.tsx:92-94 | a query matching Pilav returns it twice: duplicates are kept |
| `CalorieInfo.PilavQuery` | app/calorieInfo.tsx:93 | the query "pilav" matches 'Pilav (1 porsiyon)' |
| `CalorieInfo.InitialScreen` | app/calorieInfo.tsx:88-89 | the screen opens on the breakfast tab, listing the breakfast foods under 'Kahvaltı Besinleri' |
| `CalorieInfo.EveryTabDefined` | app/calorieInfo.tsx:128-167 | each of the five tab keys the buttons set names a defined list, and its title is not the search title |
| `CalorieInfo.ListTitle` | app/calorieInfo.tsx:173-176 | the title is 'Arama Sonuçları' exactly when the search text is non-empty, and 'Meyveler' exactly when the search is empty and the tab is none of the first four keys |
| `CalorieInfo.TabTitles` | app/calorieInfo.tsx:173-176 | with empty search text the five tab keys get 'Kahvaltı Besinleri', 'Öğle Yemeği Besinleri', 'Akşam Yemeği Besinleri', 'Atıştırmalıklar' and 'Meyveler': five different headings, none of them the search heading |
| `RootLayout.InAuthGroup` | app/_layout.tsx:31 | the route is in the '(auth)' group exactly when its first segment is '(auth)'; an empty segment list is outside it (used by `Redirect` and `RedirectSettles`) |
| `RootLayout.Redirect` | app/_layout.tsx:30-38 | signed in and in the '(auth)' group leads to '/(tabs)'; signed out and outside it (an empty segment list included) leads to '/login'; no redirect exactly in the other two cases; the path handed to the router is '/(tabs)' when signed in and '/login' when signed out |
| `RootLayout.RedirectSettles` | app/_layout.tsx:30-38 | after one redirect the user is in the auth group exactly when signed out, and the guard makes no further redirect |
| `RootLayout.ThemeFor` | app/_layout.tsx:41 | the dark theme is chosen exactly when the colour scheme is 'dark' |
| `AuthContext.AuthProvider.constructor` | app/auth/AuthContext.tsx:15 | a new provider is signed out |
| `AuthContext.AuthProvider.Login` | app/auth/AuthContext.tsx:17-21 | afterwards the flag is set, whatever it was |
| `AuthContext.AuthProvider.Logout` | app/auth/AuthContext.tsx:23-25 | afterwards the flag is clear, whatever it was |
| `AuthContext.UseAuth` | app/auth/AuthContext.tsx:35-41 | the hook fails with 'useAuth must be used within an AuthProvider' exactly when there is no provider, and otherwise returns the provider |
| `AuthContext.ApplyIsLastAction` | app/auth/AuthContext.tsx:17-28 | after a sequence of login/logout calls the flag is set exactly when the last call was login; with no call it is unchanged |
| `AuthContext.ApplySnoc` | app/auth/AuthContext.tsx:17-25 | one more call alone decides the flag |
| `AuthContext.Idempotent` | app/auth/AuthContext.tsx:17-25 | login twice equals login once, and logout twice equals logout once |
| `AuthContext.RunSession` | app/auth/AuthContext.tsx:14-32 | calling login and logout in turn on a fresh provider ends signed in exactly when the last call was login |

## Left out

- Parsing: `parseFloat` of the height and weight parameters is not modelled; each input is an optional real, with `None` standing for a missing, empty or unparsable (NaN) parameter, which the code also skips.
- Floating point: the index is computed exactly; IEEE rounding near a threshold and the `toFixed(1)` display are not modelled.
- Progress timing: the animation reads `vki` from the render closure, so at effect time it sees the previous state; only the clamp formula is modelled.
- Animations, timers, interpolations and style sheets in both screens carry no behaviour and are not modelled.
- Navigation effects (`router.replace`, `router.push`, `Alert`, `console.error`) are not performed; the guard returns the route it would replace to.
- Route segments after a redirect are taken from the file layout (app/(tabs)/ and app/(auth)/login.tsx); the router's own resolution is not modelled.
- Font loading, the splash screen and asset `require`s are I/O and are not modelled.
- React context and hook machinery: `UseAuth` takes the nearest provider as an optional value; re-rendering is not modelled.
- JsText.LowerChar: covers only A–Z, the Latin-1 capitals (À–Þ except ×), Ğ, Ş and İ (which becomes i plus U+0307, as JavaScript does); other scripts are left unchanged, unlike JavaScript's full Unicode case mapping.
- CalorieInfo.Lookup: inherited property names such as `constructor`, `toString` or `__proto__` count as absent keys, whereas JavaScript's `foodData[...]` returns the `Object.prototype` member; `activeTab` only ever holds 'kahvalti' or one of the five button keys (app/calorieInfo.tsx:88, 130-162), so the screen never indexes with one.
- The FlatList's rendering is not modelled, including its `item.name` key. That key repeats in search results for the eight dishes listed for both lunch and dinner: Pilav, Makarna, Kırmızı Et, Tavuk, Balık, Salata, Yoğurt and Çorba.
- The daily food log, the water counter and the weekly report live in app/(tabs)/calories.tsx, app/(tabs)/water.tsx and app/(tabs)/report.tsx, which are not part of this model.
