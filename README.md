# dishcovery-eats, modelled in Dafny

A chat front-end that finds restaurants: a language model calls one of two
functions, the server searches a local-search engine (`google_local`) or a
reviews directory (`yelp`) through the SerpApi aggregation service, the
results are normalised into "bubble_option" items sent on an out-of-band data
channel, and the client renders them as cards beside the model's prose.

This project models the four decision procedures underneath that glue:

- `SerpApi.dfy` (module `SerpApi`): the ordered query-parameter list
  `fetchSerpApiData` builds by successive `append` calls (a method with a loop
  over `attrs`, proved equal to the function `SearchParams`), the layout and
  count lemmas about that list, and the rule that turns the HTTP outcome into
  the parsed body or "no result".
- `Suggestions.dfy` (module `Suggestions`): the provider records, with every
  field optional, the Google and Yelp normalisation of one record, the
  category-title join, and lemmas about the normalised item lists.
- `Action.dfy` (module `Action`): the data channel as a class `StreamData`
  (append-only items and a closed flag), the two `forEach` loops as methods,
  the dispatch on the function name, the `ui` hook's card-or-prose decision
  and card contents, and one whole turn (`Handler`).
- `StarRating.dfy` (module `StarRating`): the five-icon loop, proved equal to
  `Stars`, and the counting, prefix and monotonicity lemmas.
- `Chat.dfy` (module `Chat`): the quick-pick state as a class `ChatView` with
  the four handlers, the query format with a parser that reads it back, and
  `isSelected`.
- `Wrappers.dfy`: `Option` for JavaScript values that may be `undefined`, and
  JavaScript truthiness of an optional string.

Three consequences of the code worth stating:

- Icon `i` is highlighted iff `i <= rating`, so the highlighted count is the
  floor of the rating clamped to 0..5, not a rounding.
- The hours badge needs truthy hours: an empty string hides it, so a card
  item with hours `""` gets no badge.
- Nothing makes the `value` of the items of one batch unique: a Yelp item's
  value is absent when it has no place ids, and two results may share an id.
  The model claims no uniqueness.

## Model

| member | source | states |
|---|---|---|
| SerpApi.BuildParams | src/app/serp-api.ts:10-30 | the appended parameter list equals `SearchParams` of the inputs for every engine and every optional filter |
| SerpApi.AppendAttrs | src/app/serp-api.ts:22-24 | the `attrs.forEach` loop appends exactly one `("attrs", a)` entry per attribute, in input order |
| SerpApi.AttrEntriesShape | src/app/serp-api.ts:23 | the attribute entries have the list's length and entry `k` is `("attrs", attrs[k])` |
| SerpApi.EngineFirstKeyLast | src/app/serp-api.ts:13-30 | for every input the list has at least 4 entries, starts with `("engine", engine)` and ends with `("api_key", apiKey)` |
| SerpApi.YelpLayout | src/app/serp-api.ts:13-30 | for engine `yelp`, `find_desc=q` and `find_loc=location` come second and third, and the length is 4 + [cflt truthy] + [sortby truthy] + number of attributes |
| SerpApi.YelpHasNoGenericKeys | src/app/serp-api.ts:15-24 | a Yelp request has no entry keyed `q` or `location` |
| SerpApi.YelpAttrsInOrder | src/app/serp-api.ts:20-24 | the attributes sit right after the truthy filters, attribute `k` at position 3 + extras - n + k |
| SerpApi.OtherEngineLayout | src/app/serp-api.ts:25-30 | for any engine other than `yelp` the list is exactly engine, q, location, api_key, whatever filters are supplied |
| SerpApi.FilterCounts | src/app/serp-api.ts:20-24 | `cflt` and `sortby` occur once iff the engine is Yelp and the string is present and non-empty, else never; `attrs` occurs once per attribute, never for an absent or empty list or another engine |
| SerpApi.FetchOutcome | src/app/serp-api.ts:32-40 | the result is the parsed body iff the response arrived with a 2xx status and a parsable body; a transport failure, another status or a bad body give "no result", never an error |
| SerpApi.FetchSerpApiData | src/app/serp-api.ts:1-41 | the request sent is `SearchParams` of the inputs and the outcome is the body exactly on a 2xx response with a parsable body |
| Suggestions.LocalItemsAt | src/app/action.tsx:157-167 | one Google item per result, in order, tagged `bubble_option`, `value` and `place_id` the result's place id, title, price, rating, reviews and hours copied unchanged, the Yelp-only fields (categories, neighborhoods, phone, snippet, service options, thumbnail) absent |
| Suggestions.OrganicItemsAt | src/app/action.tsx:197-213 | one Yelp item per result, in order, tagged `bubble_option`, `value` the first place id or absent when the ids are missing or empty, categories the joined titles or absent, other fields copied, no hours or place id |
| Suggestions.CategoryTitlesAt | src/app/action.tsx:205-206 | the mapped category titles keep number and order; a missing title becomes "" as `join` renders it |
| Suggestions.CategoryLabelEmpty | src/app/action.tsx:205-207 | present but empty categories give the label "" (not an absent label) |
| Suggestions.CategoryLabelAppend | src/app/action.tsx:205-207 | the label of two non-empty category lists put together is the first label, ", " and the second label, so titles keep their order |
| Suggestions.JoinAppend | src/app/action.tsx:207 | joining the concatenation of two non-empty lists is the two joins with the separator between, so parts keep their order |
| Suggestions.JoinLength | src/app/action.tsx:207 | a join is as long as its parts plus one separator between each pair of neighbours |
| Action.StreamData.constructor | src/app/action.tsx:128 | a new channel is open and empty |
| Action.StreamData.Append | src/app/action.tsx:158 | an open channel gains the item at its end, earlier items untouched; a closed one is left unchanged and reports the append rejected |
| Action.StreamData.Close | src/app/action.tsx:143-145 | closing seals the channel and keeps its items |
| Action.AppendLocal | src/app/action.tsx:157-168 | the Google loop extends an open channel by exactly `LocalItems` of the results and leaves a closed one unchanged |
| Action.AppendOrganic | src/app/action.tsx:197-214 | the Yelp loop extends an open channel by exactly `OrganicItems` of the results and leaves a closed one unchanged |
| Action.OnFunctionCall | src/app/action.tsx:146-233 | at most one branch runs: a known name searches with that provider's parameters, appends that provider's items and returns a follow-up completion; any other name appends nothing and returns `undefined` |
| Action.CallItemsShape | src/app/action.tsx:157-214 | a call appends one item per result of its own provider's array, none for an unknown name, and every item is tagged `bubble_option` |
| Action.FailedSearchAppendsNothing | src/app/action.tsx:152-168 | a failed fetch (transport failure, non-2xx status, unparsable body) appends no item |
| Action.Ui | src/app/action.tsx:240-292 | a card grid exactly when item 0 is tagged `bubble_option` (prose only otherwise, also without data), one card per item in order, and the prose always shown |
| Action.CardsAt | src/app/action.tsx:245-285 | card `k` shows item `k`'s title, rating, its stars, reviews and price, and has an hours badge iff the hours are present and non-empty |
| Action.Handler | src/app/action.tsx:127-295 | one turn delivers exactly the items of its function call (none for prose replies), the channel is closed at the end of the turn, and cards are rendered iff a call delivered at least one item |
| StarRating.Render | src/app/components/StarRating.tsx:3-28 | the loop yields exactly 5 icons keyed 1..5, icon `i` highlighted iff `i <= rating`, none for a missing rating |
| StarRating.LitBelowFloor | src/app/components/StarRating.tsx:12 | icon `k + 1` is highlighted iff `k` is below the rating's floor clamped to 0..5 |
| StarRating.HighlightedCountIs | src/app/components/StarRating.tsx:7-12 | the number of highlighted icons is `min(5, max(0, floor(rating)))`, and 0 for a missing rating |
| StarRating.HighlightedPrefix | src/app/components/StarRating.tsx:7-12 | if icon `i` is highlighted, so is every icon `j` with `1 <= j < i` |
| StarRating.HighlightedCountMonotone | src/app/components/StarRating.tsx:12 | a higher rating never highlights fewer icons |
| Chat.IsSelected | src/app/chat.tsx:66-68 | the class is `bg-green-700` iff the value equals the current selection, `bg-green-500` otherwise |
| Chat.QueryRoundTrip | src/app/chat.tsx:46-47 | the query `api + " " + type + " in " + zip` reads back to its three parts whenever provider and cuisine contain no space |
| Chat.QuickPickValuesHaveNoSpace | src/app/chat.tsx:6-22 | no provider or cuisine button value contains a space |
| Chat.QuickPickQueriesDistinct | src/app/chat.tsx:6-22 | queries built from the quick-pick provider and cuisine values are equal only for equal selections |
| Chat.ChatView.constructor | src/app/chat.tsx:26-28 | all three selections start empty, nothing submitted, no alert |
| Chat.ChatView.HandleApiSelection | src/app/chat.tsx:31-33 | stores the provider and changes nothing else; never submits |
| Chat.ChatView.HandleZipCodeChange | src/app/chat.tsx:42-44 | stores the zip code and changes nothing else; never submits |
| Chat.ChatView.TriggerSearch | src/app/chat.tsx:46-54 | sets the input to the query for the current provider and zip and the given cuisine, and submits it once |
| Chat.ChatView.HandleRestaurantTypeSelection | src/app/chat.tsx:35-40 | stores the cuisine; submits one query with the new cuisine iff provider and zip were non-empty, otherwise submits nothing; never alerts |
| Chat.ChatView.HandleSearchClick | src/app/chat.tsx:56-64 | with all three selections non-empty submits exactly one query and no alert; otherwise submits nothing and raises exactly one alert |
| Chat.YelpItalianScenario | src/app/chat.tsx:31-47 | picking Yelp, zip 98104 and Italian submits exactly "yelp italian in 98104" with no alert |

## Left out

- The OpenAI client calls, `OpenAIStream` and `experimental_StreamingReactResponse`: foreign streaming library code. A branch that searched is modelled only as returning a follow-up completion, carrying the parameters it searched with; the prompt text built from `JSON.stringify(data)` and the model names are not modelled.
- `fetch`, `URL` serialisation, percent-encoding and `response.json()`: network I/O and platform libraries. The network's answer is a parameter (`FetchResponse`), an unparsable body is `body == None`, and `console.error` logging is dropped.
- `process.env` secrets: the search key is a parameter.
- The arguments the model supplies are taken as well-typed (the source casts them without validation); a missing or non-string argument is not modelled.
- `experimental_StreamData.append` after `close()`: the library's own reaction is not visible; the model treats such an append as rejected (nothing added).
- React and JSX markup, Tailwind classes other than the `isSelected` decision and the star highlight, `useChat`/`useState` plumbing (including the asynchronous nature of state setters and of `setInput` before the submit), the message list, and the `alert` text (kept only as a count).
- Chat.ChatView.TriggerSearch: does not model the `searchFormRef.current` null check; the hidden form is rendered unconditionally, so the model always submits.
- The `rating` is a real used only in comparisons; IEEE floating point, `NaN` and non-numeric ratings are not modelled.
- Yelp's `service_options` is modelled as a map from option names to booleans and the other pass-through fields as optional strings; they are copied unchanged, so their exact shape does not matter.
