# Apify actor runner: a Dafny model of its client and route logic

The application is a small web front end for the Apify platform. A user
signs in with an API key. They then browse their own actors or a public
store list, pick an actor, and run it with input given as a schema-driven
form, raw JSON or a single URL. Two server routes support the screens: one
shapes the public store list, the other builds the user's profile.

This project models that logic in Dafny and proves properties of it:

- `json.dfy`: JSON values as the code sees them after parsing.
  - Objects are ordered member lists in insertion order, which is how
    JavaScript enumerates keys that do not look like array indices.
  - Lookup, the `{...obj, [k]: v}` update and JavaScript truthiness.
- `text.dfy`: the string built-ins the code relies on.
  - `trim`, `toLowerCase`, `includes`, `startsWith`, `split` and `join`.
  - `parseInt`.
  - A total order standing in for `localeCompare`.
- `apify_types.dfy`: the actor and run records the screens exchange.
- `dynamic_form.dfy`: the input form.
  - Projecting a schema onto fields and seeding defaults.
  - Converting typed text into values, per field type.
  - The required-field check on submit.
  - The form is a class whose `formData` and `fields` change in place.
- `actor_selector.dfy`: the actor list.
  - The search filter, the relevance tiers and the two-key comparator.
  - An in-place insertion sort on an array proved sorted and a
    permutation.
  - The endpoint choice and the fetch handler.
  - The component is a class.
- `store_actors.dfy`: the store route's filter, slice, map, fallback and
  projection pipeline.
- `actor_executor.dfy`: the run screen.
  - Input by mode, the URL payload and the JSON re-sync.
  - The execution handler, split at its `await` into a begin half and a
    finish half.
  - The status classes.
- `api_key_form.dfy`: the key check and its submission.
- `page.dfy`: the four-screen state machine and its render guard.
- `user_route.dfy`: the token guard and the profile projection with its
  fallbacks.

`JSON.parse`, `JSON.stringify`, `parseFloat` and JavaScript's `String`
conversion are not modelled. They are passed in as function parameters
(`parse`, `stringify`, `parseFloat`, `str`), and the contracts hold for any
such function. Fetched responses are parameters too, written as a datatype
of the ways a request can end.

## Model

| member | source | states |
|---|---|---|
| Json.GetSet | src/components/DynamicForm.tsx:93-98 | after `{...prev, [k]: v}`, key `k` reads `v` and every other key reads what it read before |
| Json.SetKeepsDistinct | src/components/DynamicForm.tsx:94-97 | the spread update never creates a duplicate key |
| Json.Set | src/components/DynamicForm.tsx:93-98 | the spread update keeps every existing key in place and appends a new key last |
| Text.TrimEmptyIffBlank | src/components/DynamicForm.tsx:153 | `s.trim()` is empty exactly when every character of `s` is whitespace |
| Text.Trim | src/components/ApiKeyForm.tsx:33-42 | `trim` keeps the infix of the string between a whitespace-only prefix and a whitespace-only suffix, and the result neither starts nor ends with whitespace |
| Text.PrefixSurvivesTrimEnd | src/components/ApiKeyForm.tsx:37-42 | trimming the end of a string cannot cut into a prefix that ends in a non-space character |
| Text.ContainsAt | src/components/ActorSelector.tsx:59-61 | `includes` holds exactly when the term occurs at some position |
| Text.PrefixIsContained | src/components/ActorSelector.tsx:79-84 | a string that starts with the term also includes it |
| Text.SplitJoin | src/components/DynamicForm.tsx:143-153 | splitting `lines.join('\n')` on `'\n'` gives back the lines when none contains `'\n'` |
| Text.ParseIntNatToString | src/components/DynamicForm.tsx:135 | `parseInt` reads back any integer written in decimal, with or without a minus sign |
| Text.ParseIntNeedsDigit | src/components/DynamicForm.tsx:135 | `parseInt` reads a number only when, after leading whitespace, a digit or a sign and a digit follow; a negative result had a minus sign |
| Text.NatToStringInjective | src/components/DynamicForm.tsx:36 | different indices have different decimal names |
| Text.LexLeqTotal | src/components/ActorSelector.tsx:103-121 | the string order standing in for `localeCompare` relates every two strings |
| Text.LexLeqTransitive | src/components/ActorSelector.tsx:103-121 | the string order is transitive |
| Text.LexLeqAntisymmetric | src/components/ActorSelector.tsx:103-121 | strings ordered both ways are equal |
| Apify.StartUrl | src/components/DynamicForm.tsx:156 | a start-URL entry's `url` member is the URL |
| Form.Entries | src/components/DynamicForm.tsx:36 | `Object.entries`: an object's members in order; an array's elements, or a string's characters, each under its decimal index |
| Form.EntriesDistinct | src/components/DynamicForm.tsx:36 | entry keys are distinct |
| Form.RequiredIncludes | src/components/DynamicForm.tsx:41 | with a missing or null list a field is not required; with an array it is required exactly when listed; a value without `includes` throws |
| Form.FieldOf | src/components/DynamicForm.tsx:36-45 | a field copies the key and the default and is required exactly as `required.includes(key)` says |
| Form.Project | src/components/DynamicForm.tsx:36-45 | one field per entry, in entry order, unless some entry cannot be projected |
| Form.ToFields | src/components/DynamicForm.tsx:30-45 | no fields exactly when the schema or its `properties` is missing or falsy |
| Form.ToFieldsShape | src/components/DynamicForm.tsx:36-45 | one field per property in property order; type defaults to 'string', title to the key; required exactly when listed |
| Form.ToFieldsThrows | src/components/DynamicForm.tsx:36-41 | the projection throws exactly on a null property or a `required` value without `includes` |
| Form.ProjectedKeysDistinct | src/components/DynamicForm.tsx:36-45 | projected fields have distinct keys |
| Form.SeedDefaults | src/components/DynamicForm.tsx:51-71 | every field reads its initial value (explicit default, else the typed empty value of a required field, a one-URL list for `startUrls`); no other key; no key twice |
| Form.SeedStep | src/components/DynamicForm.tsx:52-71 | one pass of the `forEach` keeps the seeding invariant: the keys seen so far read their values, each once, later keys are absent, and no other key is present |
| Form.InitialValue | src/components/DynamicForm.tsx:53-69 | an explicit default wins; otherwise exactly the required fields of a known type are seeded, with '' for strings, false for booleans, 0 for numbers and integers, and an array for arrays (one example URL for `startUrls`, otherwise empty) |
| Form.MissingIsFalsy | src/components/DynamicForm.tsx:80-82 | a required field is missing exactly when its value is falsy, so `false` and `0` block submission |
| Form.MissingRequired | src/components/DynamicForm.tsx:80-82 | the fields that block submission are exactly the missing required ones |
| Form.MissingRequiredAppend | src/components/DynamicForm.tsx:80-82 | the filter keeps field order: it distributes over concatenation |
| Form.Titles | src/components/DynamicForm.tsx:85 | the alert lists each blocking field's title, in field order |
| Form.MissingAfterSeeding | src/components/DynamicForm.tsx:51-87 | straight after seeding, a required field blocks exactly when its default is falsy, or it has none and is not an array |
| Form.NonBlank | src/components/DynamicForm.tsx:153 | the kept lines are exactly the non-blank ones |
| Form.NonBlankKeepsAll | src/components/DynamicForm.tsx:153 | with no blank line, nothing is dropped and the order is kept |
| Form.TextLines | src/components/DynamicForm.tsx:153 | every kept line is non-blank and holds no newline |
| Form.ArrayFieldValue | src/components/DynamicForm.tsx:153-160 | one entry per non-blank line: `{url: line.trim()}` for `startUrls`, the untrimmed line otherwise |
| Form.TextLinesOfJoin | src/components/DynamicForm.tsx:143-153 | the lines of the joined text are the lines that were joined |
| Form.ArrayTextRoundTrip | src/components/DynamicForm.tsx:140-160 | editing an array textarea to what it already shows gives back the displayed value |
| Form.ObjectFieldValue | src/components/DynamicForm.tsx:172-180 | the parsed text, empty text read as '{}', and the raw text when it does not parse |
| Form.IntegerFieldValue | src/components/DynamicForm.tsx:135 | an integer field always stores a whole number, and 0 when nothing parses |
| Form.IntegerFieldRoundTrip | src/components/DynamicForm.tsx:135 | a typed decimal integer is stored as that integer |
| Form.NumberFieldValue | src/components/DynamicForm.tsx:135 | a number field stores the parsed number, or 0 when nothing parses |
| Form.ChangedValue | src/components/DynamicForm.tsx:110-222 | the stored value by field type: checkbox state, parsed integer, parsed number, lines, parsed object, or the text as typed |
| Form.DynamicForm.constructor | src/components/DynamicForm.tsx:24-25 | empty form data and no fields |
| Form.DynamicForm.ApplySchema | src/components/DynamicForm.tsx:27-74 | no properties: fields cleared, data kept; a projection that throws raises the TypeError out of the effect before any state is set; otherwise fields replaced and data re-seeded |
| Form.DynamicForm.HandleFieldChange | src/components/DynamicForm.tsx:93-98 | only key `k` changes; keys stay distinct |
| Form.DynamicForm.HandleChange | src/components/DynamicForm.tsx:110-222 | a change event stores the converted value under the field's key |
| Form.DynamicForm.HandleSubmit | src/components/DynamicForm.tsx:76-91 | reachable only while there are fields; blocked, listing missing titles, exactly when some required field is missing; otherwise the data is submitted |
| Form.DynamicForm.HandleSubmitWithoutFields | src/components/DynamicForm.tsx:225-236 | with no fields the empty object is submitted |
| Selector.Filter | src/components/ActorSelector.tsx:58-62 | each actor is kept, as often as it occurs, exactly when the lowercased term is in its name, title or description |
| Selector.EmptyTermKeepsAll | src/components/ActorSelector.tsx:58-62 | an empty term keeps every actor in order |
| Selector.RelevanceScore | src/components/ActorSelector.tsx:68-90 | the first tier the lowercased actor reaches: exact title 1000, exact name 900, title prefix 800, name prefix 700, title substring 600, name substring 500, description substring 100, otherwise 0 |
| Selector.ScorePositiveIffMatches | src/components/ActorSelector.tsx:58-90 | an actor scores at least 100 exactly when the filter keeps it, and 0 otherwise |
| Selector.TitleOutranksName | src/components/ActorSelector.tsx:75-87 | an exact title match outranks a non-exact one; a title or name match outranks a description-only match |
| Selector.LocaleCompare | src/components/ActorSelector.tsx:103-121 | zero exactly on equal strings, negative exactly when the first sorts before |
| Selector.Compare | src/components/ActorSelector.tsx:66-125 | with a search term, the higher relevance comes first; on a tie, or without a term, the sort field decides by the string order |
| Selector.PrecedesTotal | src/components/ActorSelector.tsx:92-125 | the comparator orders every pair one way or the other |
| Selector.PrecedesTransitive | src/components/ActorSelector.tsx:92-125 | the comparator is transitive, so the sort is well defined |
| Selector.SortedMeaning | src/components/ActorSelector.tsx:64-125 | in a sorted list with a term, scores never increase and equal scores follow the sort field; without a term, the sort field alone |
| Selector.InsertStep | src/components/ActorSelector.tsx:66-111 | one swap of the insertion pass keeps its invariant |
| Selector.InsertDone | src/components/ActorSelector.tsx:66-111 | a finished insertion pass leaves the prefix sorted |
| Selector.InsertAt | src/components/ActorSelector.tsx:66-125 | one insertion pass in place: the prefix ends sorted and the array is a permutation |
| Selector.SortActors | src/components/ActorSelector.tsx:64-126 | `filtered.sort(...)` in place: sorted by the comparator and a permutation |
| Selector.ActorsRequest | src/components/ActorSelector.tsx:137-145 | view 'my' calls `/api/actors` with the token; view 'store' calls `/api/store-actors` without it |
| Selector.ActorSelector.constructor | src/components/ActorSelector.tsx:14-20 | no actors, loading, no error, empty term, view 'my', sort by title |
| Selector.ActorSelector.ShownWithinFetched | src/components/ActorSelector.tsx:58-128 | the shown list never holds more actors than were fetched |
| Selector.ActorSelector.Refilter | src/components/ActorSelector.tsx:57-129 | the shown list is the filtered actors, sorted |
| Selector.ActorSelector.SetSearchTerm | src/components/ActorSelector.tsx:57-129 | a new term re-filters and re-sorts |
| Selector.ActorSelector.SetSortBy | src/components/ActorSelector.tsx:57-129 | a new sort key re-sorts |
| Selector.ActorSelector.BeginFetch | src/components/ActorSelector.tsx:131-145 | loading, no error, and the request for the view |
| Selector.ActorSelector.FinishFetch | src/components/ActorSelector.tsx:147-157 | a failure sets the message or 'Failed to fetch actors' and keeps both the fetched and the shown list; success replaces the list; loading ends on every path |
| StoreActorsRoute.OrElse | src/app/api/store-actors/route.ts:44-45 | an optional string when it is non-empty, the fallback otherwise |
| StoreActorsRoute.Survivors | src/app/api/store-actors/route.ts:39 | exactly the public items with a non-empty id are kept |
| StoreActorsRoute.SurvivorsAppend | src/app/api/store-actors/route.ts:39 | filtering commutes with concatenation, so survivors keep upstream order |
| StoreActorsRoute.AllSurvive | src/app/api/store-actors/route.ts:39 | when every item survives the list is unchanged |
| StoreActorsRoute.Shape | src/app/api/store-actors/route.ts:41-50 | title falls back to the name, description to 'No description available' |
| StoreActorsRoute.Catalogue | src/app/api/store-actors/route.ts:38-50 | at most 20 entries: the first survivors in order, shaped |
| StoreActorsRoute.Project | src/app/api/store-actors/route.ts:98-104 | a non-empty id is kept, an empty one becomes `username/name`; title, description and username fall back to name, the fixed text and 'apify' |
| StoreActorsRoute.Get | src/app/api/store-actors/route.ts:19-114 | a thrown error, including a failed body parse or a null body, answers 500 with its message |
| StoreActorsRoute.FallbackEntries | src/app/api/store-actors/route.ts:58-93 | the four fixed actors, in listed order, all by 'apify' |
| StoreActorsRoute.NothingUsableGivesFallback | src/app/api/store-actors/route.ts:32-94 | a non-ok response, a body without items, or no survivor gives exactly the fallback list |
| StoreActorsRoute.SurvivorsAreListed | src/app/api/store-actors/route.ts:36-104 | otherwise the first 20 survivors are listed in order with their own ids and the defaults filled in |
| StoreActorsRoute.SuccessIsBounded | src/app/api/store-actors/route.ts:38-105 | every success lists 1 to 20 actors, each with a non-empty id |
| Executor.UrlPayload | src/components/ActorExecutor.tsx:140-183 | the URL payload is an object with six members, the start URL first |
| Executor.UrlPayloadMembers | src/components/ActorExecutor.tsx:140-183 | read back by key: one start URL, the page function, 5 pages, depth 1, 30-second timeouts; each key once |
| Executor.ProcessedInput | src/components/ActorExecutor.tsx:127-187 | JSON mode fails with the invalid-JSON message exactly when the text does not parse; URL mode fails exactly on a blank URL; form mode passes the data, or `{}` |
| Executor.SyncedJson | src/components/ActorExecutor.tsx:115-119 | a blank URL leaves the JSON text alone |
| Executor.JsonModeAgreesWithUrlMode | src/components/ActorExecutor.tsx:66-187 | after the re-sync, JSON mode sends what URL mode would, when parsing undoes printing |
| Executor.Kind | src/components/ActorExecutor.tsx:218-242 | SUCCEEDED, FAILED and RUNNING are told apart; everything else is one default kind |
| Executor.StatusIcon | src/components/ActorExecutor.tsx:218-229 | the icon and colour for each status |
| Executor.StatusColor | src/components/ActorExecutor.tsx:231-242 | the badge classes for each status |
| Executor.StatusColorByKind | src/components/ActorExecutor.tsx:231-242 | two statuses get the same badge exactly when they are of the same kind |
| Executor.StatusIconByKind | src/components/ActorExecutor.tsx:218-229 | two statuses get the same icon exactly when they are of the same kind |
| Executor.InitialUrlTrimmed | src/components/ActorExecutor.tsx:63 | the initial URL is already trimmed |
| Executor.ActorExecutor.constructor | src/components/ActorExecutor.tsx:15-119 | JSON mode, idle, and the JSON text regenerated from the initial URL |
| Executor.ActorExecutor.SetInputMode | src/components/ActorExecutor.tsx:305-330 | the button sets the mode |
| Executor.ActorExecutor.SetJsonInput | src/components/ActorExecutor.tsx:389-392 | typing replaces the JSON text |
| Executor.ActorExecutor.SetUrlInput | src/components/ActorExecutor.tsx:115-119 | the JSON text is regenerated only for a non-blank URL |
| Executor.ActorExecutor.BeginExecute | src/components/ActorExecutor.tsx:121-204 | error and result cleared; a bad input ends the run with its message and sends nothing; otherwise the request carries the actor id, the token and the input |
| Executor.ActorExecutor.FinishExecute | src/components/ActorExecutor.tsx:205-215 | a non-ok response sets `data.error` or 'Failed to execute actor' and leaves no result; executing ends on every path |
| KeyForm.Validate | src/components/ApiKeyForm.tsx:31-43 | blank first, then the prefix on the untrimmed text; success gives the trimmed key |
| KeyForm.SubmittedKeyHasPrefix | src/components/ApiKeyForm.tsx:37-42 | every submitted key starts with 'apify_api_' |
| KeyForm.LeadingSpaceRefused | src/components/ApiKeyForm.tsx:37-40 | a key typed with leading whitespace is refused |
| KeyForm.SubmittedKeyIsTrimmed | src/components/ApiKeyForm.tsx:42 | a submitted key has no surrounding whitespace |
| KeyForm.ApiKeyForm.constructor | src/components/ApiKeyForm.tsx:16-18 | empty key and no error |
| KeyForm.ApiKeyForm.SetApiKey | src/components/ApiKeyForm.tsx:88 | typing replaces the key text |
| KeyForm.ApiKeyForm.HandleSubmit | src/components/ApiKeyForm.tsx:31-43 | exactly when the key is valid, clears the error and submits the trimmed key, which starts with 'apify_api_'; otherwise shows the message |
| Page.Render | src/app/page.tsx:49-102 | the run screen shows exactly in the executor state with an actor selected |
| Page.Home.AlwaysRenders | src/app/page.tsx:49-102 | a valid shell always shows a screen |
| Page.Home.constructor | src/app/page.tsx:14-16 | landing, empty key, no actor |
| Page.Home.HandleGetStarted | src/app/page.tsx:18-20 | to auth; key and actor unchanged |
| Page.Home.HandleBackToLanding | src/app/page.tsx:22-24 | to landing; key and actor unchanged |
| Page.Home.HandleApiKeySubmit | src/app/page.tsx:26-30 | key set, actor cleared, to the selector |
| Page.Home.HandleActorSelect | src/app/page.tsx:32-35 | actor set, to the executor; key unchanged |
| Page.Home.HandleBack | src/app/page.tsx:37-40 | actor cleared, to the selector; key unchanged |
| Page.Home.HandleApiKeyChange | src/app/page.tsx:42-46 | key and actor cleared, to auth |
| UserRoute.Read | src/app/api/user/route.ts:48 | reading a property throws exactly on `undefined` and `null` |
| UserRoute.Chain | src/app/api/user/route.ts:78-81 | optional chaining yields `undefined` on `undefined` and `null`, and the member otherwise |
| UserRoute.Either | src/app/api/user/route.ts:78-81 | the left value when truthy, else the right one, either possibly undefined |
| UserRoute.TemplateText | src/app/api/user/route.ts:68 | a template writes `undefined` as 'undefined' and a string as itself |
| UserRoute.AvatarUrl | src/app/api/user/route.ts:65-69 | the avatar URL is the fixed prefix, the seed, and the fixed colours |
| UserRoute.AvatarUrlInjective | src/app/api/user/route.ts:65-69 | different seeds give different avatar URLs |
| UserRoute.DisplayName | src/app/api/user/route.ts:78 | name, else displayName, else username; defined whenever the username is |
| UserRoute.Project | src/app/api/user/route.ts:71-87 | the profile fields with their fallbacks: bio, website, plan 'FREE', usage `{}`, unverified email, avatar seeded with the name |
| UserRoute.Fail | src/app/api/user/route.ts:88-93 | a caught error answers 500 with a non-empty message |
| UserRoute.UpstreamFailure | src/app/api/user/route.ts:22-25 | a non-ok user response answers 500 with `error.message` when it is truthy, otherwise 'Failed to fetch user information'; a null body answers with the engine's read error |
| UserRoute.Get | src/app/api/user/route.ts:3-95 | 401 'API key is required' exactly when the token is missing or empty; every 500 carries a non-empty message; a non-ok answer gives the upstream failure; 200 exactly when an ok answer parses and has a non-null `data`, carrying the projected profile |
| UserRoute.TokenGuardFirst | src/app/api/user/route.ts:5-12 | a missing token is refused whatever the upstream would say |
| UserRoute.AccountIgnored | src/app/api/user/route.ts:29-44 | the account request never changes the answer |
| UserRoute.ProfileDefaults | src/app/api/user/route.ts:77-86 | missing plan, usage and verification read 'FREE', `{}` and false; the avatar spells the shown name |

## Left out

- All `fetch` calls, `await` sequencing, React effect scheduling, `console`
  output, `alert`, animations and JSX styling. Fetched responses are
  parameters; each effect runs as part of the handler that changes what
  it watches.
- `JSON.parse`, `JSON.stringify`, `parseFloat` and `String` are function
  parameters, not definitions.
- Selector.LocaleCompare: compares by character code, not by the locale's
  collation, because the collation tables are library data.
- Text.ToLower: maps only ASCII letters. Unicode case mapping is library
  data.
- Selector.SortActors: proves sorted and a permutation, but not stability.
- Form.IntegerFieldValue: integers are exact, not 64-bit floats, so
  precision loss above 2^53 is not modelled.
- Form.NumberFieldValue: takes `parseFloat` as given; floating point is not
  modelled, and `-0` is not told apart from 0.
- Json.Set: a new key is appended last. JavaScript enumerates keys that look
  like array indices (such as `"2"`) first, in ascending numeric order, so
  for such keys the member order of `formData` and of the submitted object
  differs from the model's.
- Json.Get: members inherited from Object.prototype are read as absent. A
  field named `constructor` or `toString` reads a function in JavaScript, so
  Form.IsMissing reports such a required, unseeded field missing where the
  component lets the form submit; assigning a key `__proto__` sets the
  prototype instead of a member, which the model does not capture either.
- Form.DynamicForm.ApplySchema: reports the TypeError that escapes the
  effect; React then unmounts the tree, since there is no error boundary,
  and that teardown is not modelled.
- Strings are sequences of Unicode scalar values, not UTF-16 code units, so
  `Object.entries` on a string, `includes` and lengths differ for text
  outside the Basic Multilingual Plane.
- Executor.UrlPayload: the page-function source is a parameter, not the
  JavaScript text the component embeds.
- Executor.ActorExecutor.constructor: the state is taken after the mount
  effect has run. The JSON text from `useState` (built for
  https://example.com) is overwritten before it can be seen.
- JSON numbers are reals. NaN and the infinities are not modelled.
- Thrown engine errors other than reading from `undefined` or `null` are
  not modelled. This includes calling `filter` on a response whose `data`
  is not an array.
- `handleActorClick` and `fetchUserInfo` in src/components/ActorSelector.tsx
  are not part of this model. They fetch from endpoints outside it.
- The store route's `categories`, `stats` and `isPublic` pass-through fields
  are dropped, because the final projection discards them.
- The user route reads only the fields it projects.
- StoreActorsRoute.Project: a `null` username is not told apart from a
  missing one, so the `id` fallback writes "undefined" where the template
  would write "null". The fallback never fires in the route, because every
  listed actor has a non-empty id.
- StoreActorsRoute.StoreActor: items carry the field types the route
  declares (`id` and `name` strings).
- The remaining routes, the landing page and the UI primitives are not part
  of this model.
