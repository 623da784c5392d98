# Household meal planner: state layer in Dafny

This project models the state layer of a small meal-planning web app. The user picks a household size and types what dishes they want. An external text-generation service returns a plan: dishes with their ingredients, market and supermarket prices, and cooking steps. The user can rescale the plan to another household size, and can bookmark plans. Bookmarks are kept in one browser-storage slot.

The model covers these parts:

- **Data model** (`types.dfy`, `types.ts`): languages, screens, prices, ingredients, dishes, plans (`RecipeResponse`) and bookmarks (`SavedRecipe`) as immutable datatypes. The weak bookmark key is defined once, as `SameKey`: the first dish's name plus `portionSize`.
- **Stored text** (`json.dfy`, `bookmark_codec.dfy`): JSON text for the bookmark list in the form `JSON.stringify` writes, with keys in a fixed order, and a parser that reads it back. Integers, strings with the standard escapes, arrays and objects are modelled, with objects read by key.
- **Bookmark store** (`bookmarks.dfy`, `App.tsx`): the mount-time load, the write-through `saveBookmarks`, toggle by the weak key, delete by id, and the "is saved" check.
- **Session** (`app.dfy`, `App.tsx`): the app component's state record and its handlers. The asynchronous generate is split into `BeginGenerate` (the call goes out) and `CompleteGenerate` (its outcome comes back as an input).
- **Stepper and forms** (`stepper.dfy`, `input_form.dfy`, `result_view.dfy`): the household-size stepper clamped to 1..20, the non-blank submit guard, the `initialDish` sync, the update guard and update-button visibility, and the numbering of cooking steps.

The clock (`Date.now()`), the generation service's outcome and the localized error message are parameters. Storage is one slot of type `Option<string>`.

Some behaviour of the source that the model keeps as it is:

- Corrupt stored text is not turned into an empty list. `JSON.parse` throws on it (App.tsx:24), and nothing recovers, so `Start` returns `None`.
- Delete keeps only entries with another id (App.tsx:90). It removes every entry with the id, not only one.
- Nothing validates a generated plan. The service's reply is cast to a plan unchecked (geminiService.ts:106).
- Only the disabled button prevents a second generate while one is loading (Button.tsx:26). No handler rejects one.

## Model

| member | source | states |
|---|---|---|
| Types.LanguageOf | types.ts:1 | exactly the three tags `en`, `zh-HK`, `zh-CN` name a language, and each names the language whose tag it is |
| Types.LanguageCodeRoundTrip | types.ts:1 | every language has its own tag, which names it back |
| Types.ViewOf | types.ts:2 | exactly the four tags `home`, `explore`, `bookmarks`, `result` name a screen, each the one whose tag it is |
| Types.ViewCodeRoundTrip | types.ts:2 | every screen has its own tag, which names it back |
| Types.FirstDishName | App.tsx:121 | optional chaining on the first dish: absent exactly when the plan has no dishes, else that dish's name |
| Types.SameKeyIsEquivalence | App.tsx:70 | the bookmark key is an equivalence; it ignores the dates, shared ingredients, tips and waste tip, and any two plans whose first dishes share a name (or that both have no dishes) get the same key once their portion sizes agree, whatever their other dishes, ingredients and steps |
| Json.NumberRoundTrip | App.tsx:81 | an integer's decimal text reads back as the same integer |
| Json.NumberTextInjective | App.tsx:81 | different clock values give different `toString` texts |
| Json.CharsRoundTrip | App.tsx:34 | a string escaped as `JSON.stringify` escapes it reads back as the same string |
| Json.ParseStringify | App.tsx:25-34 | parsing the text written for any value yields that value |
| Json.Field | App.tsx:25 | a key lookup finds a value exactly when some member has that key |
| Json.FieldOfUnique | App.tsx:25 | a key with no later duplicate looks up to its own value |
| BookmarkCodec.SavedRoundTrip | types.ts:32-35 | every bookmark, with or without `createdAt`, reads back from its JSON object as itself |
| BookmarkCodec.DishRoundTrip | types.ts:17-21 | a dish's name, ingredients and steps read back in order |
| BookmarkCodec.IngredientRoundTrip | types.ts:4-15 | an ingredient and its one price pair read back unchanged |
| BookmarkCodec.DeserializeSerialize | App.tsx:32-35 | parsing the stored text of a list yields exactly that list |
| BookmarkCodec.SerializeInjective | App.tsx:34 | different lists are stored as different texts |
| Bookmarks.Load | App.tsx:22-27 | a missing or empty slot gives the empty list; any other text gives its parse |
| Bookmarks.Mount | App.tsx:19-27 | the list starts empty and becomes the stored list, which the slot still holds; an unparsable slot has no outcome |
| Bookmarks.Persist | App.tsx:32-35 | after a write the list is the new list and the slot reloads as exactly that list |
| Bookmarks.MountAfterPersist | App.tsx:22-35 | a restart after a write restores the written list |
| Bookmarks.AnySameKey | App.tsx:121 | true exactly when some entry has the plan's key |
| Bookmarks.FindIndex | App.tsx:70 | finds the first entry with the plan's key, or reports that no entry has it |
| Bookmarks.RemoveAt | App.tsx:74-75 | one entry fewer; entries before the index stay, entries after it shift down by one |
| Bookmarks.NewBookmark | App.tsx:79-84 | the new bookmark has the plan's key, the query, the creation time and otherwise the plan unchanged, and its id is the decimal text of the clock reading, which reads back as that reading |
| Bookmarks.Toggle | App.tsx:66-86 | with a match, only the first matching entry goes and the rest keep order; without one, the new bookmark goes in front of the unchanged list |
| Bookmarks.Delete | App.tsx:89-92 | exactly the entries with other ids remain; an unknown id changes nothing |
| Bookmarks.SavedIffToggleRemoves | App.tsx:120-122 | the saved check holds exactly when a toggle would remove an entry |
| Bookmarks.ToggleTwiceRestores | App.tsx:70-85 | toggling an unsaved plan and then any plan with its key restores the original list |
| Bookmarks.ToggleKeepsUniqueKeys | App.tsx:70-85 | if every key is held by at most one entry before a toggle, the same holds after it |
| Bookmarks.ToggleFlipsKey | App.tsx:70-85 | if every key is held by at most one entry, a toggle for a plan flips whether the list holds that plan's key: it adds the key when absent and leaves none behind when present |
| Bookmarks.DeleteAppend | App.tsx:90 | deleting from a concatenation deletes from each part, so relative order is kept |
| Bookmarks.DeleteIdempotent | App.tsx:90 | deleting the same id twice is deleting it once |
| Bookmarks.DeleteKeepsUniqueKeys | App.tsx:89-92 | a delete keeps every key held by at most one entry |
| Bookmarks.DistinctTimesGiveDistinctIds | App.tsx:81 | bookmarks added at different clock readings have different ids |
| Stepper.Decrement | InputForm.tsx:40 | the result is the larger of 1 and one less |
| Stepper.Increment | InputForm.tsx:55 | the result is the smaller of 20 and one more |
| Stepper.StepsInRange | ResultView.tsx:103-116 | inside 1..20 both buttons stay inside, and away from the ends each undoes the other |
| Stepper.PressesStayInRange | InputForm.tsx:13-55 | from a size in 1..20, any sequence of presses stays in 1..20 |
| Stepper.ClampsAreOneSided | ResultView.tsx:103-116 | above 21, "+" drops the size to 20 and "-" takes one off and stays out of range |
| InputForm.TrimNonEmptyIff | InputForm.tsx:25 | the trimmed text is non-empty exactly when the text has a non-white-space character |
| InputForm.Init | InputForm.tsx:13-14 | the form starts at size 2 with the given dish text, or empty text when none is given |
| InputForm.SyncInitialDish | InputForm.tsx:17-21 | a non-empty new `initialDish` overwrites the dish field; an empty or missing one changes nothing |
| InputForm.SyncAfterInitIsNoOp | InputForm.tsx:13-21 | the effect's run on mount, with the value the form started from, changes nothing, and a second run with the same value changes nothing |
| InputForm.DecreaseSize | InputForm.tsx:40 | the size becomes the larger of 1 and one less, and the dish text is kept |
| InputForm.IncreaseSize | InputForm.tsx:55 | the size becomes the smaller of 20 and one more, and the dish text is kept |
| InputForm.Submit | InputForm.tsx:23-28 | submits exactly when the dish text has a non-white-space character, then with the size and the untrimmed text |
| InputForm.SubmittedSizeInRange | InputForm.tsx:13-55 | any size submitted after stepper presses from 2 is in 1..20 |
| ResultView.Open | ResultView.tsx:65 | the local size starts at the plan's portion size, so the update button starts hidden |
| ResultView.Rerender | ResultView.tsx:67-70 | a changed portion size resets the local size; an unchanged one keeps it |
| ResultView.RerenderButton | ResultView.tsx:67-70 | after a new plan arrives the update button shows exactly when the portion size is unchanged and it was already showing |
| ResultView.DecreaseSize | ResultView.tsx:103 | the local size becomes the larger of 1 and one less |
| ResultView.IncreaseSize | ResultView.tsx:116 | the local size becomes the smaller of 20 and one more |
| ResultView.Update | ResultView.tsx:72-76 | asks for the local size exactly when it differs from the plan's portion size |
| ResultView.UpdateButtonShownIffUpdates | ResultView.tsx:125-129 | the update button is shown exactly when pressing it asks for an update |
| ResultView.BookmarkClick | ResultView.tsx:86 | the toggle handler, when present, receives the plan unchanged |
| ResultView.NumberSteps | ResultView.tsx:179-183 | the i-th step in order carries the number i + 1 |
| ResultView.LabelsConsecutive | ResultView.tsx:179-183 | step numbers run 1, 2, ..., n with no gap |
| ResultView.UpdatedSizeInRange | ResultView.tsx:65-116 | from an in-range plan size, any requested update size is in 1..20 |
| App.Start | App.tsx:13-27 | the app starts on the home screen in `zh-HK`, idle, with no plan, error or dish, and the stored bookmarks |
| App.BeginGenerate | App.tsx:37-42 | loading is set, the error cleared, the dish recorded, every other field kept, and the call carries size, dish and language |
| App.CompleteGenerate | App.tsx:42-50 | success sets the plan and the plan screen; failure sets the error and keeps plan and screen; loading ends either way |
| App.UpdatePortion | App.tsx:53-57 | with a non-empty retained dish, starts a generate at the new size for that dish (loading set, error cleared, the rest kept); otherwise changes nothing |
| App.Reset | App.tsx:59-64 | clears plan, error and dish and goes to the home screen; every other field is kept |
| App.SelectBookmark | App.tsx:94-98 | the bookmark's plan becomes the result and its query the current dish, on the plan screen; every other field is kept |
| App.IsCurrentBookmarked | App.tsx:120-122 | false without a plan; otherwise true exactly when a bookmark has the plan's key |
| App.ToggleBookmark | App.tsx:66-87 | nothing happens without a current dish; otherwise the list is toggled and written through, and nothing else changes |
| App.DeleteBookmark | App.tsx:89-92 | no entry with the id remains, the slot is written through, and nothing else changes |
| App.HandlersKeepValid | App.tsx:32-98 | every handler keeps the slot holding exactly the in-memory list; a toggle with a current dish and a delete write the list through, so after them the slot holds it whatever it held before |
| App.GenerateThenSucceed | App.tsx:37-51 | a successful generate shows the new plan for the requested dish with no error |
| App.GenerateThenFailThenRetry | App.tsx:37-51 | a failed generate keeps the previous plan and screen, and a retry starts a fresh call with the error cleared |
| App.ToggleFlipsSaved | App.tsx:66-122 | with unique keys, pressing the bookmark button on the current plan flips its saved indicator |
| App.BookmarkButtonFlipsSaved | App.tsx:66-122 | with unique keys, the plan screen's bookmark button (ResultView.tsx:86) hands the current plan to the toggle, which flips its saved indicator |
| App.SelectedBookmarkIsSaved | App.tsx:94-122 | a plan opened from the bookmark list shows as saved |
| App.SameKeyPlansCancel | App.tsx:66-87 | on an empty store, bookmarking two plans with the same key one after the other leaves the store empty |
| App.RestartReloads | App.tsx:22-35 | a restart reloads exactly the bookmarks in memory |

## Left out

- The generation service (`geminiService.ts`) is not modelled: the API key check, the prompt, the response schema and the network call are external. Its outcome is an input, `Generated(plan)` or `Failed`. Nothing is assumed about the plan, because the service casts the parsed response without checking it. So a plan may have no dishes, negative prices, or a `portionSize` other than the one requested.
- Real time and browser storage: `Date.now()` is passed in as two separate integers, one per call in the toggle. Ids are not claimed unique, since two adds in the same millisecond collide. Storage is one `Option<string>` slot, and a failing storage write is not modelled.
- Bookmarks.Toggle: the source throws when the key comparison reaches a plan without dishes. The model makes this a precondition (`ScanSafe`) and does not model the exception.
- Bookmarks.Load: a stored text that is valid JSON but not a list of bookmarks counts as unparsable. The source would put the untyped value into memory.
- BookmarkCodec.Serialize: keys are written in a fixed order, the plan fields in the order the plan type declares them. In the source, the object spread keeps the plan object's own key order, which for a generated plan is the order of the service's reply. So the stored text may differ from the source's, but it reads back as the same list because objects are read by key.
- Json.Parse: reads only the form `JSON.stringify` writes. It does not accept whitespace, `true`/`false`/`null`, fractions or exponents. Repeated keys resolve to the last one, as in `JSON.parse`.
- Numbers are unbounded integers. Floating point, `NaN` and precision loss of large JavaScript numbers are not modelled. Characters are Unicode scalar values, so the `\u` escaping of unpaired surrogates is not modelled.
- App.CompleteGenerate: the error text comes from translation tables that are not part of this model, so it is a parameter. Console logging is dropped.
- Concurrency: no generate is rejected while another is loading, because the source has no such guard. Only the disabled button prevents it. Interleaved completions are not modelled.
- Presentation: the bookmark list, explore and navigation screens, the language switcher, the button component, sharing (`handleShare`) and all rendering are left out. Also left out are the header and explore shortcuts that only set the current screen or dish.
