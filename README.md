# Anime Osuume: a verified model of its core

Anime Osuume is a web app that asks a language model for six anime
recommendations. A user picks genres and describes what they want, or asks
for a surprise set, or asks for titles similar to a result. The user also
chooses a persona for the model's tone, a subtitle/dub preference and a
"prioritize popular" toggle. Signed-in users can save a result set to their
history.

This project models the parts of the app that decide behaviour:

- **The get-recommendations edge function** (`prompt_builder.dfy`, module
  `PromptBuilder`). It fills in defaults for a missing request field. It
  picks one of three base templates: a non-empty `findSimilarTo` title first,
  then `surpriseMe`, then the genres and the description. It appends the
  popularity clause and the format clause, joined by single spaces. It looks
  up the persona's system instruction. It answers 200 with the model's JSON,
  or 500 with the message of any failure.
- **The save-recommendations edge function** (`save_endpoint.dfy`, module
  `SaveEndpoint`). Its checks run in a fixed order: the preflight, the body
  shape (a non-empty array), the caller's identity, then the insert. The
  record handed to the insert carries the caller's id and the body unchanged.
- **The client page** (`app.dfy`, module `AppState`, class `App`). The page
  state variables are fields, and each event handler is a method. Handlers
  cover the genre toggle, the three ways of asking for recommendations,
  saving a result set with an optimistic update and rollback, the
  authentication subscriber, and the history refresh.
- **The ordering of results** (`rating_sort.dfy`, module `RatingSort`). A
  result is sorted by non-increasing rating with a stable sort. This is
  modelled as an in-place insertion sort on an array. It is proved equal to a
  specification function that is ordered, a permutation of the input, and
  order-preserving among equal ratings.
- **The result card** (`anime_card.dfy`): the synopsis shortened to 120
  characters plus an ellipsis behind a Read More / Read Less toggle, the
  rating badge, and the Find Similar button.
- **The sign-in dialog** (`login_modal.dfy`). It has three views: log in,
  register and reset. Each view has its own title, description, links and
  service call. Its submit handler manages the loading, error and success
  banners.
- **The password-update dialog** (`update_password_modal.dfy`): the
  six-character minimum, then the update call with its banners.
- Shared records and enumerations live in `types.dfy` (module `AnimeTypes`).

Remote calls are parameters of the model, each given as its outcome:
- the language model;
- the function invocations;
- the authentication service;
- the identity lookup;
- the database insert.

A method runs to completion given that outcome. In the two dialogs, the
handler's submit method returns the state shown while the call runs as an
out-parameter (`waiting`). The page's request handlers show the loader and
cleared results while they wait, and that is also their state afterwards,
because the loading flag is never cleared.

Both dialogs clear their loading flag in a `finally` block
(components/LoginModal.tsx:37-39, components/UpdatePasswordModal.tsx:34-36).
The page renders its results only when it is not loading (App.tsx:278). Yet
the page never clears its own loading flag: App.tsx:106 is its only
assignment. The model keeps this behaviour in the page's handlers, and gives
the evidently intended completion beside it, under Findings.

A request body's fields, once defaulted, are in `PromptBuilder.Options`.
Persona and format preference are closed enumerations. A rating is a
`real`.

## Model

| member | source | states |
|---|---|---|
| PromptBuilder.WithDefaults | supabase/functions/get-recommendations/index.ts:54-62 | Each missing field takes its default: no genres, empty prompt, no surprise, the otaku persona, any format, no popularity. A present field is kept as sent, and `findSimilarTo` stays optional. |
| PromptBuilder.ModePrecedence | supabase/functions/get-recommendations/index.ts:72-82 | For `BasePrompt`: a non-empty similar-to title selects the similarity template whatever the other fields. Otherwise `surpriseMe` selects the surprise template. Otherwise the preferences template is used. An empty title counts as absent. |
| PromptBuilder.BaseAsksForSix | supabase/functions/get-recommendations/index.ts:75-81 | Every base template starts with "Please recommend exactly 6 ". |
| PromptBuilder.SimilarityQuotesTitle | supabase/functions/get-recommendations/index.ts:75 | The similarity template contains the title verbatim between double quotes. |
| PromptBuilder.EmptyPreferencesKeepSpaces | supabase/functions/get-recommendations/index.ts:79-81 | With no genres and an empty description, the two empty sentences leave three spaces in a row in the template. |
| PromptBuilder.PreferencesMentionInputs | supabase/functions/get-recommendations/index.ts:79-81 | Every selected genre occurs in the preferences template. A non-empty description occurs in it between double quotes. |
| PromptBuilder.AdditionsChosen | supabase/functions/get-recommendations/index.ts:84-92 | For `PromptAdditions`: the popularity clause is added if and only if the popularity flag is on and `surpriseMe` is off. The subbed clause is added iff the preference is subbed, and the dubbed clause iff it is dubbed. When both kinds of clause are added, popularity comes first. |
| PromptBuilder.UserPromptShape | supabase/functions/get-recommendations/index.ts:94 | `UserPrompt`, the joined prompt, is the base, then the popularity sentence, then the format sentence, each after exactly one space. |
| PromptBuilder.BaseIsPrefix | supabase/functions/get-recommendations/index.ts:94 | The base template is always a prefix of the full prompt. |
| PromptBuilder.JoinContainsPart | supabase/functions/get-recommendations/index.ts:79 | Every part of a comma-joined list occurs in the joined text. |
| PromptBuilder.JoinHead | supabase/functions/get-recommendations/index.ts:94 | Joining a head with further parts gives the head, then each further part after one separator. |
| PromptBuilder.SeparatedAppend | supabase/functions/get-recommendations/index.ts:94 | The separated form of two lists, one after the other, is the separated form of their concatenation. |
| PromptBuilder.SystemInstructionsDistinct | supabase/functions/get-recommendations/index.ts:41-45 | Under `SystemInstruction`, the three personas have pairwise different system instructions, and each instruction ends with the JSON-format sentence. |
| PromptBuilder.PersonaOnlyInSystemInstruction | supabase/functions/get-recommendations/index.ts:94-100 | Changing the persona leaves the user prompt unchanged. The persona reaches only the system instruction. |
| PromptBuilder.HandleRequest | supabase/functions/get-recommendations/index.ts:47-125 | The preflight gives 200 "ok". An unreadable body gives 500 with its message. A missing key gives 500 with the fixed configuration message. Otherwise the model is called with `BuildPrompt`: the persona's instruction and the joined prompt. Its data gives 200; no response, or a thrown error, gives 500 with the matching message. Every 500 carries an error payload. |
| SaveEndpoint.HandleSave | supabase/functions/save-recommendations/index.ts:8-65 | The preflight gives 200 "ok". An unreadable body gives 500. A non-array or empty array gives 400 with the fixed message. No user gives 401 "Unauthorized". A throwing lookup gives 500. Something is inserted iff the body is valid and a user is signed in, and the record is that user's id with the body unchanged. The insert's row gives 201; its error gives 500. |
| SaveEndpoint.ChecksInOrder | supabase/functions/save-recommendations/index.ts:14-39 | An invalid body decides the answer whatever the identity lookup and the insert would give. A missing user decides it whatever the insert would give. |
| RatingSort.InsertByRating | App.tsx:114 | One insertion step of the stable sort adds exactly one element. |
| RatingSort.SortByRatingDesc | App.tsx:114 | The sort keeps the length of the result. |
| RatingSort.InsertAddsOne | App.tsx:114 | An insertion step adds exactly the inserted element to the multiset. |
| RatingSort.InsertKeepsOrder | App.tsx:114 | An insertion step keeps a list ordered by non-increasing rating. |
| RatingSort.InsertKeepsTies | App.tsx:114 | An insertion step keeps the relative order of equally rated elements and puts the new one last among its rating. |
| RatingSort.SortedByRating | App.tsx:114 | The sorted result is ordered by non-increasing rating and is a permutation of the input. For every rating, the elements with that rating appear in their input order (stability). |
| RatingSort.InsertAt | App.tsx:114 | Inserting after the last element rated at least as high is the insertion step. |
| RatingSort.InsertLast | App.tsx:114 | The in-place step leaves the array prefix equal to the insertion step and the rest of the array unchanged. |
| RatingSort.SortInPlace | App.tsx:114 | The in-place sort leaves the array equal to the stable sort of its old contents. |
| AppState.RecommendationsCall | services/geminiService.ts:15-30 | The call succeeds iff the invocation gave non-null data, and then yields that data. An invocation error is rethrown with its message. Null data throws the fixed "No data returned" message. |
| AppState.SavedCall | services/recommendationService.ts:18-31 | The history fetch fails iff the invocation failed. Null data yields an empty history, and other data is returned as is. |
| AppState.RemoveAll | App.tsx:91 | The filter keeps exactly the elements other than the removed one, and never lengthens the list. The same filter is the rollback of a failed save (App.tsx:81), which keeps exactly the saved sets that differ from the results. |
| AppState.RemoveAllAppend | App.tsx:91 | Filtering a concatenation is filtering each part, and one element is kept iff it is not the removed genre. So the remaining genres keep their relative order. |
| AppState.Toggle | App.tsx:88-94 | Membership flips for the toggled genre and stays the same for every other genre. |
| AppState.RemoveAllCounts | App.tsx:88-94 | Filtering out a genre leaves no occurrence of it and keeps every other genre exactly as often as before. |
| AppState.RemoveAbsent | App.tsx:91 | Filtering out an element that is not there changes nothing: a genre that is not selected, or results that are not in the history. |
| AppState.RemoveAllSnoc | App.tsx:91 | Filtering out a genre ignores one copy of it appended at the end. |
| AppState.ToggleSpec | App.tsx:88-94 | Toggling a selected genre removes every occurrence of it. The other genres keep their counts and their relative order: for any split of the list, the result is the filtered first part followed by the filtered second part. Toggling an unselected genre appends it at the end, and toggling it again gives back the original list. |
| AppState.SubmitPrompt | App.tsx:130 | A submitted form reaches the model as the persona's instruction and the preferences template. The popularity clause follows iff the toggle is on, then the format clause. |
| AppState.SurprisePrompt | App.tsx:136 | A surprise request reaches the model as the surprise template and the format clause only. The popularity toggle is never sent, so its clause never appears. |
| AppState.FindSimilarPrompt | App.tsx:142 | A find-similar request for a non-empty title reaches the model as the similarity template for that title, then the popularity clause iff the toggle is on, then the format clause. An empty title falls through to the preferences template with no genres and no description, followed by the same clauses. |
| AppState.HistoryAfterSave | App.tsx:69-85 | A save never adds or loses a set other than the results. The results end up saved iff they were saved already, or there are results, a user is signed in and the save succeeded. |
| AppState.SaveOutcomes | App.tsx:69-85 | A failed save gives back the history as it was before. A successful save of new results prepends them. After a successful save, saving the same results again changes nothing. |
| AppState.SaveKeepsSetsDistinct | App.tsx:69-85 | A history that holds each result set at most once keeps that property after a save, whatever its outcome. |
| AppState.RequestFailedMessage | App.tsx:116-118 | The error starts with "Failed to get recommendations. ", followed by the thrown message, or by "An unknown error occurred." when that message is empty. |
| AppState.SortResult | App.tsx:113-115 | The sorted array equals the stable sort by rating of the response, so it is ordered and a permutation of the response. |
| AppState.App.constructor | App.tsx:20-33 | The initial state values: no genres, an empty prompt, no results, not loading, no error, the search panel visible, the otaku persona, any format, popularity off, no user, both dialogs closed and an empty history. |
| AppState.App.HandleGenreToggle | App.tsx:88-94 | The selection becomes the toggle of the old one, and nothing else changes. |
| AppState.App.GenerateRecommendations | App.tsx:96-121 | The request hides the search panel, clears the error and results, and sorts a successful response by rating. A failure leaves the results empty and shows the prefixed error. As written, loading stays on, so the results grid stays hidden and the request buttons stay disabled. |
| AppState.App.GenerateRecommendationsSettled | App.tsx:96-121 | Same as the request above, with loading cleared when the call settles. The grid is shown iff the call succeeded with a non-empty list, and the buttons are enabled. |
| AppState.App.HandleSubmit | App.tsx:123-131 | Nothing is sent iff no genre is selected and the prompt is empty. In that case the fixed message is shown with the search panel, and the results and loading flag are left alone. Otherwise the form's fields, persona, format and toggle are sent. The results or error follow the call. Loading stays on, so the grid stays hidden and the buttons disabled. |
| AppState.App.HandleSurpriseMe | App.tsx:133-137 | Genres and prompt are cleared, and only surprise, persona and format are sent. The results or error follow the call. Loading stays on, so the grid stays hidden and the buttons disabled. |
| AppState.App.HandleFindSimilar | App.tsx:139-143 | Genres and prompt are cleared, and the title, persona, format and toggle are sent. The results or error follow the call. Loading stays on, so the grid stays hidden and the buttons disabled. |
| AppState.App.HandleSaveResults | App.tsx:69-85 | The results are sent to the save iff there are results, a user is signed in and no equal set is already saved. The history becomes the save outcome, so a failed save leaves it as before. No other state changes. |
| AppState.App.OnAuthStateChange | App.tsx:35-46 | The current user becomes the session's user. A password-recovery event opens the password dialog, and no other state changes. |
| AppState.App.SyncSavedHistory | App.tsx:48-63 | With no user the history is emptied. With a user it becomes the fetched history, or stays as it was when the fetch throws. |
| AppState.App.OpenLoginModal | App.tsx:166 | The navigation's login button opens the sign-in dialog, and nothing else changes. |
| AppState.App.CloseLoginModal | App.tsx:309-314 | Closing the sign-in dialog, or a login inside it, closes it, and nothing else changes. |
| AppState.App.ClosePasswordModal | App.tsx:316-320 | Closing the password dialog closes it, and nothing else changes. |
| AnimeCardView.DisplayedSynopsisSpec | components/AnimeCard.tsx:13-18 | For `DisplayedSynopsis`: a collapsed synopsis longer than 120 characters shows 123 characters: its first 120 and "...". A synopsis of at most 120 characters, or an expanded one, is shown whole. |
| AnimeCardView.AnimeCard.constructor | components/AnimeCard.tsx:11 | A card starts collapsed. |
| AnimeCardView.AnimeCard.ToggleLabel | components/AnimeCard.tsx:44-51 | A toggle exists iff the synopsis is longer than 120 characters. It reads "Read Less" iff the synopsis is expanded. |
| AnimeCardView.AnimeCard.ToggleSynopsis | components/AnimeCard.tsx:44-51 | A click flips the expanded flag, switching between the shortened and the full synopsis. |
| AnimeCardView.AnimeCard.ShowsRatingBadge | components/AnimeCard.tsx:25 | A rating of 0 hides the badge, and every other rating shows it. |
| AnimeCardView.AnimeCard.ClickFindSimilar | components/AnimeCard.tsx:59-62 | The page receives exactly the card's title as the find-similar request. |
| LoginModalState.ResetMessageNamesEmail | components/LoginModal.tsx:33 | The reset confirmation holds the typed address right after its fixed lead. |
| LoginModalState.ViewTextsDistinct | components/LoginModal.tsx:49-59 | `Title` and `Description` give each of the three views a different title and a different description. `SubmitLabel` gives each view a different button text when not loading. |
| LoginModalState.SubmitLabel | components/LoginModal.tsx:112 | The submit button reads "Loading..." exactly while loading. |
| LoginModalState.FooterTarget | components/LoginModal.tsx:116-128 | The footer link always leads to another view, and it leads to login iff the current view is not login. |
| LoginModalState.Links | components/LoginModal.tsx:103-128 | No link leads to the view it is in. |
| LoginModalState.EveryViewReachable | components/LoginModal.tsx:103-128 | Every view can be reached from every other in at most two clicks. |
| LoginModalState.CallFor | components/LoginModal.tsx:25-33 | Every view's call carries the typed address. The password is sent, as typed, exactly from the views that show the password field (all but reset, line 88). |
| LoginModalState.SuccessFor | components/LoginModal.tsx:25-34 | Only a login leaves no success banner. |
| LoginModalState.LoginModal.constructor | components/LoginModal.tsx:11-16 | The dialog opens in the login view with empty fields and no banners. |
| LoginModalState.LoginModal.SwitchView | components/LoginModal.tsx:42-47 | Switching sets the view and clears the error, the success message and the password. The address and loading state are kept. |
| LoginModalState.LoginModal.HandleSubmit | components/LoginModal.tsx:18-40 | While the call runs, the dialog is loading with no banners. The call is the one for the current view. A thrown error shows its message. A success shows the view's confirmation, or tells the page of the login. Loading ends off either way, and a successful register or reset leaves the button disabled. |
| UpdatePasswordState.UpdatePasswordModal.constructor | components/UpdatePasswordModal.tsx:11-14 | The dialog opens with an empty password and no banners. |
| UpdatePasswordState.UpdatePasswordModal.HandleSubmit | components/UpdatePasswordModal.tsx:16-37 | The update is called iff the password has at least six characters. A shorter one only sets the fixed error. While the update runs, the dialog is loading with no banners. Success shows the fixed confirmation and disables the input and the button. A failure shows the thrown message. Loading ends off either way. |

## Left out

- The language-model call, its response schema (the five required fields), temperature and model name, and `JSON.parse` of its text are not modelled. They are folded into a `ModelReply`: data, no response, or a thrown message.
- Environment variables are folded into one flag: whether the model key is present. The Supabase URL and anon key are not modelled.
- `createClient`, `auth.getUser` and the database insert are given as their outcomes. A lookup that returns no user and one that throws are both modelled.
- All `supabase` client calls, including the service wrappers in services/authService.ts, are given as the thrown message or success. The wrappers' "no user data returned" errors are such messages.
- CORS headers and content types are not modelled, because they are constant across every response.
- React rendering, CSS and `scrollIntoView` are not modelled. Rendering conditions are kept only as predicates: the results grid, the request buttons, the rating badge, the toggle, the password field, the links and the disabled flags.
- The timed close of the password dialog (`setTimeout`) is not modelled. Its effect, closing the dialog, is `AppState.App.ClosePasswordModal`.
- Concurrency is not modelled. Each handler runs to completion given its call's outcome, so two requests in flight, stale closures and effects racing the auth subscriber are not modelled.
- The history refresh runs when `currentUser` changes. It is modelled as a method the caller invokes after the change.
- `handleLogout` and the search-panel, persona, format and popularity setters are not modelled. Each only assigns a state field or calls the sign-out service.
- The rating badge's `toFixed(1)` formatting is not modelled. NaN ratings are not modelled.
- Persona and format values outside their enumerations cannot be expressed. Neither can request-body fields of the wrong JSON type.
- String lengths count characters, where JavaScript counts UTF-16 code units. This affects the 120-character limit and the 6-character minimum.
- `JSON.stringify` equality of result sets is modelled as equality of values.
- The browser's own form checks (`required`, `minLength`, `type="email"`) are not modelled. They can stop a submit before either dialog's handler runs.
- `AppState.App.GenerateRecommendationsSettled` is the corrected request completion from Findings. The page's handlers keep the code's behaviour and call `AppState.App.GenerateRecommendations`.
- The texts of the sign-in dialog's footer links are not modelled. Only where each link leads is modelled (`LoginModalState.FooterTarget`).

## Findings

| source | as written | input that shows it | evidently intended | confidence | as-written member | corrected member |
|---|---|---|---|---|---|---|
| App.tsx:105-121 | `generateRecommendations` sets `isLoading` to true. Nothing in the page ever sets it back. The loader stays visible, the results grid (rendered only when not loading) never appears, and the request buttons stay disabled. | Submit with genre "Action" and a response of one recommendation: afterwards `isLoading` is true and the results grid is hidden. | Loading ends when the call settles on either path, as in both dialogs. The grid then shows a non-empty successful result, and the buttons work again. | high; not executed | AppState.App.GenerateRecommendations | AppState.App.GenerateRecommendationsSettled |
