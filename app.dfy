/** The client state of App.tsx: the React state variables as fields of a class,
    and each event handler as a method. A remote call is a parameter: the
    `{ data, error }` that `supabase.functions.invoke` gave, turned into a
    value or a thrown error by the service wrappers (services/geminiService.ts,
    services/recommendationService.ts). Each handler runs to completion given
    that result. */
module AppState {
  import opened AnimeTypes
  import PromptBuilder
  import RatingSort

  type Rec = AnimeRecommendation

  datatype User = User(id: string, email: string)

  // ---------------------------------------------------------------------------
  // Service wrappers

  /** What `supabase.functions.invoke` gave: an error, or data that may be null. */
  datatype InvokeResult<D> = InvokeError(message: string) | InvokeData(data: Option<D>)

  const NoDataMessage: string := "No data returned from the recommendation service."

  /** `getAnimeRecommendations`: throws on an error and on missing data. */
  function RecommendationsCall(r: InvokeResult<seq<Rec>>): (o: Outcome<seq<Rec>>)
    ensures o.Success? <==> r.InvokeData? && r.data.Some?
    ensures o.Success? ==> o.value == r.data.value
    ensures r.InvokeError? ==> o == Failure(r.message)
    ensures r == InvokeData(None) ==> o == Failure(NoDataMessage)
  {
    match r
    case InvokeError(m) => Failure(m)
    case InvokeData(None) => Failure(NoDataMessage)
    case InvokeData(Some(d)) => Success(d)
  }

  /** `getSavedRecommendations`: throws on an error; missing data is an empty history. */
  function SavedCall(r: InvokeResult<seq<seq<Rec>>>): (o: Outcome<seq<seq<Rec>>>)
    ensures o.Success? <==> r.InvokeData?
    ensures r == InvokeData(None) ==> o == Success([])
    ensures r.InvokeData? && r.data.Some? ==> o == Success(r.data.value)
  {
    match r
    case InvokeError(m) => Failure(m)
    case InvokeData(None) => Success([])
    case InvokeData(Some(d)) => Success(d)
  }

  // ---------------------------------------------------------------------------
  // Genre toggle

  /** `list.filter(y => y !== x)`: keeps exactly the elements other than `x`.
      The genre toggle filters out a genre, and a failed save filters out a
      result set. */
  function RemoveAll<T(==,!new)>(s: seq<T>, x: T): (r: seq<T>)
    ensures |r| <= |s|
    ensures forall h :: h in r <==> h in s && h != x
  {
    if s == [] then []
    else (if s[0] == x then [] else [s[0]]) + RemoveAll(s[1..], x)
  }

  /** Removes every occurrence of a selected genre, or appends an unselected
      one: membership flips for `genre` and for no other genre. */
  function Toggle(s: seq<string>, genre: string): (r: seq<string>)
    ensures forall h :: h in r <==> (if h == genre then genre !in s else h in s)
  {
    if genre in s then RemoveAll(s, genre) else s + [genre]
  }

  /** Removing drops exactly the occurrences of `genre` and keeps every other
      genre as often as before. */
  lemma {:induction false} RemoveAllCounts<T(!new)>(s: seq<T>, genre: T)
    ensures multiset(RemoveAll(s, genre))[genre] == 0
    ensures forall h :: h != genre ==> multiset(RemoveAll(s, genre))[h] == multiset(s)[h]
  {
    if s != [] {
      RemoveAllCounts(s[1..], genre);
      assert s == [s[0]] + s[1..];
    }
  }

  /** The filter works element by element: filtering a concatenation is
      filtering each part, and one element is kept unless it is `genre`. So the
      remaining genres keep their relative order. */
  lemma {:induction false} RemoveAllAppend<T(!new)>(a: seq<T>, b: seq<T>, genre: T)
    ensures RemoveAll(a + b, genre) == RemoveAll(a, genre) + RemoveAll(b, genre)
    ensures forall x :: RemoveAll([x], genre) == (if x == genre then [] else [x])
  {
    if a != [] {
      assert (a + b)[1..] == a[1..] + b;
      RemoveAllAppend(a[1..], b, genre);
    } else {
      assert a + b == b;
    }
  }

  /** Removing a genre that is not there changes nothing. */
  lemma {:induction false} RemoveAbsent<T(!new)>(s: seq<T>, genre: T)
    requires genre !in s
    ensures RemoveAll(s, genre) == s
  {
    if s != [] {
      RemoveAbsent(s[1..], genre);
      assert s == [s[0]] + s[1..];
    }
  }

  /** A toggle removes a present genre everywhere and appends an absent one at
      the end; toggling an absent genre twice gives back the list. */
  lemma ToggleSpec(s: seq<string>, genre: string)
    ensures genre in s ==> genre !in Toggle(s, genre)
    ensures genre in s ==> forall h :: h != genre ==> multiset(Toggle(s, genre))[h] == multiset(s)[h]
    ensures genre in s ==> forall a, b :: s == a + b ==> Toggle(s, genre) == RemoveAll(a, genre) + RemoveAll(b, genre)
    ensures genre !in s ==> Toggle(s, genre) == s + [genre]
    ensures genre !in s ==> Toggle(Toggle(s, genre), genre) == s
  {
    if genre in s {
      RemoveAllCounts(s, genre);
      assert genre !in multiset(Toggle(s, genre));
      forall a, b | s == a + b
        ensures Toggle(s, genre) == RemoveAll(a, genre) + RemoveAll(b, genre)
      {
        RemoveAllAppend(a, b, genre);
      }
    } else {
      RemoveAbsent(s, genre);
      RemoveAllSnoc(s, genre);
    }
  }

  lemma {:induction false} RemoveAllSnoc<T(!new)>(s: seq<T>, genre: T)
    ensures RemoveAll(s + [genre], genre) == RemoveAll(s, genre)
  {
    if s == [] {
      assert RemoveAll([genre], genre) == [] + RemoveAll([], genre);
    } else {
      assert (s + [genre])[1..] == s[1..] + [genre];
      RemoveAllSnoc(s[1..], genre);
    }
  }

  // ---------------------------------------------------------------------------
  // Requests the handlers send

  /** `handleSubmit`'s options. */
  function SubmitRequest(genres: seq<string>, prompt: string, persona: Persona, format: FormatPreference,
                         popular: bool): PromptBuilder.RawRequest {
    PromptBuilder.RawRequest(Some(genres), Some(prompt), None, None, Some(persona), Some(format), Some(popular))
  }

  /** `handleSurpriseMe`'s options: no genres, no prompt, no `prioritizePopular`. */
  function SurpriseRequest(persona: Persona, format: FormatPreference): PromptBuilder.RawRequest {
    PromptBuilder.RawRequest(None, None, Some(true), None, Some(persona), Some(format), None)
  }

  /** `handleFindSimilar`'s options. */
  function FindSimilarRequest(title: string, persona: Persona, format: FormatPreference,
                              popular: bool): PromptBuilder.RawRequest {
    PromptBuilder.RawRequest(None, None, None, Some(title), Some(persona), Some(format), Some(popular))
  }

  /** What the edge function makes of a surprise request: the surprise template
      and the format clause, never the popularity clause. */
  lemma SurprisePrompt(persona: Persona, format: FormatPreference)
    ensures PromptBuilder.BuildPrompt(PromptBuilder.WithDefaults(SurpriseRequest(persona, format)))
         == PromptBuilder.Prompt(PromptBuilder.SystemInstruction(persona),
                                 PromptBuilder.SurpriseBase + PromptBuilder.FormatSuffix(format))
  {
    var o := PromptBuilder.WithDefaults(SurpriseRequest(persona, format));
    PromptBuilder.UserPromptShape(o);
    assert PromptBuilder.BasePrompt(o) == PromptBuilder.SurpriseBase;
    assert PromptBuilder.PopularSuffix(o) == "";
    assert "" + PromptBuilder.FormatSuffix(format) == PromptBuilder.FormatSuffix(format);
  }

  /** What the edge function makes of a find-similar request: for a non-empty
      title, the similarity template, then the popularity clause if the toggle
      is on, then the format clause. An empty title is falsy there, so the
      request falls through to the preferences template with no genres and no
      description. */
  lemma FindSimilarPrompt(title: string, persona: Persona, format: FormatPreference, popular: bool)
    ensures var built := PromptBuilder.BuildPrompt(PromptBuilder.WithDefaults(FindSimilarRequest(title, persona, format, popular)));
            var tail := (if popular then " " + PromptBuilder.PopularClause else "") + PromptBuilder.FormatSuffix(format);
            && (title != "" ==> built == PromptBuilder.Prompt(PromptBuilder.SystemInstruction(persona),
                                                              PromptBuilder.SimilarityBase(title) + tail))
            && (title == "" ==> built == PromptBuilder.Prompt(PromptBuilder.SystemInstruction(persona),
                                                              PromptBuilder.PreferencesBase([], "") + tail))
  {
    var o := PromptBuilder.WithDefaults(FindSimilarRequest(title, persona, format, popular));
    PromptBuilder.UserPromptShape(o);
  }

  /** What the edge function makes of a submitted form: the preferences
      template over the selected genres and the prompt text. */
  lemma SubmitPrompt(genres: seq<string>, prompt: string, persona: Persona, format: FormatPreference, popular: bool)
    ensures PromptBuilder.BuildPrompt(PromptBuilder.WithDefaults(SubmitRequest(genres, prompt, persona, format, popular)))
         == PromptBuilder.Prompt(PromptBuilder.SystemInstruction(persona),
                                 PromptBuilder.PreferencesBase(genres, prompt)
                                 + ((if popular then " " + PromptBuilder.PopularClause else "")
                                    + PromptBuilder.FormatSuffix(format)))
  {
    var o := PromptBuilder.WithDefaults(SubmitRequest(genres, prompt, persona, format, popular));
    PromptBuilder.UserPromptShape(o);
  }

  // ---------------------------------------------------------------------------
  // Saved history

  /** The history after `handleSaveResults`, given whether someone is signed in
      and whether the remote save succeeded. A failed save rolls back with
      `prev.filter(set => JSON.stringify(set) !== JSON.stringify(results))`,
      the JSON comparison taken as equality of values. Other saved sets are never added or lost; the results end up saved iff
      the save was attempted and succeeded, or they were saved already. */
  function HistoryAfterSave(history: seq<seq<Rec>>, results: seq<Rec>, signedIn: bool, saved: bool): (r: seq<seq<Rec>>)
    ensures forall h :: h != results ==> (h in r <==> h in history)
    ensures results in r <==> results in history || (|results| > 0 && signedIn && saved)
  {
    if |results| == 0 || !signedIn || results in history then history
    else if saved then [results] + history
    else RemoveAll([results] + history, results)
  }

  /** A failed save gives back the history as it was; a successful one prepends
      the results, and saving the same results again is then a no-op. */
  lemma SaveOutcomes(history: seq<seq<Rec>>, results: seq<Rec>, signedIn: bool, saved: bool)
    ensures !saved ==> HistoryAfterSave(history, results, signedIn, saved) == history
    ensures saved && |results| > 0 && signedIn && results !in history ==>
              HistoryAfterSave(history, results, signedIn, saved) == [results] + history
    ensures saved ==> forall again: bool ::
              HistoryAfterSave(HistoryAfterSave(history, results, signedIn, saved), results, signedIn, again)
              == HistoryAfterSave(history, results, signedIn, saved)
  {
    if |results| > 0 && signedIn && results !in history {
      assert ([results] + history)[1..] == history;
      RemoveAbsent(history, results);
    }
  }

  /** A history holding each result set at most once keeps that property. */
  lemma SaveKeepsSetsDistinct(history: seq<seq<Rec>>, results: seq<Rec>, signedIn: bool, saved: bool)
    requires forall i, j :: 0 <= i < j < |history| ==> history[i] != history[j]
    ensures var h := HistoryAfterSave(history, results, signedIn, saved);
            forall i, j :: 0 <= i < j < |h| ==> h[i] != h[j]
  {
    SaveOutcomes(history, results, signedIn, saved);
    var h := HistoryAfterSave(history, results, signedIn, saved);
    if h == [results] + history && results !in history {
      forall i, j | 0 <= i < j < |h| ensures h[i] != h[j] {
        if i == 0 {
          assert h[j] == history[j - 1];
        } else {
          assert h[i] == history[i - 1] && h[j] == history[j - 1];
        }
      }
    }
  }

  // ---------------------------------------------------------------------------
  // The component state

  const SelectGenreMessage: string := "Please select at least one genre or describe what you want to watch."
  const RequestFailedPrefix: string := "Failed to get recommendations. "
  const UnknownErrorMessage: string := "An unknown error occurred."

  /** The message shown when the recommendation call throws; an empty message counts as none. */
  function RequestFailedMessage(thrown: string): (r: string)
    ensures RequestFailedPrefix <= r
    ensures thrown != "" ==> r[|RequestFailedPrefix|..] == thrown
    ensures thrown == "" ==> r[|RequestFailedPrefix|..] == UnknownErrorMessage
  {
    RequestFailedPrefix + (if thrown != "" then thrown else UnknownErrorMessage)
  }

  /** `result.sort((a, b) => b.rating - a.rating)` on the array the call returned. */
  method SortResult(data: seq<Rec>) returns (sorted: seq<Rec>)
    ensures sorted == RatingSort.SortByRatingDesc(data)
    ensures RatingSort.NonIncreasing(sorted) && multiset(sorted) == multiset(data)
  {
    var result := new Rec[|data|](i requires 0 <= i < |data| => data[i]);
    assert result[..] == data;
    RatingSort.SortInPlace(result);
    RatingSort.SortedByRating(data);
    sorted := result[..];
  }

  class App {
    var selectedGenres: seq<string>
    var userPrompt: string
    var recommendations: seq<Rec>
    var isLoading: bool
    var error: Option<string>
    var isSearchVisible: bool
    var persona: Persona
    var formatPreference: FormatPreference
    var prioritizePopular: bool
    var currentUser: Option<User>
    var isLoginModalOpen: bool
    var isUpdatePasswordModalOpen: bool
    var savedRecommendations: seq<seq<Rec>>

    /** The initial values of the `useState` calls. */
    constructor ()
      ensures selectedGenres == [] && userPrompt == "" && recommendations == []
      ensures !isLoading && error == None && isSearchVisible
      ensures persona == Otaku && formatPreference == Any && !prioritizePopular
      ensures currentUser == None && !isLoginModalOpen && !isUpdatePasswordModalOpen && savedRecommendations == []
    {
      selectedGenres, userPrompt, recommendations := [], "", [];
      isLoading, error, isSearchVisible := false, None, true;
      persona, formatPreference, prioritizePopular := Otaku, Any, false;
      currentUser, isLoginModalOpen, isUpdatePasswordModalOpen, savedRecommendations := None, false, false, [];
    }

    /** The results grid is rendered only when not loading and there are results. */
    predicate ResultsShown()
      reads this
    {
      !isLoading && |recommendations| > 0
    }

    /** The request buttons (Get Recommendations, Surprise Me) are disabled while loading. */
    predicate RequestButtonsEnabled()
      reads this
    {
      !isLoading
    }

    /** The form fields and preferences a request leaves alone. */
    twostate predicate PreferencesUnchanged()
      reads this
    {
      && persona == old(persona)
      && formatPreference == old(formatPreference)
      && prioritizePopular == old(prioritizePopular)
      && currentUser == old(currentUser)
      && isLoginModalOpen == old(isLoginModalOpen)
      && isUpdatePasswordModalOpen == old(isUpdatePasswordModalOpen)
      && savedRecommendations == old(savedRecommendations)
    }

    method HandleGenreToggle(genre: string)
      modifies this
      ensures selectedGenres == Toggle(old(selectedGenres), genre)
      ensures userPrompt == old(userPrompt) && recommendations == old(recommendations)
      ensures isLoading == old(isLoading) && error == old(error) && isSearchVisible == old(isSearchVisible)
      ensures PreferencesUnchanged()
    {
      selectedGenres := Toggle(selectedGenres, genre);
    }

    /** `generateRecommendations`: hides the search panel, starts loading,
        clears the error and the results, then awaits the call. On success the
        results are the response in the stable order of non-increasing rating;
        on failure they stay empty and the error names the thrown message.
        As written, nothing sets `isLoading` back: whatever the call gives, the
        results grid stays hidden and the request buttons stay disabled. */
    method GenerateRecommendations(options: PromptBuilder.RawRequest,
                                   call: PromptBuilder.RawRequest -> InvokeResult<seq<Rec>>)
      modifies this
      ensures !isSearchVisible && isLoading && !ResultsShown() && !RequestButtonsEnabled()
      ensures match RecommendationsCall(call(options))
              case Success(data) =>
                && recommendations == RatingSort.SortByRatingDesc(data)
                && RatingSort.NonIncreasing(recommendations)
                && multiset(recommendations) == multiset(data)
                && error == None
              case Failure(m) =>
                recommendations == [] && error == Some(RequestFailedMessage(m))
      ensures selectedGenres == old(selectedGenres) && userPrompt == old(userPrompt)
      ensures PreferencesUnchanged()
    {
      isSearchVisible := false;
      isLoading := true;
      error := None;
      recommendations := [];
      var outcome := RecommendationsCall(call(options));
      match outcome {
        case Success(data) =>
          recommendations := SortResult(data);
        case Failure(m) =>
          error := Some(RequestFailedMessage(m));
      }
    }

    /** `generateRecommendations` with the loading flag cleared once the call
        has settled, on either path. The results grid then shows exactly a
        non-empty successful result, and the buttons are usable again. */
    method GenerateRecommendationsSettled(options: PromptBuilder.RawRequest,
                                          call: PromptBuilder.RawRequest -> InvokeResult<seq<Rec>>)
      modifies this
      ensures !isSearchVisible && !isLoading && RequestButtonsEnabled()
      ensures match RecommendationsCall(call(options))
              case Success(data) =>
                && recommendations == RatingSort.SortByRatingDesc(data)
                && RatingSort.NonIncreasing(recommendations)
                && multiset(recommendations) == multiset(data)
                && error == None
                && (ResultsShown() <==> |data| > 0)
              case Failure(m) =>
                recommendations == [] && error == Some(RequestFailedMessage(m)) && !ResultsShown()
      ensures selectedGenres == old(selectedGenres) && userPrompt == old(userPrompt)
      ensures PreferencesUnchanged()
    {
      GenerateRecommendations(options, call);
      isLoading := false;
    }

    /** `handleSubmit`: with no genre and an empty prompt, shows the fixed
        message and the search panel and sends nothing; otherwise sends the
        form. */
    method HandleSubmit(call: PromptBuilder.RawRequest -> InvokeResult<seq<Rec>>)
      returns (sent: Option<PromptBuilder.RawRequest>)
      modifies this
      ensures sent.None? <==> old(selectedGenres) == [] && old(userPrompt) == ""
      ensures sent.None? ==>
                && error == Some(SelectGenreMessage) && isSearchVisible
                && recommendations == old(recommendations) && isLoading == old(isLoading)
      ensures sent.Some? ==>
                && sent.value == SubmitRequest(old(selectedGenres), old(userPrompt), old(persona),
                                               old(formatPreference), old(prioritizePopular))
                && isLoading && !isSearchVisible && !ResultsShown() && !RequestButtonsEnabled()
                && match RecommendationsCall(call(sent.value))
                   case Success(data) => recommendations == RatingSort.SortByRatingDesc(data) && error == None
                   case Failure(m) => recommendations == [] && error == Some(RequestFailedMessage(m))
      ensures selectedGenres == old(selectedGenres) && userPrompt == old(userPrompt)
      ensures PreferencesUnchanged()
    {
      if |selectedGenres| == 0 && userPrompt == "" {
        error := Some(SelectGenreMessage);
        if !isSearchVisible {
          isSearchVisible := true;
        }
        sent := None;
      } else {
        var options := SubmitRequest(selectedGenres, userPrompt, persona, formatPreference, prioritizePopular);
        GenerateRecommendations(options, call);
        sent := Some(options);
      }
    }

    /** `handleSurpriseMe`: clears the genres and the prompt and asks for the
        surprise set with the persona and the format preference only. */
    method HandleSurpriseMe(call: PromptBuilder.RawRequest -> InvokeResult<seq<Rec>>)
      returns (sent: PromptBuilder.RawRequest)
      modifies this
      ensures sent == SurpriseRequest(old(persona), old(formatPreference))
      ensures selectedGenres == [] && userPrompt == ""
      ensures isLoading && !isSearchVisible && !ResultsShown() && !RequestButtonsEnabled()
      ensures match RecommendationsCall(call(sent))
              case Success(data) => recommendations == RatingSort.SortByRatingDesc(data) && error == None
              case Failure(m) => recommendations == [] && error == Some(RequestFailedMessage(m))
      ensures PreferencesUnchanged()
    {
      selectedGenres := [];
      userPrompt := "";
      sent := SurpriseRequest(persona, formatPreference);
      GenerateRecommendations(sent, call);
    }

    /** `handleFindSimilar`: clears the genres and the prompt and asks for titles
        like `title`, with the persona, the format and the popularity toggle. */
    method HandleFindSimilar(title: string, call: PromptBuilder.RawRequest -> InvokeResult<seq<Rec>>)
      returns (sent: PromptBuilder.RawRequest)
      modifies this
      ensures sent == FindSimilarRequest(title, old(persona), old(formatPreference), old(prioritizePopular))
      ensures selectedGenres == [] && userPrompt == ""
      ensures isLoading && !isSearchVisible && !ResultsShown() && !RequestButtonsEnabled()
      ensures match RecommendationsCall(call(sent))
              case Success(data) => recommendations == RatingSort.SortByRatingDesc(data) && error == None
              case Failure(m) => recommendations == [] && error == Some(RequestFailedMessage(m))
      ensures PreferencesUnchanged()
    {
      selectedGenres := [];
      userPrompt := "";
      sent := FindSimilarRequest(title, persona, formatPreference, prioritizePopular);
      GenerateRecommendations(sent, call);
    }

    /** `handleSaveResults`: nothing to do without results, without a user, or
        when an equal set is already saved; otherwise prepends the results, calls
        the save, and on failure filters out every set equal to the results. */
    method HandleSaveResults<D>(save: seq<Rec> -> InvokeResult<D>) returns (sent: Option<seq<Rec>>)
      modifies this
      ensures sent.None? <==> |recommendations| == 0 || currentUser.None? || recommendations in old(savedRecommendations)
      ensures sent.Some? ==> sent.value == recommendations
      ensures savedRecommendations == HistoryAfterSave(old(savedRecommendations), recommendations,
                                                       currentUser.Some?, save(recommendations).InvokeData?)
      ensures sent.Some? && save(recommendations).InvokeError? ==> savedRecommendations == old(savedRecommendations)
      ensures recommendations == old(recommendations) && currentUser == old(currentUser)
      ensures selectedGenres == old(selectedGenres) && userPrompt == old(userPrompt)
      ensures isLoading == old(isLoading) && error == old(error) && isSearchVisible == old(isSearchVisible)
      ensures persona == old(persona) && formatPreference == old(formatPreference)
      ensures prioritizePopular == old(prioritizePopular) && isUpdatePasswordModalOpen == old(isUpdatePasswordModalOpen)
      ensures isLoginModalOpen == old(isLoginModalOpen)
    {
      sent := None;
      if |recommendations| > 0 && currentUser.Some? {
        var isAlreadySaved := recommendations in savedRecommendations;
        if isAlreadySaved {
          return;
        }
        savedRecommendations := [recommendations] + savedRecommendations;
        var result := save(recommendations);
        if result.InvokeError? {
          savedRecommendations := RemoveAll(savedRecommendations, recommendations);
        }
        sent := Some(recommendations);
        SaveOutcomes(old(savedRecommendations), recommendations, true, result.InvokeData?);
      }
    }

    /** The `onAuthStateChange` subscriber: records the session's user and
        opens the password dialog on a recovery event. */
    method OnAuthStateChange(passwordRecovery: bool, user: Option<User>)
      modifies this
      ensures currentUser == user
      ensures isUpdatePasswordModalOpen == (old(isUpdatePasswordModalOpen) || passwordRecovery)
      ensures savedRecommendations == old(savedRecommendations) && recommendations == old(recommendations)
      ensures selectedGenres == old(selectedGenres) && userPrompt == old(userPrompt)
      ensures isLoading == old(isLoading) && error == old(error) && isSearchVisible == old(isSearchVisible)
      ensures persona == old(persona) && formatPreference == old(formatPreference)
      ensures prioritizePopular == old(prioritizePopular) && isLoginModalOpen == old(isLoginModalOpen)
    {
      currentUser := user;
      if passwordRecovery {
        isUpdatePasswordModalOpen := true;
      }
    }

    /** The effect that runs whenever `currentUser` changes: without a user the
        history is cleared; with one it is replaced by the fetched history,
        and left as it was when the fetch throws. */
    method SyncSavedHistory(fetch: InvokeResult<seq<seq<Rec>>>)
      modifies this`savedRecommendations
      ensures currentUser.None? ==> savedRecommendations == []
      ensures currentUser.Some? ==>
                match SavedCall(fetch)
                case Success(h) => savedRecommendations == h
                case Failure(_) => savedRecommendations == old(savedRecommendations)
    {
      if currentUser.Some? {
        var outcome := SavedCall(fetch);
        if outcome.Success? {
          savedRecommendations := outcome.value;
        }
      } else {
        savedRecommendations := [];
      }
    }

    /** The navigation's login button opens the sign-in dialog. */
    method OpenLoginModal()
      modifies this`isLoginModalOpen
      ensures isLoginModalOpen
    {
      isLoginModalOpen := true;
    }

    /** The sign-in dialog's `onClose` and `onLoginSuccess` both close it. */
    method CloseLoginModal()
      modifies this`isLoginModalOpen
      ensures !isLoginModalOpen
    {
      isLoginModalOpen := false;
    }

    /** The password dialog's `onClose`. */
    method ClosePasswordModal()
      modifies this`isUpdatePasswordModalOpen
      ensures !isUpdatePasswordModalOpen
    {
      isUpdatePasswordModalOpen := false;
    }
  }
}
