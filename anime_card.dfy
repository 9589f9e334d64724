/** One result card (components/AnimeCard.tsx): the synopsis shortened to 120
    characters behind a Read More / Read Less toggle, the rating badge, and the
    Find Similar button that hands the card's title to the page. */
module AnimeCardView {
  import opened AnimeTypes
  import AppState
  import PromptBuilder

  const SynopsisTruncateLength: nat := 120
  const Ellipsis: string := "..."

  /** A synopsis is shortened only when it is longer than the limit. */
  predicate IsTruncatable(synopsis: string) {
    |synopsis| > SynopsisTruncateLength
  }

  /** `displayedSynopsis`: the first 120 characters and an ellipsis while
      collapsed, the whole synopsis otherwise. */
  function DisplayedSynopsis(synopsis: string, expanded: bool): string {
    if IsTruncatable(synopsis) && !expanded then synopsis[..SynopsisTruncateLength] + Ellipsis
    else synopsis
  }

  /** A collapsed long synopsis shows 123 characters: the synopsis's first 120
      and the ellipsis. A synopsis of at most 120 characters, or an expanded
      one, is shown whole. */
  lemma DisplayedSynopsisSpec(synopsis: string, expanded: bool)
    ensures IsTruncatable(synopsis) && !expanded ==>
              && |DisplayedSynopsis(synopsis, expanded)| == 123
              && DisplayedSynopsis(synopsis, expanded)[..120] == synopsis[..120]
              && DisplayedSynopsis(synopsis, expanded)[120..] == Ellipsis
    ensures !IsTruncatable(synopsis) || expanded ==> DisplayedSynopsis(synopsis, expanded) == synopsis
  {
    if IsTruncatable(synopsis) && !expanded {
      var shown := synopsis[..120] + Ellipsis;
      assert shown[..120] == synopsis[..120];
      assert shown[120..] == Ellipsis;
    }
  }

  class AnimeCard {
    const anime: AnimeRecommendation
    var isSynopsisExpanded: bool

    constructor (anime: AnimeRecommendation)
      ensures this.anime == anime && !isSynopsisExpanded
    {
      this.anime := anime;
      isSynopsisExpanded := false;
    }

    function Displayed(): string
      reads this
    {
      DisplayedSynopsis(anime.synopsis, isSynopsisExpanded)
    }

    /** The toggle's label, or `None` when no toggle is rendered. */
    function ToggleLabel(): (caption: Option<string>)
      reads this
      ensures caption.Some? <==> IsTruncatable(anime.synopsis)
      ensures caption.Some? ==> (caption.value == "Read Less" <==> isSynopsisExpanded)
    {
      if IsTruncatable(anime.synopsis) then Some(if isSynopsisExpanded then "Read Less" else "Read More")
      else None
    }

    /** The badge is rendered when the rating is truthy: a rating of 0 is
        hidden, and every other rating is shown. */
    predicate ShowsRatingBadge(): (shown: bool)
      reads this
      ensures anime.rating == 0.0 ==> !shown
      ensures anime.rating != 0.0 ==> shown
    {
      anime.rating != 0.0
    }

    /** The toggle button exists only for a long synopsis; a click flips the flag. */
    method ToggleSynopsis()
      requires IsTruncatable(anime.synopsis)
      modifies this
      ensures isSynopsisExpanded == !old(isSynopsisExpanded)
      ensures old(isSynopsisExpanded) ==> |Displayed()| == 123
      ensures !old(isSynopsisExpanded) ==> Displayed() == anime.synopsis
    {
      isSynopsisExpanded := !isSynopsisExpanded;
      DisplayedSynopsisSpec(anime.synopsis, isSynopsisExpanded);
    }

    /** The Find Similar button passes exactly the card's title to the page's handler. */
    method ClickFindSimilar(page: AppState.App, call: PromptBuilder.RawRequest -> AppState.InvokeResult<seq<AnimeRecommendation>>)
      returns (sent: PromptBuilder.RawRequest)
      modifies page
      ensures sent == AppState.FindSimilarRequest(anime.title, old(page.persona), old(page.formatPreference),
                                                  old(page.prioritizePopular))
      ensures page.selectedGenres == [] && page.userPrompt == ""
    {
      sent := page.HandleFindSimilar(anime.title, call);
    }
  }
}
