/** The get-recommendations edge function (supabase/functions/get-recommendations/index.ts):
    defaults for a missing request field, the choice of one of three base
    templates, the popularity and format clauses appended to it, the persona
    lookup for the system instruction, and the mapping of every failure to a
    500 response. The language-model call itself is a parameter. */
module PromptBuilder {
  import opened AnimeTypes

  // ---------------------------------------------------------------------------
  // Strings

  /** `t` occurs in `s` starting at index `i`. */
  ghost predicate OccursAt(s: string, t: string, i: int) {
    0 <= i && i + |t| <= |s| && s[i..i + |t|] == t
  }

  /** `t` occurs in `s` as a contiguous piece. */
  ghost predicate Contains(s: string, t: string) {
    exists i :: OccursAt(s, t, i)
  }

  lemma ContainsSelf(t: string)
    ensures Contains(t, t)
  {
    assert OccursAt(t, t, 0);
  }

  /** Containment survives text put in front. */
  lemma ContainsPrepend(s: string, t: string, before: string)
    requires Contains(s, t)
    ensures Contains(before + s, t)
  {
    var i :| OccursAt(s, t, i);
    assert (before + s)[|before| + i..|before| + i + |t|] == s[i..i + |t|];
    assert OccursAt(before + s, t, |before| + i);
  }

  /** Containment survives text put behind. */
  lemma ContainsAppend(s: string, t: string, after: string)
    requires Contains(s, t)
    ensures Contains(s + after, t)
  {
    var i :| OccursAt(s, t, i);
    assert (s + after)[i..i + |t|] == s[i..i + |t|];
    assert OccursAt(s + after, t, i);
  }

  /** JavaScript's `Array.prototype.join` over strings. */
  function Join(parts: seq<string>, sep: string): string {
    if |parts| == 0 then ""
    else if |parts| == 1 then parts[0]
    else parts[0] + sep + Join(parts[1..], sep)
  }

  /** Every joined part occurs in the joined string. */
  lemma {:induction false} JoinContainsPart(parts: seq<string>, sep: string, k: nat)
    requires k < |parts|
    ensures Contains(Join(parts, sep), parts[k])
  {
    if |parts| == 1 {
      ContainsSelf(parts[0]);
    } else if k == 0 {
      ContainsSelf(parts[0]);
      ContainsAppend(parts[0], parts[0], sep);
      ContainsAppend(parts[0] + sep, parts[0], Join(parts[1..], sep));
    } else {
      JoinContainsPart(parts[1..], sep, k - 1);
      ContainsPrepend(Join(parts[1..], sep), parts[k], parts[0] + sep);
    }
  }

  /** Each part with the separator in front of it, concatenated. */
  function Separated(parts: seq<string>, sep: string): string {
    if parts == [] then "" else sep + parts[0] + Separated(parts[1..], sep)
  }

  /** Joining a head with further parts is the head followed by each part after a separator. */
  lemma {:induction false} JoinHead(head: string, tail: seq<string>, sep: string)
    ensures Join([head] + tail, sep) == head + Separated(tail, sep)
    decreases |tail|
  {
    if tail != [] {
      assert ([head] + tail)[1..] == [tail[0]] + tail[1..];
      JoinHead(tail[0], tail[1..], sep);
    }
  }

  /** Separating two lists one after the other is separating their concatenation. */
  lemma {:induction false} SeparatedAppend(xs: seq<string>, ys: seq<string>, sep: string)
    ensures Separated(xs + ys, sep) == Separated(xs, sep) + Separated(ys, sep)
  {
    if xs != [] {
      assert (xs + ys)[1..] == xs[1..] + ys;
      SeparatedAppend(xs[1..], ys, sep);
    } else {
      assert xs + ys == ys;
    }
  }

  // ---------------------------------------------------------------------------
  // The request body and its defaults

  /** The JSON body as it arrives: any field may be missing. */
  datatype RawRequest = RawRequest(
    genres: Option<seq<string>>,
    prompt: Option<string>,
    surpriseMe: Option<bool>,
    findSimilarTo: Option<string>,
    persona: Option<Persona>,
    formatPreference: Option<FormatPreference>,
    prioritizePopular: Option<bool>)

  /** The destructured options. `findSimilarTo` has no default and stays optional. */
  datatype Options = Options(
    genres: seq<string>,
    prompt: string,
    surpriseMe: bool,
    findSimilarTo: Option<string>,
    persona: Persona,
    formatPreference: FormatPreference,
    prioritizePopular: bool)

  function OrElse<T>(o: Option<T>, default: T): T {
    match o
    case Some(v) => v
    case None => default
  }

  /** The destructuring with defaults at the top of the handler. */
  function WithDefaults(raw: RawRequest): (o: Options)
    ensures raw.genres == None ==> o.genres == []
    ensures raw.prompt == None ==> o.prompt == ""
    ensures raw.surpriseMe == None ==> !o.surpriseMe
    ensures raw.persona == None ==> o.persona == Otaku
    ensures raw.formatPreference == None ==> o.formatPreference == Any
    ensures raw.prioritizePopular == None ==> !o.prioritizePopular
    ensures raw.genres.Some? ==> o.genres == raw.genres.value
    ensures raw.prompt.Some? ==> o.prompt == raw.prompt.value
    ensures raw.surpriseMe.Some? ==> o.surpriseMe == raw.surpriseMe.value
    ensures o.findSimilarTo == raw.findSimilarTo
    ensures raw.persona.Some? ==> o.persona == raw.persona.value
    ensures raw.formatPreference.Some? ==> o.formatPreference == raw.formatPreference.value
    ensures raw.prioritizePopular.Some? ==> o.prioritizePopular == raw.prioritizePopular.value
  {
    Options(
      OrElse(raw.genres, []),
      OrElse(raw.prompt, ""),
      OrElse(raw.surpriseMe, false),
      raw.findSimilarTo,
      OrElse(raw.persona, Otaku),
      OrElse(raw.formatPreference, Any),
      OrElse(raw.prioritizePopular, false))
  }

  // ---------------------------------------------------------------------------
  // Base templates

  /** The opening every base template shares. */
  const RecommendExactly6: string := "Please recommend exactly 6 "

  const SurpriseRest: string :=
    "popular and critically acclaimed anime from a diverse range of genres. These should be great starting points for someone new to anime or someone looking for a proven classic or a modern hit."
  const SimilarityRest: string := "anime series or movies that are similar in theme, tone, or style to "
  const PreferencesRest: string := "anime series or movies based on the user's preferences."
  const PreferencesTail: string :=
    "Prioritize well-regarded or popular anime that fit the criteria. Avoid overly niche or obscure titles unless they are a perfect fit for a very specific prompt."
  const GenresLead: string := "The user is interested in the following genres: "
  const DescriptionLead: string := "The user also provided this description of what they're for: "

  function Quoted(s: string): string {
    "\"" + s + "\""
  }

  const SurpriseBase: string := RecommendExactly6 + SurpriseRest

  function SimilarityBase(title: string): string {
    RecommendExactly6 + SimilarityRest + Quoted(title) + "."
  }

  /** The genre sentence, present only when some genre is selected. */
  function GenreText(genres: seq<string>): string {
    if |genres| > 0 then GenresLead + Join(genres, ", ") + "." else ""
  }

  /** The description sentence, present only when the prompt is not empty. */
  function PromptText(prompt: string): string {
    if prompt != "" then DescriptionLead + Quoted(prompt) + "." else ""
  }

  /** Empty sentences leave the spaces around them in place. */
  function PreferencesBase(genres: seq<string>, prompt: string): string {
    RecommendExactly6 + PreferencesRest + " " + GenreText(genres) + " " + PromptText(prompt) + " " + PreferencesTail
  }

  /** Which base template a request gets. */
  datatype Mode = Similar(title: string) | Surprise | Preferences

  /** `findSimilarTo` is tested for truthiness: the empty string falls through. */
  function ModeOf(o: Options): Mode {
    if o.findSimilarTo.Some? && o.findSimilarTo.value != "" then Similar(o.findSimilarTo.value)
    else if o.surpriseMe then Surprise
    else Preferences
  }

  function BasePrompt(o: Options): string {
    match ModeOf(o)
    case Similar(t) => SimilarityBase(t)
    case Surprise => SurpriseBase
    case Preferences => PreferencesBase(o.genres, o.prompt)
  }

  /** A non-empty title wins over everything, then `surpriseMe`, then genres and prompt. */
  lemma ModePrecedence(o: Options)
    ensures o.findSimilarTo.Some? && o.findSimilarTo.value != "" ==>
              BasePrompt(o) == SimilarityBase(o.findSimilarTo.value)
    ensures (o.findSimilarTo == None || o.findSimilarTo == Some("")) && o.surpriseMe ==>
              BasePrompt(o) == SurpriseBase
    ensures (o.findSimilarTo == None || o.findSimilarTo == Some("")) && !o.surpriseMe ==>
              BasePrompt(o) == PreferencesBase(o.genres, o.prompt)
  {
  }

  /** Every base template opens by asking for exactly 6 titles. */
  lemma BaseAsksForSix(o: Options)
    ensures RecommendExactly6 <= BasePrompt(o)
  {
  }

  /** The similarity template holds the title verbatim between double quotes. */
  lemma SimilarityQuotesTitle(title: string)
    ensures Contains(SimilarityBase(title), Quoted(title))
  {
    ContainsSelf(Quoted(title));
    ContainsPrepend(Quoted(title), Quoted(title), RecommendExactly6 + SimilarityRest);
    ContainsAppend(RecommendExactly6 + SimilarityRest + Quoted(title), Quoted(title), ".");
  }

  /** With neither genres nor a description, the separating spaces stay in
      place: the template holds three spaces in a row. */
  lemma EmptyPreferencesKeepSpaces()
    ensures Contains(PreferencesBase([], ""), "   ")
  {
    var lead := RecommendExactly6 + PreferencesRest;
    ContainsSelf("   ");
    ContainsPrepend("   ", "   ", lead);
    ContainsAppend(lead + "   ", "   ", PreferencesTail);
    assert lead + " " + "" + " " + "" + " " + PreferencesTail == lead + "   " + PreferencesTail;
  }

  /** Every selected genre, and a non-empty description in quotes, reach the preferences template. */
  lemma PreferencesMentionInputs(genres: seq<string>, prompt: string)
    ensures forall k :: 0 <= k < |genres| ==> Contains(PreferencesBase(genres, prompt), genres[k])
    ensures prompt != "" ==> Contains(PreferencesBase(genres, prompt), Quoted(prompt))
  {
    var lead := RecommendExactly6 + PreferencesRest + " ";
    var g, p := GenreText(genres), PromptText(prompt);
    forall k | 0 <= k < |genres|
      ensures Contains(PreferencesBase(genres, prompt), genres[k])
    {
      var x := genres[k];
      JoinContainsPart(genres, ", ", k);
      ContainsPrepend(Join(genres, ", "), x, GenresLead);
      ContainsAppend(GenresLead + Join(genres, ", "), x, ".");
      ContainsPrepend(g, x, lead);
      ContainsAppend(lead + g, x, " ");
      ContainsAppend(lead + g + " ", x, p);
      ContainsAppend(lead + g + " " + p, x, " ");
      ContainsAppend(lead + g + " " + p + " ", x, PreferencesTail);
    }
    if prompt != "" {
      var q := Quoted(prompt);
      ContainsSelf(q);
      ContainsPrepend(q, q, DescriptionLead);
      ContainsAppend(DescriptionLead + q, q, ".");
      ContainsPrepend(p, q, lead + g + " ");
      ContainsAppend(lead + g + " " + p, q, " ");
      ContainsAppend(lead + g + " " + p + " ", q, PreferencesTail);
    }
  }

  // ---------------------------------------------------------------------------
  // Clauses appended to the base

  const PopularClause: string := "Focus on highly popular and well-regarded anime."
  const SubbedClause: string :=
    "The recommendations should preferably be available with original Japanese audio and English subtitles."
  const DubbedClause: string := "The recommendations should preferably be available with an English dub."

  /** The `promptAdditions` list, built by two conditional pushes. */
  function PromptAdditions(o: Options): seq<string> {
    (if o.prioritizePopular && !o.surpriseMe then [PopularClause] else [])
    + (match o.formatPreference
       case Subbed => [SubbedClause]
       case Dubbed => [DubbedClause]
       case Any => [])
  }

  /** The popularity clause is keyed on the flags, not on the mode; the format
      clause on the preference alone; popularity comes first. */
  lemma AdditionsChosen(o: Options)
    ensures PopularClause in PromptAdditions(o) <==> o.prioritizePopular && !o.surpriseMe
    ensures SubbedClause in PromptAdditions(o) <==> o.formatPreference == Subbed
    ensures DubbedClause in PromptAdditions(o) <==> o.formatPreference == Dubbed
    ensures |PromptAdditions(o)| == 2 ==> PromptAdditions(o)[0] == PopularClause
  {
    assert |PopularClause| == 48 && |SubbedClause| == 102 && |DubbedClause| == 71;
  }

  /** The popularity sentence as it ends up after the base, with its separating space. */
  function PopularSuffix(o: Options): string {
    if o.prioritizePopular && !o.surpriseMe then " " + PopularClause else ""
  }

  /** The format sentence as it ends up after the popularity sentence. */
  function FormatSuffix(f: FormatPreference): string {
    match f
    case Subbed => " " + SubbedClause
    case Dubbed => " " + DubbedClause
    case Any => ""
  }

  /** The user instruction sent as `contents`. */
  function UserPrompt(o: Options): string {
    Join([BasePrompt(o)] + PromptAdditions(o), " ")
  }

  /** The full prompt is the base, then the popularity clause, then the format
      clause, each after a single space. */
  lemma UserPromptShape(o: Options)
    ensures UserPrompt(o) == BasePrompt(o) + (PopularSuffix(o) + FormatSuffix(o.formatPreference))
  {
    var pop := if o.prioritizePopular && !o.surpriseMe then [PopularClause] else [];
    var fmt := match o.formatPreference
               case Subbed => [SubbedClause]
               case Dubbed => [DubbedClause]
               case Any => [];
    JoinHead(BasePrompt(o), pop + fmt, " ");
    SeparatedAppend(pop, fmt, " ");
    assert Separated(pop, " ") == PopularSuffix(o);
    assert Separated(fmt, " ") == FormatSuffix(o.formatPreference);
  }

  /** So the base is always a prefix of the prompt. */
  lemma BaseIsPrefix(o: Options)
    ensures BasePrompt(o) <= UserPrompt(o)
  {
    UserPromptShape(o);
  }

  // ---------------------------------------------------------------------------
  // System instruction

  const JsonFormatSentence: string := "You must return the data in the specified JSON format."

  const OtakuTone: string :=
    "You are an AI expert on Japanese anime, a super enthusiastic Otaku! Your tone is energetic, knowledgeable, and you love sharing popular hits and hidden gems."
  const CriticTone: string :=
    "You are a seasoned AI anime critic. Your tone is formal, analytical, and insightful, focusing on storytelling, artistic merit, and critical acclaim."
  const VeteranTone: string :=
    "You are a chill, veteran AI anime fan. Your tone is laid-back, casual, and friendly. You recommend shows that are great to relax with and have good vibes, like you're talking to a friend."

  /** The `PERSONA_INSTRUCTIONS` table. */
  function SystemInstruction(p: Persona): string {
    match p
    case Otaku => OtakuTone + " " + JsonFormatSentence
    case Critic => CriticTone + " " + JsonFormatSentence
    case Veteran => VeteranTone + " " + JsonFormatSentence
  }

  /** Three distinct instructions, each ending in the JSON-format sentence. */
  lemma SystemInstructionsDistinct(p: Persona, q: Persona)
    ensures p != q ==> SystemInstruction(p) != SystemInstruction(q)
    ensures |SystemInstruction(p)| > |JsonFormatSentence|
    ensures SystemInstruction(p)[|SystemInstruction(p)| - |JsonFormatSentence|..] == JsonFormatSentence
  {
    assert |OtakuTone| == 157 && |CriticTone| == 148 && |VeteranTone| == 187;
  }

  /** The persona never reaches the user instruction. */
  lemma PersonaOnlyInSystemInstruction(o: Options, p: Persona)
    ensures UserPrompt(o.(persona := p)) == UserPrompt(o)
  {
  }

  /** What is handed to the model: system instruction and contents. */
  datatype Prompt = Prompt(systemInstruction: string, contents: string)

  function BuildPrompt(o: Options): Prompt {
    Prompt(SystemInstruction(o.persona), UserPrompt(o))
  }

  // ---------------------------------------------------------------------------
  // The handler

  /** What awaiting the model and parsing its text gave: parsed JSON, a missing
      response, or a thrown error (a failed call or unparsable text). */
  datatype ModelReply<D> = Reply(data: D) | NoResponse | Threw(message: string)

  datatype Payload<D> = Text(text: string) | Json(data: D) | ErrorJson(error: string)

  datatype Response<D> = Response(status: int, payload: Payload<D>)

  const MissingKeyMessage: string := "GEMINI_API_KEY is not set in Supabase environment variables."
  const NoResponseMessage: string := "The model did not return a response."

  /** One request: `body` is the outcome of reading the JSON body, `hasApiKey`
      whether the environment holds the key, `model` the call to the model. */
  function HandleRequest<D>(httpMethod: string, body: Outcome<RawRequest>, hasApiKey: bool,
                            model: Prompt -> ModelReply<D>): (r: Response<D>)
    ensures httpMethod == "OPTIONS" ==> r == Response(200, Text("ok"))
    ensures httpMethod != "OPTIONS" ==> r.status == 200 || r.status == 500
    ensures r.status == 500 ==> r.payload.ErrorJson?
    ensures httpMethod != "OPTIONS" && body.Failure? ==> r == Response(500, ErrorJson(body.message))
    ensures httpMethod != "OPTIONS" && body.Success? && !hasApiKey ==> r == Response(500, ErrorJson(MissingKeyMessage))
    ensures httpMethod != "OPTIONS" && body.Success? && hasApiKey ==>
              var reply := model(BuildPrompt(WithDefaults(body.value)));
              && (reply.Reply? ==> r == Response(200, Json(reply.data)))
              && (reply.NoResponse? ==> r == Response(500, ErrorJson(NoResponseMessage)))
              && (reply.Threw? ==> r == Response(500, ErrorJson(reply.message)))
  {
    if httpMethod == "OPTIONS" then Response(200, Text("ok"))
    else match body
      case Failure(m) => Response(500, ErrorJson(m))
      case Success(raw) =>
        if !hasApiKey then Response(500, ErrorJson(MissingKeyMessage))
        else match model(BuildPrompt(WithDefaults(raw)))
          case Reply(data) => Response(200, Json(data))
          case NoResponse => Response(500, ErrorJson(NoResponseMessage))
          case Threw(m) => Response(500, ErrorJson(m))
  }
}
