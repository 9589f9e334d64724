/** The records and enumerations shared by the client and the edge functions
    (types.ts), and the small wrappers used to model remote calls. */
module AnimeTypes {

  /** One recommendation as the language model returns it. `rating` is a
      JavaScript number; it is modelled as a `real` (NaN is not modelled). */
  datatype AnimeRecommendation = AnimeRecommendation(
    title: string,
    synopsis: string,
    genres: seq<string>,
    reason: string,
    rating: real)

  /** The tone of the system instruction. */
  datatype Persona = Otaku | Critic | Veteran

  /** The audio/subtitle preference. */
  datatype FormatPreference = Any | Subbed | Dubbed

  datatype Option<+T> = None | Some(value: T)

  /** The result of an awaited call: its value, or the message of the error it threw. */
  datatype Outcome<+T> = Success(value: T) | Failure(message: string)

  /** The banner flags of a dialog form: the error shown, whether the submit is
      in flight, and the success message shown. */
  datatype FormStatus = FormStatus(error: Option<string>, isLoading: bool, successMessage: Option<string>)
}
