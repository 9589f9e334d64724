/** The save-recommendations edge function
    (supabase/functions/save-recommendations/index.ts): a ladder of early
    returns over the request method, the shape of the body, the caller's
    identity and the result of the insert. The identity lookup and the insert
    are given as inputs; the insert is a function so that the record handed to
    it is visible. */
module SaveEndpoint {
  import opened AnimeTypes

  /** The request body after `req.json()`: unreadable (the parse threw), a JSON
      value that is not an array, or an array of items. */
  datatype Body<D> = Unreadable(message: string) | NotArray | Items(items: seq<D>)

  /** What `auth.getUser()` gave for the bearer token. */
  datatype AuthResult = SignedIn(userId: string) | NoUser | AuthThrew(message: string)

  /** The row handed to the insert into `saved_recommendations`. */
  datatype InsertRecord<D> = InsertRecord(userId: string, recommendations: seq<D>)

  /** The insert's `{ data, error }`: the inserted row, or an error. */
  datatype InsertResult<R> = Inserted(row: R) | InsertFailed(message: string)

  datatype Payload<R> = Text(text: string) | Row(row: R) | ErrorJson(error: string)

  /** The response, and the record that was handed to the insert, if any. */
  datatype SaveResponse<D, R> = SaveResponse(status: int, payload: Payload<R>, inserted: Option<InsertRecord<D>>)

  const InvalidBodyMessage: string := "Invalid request body. Expected an array of recommendations."
  const UnauthorizedMessage: string := "Unauthorized"

  /** The body check: an array with at least one element. */
  predicate ValidBody<D>(body: Body<D>) {
    body.Items? && |body.items| > 0
  }

  function HandleSave<D, R>(httpMethod: string, body: Body<D>, auth: AuthResult,
                            insert: InsertRecord<D> -> InsertResult<R>): (r: SaveResponse<D, R>)
    // the preflight answers before the body is read
    ensures httpMethod == "OPTIONS" ==> r == SaveResponse(200, Text("ok"), None)
    // an unreadable body is a thrown error
    ensures httpMethod != "OPTIONS" && body.Unreadable? ==> r == SaveResponse(500, ErrorJson(body.message), None)
    // a non-array or empty array is refused before anyone is asked who the caller is
    ensures httpMethod != "OPTIONS" && !body.Unreadable? && !ValidBody(body) ==>
              r == SaveResponse(400, ErrorJson(InvalidBodyMessage), None)
    // no user: 401 and nothing inserted
    ensures httpMethod != "OPTIONS" && ValidBody(body) && auth.NoUser? ==>
              r == SaveResponse(401, ErrorJson(UnauthorizedMessage), None)
    ensures httpMethod != "OPTIONS" && ValidBody(body) && auth.AuthThrew? ==>
              r == SaveResponse(500, ErrorJson(auth.message), None)
    // the record carries the caller's id and the body unchanged
    ensures r.inserted.Some? <==> httpMethod != "OPTIONS" && ValidBody(body) && auth.SignedIn?
    ensures r.inserted.Some? ==> r.inserted.value == InsertRecord(auth.userId, body.items)
    ensures r.inserted.Some? ==>
              match insert(r.inserted.value)
              case Inserted(row) => r.status == 201 && r.payload == Row(row)
              case InsertFailed(m) => r.status == 500 && r.payload == ErrorJson(m)
    ensures r.status == 201 <==> r.inserted.Some? && insert(r.inserted.value).Inserted?
  {
    if httpMethod == "OPTIONS" then SaveResponse(200, Text("ok"), None)
    else match body
      case Unreadable(m) => SaveResponse(500, ErrorJson(m), None)
      case NotArray => SaveResponse(400, ErrorJson(InvalidBodyMessage), None)
      case Items(items) =>
        if |items| == 0 then SaveResponse(400, ErrorJson(InvalidBodyMessage), None)
        else match auth
          case AuthThrew(m) => SaveResponse(500, ErrorJson(m), None)
          case NoUser => SaveResponse(401, ErrorJson(UnauthorizedMessage), None)
          case SignedIn(id) =>
            var record := InsertRecord(id, items);
            match insert(record)
            case Inserted(row) => SaveResponse(201, Row(row), Some(record))
            case InsertFailed(m) => SaveResponse(500, ErrorJson(m), Some(record))
  }

  /** Ordering of the ladder: a bad body decides the answer whatever the identity
      lookup and the insert would have given; a missing user decides it whatever
      the insert would have given. */
  lemma ChecksInOrder<D, R>(httpMethod: string, body: Body<D>, a1: AuthResult, a2: AuthResult,
                            i1: InsertRecord<D> -> InsertResult<R>, i2: InsertRecord<D> -> InsertResult<R>)
    ensures httpMethod == "OPTIONS" || !ValidBody(body) ==>
              HandleSave(httpMethod, body, a1, i1) == HandleSave(httpMethod, body, a2, i2)
    ensures a1.NoUser? && a2.NoUser? ==>
              HandleSave(httpMethod, body, a1, i1) == HandleSave(httpMethod, body, a2, i2)
  {
  }
}
