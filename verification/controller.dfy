/**
 * The HTTP session controller: `POST /api/sessions`, `GET`, `PATCH` and
 * `DELETE /api/sessions/:sessionId`, and `GET /api/sessions/:sessionId/users`.
 *
 * The validation of a request and the choice of status and error code are
 * pure functions; each handler is a method that consults them and then calls
 * the store object, and states its response and the store's new state in
 * terms of the store's specification functions.
 */
module SessionController {
  import opened Values
  import opened SessionStore

  /** The machine-readable `code` of an error response. */
  datatype ErrorCode = InvalidRequest | InvalidLanguage | SessionNotFound

  /** The JSON body of a response. */
  datatype Body =
    | Failure(error: string, code: ErrorCode)
    | Created(session: Session, shareableLink: string)
    | Found(session: Session)
    | Deleted(message: string)
    | Users(users: seq<UserEntry>, count: nat)

  datatype Response = Response(status: nat, body: Body)

  const NotFoundMessage := "Session not found"
  const NoFieldMessage := "At least one field (code, language, or title) must be provided"
  const BadLanguageMessage := "Invalid language specified"
  const DemoDeleteMessage := "Cannot delete demo session"
  const DeletedMessage := "Session deleted successfully"

  const NotFound := Response(404, Failure(NotFoundMessage, SessionNotFound))

  /** `${protocol}://${host}/session/${sessionId}` */
  function ShareableLink(protocol: string, host: string, id: string): (link: string)
    ensures |link| == |protocol| + |host| + |id| + 12
    ensures link[..|protocol|] == protocol && link[|protocol|..|protocol| + 3] == "://"
    ensures link[|protocol| + 3..|protocol| + 3 + |host|] == host
    ensures link[|link| - |id| - 9..|link| - |id|] == "/session/" && link[|link| - |id|..] == id
  {
    protocol + "://" + host + "/session/" + id
  }

  /**
   * The checks `updateSession` makes before it touches the store, in order:
   * some field must be truthy, then a truthy language must be supported.
   */
  function UpdateRejection(body: Patch): (r: Option<Response>)
    ensures r.None? <==>
      (Truthy(body.code) || Truthy(body.language) || Truthy(body.title))
      && (!Truthy(body.language) || body.language.value in Languages)
    ensures r.Some? ==> r.value.status == 400 && r.value.body.Failure?
  {
    if !Truthy(body.code) && !Truthy(body.language) && !Truthy(body.title) then
      Some(Response(400, Failure(NoFieldMessage, InvalidRequest)))
    else if Truthy(body.language) && body.language.value !in Languages then
      Some(Response(400, Failure(BadLanguageMessage, InvalidLanguage)))
    else None
  }

  /** The demo session cannot be deleted through the API. */
  function DeleteRejection(id: string): (r: Option<Response>)
    ensures r.Some? <==> id == DemoId
    ensures r.Some? ==> r.value == Response(400, Failure(DemoDeleteMessage, InvalidRequest))
  {
    if id == DemoId then Some(Response(400, Failure(DemoDeleteMessage, InvalidRequest))) else None
  }

  /** A request without any truthy field is refused for that, whatever its language. */
  lemma FieldCheckComesFirst(body: Patch)
    requires !Truthy(body.code) && !Truthy(body.language) && !Truthy(body.title)
    ensures UpdateRejection(body) == Some(Response(400, Failure(NoFieldMessage, InvalidRequest)))
  {
  }

  /** A non-empty language outside the supported two is refused as such, whatever else is sent. */
  lemma UnsupportedLanguageRefused(body: Patch)
    requires body.language.Some? && body.language.value != "" && body.language.value !in Languages
    ensures UpdateRejection(body) == Some(Response(400, Failure(BadLanguageMessage, InvalidLanguage)))
  {
  }

  /**
   * An accepted update stores every field that was sent, even a falsy one: an
   * empty language next to a truthy code passes both checks and is stored.
   */
  lemma AcceptedUpdateStoresSentFields(st: DbState, id: string, code: string, now: int)
    requires code != "" && id in st.sessions
    ensures var body := Patch(Some(code), Some(""), None);
      && UpdateRejection(body).None?
      && Update(st, id, body, now).value == Some(Update(st, id, body, now).after.sessions[id])
      && Update(st, id, body, now).after.sessions[id].language == ""
      && Update(st, id, body, now).after.sessions[id].code == code
  {
  }

  // ---------------------------------------------------------------------
  // The handlers

  /** `createSession`: always 201 with the stored session and its link. */
  method CreateSession(db: MockDatabase, body: NewFields, id: string, now: int, protocol: string, host: string)
    returns (res: Response)
    requires db.Valid() && id !in db.sessions
    modifies db
    ensures db.Valid()
    ensures var r := Create(old(db.State()), body, id, now, db.ttlMs);
      && db.State() == r.after
      && res == Response(201, Created(r.value, ShareableLink(protocol, host, id)))
  {
    var session := db.CreateSession(body, id, now);
    res := Response(201, Created(session, ShareableLink(protocol, host, session.sessionId)));
  }

  /** `getSession`: the live session, or 404 (an expired one is evicted on the way). */
  method GetSession(db: MockDatabase, id: string, now: int) returns (res: Response)
    requires db.Valid()
    modifies db
    ensures db.Valid()
    ensures var r := Get(old(db.State()), id, now);
      && db.State() == r.after
      && (r.value.None? ==> res == NotFound)
      && (r.value.Some? ==> res == Response(200, Found(r.value.value)))
  {
    var session := db.GetSession(id, now);
    if session.None? {
      return NotFound;
    }
    res := Response(200, Found(session.value));
  }

  /** `updateSession`: refused before the store is consulted, 404, or the merged session. */
  method UpdateSession(db: MockDatabase, id: string, body: Patch, now: int) returns (res: Response)
    requires db.Valid()
    modifies db
    ensures db.Valid()
    ensures UpdateRejection(body).Some? ==> res == UpdateRejection(body).value && db.State() == old(db.State())
    ensures UpdateRejection(body).None? ==>
      var r := Update(old(db.State()), id, body, now);
      && db.State() == r.after
      && (r.value.None? ==> res == NotFound)
      && (r.value.Some? ==> res == Response(200, Found(r.value.value)))
  {
    var rejection := UpdateRejection(body);
    if rejection.Some? {
      return rejection.value;
    }
    var session := db.UpdateSession(id, body, now);
    if session.None? {
      return NotFound;
    }
    res := Response(200, Found(session.value));
  }

  /** `deleteSession`: the demo session is refused, an unknown id is 404. */
  method DeleteSession(db: MockDatabase, id: string) returns (res: Response)
    requires db.Valid()
    modifies db
    ensures db.Valid()
    ensures id == DemoId ==> res == DeleteRejection(id).value && db.State() == old(db.State())
    ensures id != DemoId ==>
      && db.State() == Delete(old(db.State()), id).after
      && id !in db.sessions && id !in db.users
      && (res == NotFound <==> id !in old(db.sessions))
      && (id in old(db.sessions) ==> res == Response(200, Deleted(DeletedMessage)))
  {
    var rejection := DeleteRejection(id);
    if rejection.Some? {
      return rejection.value;
    }
    var deleted := db.DeleteSession(id);
    if !deleted {
      return NotFound;
    }
    res := Response(200, Deleted(DeletedMessage));
  }

  /** `getSessionUsers`: 404 unless the session is live; otherwise every present user, counted. */
  method GetSessionUsers(db: MockDatabase, id: string, now: int) returns (res: Response)
    requires db.Valid()
    modifies db
    ensures db.Valid()
    ensures var r := Get(old(db.State()), id, now);
      && db.State() == r.after
      && (r.value.None? ==> res == NotFound)
      && (r.value.Some? ==>
            && res.status == 200 && res.body.Users?
            && res.body.count == |res.body.users| == |UsersOf(old(db.State()), id)|
            && (forall u | u in UsersOf(old(db.State()), id) :: UserEntry(u, now, now) in res.body.users)
            && (forall e | e in res.body.users :: e.userId in UsersOf(old(db.State()), id)))
  {
    var session := db.GetSession(id, now);
    if session.None? {
      return NotFound;
    }
    var users := db.GetSessionUsers(id, now);
    res := Response(200, Users(users, |users|));
  }
}
