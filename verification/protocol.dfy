/**
 * The real-time protocol of the code pad: the socket.io connection handlers
 * (`join_session`, `leave_session`, `code_update`, `language_change`,
 * `execution_result`, `typing_start`, `typing_stop`, `disconnect`).
 *
 * The server keeps a map from socket id to the user and session that socket
 * joined, the socket.io room of each session (the sockets that joined it) and
 * the session store.  Every emit is recorded in an outbox as a delivery: the
 * set of sockets it reaches and the event with its payload.  `socket.emit`
 * reaches the sender only, `socket.to(room)` the room without the sender and
 * `io.to(room)` the whole room.
 *
 * As for the store, each handler is first given as a function over a value
 * `Hub` returning the new hub and the deliveries it sends; the class
 * `SocketServer` then runs each handler as one atomic method over its fields
 * and the store object, proved to match the function.
 */
module Protocol {
  import opened Values
  import opened SessionStore

  type SocketId = string

  /** The entry of `connectedUsers` for a socket. */
  datatype UserInfo = UserInfo(userId: string, sessionId: string)

  /**
   * The fields a client may put in an event's payload; each is absent unless
   * sent.  Handlers read only the fields they use.
   */
  datatype Payload = Payload(
    sessionId: Option<string>,
    userId: Option<string>,
    code: Option<string>,
    language: Option<string>,
    result: Option<string>,
    timestamp: Option<int>)

  /** The events the server emits, with their payloads. */
  datatype Event =
    | Error(message: string)
    | FullSync(code: string, language: string, activeUsers: nat)
    | UserJoined(joinedUserId: string, activeUsers: nat)
    | UserLeft(leftUserId: string, activeUsers: nat)
    | CodeSync(syncedCode: string, byUserId: string, timestamp: int)
    | LanguageUpdated(newLanguage: string, changedByUserId: string, clearOutput: bool)
    | ExecutionResultSync(result: string, ranByUserId: string, timestamp: int)
    | TypingStarted(typistId: string)
    | TypingStopped(typistId: string)

  /** One emit: the sockets it reaches and what they receive. */
  datatype Delivery = Delivery(to: set<SocketId>, event: Event)

  const MissingIds := "Session ID and User ID are required"
  const UnknownSession := "Session not found"
  const JoinFailed := "Failed to join session"
  const BadCodeUpdate := "Invalid code update data"
  const CodeUpdateFailed := "Failed to update code"
  const BadLanguageChange := "Invalid language change data"
  const UnsupportedLanguage := "Invalid language"
  const LanguageChangeFailed := "Failed to change language"
  const BadExecutionResult := "Invalid execution result data"
  const BroadcastFailed := "Failed to broadcast execution result"

  /** Everything the handlers read and change: the store, `connectedUsers` and the rooms. */
  datatype Hub = Hub(db: DbState, connected: map<SocketId, UserInfo>, rooms: map<string, set<SocketId>>)

  /** A handler's effect: the hub after it and the deliveries it sent, in order. */
  datatype Step = Step(hub: Hub, sent: seq<Delivery>)

  /** The sockets in a room; a room nobody joined is empty. */
  function Room(rooms: map<string, set<SocketId>>, room: string): set<SocketId>
  {
    if room in rooms then rooms[room] else {}
  }

  /** `socket.join(room)` */
  function Enter(rooms: map<string, set<SocketId>>, sock: SocketId, room: string): (r: map<string, set<SocketId>>)
    ensures Room(r, room) == Room(rooms, room) + {sock}
    ensures forall other | other != room :: Room(r, other) == Room(rooms, other)
  {
    rooms[room := Room(rooms, room) + {sock}]
  }

  /** `socket.leave(room)` */
  function Exit(rooms: map<string, set<SocketId>>, sock: SocketId, room: string): (r: map<string, set<SocketId>>)
    ensures Room(r, room) == Room(rooms, room) - {sock}
    ensures forall other | other != room :: Room(r, other) == Room(rooms, other)
  {
    if room in rooms then rooms[room := rooms[room] - {sock}] else rooms
  }

  /** What socket.io does to a closing socket before its `disconnect` handler runs: it leaves every room. */
  function ExitAll(rooms: map<string, set<SocketId>>, sock: SocketId): (r: map<string, set<SocketId>>)
    ensures forall room :: Room(r, room) == Room(rooms, room) - {sock}
  {
    map room | room in rooms :: rooms[room] - {sock}
  }

  /** An error reported to the sender alone, changing nothing. */
  function Reject(h: Hub, sock: SocketId, message: string): Step
  {
    Step(h, [Delivery({sock}, Error(message))])
  }

  // ---------------------------------------------------------------------
  // The handlers

  /** `join_session` */
  function JoinStep(h: Hub, sock: SocketId, data: Option<Payload>, now: int): (r: Step)
    ensures 1 <= |r.sent| <= 2 && r.sent[0].to == {sock}
    ensures r.sent[0].event.Error? ==>
      |r.sent| == 1 && r.hub.connected == h.connected && r.hub.rooms == h.rooms
    ensures !r.sent[0].event.Error? ==>
      && r.sent[0].event.FullSync? && sock in r.hub.connected
      && sock in Room(r.hub.rooms, r.hub.connected[sock].sessionId)
      && r.hub.connected[sock].userId in UsersOf(r.hub.db, r.hub.connected[sock].sessionId)
  {
    if data.None? then Reject(h, sock, JoinFailed)
    else if !Truthy(data.value.sessionId) || !Truthy(data.value.userId) then Reject(h, sock, MissingIds)
    else
      var sid, uid := data.value.sessionId.value, data.value.userId.value;
      var looked := Get(h.db, sid, now);
      if looked.value.None? then Reject(h.(db := looked.after), sock, UnknownSession)
      else
        var session := looked.value.value;
        var rooms := Enter(h.rooms, sock, sid);
        var joined := Join(looked.after, sid, uid);
        Step(Hub(joined.after, h.connected[sock := UserInfo(uid, sid)], rooms),
             [Delivery({sock}, FullSync(session.code, session.language, joined.value)),
              Delivery(Room(rooms, sid) - {sock}, UserJoined(uid, joined.value))])
  }

  /** `leave_session`: missing fields, or no payload at all, are ignored without a reply. */
  function LeaveStep(h: Hub, sock: SocketId, data: Option<Payload>): (r: Step)
    ensures |r.sent| <= 1
    ensures r.sent == [] ==> r.hub == h
    ensures r.sent != [] ==>
      && sock !in r.hub.connected && sock !in r.sent[0].to && r.sent[0].event.UserLeft?
      && r.hub.connected == h.connected - {sock}
  {
    if data.None? || !Truthy(data.value.sessionId) || !Truthy(data.value.userId) then Step(h, [])
    else
      var sid, uid := data.value.sessionId.value, data.value.userId.value;
      var rooms := Exit(h.rooms, sock, sid);
      var left := Leave(h.db, sid, uid);
      Step(Hub(left.after, h.connected - {sock}, rooms),
           [Delivery(Room(rooms, sid) - {sock}, UserLeft(uid, left.value))])
  }

  /** `code_update`: an empty code is allowed, an absent one is not. */
  function CodeUpdateStep(h: Hub, sock: SocketId, data: Option<Payload>, now: int): (r: Step)
    ensures |r.sent| == 1
    ensures r.hub.connected == h.connected && r.hub.rooms == h.rooms && r.hub.db.users == h.db.users
    ensures r.hub.db.sessions.Keys == h.db.sessions.Keys
    ensures r.sent[0].event.Error? ==> r.sent[0].to == {sock} && r.hub == h
    ensures !r.sent[0].event.Error? ==> r.sent[0].event.CodeSync? && sock !in r.sent[0].to
  {
    if data.None? then Reject(h, sock, CodeUpdateFailed)
    else
      var p := data.value;
      if !Truthy(p.sessionId) || p.code.None? || !Truthy(p.userId) then Reject(h, sock, BadCodeUpdate)
      else
        var sid := p.sessionId.value;
        var updated := Update(h.db, sid, Patch(p.code, None, None), now);
        Step(h.(db := updated.after),
             [Delivery(Room(h.rooms, sid) - {sock}, CodeSync(p.code.value, p.userId.value, StampOr(p.timestamp, now)))])
  }

  /** `language_change` */
  function LanguageChangeStep(h: Hub, sock: SocketId, data: Option<Payload>, now: int): (r: Step)
    ensures |r.sent| == 1
    ensures r.hub.connected == h.connected && r.hub.rooms == h.rooms && r.hub.db.users == h.db.users
    ensures r.hub.db.sessions.Keys == h.db.sessions.Keys
    ensures r.sent[0].event.Error? ==> r.sent[0].to == {sock} && r.hub == h
    ensures !r.sent[0].event.Error? ==>
      r.sent[0].event.LanguageUpdated? && r.sent[0].event.newLanguage in Languages && r.sent[0].event.clearOutput
  {
    if data.None? then Reject(h, sock, LanguageChangeFailed)
    else
      var p := data.value;
      if !Truthy(p.sessionId) || !Truthy(p.language) || !Truthy(p.userId) then Reject(h, sock, BadLanguageChange)
      else if p.language.value !in Languages then Reject(h, sock, UnsupportedLanguage)
      else
        var sid := p.sessionId.value;
        var updated := Update(h.db, sid, Patch(None, p.language, None), now);
        Step(h.(db := updated.after),
             [Delivery(Room(h.rooms, sid), LanguageUpdated(p.language.value, p.userId.value, true))])
  }

  /** `execution_result`: relayed, never stored. */
  function ExecutionResultStep(h: Hub, sock: SocketId, data: Option<Payload>, now: int): (r: Step)
    ensures r.hub == h && |r.sent| == 1
    ensures r.sent[0].event.Error? ==> r.sent[0].to == {sock}
    ensures !r.sent[0].event.Error? ==> r.sent[0].event.ExecutionResultSync? && sock !in r.sent[0].to
  {
    if data.None? then Reject(h, sock, BroadcastFailed)
    else
      var p := data.value;
      if !Truthy(p.sessionId) || !Truthy(p.result) || !Truthy(p.userId) then Reject(h, sock, BadExecutionResult)
      else
        Step(h, [Delivery(Room(h.rooms, p.sessionId.value) - {sock},
                          ExecutionResultSync(p.result.value, p.userId.value, StampOr(p.timestamp, now)))])
  }

  /** `typing_start` (when `started`) and `typing_stop`: missing fields drop the event silently. */
  function TypingStep(h: Hub, data: Option<Payload>, started: bool): (r: Step)
    ensures r.hub == h && |r.sent| <= 1
    ensures r.sent != [] ==> (r.sent[0].event.TypingStarted? <==> started)
    ensures r.sent != [] ==> r.sent[0].event.TypingStarted? || r.sent[0].event.TypingStopped?
  {
    if data.None? || !Truthy(data.value.sessionId) || !Truthy(data.value.userId) then Step(h, [])
    else
      var uid := data.value.userId.value;
      Step(h, [Delivery(Room(h.rooms, data.value.sessionId.value),
                        if started then TypingStarted(uid) else TypingStopped(uid))])
  }

  /** `disconnect`, after socket.io has taken the socket out of its rooms. */
  function DisconnectStep(h: Hub, sock: SocketId): (r: Step)
    ensures sock !in r.hub.connected && r.hub.connected == h.connected - {sock}
    ensures forall room :: sock !in Room(r.hub.rooms, room)
    ensures |r.sent| <= 1
    ensures r.sent != [] ==> sock !in r.sent[0].to && r.sent[0].event.UserLeft?
    ensures r.sent == [] ==> r.hub.db == h.db
  {
    var rooms := ExitAll(h.rooms, sock);
    if sock !in h.connected then Step(h.(rooms := rooms), [])
    else
      var info := h.connected[sock];
      var left := Leave(h.db, info.sessionId, info.userId);
      Step(Hub(left.after, h.connected - {sock}, rooms),
           [Delivery(Room(rooms, info.sessionId) - {sock}, UserLeft(info.userId, left.value))])
  }

  // ---------------------------------------------------------------------
  // Invariant: every tracked socket is in the room of the session it joined

  ghost predicate Tracked(h: Hub)
  {
    forall sock | sock in h.connected :: sock in Room(h.rooms, h.connected[sock].sessionId)
  }

  ghost predicate HubValid(h: Hub)
  {
    Consistent(h.db) && Tracked(h)
  }

  lemma JoinKeepsValid(h: Hub, sock: SocketId, data: Option<Payload>, now: int)
    requires HubValid(h)
    ensures HubValid(JoinStep(h, sock, data, now).hub)
  {
    if data.Some? && Truthy(data.value.sessionId) && Truthy(data.value.userId) {
      var sid, uid := data.value.sessionId.value, data.value.userId.value;
      DeleteConsistent(h.db, sid);
      JoinConsistent(Get(h.db, sid, now).after, sid, uid);
    }
  }

  lemma LeaveKeepsValid(h: Hub, sock: SocketId, data: Option<Payload>)
    requires HubValid(h)
    ensures HubValid(LeaveStep(h, sock, data).hub)
  {
    if data.Some? && Truthy(data.value.sessionId) && Truthy(data.value.userId) {
      LeaveConsistent(h.db, data.value.sessionId.value, data.value.userId.value);
    }
  }

  lemma CodeUpdateKeepsValid(h: Hub, sock: SocketId, data: Option<Payload>, now: int)
    requires HubValid(h)
    ensures HubValid(CodeUpdateStep(h, sock, data, now).hub)
  {
    if data.Some? && data.value.sessionId.Some? {
      UpdateConsistent(h.db, data.value.sessionId.value, Patch(data.value.code, None, None), now);
    }
  }

  lemma LanguageChangeKeepsValid(h: Hub, sock: SocketId, data: Option<Payload>, now: int)
    requires HubValid(h)
    ensures HubValid(LanguageChangeStep(h, sock, data, now).hub)
  {
    if data.Some? && data.value.sessionId.Some? {
      UpdateConsistent(h.db, data.value.sessionId.value, Patch(None, data.value.language, None), now);
    }
  }

  lemma DisconnectKeepsValid(h: Hub, sock: SocketId)
    requires HubValid(h)
    ensures HubValid(DisconnectStep(h, sock).hub)
  {
    if sock in h.connected {
      LeaveConsistent(h.db, h.connected[sock].sessionId, h.connected[sock].userId);
    }
  }

  // ---------------------------------------------------------------------
  // What each handler promises

  /** A join without both ids answers the sender alone and changes nothing. */
  lemma JoinWithoutIds(h: Hub, sock: SocketId, p: Payload, now: int)
    requires !Truthy(p.sessionId) || !Truthy(p.userId)
    ensures JoinStep(h, sock, Some(p), now) == Step(h, [Delivery({sock}, Error(MissingIds))])
  {
  }

  /**
   * A join to a session that is absent or has expired answers the sender alone;
   * the connection is not tracked, no room changes, and the only change to the
   * store is the eviction of the expired session with its user set.
   */
  lemma JoinUnknownSession(h: Hub, sock: SocketId, sid: string, uid: string, now: int)
    requires sid != "" && uid != ""
    requires sid !in h.db.sessions || Expired(h.db.sessions[sid], now)
    ensures var s := JoinStep(h, sock, Some(Payload(Some(sid), Some(uid), None, None, None, None)), now);
      && s.sent == [Delivery({sock}, Error(UnknownSession))]
      && s.hub.connected == h.connected && s.hub.rooms == h.rooms
      && sid !in s.hub.db.sessions && (sid in h.db.sessions ==> sid !in s.hub.db.users)
      && (forall k | k in h.db.sessions && k != sid :: k in s.hub.db.sessions && s.hub.db.sessions[k] == h.db.sessions[k])
      && (forall k | k != sid :: UsersOf(s.hub.db, k) == UsersOf(h.db, k))
      && (sid !in h.db.sessions ==> s.hub.db == h.db)
  {
    if sid in h.db.sessions {
      assert sid !in Delete(h.db, sid).after.users;
    }
  }

  /**
   * A join to a live session puts the socket in the room and tracks it, adds the
   * user, sends the code, language and new count to the joiner, and announces the
   * user with the same count to every other socket in the room.
   */
  lemma JoinLiveSession(h: Hub, sock: SocketId, sid: string, uid: string, now: int)
    requires sid != "" && uid != ""
    requires sid in h.db.sessions && !Expired(h.db.sessions[sid], now)
    ensures var s := JoinStep(h, sock, Some(Payload(Some(sid), Some(uid), None, None, None, None)), now);
      var count := |UsersOf(h.db, sid) + {uid}|;
      && sock in Room(s.hub.rooms, sid)
      && s.hub.db == Join(h.db, sid, uid).after && s.hub.rooms == Enter(h.rooms, sock, sid)
      && s.hub.connected == h.connected[sock := UserInfo(uid, sid)]
      && UsersOf(s.hub.db, sid) == UsersOf(h.db, sid) + {uid}
      && s.hub.db.sessions[sid].activeUsers == count
      && s.sent == [Delivery({sock}, FullSync(h.db.sessions[sid].code, h.db.sessions[sid].language, count)),
                    Delivery(Room(h.rooms, sid) - {sock}, UserJoined(uid, count))]
  {
    assert Room(Enter(h.rooms, sock, sid), sid) - {sock} == Room(h.rooms, sid) - {sock};
  }

  /** The joiner never receives its own `user_joined`, and nobody else receives its `full_sync`. */
  lemma JoinAnnouncesToOthers(h: Hub, sock: SocketId, data: Option<Payload>, now: int)
    ensures forall d | d in JoinStep(h, sock, data, now).sent ::
      (d.event.UserJoined? ==> sock !in d.to) && (d.event.FullSync? ==> d.to == {sock})
  {
  }

  /** A leave without both ids, or without a payload, does nothing at all. */
  lemma LeaveWithoutIds(h: Hub, sock: SocketId, data: Option<Payload>)
    requires data.None? || !Truthy(data.value.sessionId) || !Truthy(data.value.userId)
    ensures LeaveStep(h, sock, data) == Step(h, [])
  {
  }

  /**
   * A leave takes the socket out of the room and untracks it, removes the user,
   * and tells the sockets left in the room the new count.
   */
  lemma LeaveRemoves(h: Hub, sock: SocketId, sid: string, uid: string)
    requires sid != "" && uid != ""
    ensures var s := LeaveStep(h, sock, Some(Payload(Some(sid), Some(uid), None, None, None, None)));
      var count := |UsersOf(h.db, sid) - {uid}|;
      && sock !in Room(s.hub.rooms, sid) && sock !in s.hub.connected
      && s.hub.db == Leave(h.db, sid, uid).after && s.hub.rooms == Exit(h.rooms, sock, sid)
      && s.hub.connected == h.connected - {sock}
      && UsersOf(s.hub.db, sid) == UsersOf(h.db, sid) - {uid}
      && (forall k | k != sid :: UsersOf(s.hub.db, k) == UsersOf(h.db, k))
      && s.sent == [Delivery(Room(h.rooms, sid) - {sock}, UserLeft(uid, count))]
  {
    assert Room(Exit(h.rooms, sock, sid), sid) - {sock} == Room(h.rooms, sid) - {sock};
  }

  /** After an explicit leave, the socket's disconnect neither sends a second `user_left` nor touches the store. */
  lemma LeaveThenDisconnect(h: Hub, sock: SocketId, sid: string, uid: string)
    requires sid != "" && uid != ""
    ensures var left := LeaveStep(h, sock, Some(Payload(Some(sid), Some(uid), None, None, None, None))).hub;
      var s := DisconnectStep(left, sock);
      s.sent == [] && s.hub.db == left.db && s.hub.connected == left.connected
  {
    LeaveRemoves(h, sock, sid, uid);
  }

  /** Disconnecting a socket that never joined, or already left, only clears it from the rooms. */
  lemma DisconnectUntracked(h: Hub, sock: SocketId)
    requires sock !in h.connected
    ensures var s := DisconnectStep(h, sock);
      && s.sent == [] && s.hub.db == h.db && s.hub.connected == h.connected
      && forall room :: Room(s.hub.rooms, room) == Room(h.rooms, room) - {sock}
  {
  }

  /** Disconnecting a tracked socket removes its user from the session it joined and tells the rest of the room. */
  lemma DisconnectTracked(h: Hub, sock: SocketId)
    requires sock in h.connected
    ensures var info := h.connected[sock];
      var s := DisconnectStep(h, sock);
      && sock !in s.hub.connected
      && s.hub.db == Leave(h.db, info.sessionId, info.userId).after && s.hub.rooms == ExitAll(h.rooms, sock)
      && s.hub.connected == h.connected - {sock}
      && UsersOf(s.hub.db, info.sessionId) == UsersOf(h.db, info.sessionId) - {info.userId}
      && s.sent == [Delivery(Room(h.rooms, info.sessionId) - {sock},
                             UserLeft(info.userId, |UsersOf(h.db, info.sessionId) - {info.userId}|))]
  {
    var info := h.connected[sock];
    assert Room(ExitAll(h.rooms, sock), info.sessionId) - {sock} == Room(h.rooms, info.sessionId) - {sock};
  }

  /** A code update missing its session id, user id or code answers the sender alone and stores nothing. */
  lemma CodeUpdateRejects(h: Hub, sock: SocketId, p: Payload, now: int)
    requires !Truthy(p.sessionId) || p.code.None? || !Truthy(p.userId)
    ensures CodeUpdateStep(h, sock, Some(p), now) == Step(h, [Delivery({sock}, Error(BadCodeUpdate))])
  {
  }

  /**
   * A valid code update, even with empty code, stores the code in a session that
   * exists and relays it to the others in the room, stamped with the client's
   * time or the receive time; rooms, connections and user sets stay as they were.
   */
  lemma CodeUpdateRelays(h: Hub, sock: SocketId, p: Payload, now: int)
    requires Truthy(p.sessionId) && p.code.Some? && Truthy(p.userId)
    ensures var s := CodeUpdateStep(h, sock, Some(p), now);
      var sid := p.sessionId.value;
      && s.hub.connected == h.connected && s.hub.rooms == h.rooms && s.hub.db.users == h.db.users
      && s.hub.db.sessions.Keys == h.db.sessions.Keys
      && s.hub.db == Update(h.db, sid, Patch(p.code, None, None), now).after
      && (sid in h.db.sessions ==> s.hub.db.sessions[sid].code == p.code.value)
      && (sid !in h.db.sessions ==> s.hub.db == h.db)
      && s.sent == [Delivery(Room(h.rooms, sid) - {sock}, CodeSync(p.code.value, p.userId.value, StampOr(p.timestamp, now)))]
  {
  }

  /** Whatever the payload, the sender of a code update never receives its own `code_sync`. */
  lemma SenderNeverGetsCodeSync(h: Hub, sock: SocketId, data: Option<Payload>, now: int)
    ensures forall d | d in CodeUpdateStep(h, sock, data, now).sent :: d.event.CodeSync? ==> sock !in d.to
  {
  }

  /** A language outside the supported two answers the sender alone with "Invalid language" and stores nothing. */
  lemma LanguageChangeRejectsUnsupported(h: Hub, sock: SocketId, p: Payload, now: int)
    requires Truthy(p.sessionId) && Truthy(p.language) && Truthy(p.userId)
    requires p.language.value !in Languages
    ensures LanguageChangeStep(h, sock, Some(p), now) == Step(h, [Delivery({sock}, Error(UnsupportedLanguage))])
  {
  }

  /**
   * A supported language is stored in a session that exists and announced to the
   * whole room, asking every client to clear its output; the sender hears it
   * exactly when it is in the room.
   */
  lemma LanguageChangeBroadcasts(h: Hub, sock: SocketId, p: Payload, now: int)
    requires Truthy(p.sessionId) && Truthy(p.language) && Truthy(p.userId)
    requires p.language.value in Languages
    ensures var s := LanguageChangeStep(h, sock, Some(p), now);
      var sid := p.sessionId.value;
      && s.hub.connected == h.connected && s.hub.rooms == h.rooms && s.hub.db.users == h.db.users
      && s.hub.db == Update(h.db, sid, Patch(None, p.language, None), now).after
      && (sid in h.db.sessions ==> s.hub.db.sessions[sid].language == p.language.value)
      && (sid !in h.db.sessions ==> s.hub.db == h.db)
      && |s.sent| == 1 && s.sent[0].event == LanguageUpdated(p.language.value, p.userId.value, true)
      && s.sent[0].to == Room(h.rooms, sid)
  {
  }

  /** An execution result is never stored and, when valid, goes to the others in the room only. */
  lemma ExecutionResultNotStored(h: Hub, sock: SocketId, data: Option<Payload>, now: int)
    ensures var s := ExecutionResultStep(h, sock, data, now);
      && s.hub == h
      && |s.sent| == 1
      && (s.sent[0].event.ExecutionResultSync? <==>
            data.Some? && Truthy(data.value.sessionId) && Truthy(data.value.result) && Truthy(data.value.userId))
      && (s.sent[0].event.ExecutionResultSync? ==> s.sent[0].to == Room(h.rooms, data.value.sessionId.value) - {sock})
      && (s.sent[0].event.Error? ==> s.sent[0].to == {sock})
  {
  }

  /** Typing events change nothing, are dropped when a field is missing, and otherwise reach the whole room. */
  lemma TypingReachesRoom(h: Hub, data: Option<Payload>, started: bool)
    ensures var s := TypingStep(h, data, started);
      && s.hub == h
      && (data.None? || !Truthy(data.value.sessionId) || !Truthy(data.value.userId) ==> s.sent == [])
      && (data.Some? && Truthy(data.value.sessionId) && Truthy(data.value.userId) ==>
            |s.sent| == 1 && s.sent[0].to == Room(h.rooms, data.value.sessionId.value)
            && s.sent[0].event == (if started then TypingStarted(data.value.userId.value)
                                   else TypingStopped(data.value.userId.value)))
  {
  }

  // ---------------------------------------------------------------------
  // The server object

  class SocketServer {
    const db: SessionStore.MockDatabase
    /** `connectedUsers`: socket id to the user and session it joined. */
    var connectedUsers: map<SocketId, UserInfo>
    /** socket.io's rooms, one per session id. */
    var rooms: map<string, set<SocketId>>
    /** Every emit so far, oldest first. */
    var outbox: seq<Delivery>

    function Snapshot(): Hub
      reads this, db
    {
      Hub(db.State(), connectedUsers, rooms)
    }

    ghost predicate Valid()
      reads this, db
    {
      HubValid(Snapshot())
    }

    /** `initializeWebSocket`: no connections, no rooms, nothing sent. */
    constructor (store: SessionStore.MockDatabase)
      requires store.Valid()
      ensures Valid() && db == store
      ensures connectedUsers == map[] && rooms == map[] && outbox == []
    {
      db := store;
      connectedUsers := map[];
      rooms := map[];
      outbox := [];
    }

    method Emit(d: Delivery)
      modifies this
      ensures outbox == old(outbox) + [d]
      ensures connectedUsers == old(connectedUsers) && rooms == old(rooms)
    {
      outbox := outbox + [d];
    }

    method JoinSession(sock: SocketId, data: Option<Payload>, now: int)
      requires Valid()
      modifies this, db
      ensures Valid()
      ensures var s := JoinStep(old(Snapshot()), sock, data, now);
        Snapshot() == s.hub && outbox == old(outbox) + s.sent
    {
      JoinKeepsValid(Snapshot(), sock, data, now);
      if data.None? {
        Emit(Delivery({sock}, Error(JoinFailed)));
        return;
      }
      var p := data.value;
      if !Truthy(p.sessionId) || !Truthy(p.userId) {
        Emit(Delivery({sock}, Error(MissingIds)));
        return;
      }
      var sid, uid := p.sessionId.value, p.userId.value;
      var session := db.GetSession(sid, now);
      if session.None? {
        Emit(Delivery({sock}, Error(UnknownSession)));
        return;
      }
      Admit(sock, sid, uid, session.value);
    }

    /** The successful end of `join_session`, once the session has been found live. */
    method Admit(sock: SocketId, sid: string, uid: string, session: Session)
      requires db.Valid()
      modifies this, db
      ensures var joined := Join(old(db.State()), sid, uid);
        var rooms' := Enter(old(rooms), sock, sid);
        && db.State() == joined.after
        && connectedUsers == old(connectedUsers)[sock := UserInfo(uid, sid)]
        && rooms == rooms'
        && outbox == old(outbox) + [Delivery({sock}, FullSync(session.code, session.language, joined.value)),
                                    Delivery(Room(rooms', sid) - {sock}, UserJoined(uid, joined.value))]
    {
      rooms := Enter(rooms, sock, sid);
      connectedUsers := connectedUsers[sock := UserInfo(uid, sid)];
      var activeUsers := db.AddUser(sid, uid);
      Emit(Delivery({sock}, FullSync(session.code, session.language, activeUsers)));
      Emit(Delivery(Room(rooms, sid) - {sock}, UserJoined(uid, activeUsers)));
    }

    method LeaveSession(sock: SocketId, data: Option<Payload>)
      requires Valid()
      modifies this, db
      ensures Valid()
      ensures var s := LeaveStep(old(Snapshot()), sock, data);
        Snapshot() == s.hub && outbox == old(outbox) + s.sent
    {
      LeaveKeepsValid(Snapshot(), sock, data);
      if data.None? || !Truthy(data.value.sessionId) || !Truthy(data.value.userId) {
        return;
      }
      Depart(sock, data.value.sessionId.value, data.value.userId.value);
    }

    /** The effect of a `leave_session` that names both ids. */
    method Depart(sock: SocketId, sid: string, uid: string)
      requires db.Valid()
      modifies this, db
      ensures var left := Leave(old(db.State()), sid, uid);
        var rooms' := Exit(old(rooms), sock, sid);
        && db.State() == left.after
        && connectedUsers == old(connectedUsers) - {sock}
        && rooms == rooms'
        && outbox == old(outbox) + [Delivery(Room(rooms', sid) - {sock}, UserLeft(uid, left.value))]
    {
      rooms := Exit(rooms, sock, sid);
      var activeUsers := db.RemoveUser(sid, uid);
      Emit(Delivery(Room(rooms, sid) - {sock}, UserLeft(uid, activeUsers)));
      connectedUsers := connectedUsers - {sock};
    }

    method CodeUpdate(sock: SocketId, data: Option<Payload>, now: int)
      requires Valid()
      modifies this, db
      ensures Valid()
      ensures var s := CodeUpdateStep(old(Snapshot()), sock, data, now);
        Snapshot() == s.hub && outbox == old(outbox) + s.sent
    {
      CodeUpdateKeepsValid(Snapshot(), sock, data, now);
      if data.None? {
        Emit(Delivery({sock}, Error(CodeUpdateFailed)));
        return;
      }
      var p := data.value;
      if !Truthy(p.sessionId) || p.code.None? || !Truthy(p.userId) {
        Emit(Delivery({sock}, Error(BadCodeUpdate)));
        return;
      }
      var _ := db.UpdateSession(p.sessionId.value, Patch(p.code, None, None), now);
      Emit(Delivery(Room(rooms, p.sessionId.value) - {sock},
                    CodeSync(p.code.value, p.userId.value, StampOr(p.timestamp, now))));
    }

    method LanguageChange(sock: SocketId, data: Option<Payload>, now: int)
      requires Valid()
      modifies this, db
      ensures Valid()
      ensures var s := LanguageChangeStep(old(Snapshot()), sock, data, now);
        Snapshot() == s.hub && outbox == old(outbox) + s.sent
    {
      LanguageChangeKeepsValid(Snapshot(), sock, data, now);
      if data.None? {
        Emit(Delivery({sock}, Error(LanguageChangeFailed)));
        return;
      }
      var p := data.value;
      if !Truthy(p.sessionId) || !Truthy(p.language) || !Truthy(p.userId) {
        Emit(Delivery({sock}, Error(BadLanguageChange)));
        return;
      }
      if p.language.value !in Languages {
        Emit(Delivery({sock}, Error(UnsupportedLanguage)));
        return;
      }
      var _ := db.UpdateSession(p.sessionId.value, Patch(None, p.language, None), now);
      Emit(Delivery(Room(rooms, p.sessionId.value), LanguageUpdated(p.language.value, p.userId.value, true)));
    }

    method ExecutionResult(sock: SocketId, data: Option<Payload>, now: int)
      requires Valid()
      modifies this
      ensures Valid()
      ensures var s := ExecutionResultStep(old(Snapshot()), sock, data, now);
        Snapshot() == s.hub && outbox == old(outbox) + s.sent
    {
      if data.None? {
        Emit(Delivery({sock}, Error(BroadcastFailed)));
        return;
      }
      var p := data.value;
      if !Truthy(p.sessionId) || !Truthy(p.result) || !Truthy(p.userId) {
        Emit(Delivery({sock}, Error(BadExecutionResult)));
        return;
      }
      Emit(Delivery(Room(rooms, p.sessionId.value) - {sock},
                    ExecutionResultSync(p.result.value, p.userId.value, StampOr(p.timestamp, now))));
    }

    /** `typing_start` when `started`, `typing_stop` otherwise. */
    method Typing(data: Option<Payload>, started: bool)
      requires Valid()
      modifies this
      ensures Valid()
      ensures var s := TypingStep(old(Snapshot()), data, started);
        Snapshot() == s.hub && outbox == old(outbox) + s.sent
    {
      if data.None? || !Truthy(data.value.sessionId) || !Truthy(data.value.userId) {
        return;
      }
      var uid := data.value.userId.value;
      Emit(Delivery(Room(rooms, data.value.sessionId.value), if started then TypingStarted(uid) else TypingStopped(uid)));
    }

    /** socket.io's removal of the socket from its rooms, then the `disconnect` handler. */
    method Disconnect(sock: SocketId)
      requires Valid()
      modifies this, db
      ensures Valid()
      ensures var s := DisconnectStep(old(Snapshot()), sock);
        Snapshot() == s.hub && outbox == old(outbox) + s.sent
    {
      DisconnectKeepsValid(Snapshot(), sock);
      rooms := ExitAll(rooms, sock);
      if sock in connectedUsers {
        Drop(sock);
      }
    }

    /** The tracked case of `disconnect`: the user leaves the session the socket joined. */
    method Drop(sock: SocketId)
      requires db.Valid() && sock in connectedUsers
      modifies this, db
      ensures var info := old(connectedUsers[sock]);
        var left := Leave(old(db.State()), info.sessionId, info.userId);
        && db.State() == left.after
        && connectedUsers == old(connectedUsers) - {sock}
        && rooms == old(rooms)
        && outbox == old(outbox) + [Delivery(Room(rooms, info.sessionId) - {sock}, UserLeft(info.userId, left.value))]
    {
      var info := connectedUsers[sock];
      var activeUsers := db.RemoveUser(info.sessionId, info.userId);
      Emit(Delivery(Room(rooms, info.sessionId) - {sock}, UserLeft(info.userId, activeUsers)));
      connectedUsers := connectedUsers - {sock};
    }
  }
}
