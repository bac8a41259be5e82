/**
 * The in-memory session store (`MockDatabase`): a map from session id to
 * session record and a map from session id to the set of user ids present.
 *
 * The store's behaviour is first given as functions over a value `DbState`
 * (one per operation, each returning the operation's result together with
 * the state after it); the class `MockDatabase` then implements every
 * operation by updating its two maps in place, and each of its methods is
 * proved to produce exactly the state and result of the matching function.
 * Time is an integer number of milliseconds passed in as `now`.
 */
module SessionStore {
  import opened Values

  /** The permanent session created at start-up and after every `clear`. */
  const DemoId := "demo-session"
  const DemoTitle := "Demo Session"
  const DemoCode := "// Welcome to CodePad! \U{1F680}\n// This is a collaborative code editor\n// Try changing the code and see it sync in real-time\n\nfunction fibonacci(n) {\n  if (n <= 1) return n;\n  return fibonacci(n - 1) + fibonacci(n - 2);\n}\n\nconsole.log('Fibonacci sequence:');\nfor (let i = 0; i < 10; i++) {\n  console.log(`fib(${i}) = ${fibonacci(i)}`);\n}\n"

  const DefaultLanguage := "javascript"
  const DefaultTitle := "Untitled Session"
  const JavaScriptStarter := "// Start coding here...\n"
  const PythonStarter := "# Start coding here...\n"

  const HourMs := 60 * 60 * 1000
  /** The demo session is created to expire one year later. */
  const DemoLifetimeMs := 365 * 24 * HourMs
  /** `SESSION_TTL_HOURS` when the environment does not set it. */
  const DefaultTtlHours := 24

  /** The languages the HTTP layer and the socket protocol accept; the store itself accepts any. */
  const Languages: set<string> := {"javascript", "python"}

  datatype Session = Session(
    sessionId: string,
    language: string,
    code: string,
    title: string,
    createdAt: int,
    updatedAt: int,
    activeUsers: nat,
    expiresAt: int)

  /** The optional fields `createSession` is given. */
  datatype NewFields = NewFields(language: Option<string>, code: Option<string>, title: Option<string>)

  /** The fields an update overlays on a session; `None` means the key is not in the update. */
  datatype Patch = Patch(code: Option<string>, language: Option<string>, title: Option<string>)

  /** One entry of `getSessionUsers`; both stamps are the time of the call. */
  datatype UserEntry = UserEntry(userId: string, connectedAt: int, lastActivity: int)

  datatype Stats = Stats(totalSessions: nat, totalActiveUsers: nat)

  /** The store's whole state: the `sessions` map and the `users` map. */
  datatype DbState = DbState(sessions: map<string, Session>, users: map<string, set<string>>)

  /** The result of an operation together with the state after it. */
  datatype Outcome<T> = Outcome(value: T, after: DbState)

  const Empty := DbState(map[], map[])

  /** The set of users of a session; a session id without a set has none. */
  function UsersOf(st: DbState, id: string): (us: set<string>)
    ensures id in st.users ==> us == st.users[id]
    ensures id !in st.users ==> us == {}
  {
    if id in st.users then st.users[id] else {}
  }

  /** Expiry is strict: a session is still live at the instant it expires. */
  predicate Expired(s: Session, now: int)
  {
    s.expiresAt < now
  }

  /** Every session record is filed under its own id, has a user set, and its count matches that set. */
  ghost predicate Consistent(st: DbState)
  {
    forall id :: id in st.sessions ==>
      && st.sessions[id].sessionId == id
      && id in st.users
      && st.sessions[id].activeUsers == |st.users[id]|
  }

  // ---------------------------------------------------------------------
  // Creation

  /** The starter comment for a language: Python's for "python", JavaScript's for anything else. */
  function StarterCode(language: string): (code: string)
    ensures code == PythonStarter <==> language == "python"
    ensures code == JavaScriptStarter <==> language != "python"
  {
    if language == "python" then PythonStarter else JavaScriptStarter
  }

  function NewSession(data: NewFields, id: string, now: int, ttlMs: int): Session
  {
    var language := OrElse(data.language, DefaultLanguage);
    Session(id, language, OrElse(data.code, StarterCode(language)), OrElse(data.title, DefaultTitle),
            now, now, 0, now + ttlMs)
  }

  /** `createSession`: files a new record under `id` with an empty user set. */
  function Create(st: DbState, data: NewFields, id: string, now: int, ttlMs: int): (r: Outcome<Session>)
    ensures r.value.sessionId == id && r.value.activeUsers == 0 && r.value.expiresAt == now + ttlMs
    ensures r.after.sessions.Keys == st.sessions.Keys + {id} && r.after.sessions[id] == r.value
    ensures UsersOf(r.after, id) == {}
    ensures forall k | k in st.sessions && k != id :: r.after.sessions[k] == st.sessions[k]
    ensures forall k | k != id :: UsersOf(r.after, k) == UsersOf(st, k)
  {
    var s := NewSession(data, id, now, ttlMs);
    Outcome(s, DbState(st.sessions[id := s], st.users[id := {}]))
  }

  // ---------------------------------------------------------------------
  // Lookup, update, deletion

  /** `deleteSession`: removes the record and its user set; reports whether a record was there. */
  function Delete(st: DbState, id: string): (r: Outcome<bool>)
    ensures r.value <==> id in st.sessions
    ensures id !in r.after.sessions && id !in r.after.users
    ensures r.after.sessions.Keys == st.sessions.Keys - {id}
    ensures r.after.users.Keys == st.users.Keys - {id}
    ensures forall k | k in st.sessions && k != id :: r.after.sessions[k] == st.sessions[k]
    ensures forall k | k in st.users && k != id :: r.after.users[k] == st.users[k]
  {
    Outcome(id in st.sessions, DbState(st.sessions - {id}, st.users - {id}))
  }

  /** `getSession`: an expired record is evicted, with its user set, and reported absent. */
  function Get(st: DbState, id: string, now: int): (r: Outcome<Option<Session>>)
    ensures r.value.Some? <==> id in st.sessions && !Expired(st.sessions[id], now)
    ensures r.value.Some? ==> r.value.value == st.sessions[id] && r.after == st
    ensures id !in st.sessions ==> r.after == st
    ensures id in st.sessions && Expired(st.sessions[id], now) ==> r.after == Delete(st, id).after
  {
    if id !in st.sessions then Outcome(None, st)
    else if Expired(st.sessions[id], now) then Outcome(None, Delete(st, id).after)
    else Outcome(Some(st.sessions[id]), st)
  }

  /** `{...session, ...updates, sessionId, updatedAt}` */
  /** The fields sent overwrite the stored ones; the rest is kept, and the record is stamped `now`. */
  function Merge(s: Session, id: string, p: Patch, now: int): (m: Session)
    ensures m.sessionId == id && m.updatedAt == now
    ensures m.activeUsers == s.activeUsers && m.createdAt == s.createdAt && m.expiresAt == s.expiresAt
    ensures p.code.Some? ==> m.code == p.code.value
    ensures p.code.None? ==> m.code == s.code
    ensures p.language.Some? ==> m.language == p.language.value
    ensures p.language.None? ==> m.language == s.language
    ensures p.title.Some? ==> m.title == p.title.value
    ensures p.title.None? ==> m.title == s.title
  {
    s.(sessionId := id,
       code := if p.code.Some? then p.code.value else s.code,
       language := if p.language.Some? then p.language.value else s.language,
       title := if p.title.Some? then p.title.value else s.title,
       updatedAt := now)
  }

  /** `updateSession`: overlays the patch on the stored record; the id stays the key. */
  function Update(st: DbState, id: string, p: Patch, now: int): (r: Outcome<Option<Session>>)
    ensures r.after.sessions.Keys == st.sessions.Keys
    ensures id !in st.sessions ==> r.value == None && r.after == st
    ensures id in st.sessions ==> r.value == Some(r.after.sessions[id])
    ensures id in st.sessions ==>
      var old_ := st.sessions[id];
      var new_ := r.after.sessions[id];
      && new_.sessionId == id
      && new_.code == (if p.code.Some? then p.code.value else old_.code)
      && new_.language == (if p.language.Some? then p.language.value else old_.language)
      && new_.title == (if p.title.Some? then p.title.value else old_.title)
      && new_.activeUsers == old_.activeUsers
      && new_.createdAt == old_.createdAt
      && new_.expiresAt == old_.expiresAt
      && new_.updatedAt == now
    ensures forall k | k in st.sessions && k != id :: r.after.sessions[k] == st.sessions[k]
    ensures r.after.users == st.users
  {
    if id !in st.sessions then Outcome(None, st)
    else
      var merged := Merge(st.sessions[id], id, p, now);
      Outcome(Some(merged), st.(sessions := st.sessions[id := merged]))
  }

  // ---------------------------------------------------------------------
  // Presence

  /** `addUser`: adds the user to the set (creating the set if missing) and writes the count back. */
  function Join(st: DbState, id: string, u: string): (r: Outcome<nat>)
    ensures UsersOf(r.after, id) == UsersOf(st, id) + {u}
    ensures r.value == |UsersOf(st, id) + {u}| && r.value >= 1
    ensures r.after.sessions.Keys == st.sessions.Keys
    ensures id in st.sessions ==> r.after.sessions[id] == st.sessions[id].(activeUsers := r.value)
    ensures forall k | k in st.sessions && k != id :: r.after.sessions[k] == st.sessions[k]
    ensures forall k | k != id :: UsersOf(r.after, k) == UsersOf(st, k)
    ensures r.after.users.Keys == st.users.Keys + {id}
  {
    var members := UsersOf(st, id) + {u};
    var sessions :=
      if id in st.sessions then st.sessions[id := st.sessions[id].(activeUsers := |members|)]
      else st.sessions;
    Outcome(|members|, DbState(sessions, st.users[id := members]))
  }

  /** `removeUser`: without a set it answers 0 and changes nothing; otherwise removes the user. */
  function Leave(st: DbState, id: string, u: string): (r: Outcome<nat>)
    ensures id !in st.users ==> r.value == 0 && r.after == st
    ensures id in st.users ==> UsersOf(r.after, id) == st.users[id] - {u}
    ensures r.value == |UsersOf(st, id) - {u}|
    ensures r.after.sessions.Keys == st.sessions.Keys
    ensures id in st.sessions && id in st.users ==>
      r.after.sessions[id] == st.sessions[id].(activeUsers := r.value)
    ensures forall k | k in st.sessions && k != id :: r.after.sessions[k] == st.sessions[k]
    ensures forall k | k != id :: UsersOf(r.after, k) == UsersOf(st, k)
    ensures r.after.users.Keys == st.users.Keys
  {
    if id !in st.users then Outcome(0, st)
    else
      var members := st.users[id] - {u};
      var sessions :=
        if id in st.sessions then st.sessions[id := st.sessions[id].(activeUsers := |members|)]
        else st.sessions;
      Outcome(|members|, DbState(sessions, st.users[id := members]))
  }

  // ---------------------------------------------------------------------
  // Demo session, reset and sweep

  function DemoSession(now: int): Session
  {
    Session(DemoId, DefaultLanguage, DemoCode, DemoTitle, now, now, 0, now + DemoLifetimeMs)
  }

  /** `initializeDemoSession`: (re)files the demo session with an empty user set. */
  function WithDemo(st: DbState, now: int): (r: DbState)
    ensures r.sessions.Keys == st.sessions.Keys + {DemoId}
    ensures r.sessions[DemoId] == DemoSession(now)
    ensures r.sessions[DemoId].title == DemoTitle && r.sessions[DemoId].activeUsers == 0
    ensures r.sessions[DemoId].expiresAt == now + DemoLifetimeMs
    ensures UsersOf(r, DemoId) == {}
    ensures forall k | k in st.sessions && k != DemoId :: r.sessions[k] == st.sessions[k]
    ensures forall k | k != DemoId :: UsersOf(r, k) == UsersOf(st, k)
  {
    DbState(st.sessions[DemoId := DemoSession(now)], st.users[DemoId := {}])
  }

  /** `clear`: empties both maps and re-creates the demo session. */
  function Cleared(now: int): (r: DbState)
    ensures r.sessions.Keys == {DemoId} && r.users.Keys == {DemoId}
    ensures r.sessions[DemoId].title == DemoTitle && r.users[DemoId] == {}
  {
    WithDemo(Empty, now)
  }

  /** The ids a sweep at `now` removes: every expired session except the demo session. */
  function ExpiredIds(st: DbState, now: int): (ids: set<string>)
  {
    set id | id in st.sessions && id != DemoId && Expired(st.sessions[id], now)
  }

  /** `cleanupExpiredSessions`: deletes the expired sessions other than the demo and counts them. */
  function Cleanup(st: DbState, now: int): (r: Outcome<nat>)
    ensures r.after.sessions.Keys <= st.sessions.Keys && r.after.users.Keys <= st.users.Keys
    ensures forall id | id in r.after.sessions :: r.after.sessions[id] == st.sessions[id]
    ensures forall id | id in r.after.sessions :: id == DemoId || !Expired(r.after.sessions[id], now)
    ensures DemoId in st.sessions ==> DemoId in r.after.sessions
    ensures r.value == |st.sessions.Keys - r.after.sessions.Keys|
  {
    var gone := ExpiredIds(st, now);
    Outcome(|gone|, Without(st, gone))
  }

  /** The state with the given sessions and their user sets removed. */
  function Without(st: DbState, ids: set<string>): DbState
  {
    DbState(st.sessions - ids, st.users - ids)
  }

  /**
   * The sweep as the store performs it: visit the ids in the given order and
   * delete each one that is still stored, is not the demo session and has
   * expired, counting the deletions.
   */
  function SweepInOrder(st: DbState, ids: seq<string>, now: int): (r: Outcome<nat>)
    ensures r.value <= |ids|
    ensures r.after.sessions.Keys <= st.sessions.Keys
    ensures forall k | k in r.after.sessions :: r.after.sessions[k] == st.sessions[k]
    ensures forall id | id in ids && id in r.after.sessions :: id == DemoId || !Expired(r.after.sessions[id], now)
  {
    if ids == [] then Outcome(0, st)
    else Visit(SweepInOrder(st, ids[..|ids| - 1], now), ids[|ids| - 1], now)
  }

  /** One iteration of the sweep: the running count and state after looking at `id`. */
  function Visit(r: Outcome<nat>, id: string, now: int): (v: Outcome<nat>)
    ensures v.value <= r.value + 1
    ensures v.after.sessions.Keys <= r.after.sessions.Keys
    ensures forall k | k in v.after.sessions :: v.after.sessions[k] == r.after.sessions[k]
    ensures id in v.after.sessions ==> id == DemoId || !Expired(v.after.sessions[id], now)
  {
    if id in r.after.sessions && id != DemoId && Expired(r.after.sessions[id], now)
    then Outcome(r.value + 1, Without(r.after, {id}))
    else r
  }

  /** One iteration removes at most the id it visits, with its user set, and counts what it removed. */
  lemma VisitRemovesAtMostId(r: Outcome<nat>, id: string, now: int)
    ensures var v := Visit(r, id, now);
      && r.after.sessions.Keys - {id} <= v.after.sessions.Keys
      && v.after.users == r.after.users - (r.after.sessions.Keys - v.after.sessions.Keys)
      && v.value == r.value + |r.after.sessions.Keys - v.after.sessions.Keys|
  {
    var keys := r.after.sessions.Keys;
    if id in r.after.sessions && id != DemoId && Expired(r.after.sessions[id], now) {
      assert keys - (keys - {id}) == {id};
    } else {
      assert keys - keys == {};
      assert r.after.users - {} == r.after.users;
    }
  }

  /** The ids in a sequence, as a set. */
  function Members(xs: seq<string>): set<string>
  {
    if xs == [] then {} else Members(xs[..|xs| - 1]) + {xs[|xs| - 1]}
  }

  /**
   * Visiting an id removes it exactly when it is an expired session other than
   * the demo; an id already removed, or never stored, is passed over.
   */
  lemma VisitStep(st: DbState, before: set<string>, id: string, now: int)
    requires before <= ExpiredIds(st, now)
    ensures var next := before + ExpiredIds(st, now) * {id};
      Visit(Outcome(|before|, Without(st, before)), id, now) == Outcome(|next|, Without(st, next))
  {
    var all := ExpiredIds(st, now);
    if id in all && id !in before {
      assert before + all * {id} == before + {id};
      assert st.sessions - before - {id} == st.sessions - (before + {id});
      assert st.users - before - {id} == st.users - (before + {id});
    } else {
      assert before + all * {id} == before;
    }
  }

  /** A sequence and its set of ids have the same members. */
  lemma {:induction false} MembersAreElements(xs: seq<string>)
    ensures forall x :: x in Members(xs) <==> x in xs
  {
    if xs != [] {
      MembersAreElements(xs[..|xs| - 1]);
      assert xs == xs[..|xs| - 1] + [xs[|xs| - 1]];
    }
  }

  /** Extending the visited ids by one keeps the pass equal to removing the expired ones among them. */
  lemma SweepExtend(st: DbState, prefix: seq<string>, id: string, now: int)
    requires var before := ExpiredIds(st, now) * Members(prefix);
      SweepInOrder(st, prefix, now) == Outcome(|before|, Without(st, before))
    ensures var gone := ExpiredIds(st, now) * Members(prefix + [id]);
      SweepInOrder(st, prefix + [id], now) == Outcome(|gone|, Without(st, gone))
  {
    var all := ExpiredIds(st, now);
    var ids := prefix + [id];
    assert ids[..|ids| - 1] == prefix;
    var before := all * Members(prefix);
    assert SweepInOrder(st, ids, now) == Visit(Outcome(|before|, Without(st, before)), id, now);
    VisitStep(st, before, id, now);
    assert Members(ids) == Members(prefix) + {id};
    assert all * Members(ids) == before + all * {id};
  }

  /** Visiting no ids removes nothing. */
  lemma SweepNothing(st: DbState, now: int)
    ensures var gone := ExpiredIds(st, now) * Members([]);
      SweepInOrder(st, [], now) == Outcome(|gone|, Without(st, gone))
  {
    assert ExpiredIds(st, now) * Members([]) == {};
    assert st.sessions - {} == st.sessions && st.users - {} == st.users;
  }

  /**
   * Visiting ids in any order, repeats included, removes exactly the expired
   * non-demo sessions among them and counts each once.
   */
  lemma {:induction false} SweepInOrderRemovesVisited(st: DbState, ids: seq<string>, now: int)
    ensures var gone := ExpiredIds(st, now) * Members(ids);
      SweepInOrder(st, ids, now) == Outcome(|gone|, Without(st, gone))
  {
    if ids == [] {
      SweepNothing(st, now);
    } else {
      var prefix, id := ids[..|ids| - 1], ids[|ids| - 1];
      SweepInOrderRemovesVisited(st, prefix, now);
      SweepExtend(st, prefix, id, now);
      assert prefix + [id] == ids;
    }
  }

  /** In whatever order the stored ids are visited, one pass over all of them is the sweep. */
  lemma SweepInOrderIsCleanup(st: DbState, ids: seq<string>, now: int)
    requires Members(ids) == st.sessions.Keys
    ensures SweepInOrder(st, ids, now) == Cleanup(st, now)
  {
    SweepInOrderRemovesVisited(st, ids, now);
    assert ExpiredIds(st, now) * Members(ids) == ExpiredIds(st, now);
  }

  // ---------------------------------------------------------------------
  // Statistics

  /** The sum of the sizes of all user sets (`getStats().totalActiveUsers`). */
  ghost function TotalUsers(m: map<string, set<string>>): (t: nat)
    ensures forall k | k in m :: |m[k]| <= t
    ensures (forall k | k in m :: m[k] == {}) ==> t == 0
    decreases m.Keys
  {
    if m == map[] then 0
    else
      var id :| id in m;
      var rest := m - {id};
      assert forall k | k in m && k != id :: k in rest && rest[k] == m[k];
      |m[id]| + TotalUsers(rest)
  }

  /** The part of `m` whose keys lie in `ks`. */
  ghost function Restrict(m: map<string, set<string>>, ks: set<string>): map<string, set<string>>
  {
    map id | id in ks && id in m :: m[id]
  }

  /** The sum does not depend on the order in which the sets are visited. */
  lemma {:induction false} TotalUsersRemove(m: map<string, set<string>>, id: string)
    requires id in m
    ensures TotalUsers(m) == |m[id]| + TotalUsers(m - {id})
    decreases m.Keys
  {
    var first :| first in m && TotalUsers(m) == |m[first]| + TotalUsers(m - {first});
    if first != id {
      TotalUsersRemove(m - {first}, id);
      TotalUsersRemove(m - {id}, first);
      assert m - {first} - {id} == m - {id} - {first};
    }
  }

  /** Replacing one set changes the sum by the difference of the sizes. */
  lemma TotalUsersUpdate(m: map<string, set<string>>, id: string, s: set<string>)
    ensures TotalUsers(m[id := s]) == TotalUsers(m - {id}) + |s|
    ensures id in m ==> TotalUsers(m) == TotalUsers(m - {id}) + |m[id]|
    ensures id !in m ==> TotalUsers(m) == TotalUsers(m - {id})
  {
    TotalUsersRemove(m[id := s], id);
    assert m[id := s] - {id} == m - {id};
    if id in m {
      TotalUsersRemove(m, id);
    } else {
      assert m - {id} == m;
    }
  }

  // ---------------------------------------------------------------------
  // Properties

  /** With no fields: JavaScript, its starter comment, the default title, nobody present. */
  lemma CreateDefaults(st: DbState, id: string, now: int, ttlMs: int)
    ensures var r := Create(st, NewFields(None, None, None), id, now, ttlMs);
      && r.value.language == "javascript"
      && r.value.code == "// Start coding here...\n"
      && r.value.title == "Untitled Session"
      && r.value.activeUsers == 0
      && UsersOf(r.after, id) == {}
  {
  }

  /** The starter comment follows the language; a language outside the supported set is kept as given. */
  lemma CreateStarterFollowsLanguage(st: DbState, data: NewFields, id: string, now: int, ttlMs: int)
    requires !Truthy(data.code)
    ensures var s := Create(st, data, id, now, ttlMs).value;
      && s.code == StarterCode(s.language)
      && (s.code == "# Start coding here...\n" <==> Truthy(data.language) && data.language.value == "python")
  {
  }

  /** Each field is stored as given when it is non-empty, and otherwise takes its own default. */
  lemma CreateKeepsGivenFields(st: DbState, data: NewFields, id: string, now: int, ttlMs: int)
    ensures var s := Create(st, data, id, now, ttlMs).value;
      && s.language == (if Truthy(data.language) then data.language.value else "javascript")
      && s.title == (if Truthy(data.title) then data.title.value else "Untitled Session")
      && (Truthy(data.code) ==> s.code == data.code.value)
      && (!Truthy(data.code) ==> s.code == StarterCode(s.language))
  {
  }

  /** With the default lifetime a session expires exactly one day after it is created. */
  lemma DefaultLifetimeIsADay(st: DbState, data: NewFields, id: string, now: int)
    ensures Create(st, data, id, now, DefaultTtlHours * HourMs).value.expiresAt == now + 86_400_000
  {
  }

  /** A session just created stays reachable, unchanged, until its expiry instant inclusive. */
  lemma GetAfterCreate(st: DbState, data: NewFields, id: string, now: int, ttlMs: int, later: int)
    requires later <= now + ttlMs
    ensures var c := Create(st, data, id, now, ttlMs);
      Get(c.after, id, later) == Outcome(Some(c.value), c.after)
  {
  }

  /** Once a lookup has answered, asking again at the same time answers the same without further change. */
  lemma GetIdempotent(st: DbState, id: string, now: int)
    ensures var r := Get(st, id, now);
      Get(r.after, id, now) == Outcome(r.value, r.after)
  {
  }

  /** Deleting twice: the second deletion reports false and changes nothing. */
  lemma DeleteTwice(st: DbState, id: string)
    ensures var d := Delete(st, id).after;
      Delete(d, id) == Outcome(false, d)
  {
  }

  /** Adding a user who is already present changes nothing and reports the same count. */
  lemma JoinIdempotent(st: DbState, id: string, u: string)
    ensures var r := Join(st, id, u);
      Join(r.after, id, u) == r
  {
    var r := Join(st, id, u);
    assert UsersOf(r.after, id) + {u} == UsersOf(r.after, id);
  }

  /** A new user joining and then leaving restores the count, and the set if there was one. */
  lemma JoinThenLeave(st: DbState, id: string, u: string)
    requires u !in UsersOf(st, id)
    ensures var j := Join(st, id, u);
      var l := Leave(j.after, id, u);
      && j.value == |UsersOf(st, id)| + 1
      && l.value == |UsersOf(st, id)|
      && UsersOf(l.after, id) == UsersOf(st, id)
      && (id in st.users ==> l.after.users == st.users)
  {
    var j := Join(st, id, u);
    assert UsersOf(st, id) + {u} - {u} == UsersOf(st, id);
    if id in st.users {
      assert j.after.users[id := UsersOf(st, id)] == st.users;
    }
  }

  /** Removing a user who is not present changes nothing but the stored count, which already agreed. */
  lemma LeaveAbsentIsNoOp(st: DbState, id: string, u: string)
    requires Consistent(st) && u !in UsersOf(st, id)
    ensures Leave(st, id, u) == Outcome(|UsersOf(st, id)|, st)
  {
    if id in st.users {
      assert st.users[id] - {u} == st.users[id];
      assert st.users[id := st.users[id]] == st.users;
      if id in st.sessions {
        assert st.sessions[id].(activeUsers := |st.users[id]|) == st.sessions[id];
        assert st.sessions[id := st.sessions[id]] == st.sessions;
      }
    }
  }

  /** A join adds one to the total exactly when the user was new. */
  lemma JoinTotal(st: DbState, id: string, u: string)
    ensures TotalUsers(Join(st, id, u).after.users) ==
      TotalUsers(st.users) + (if u in UsersOf(st, id) then 0 else 1)
  {
    var members := UsersOf(st, id) + {u};
    TotalUsersUpdate(st.users, id, members);
    if u !in UsersOf(st, id) {
      assert |members| == |UsersOf(st, id)| + 1;
    } else {
      assert members == UsersOf(st, id);
    }
  }

  /** A leave takes one from the total exactly when the user was present. */
  lemma LeaveTotal(st: DbState, id: string, u: string)
    ensures TotalUsers(Leave(st, id, u).after.users) ==
      TotalUsers(st.users) - (if u in UsersOf(st, id) then 1 else 0)
  {
    if id in st.users {
      var members := st.users[id] - {u};
      TotalUsersUpdate(st.users, id, members);
      if u in st.users[id] {
        assert st.users[id] == members + {u};
      } else {
        assert members == st.users[id];
      }
    }
  }

  /** A deletion takes the whole user set of that session off the total. */
  lemma DeleteTotal(st: DbState, id: string)
    ensures TotalUsers(Delete(st, id).after.users) == TotalUsers(st.users) - |UsersOf(st, id)|
  {
    TotalUsersUpdate(st.users, id, {});
  }

  /** After a reset the only session is the demo session and nobody is present. */
  lemma ClearedIsDemoOnly(now: int)
    ensures var r := Cleared(now);
      && r.sessions.Keys == {DemoId}
      && r.sessions[DemoId].sessionId == DemoId
      && r.sessions[DemoId].title == "Demo Session"
      && r.sessions[DemoId].expiresAt == now + DemoLifetimeMs
      && UsersOf(r, DemoId) == {}
      && TotalUsers(r.users) == 0
      && Consistent(r)
  {
    var r := Cleared(now);
    TotalUsersRemove(r.users, DemoId);
    assert r.users - {DemoId} == map[];
  }

  /** The sessions a sweep keeps: the live ones and the demo session. */
  lemma CleanupKeepsLiveSessions(st: DbState, now: int)
    ensures var after := Cleanup(st, now).after;
      forall id :: id in after.sessions <==> id in st.sessions && (id == DemoId || !Expired(st.sessions[id], now))
  {
    var gone := ExpiredIds(st, now);
    var after := Without(st, gone);
    assert Cleanup(st, now).after == after;
    forall id ensures id in after.sessions <==>
      id in st.sessions && (id == DemoId || !Expired(st.sessions[id], now))
    {
      assert id in after.sessions <==> id in st.sessions && id !in gone;
    }
  }

  /** The user sets a sweep keeps: those of sessions it keeps and those without a session. */
  lemma CleanupKeepsTheirUsers(st: DbState, now: int)
    ensures var after := Cleanup(st, now).after;
      && (forall id :: id in after.users <==>
            id in st.users && (id !in st.sessions || id == DemoId || !Expired(st.sessions[id], now)))
      && (forall id | id in after.users :: after.users[id] == st.users[id])
  {
    var gone := ExpiredIds(st, now);
    WithoutKeepsTheRest(st, gone);
    assert Cleanup(st, now).after == Without(st, gone);
  }

  /** Removing some ids leaves every other entry of both maps as it was. */
  lemma WithoutKeepsTheRest(st: DbState, ids: set<string>)
    ensures var after := Without(st, ids);
      && (forall id :: id in after.users <==> id in st.users && id !in ids)
      && (forall id | id in after.users :: after.users[id] == st.users[id])
  {
  }

  /** A sweep keeps exactly the live sessions and the demo session, untouched, and counts what it removed. */
  lemma CleanupKeepsExactlyLive(st: DbState, now: int)
    ensures var r := Cleanup(st, now);
      && (forall id :: id in r.after.sessions <==>
            id in st.sessions && (id == DemoId || !Expired(st.sessions[id], now)))
      && (forall id | id in r.after.sessions :: r.after.sessions[id] == st.sessions[id])
      && (forall id :: id in r.after.users <==>
            id in st.users && (id !in st.sessions || id == DemoId || !Expired(st.sessions[id], now)))
      && (forall id | id in r.after.users :: r.after.users[id] == st.users[id])
      && r.value == |st.sessions.Keys - r.after.sessions.Keys|
  {
    CleanupKeepsLiveSessions(st, now);
    CleanupKeepsTheirUsers(st, now);
  }

  /** A sweep is invisible to `getSession`: every lookup answers as it would have without it. */
  lemma CleanupInvisibleToGet(st: DbState, now: int, id: string)
    ensures Get(Cleanup(st, now).after, id, now).value == Get(st, id, now).value
  {
    CleanupKeepsExactlyLive(st, now);
  }

  /** After a sweep no session but the demo session is expired, and the demo session is never removed. */
  lemma CleanupLeavesNoExpired(st: DbState, now: int)
    ensures var r := Cleanup(st, now).after;
      && (forall id | id in r.sessions && id != DemoId :: !Expired(r.sessions[id], now))
      && (DemoId in st.sessions ==> DemoId in r.sessions)
  {
    CleanupKeepsExactlyLive(st, now);
  }

  /** A store with nothing expired but the demo session is left as it is by a sweep. */
  lemma SweepNothingExpired(st: DbState, now: int)
    requires forall id | id in st.sessions :: id == DemoId || !Expired(st.sessions[id], now)
    ensures Cleanup(st, now) == Outcome(0, st)
  {
    assert ExpiredIds(st, now) == {};
    assert st.sessions - {} == st.sessions;
    assert st.users - {} == st.users;
  }

  /** Sweeping again at the same time deletes nothing. */
  lemma CleanupTwice(st: DbState, now: int)
    ensures var r := Cleanup(st, now).after;
      Cleanup(r, now) == Outcome(0, r)
  {
    SweepNothingExpired(Cleanup(st, now).after, now);
  }

  // ---------------------------------------------------------------------
  // Every operation keeps the record counts in step with the user sets

  lemma CreateConsistent(st: DbState, data: NewFields, id: string, now: int, ttlMs: int)
    requires Consistent(st)
    ensures Consistent(Create(st, data, id, now, ttlMs).after)
  {
  }

  lemma DeleteConsistent(st: DbState, id: string)
    requires Consistent(st)
    ensures Consistent(Delete(st, id).after)
  {
  }

  lemma UpdateConsistent(st: DbState, id: string, p: Patch, now: int)
    requires Consistent(st)
    ensures Consistent(Update(st, id, p, now).after)
  {
  }

  lemma JoinConsistent(st: DbState, id: string, u: string)
    requires Consistent(st)
    ensures Consistent(Join(st, id, u).after)
  {
  }

  lemma LeaveConsistent(st: DbState, id: string, u: string)
    requires Consistent(st)
    ensures Consistent(Leave(st, id, u).after)
  {
  }

  lemma CleanupConsistent(st: DbState, now: int)
    requires Consistent(st)
    ensures Consistent(Cleanup(st, now).after)
  {
  }

  lemma WithDemoConsistent(st: DbState, now: int)
    requires Consistent(st)
    ensures Consistent(WithDemo(st, now))
  {
  }

  /** No element occurs twice: each one is new with respect to those before it. */
  predicate Distinct(xs: seq<string>)
  {
    xs == [] || (Distinct(xs[..|xs| - 1]) && xs[|xs| - 1] !in xs[..|xs| - 1])
  }

  lemma {:induction false} DistinctPairwise(xs: seq<string>)
    requires Distinct(xs)
    ensures forall i, j | 0 <= i < j < |xs| :: xs[i] != xs[j]
  {
    if xs != [] {
      var prefix := xs[..|xs| - 1];
      DistinctPairwise(prefix);
      forall i, j | 0 <= i < j < |xs| ensures xs[i] != xs[j] {
        assert xs[i] == prefix[i];
        if j < |prefix| {
          assert xs[j] == prefix[j];
        }
      }
    }
  }

  /** `Array.from(set)`: the elements of a set, each once, in some order. */
  method Elements(s: set<string>) returns (xs: seq<string>)
    ensures |xs| == |s| && Distinct(xs)
    ensures forall x :: x in xs <==> x in s
  {
    xs := [];
    var pending := s;
    while pending != {}
      invariant pending <= s
      invariant |xs| == |s - pending| && Distinct(xs)
      invariant forall x :: x in xs <==> x in s - pending
      decreases pending
    {
      var x :| x in pending;
      assert s - (pending - {x}) == (s - pending) + {x};
      assert (xs + [x])[..|xs|] == xs;
      xs := xs + [x];
      pending := pending - {x};
    }
  }

  // ---------------------------------------------------------------------
  // The store object

  class MockDatabase {
    var sessions: map<string, Session>
    var users: map<string, set<string>>
    /** `config.session.ttlHours` in milliseconds. */
    const ttlMs: int

    function State(): DbState
      reads this
    {
      DbState(sessions, users)
    }

    ghost predicate Valid()
      reads this
    {
      Consistent(State())
    }

    /** The store as constructed: the demo session only. The hourly sweep timer is not modelled. */
    constructor (ttlHours: int, now: int)
      ensures Valid() && ttlMs == ttlHours * HourMs
      ensures State() == WithDemo(Empty, now)
    {
      ttlMs := ttlHours * HourMs;
      sessions := map[];
      users := map[];
      new;
      InitializeDemoSession(now);
    }

    method CreateSession(data: NewFields, id: string, now: int) returns (s: Session)
      requires Valid()
      requires id !in sessions  // `id` is a fresh 12-character nanoid
      modifies this
      ensures Valid()
      ensures var r := Create(old(State()), data, id, now, ttlMs); s == r.value && State() == r.after
    {
      CreateConsistent(State(), data, id, now, ttlMs);
      var language := OrElse(data.language, DefaultLanguage);
      s := Session(id, language, OrElse(data.code, StarterCode(language)), OrElse(data.title, DefaultTitle),
                   now, now, 0, now + ttlMs);
      sessions := sessions[id := s];
      users := users[id := {}];
    }

    method GetSession(id: string, now: int) returns (found: Option<Session>)
      requires Valid()
      modifies this
      ensures Valid()
      ensures var r := Get(old(State()), id, now); found == r.value && State() == r.after
    {
      if id !in sessions {
        return None;
      }
      var s := sessions[id];
      if s.expiresAt < now {
        var _ := DeleteSession(id);
        return None;
      }
      return Some(s);
    }

    method UpdateSession(id: string, p: Patch, now: int) returns (updated: Option<Session>)
      requires Valid()
      modifies this
      ensures Valid()
      ensures var r := Update(old(State()), id, p, now); updated == r.value && State() == r.after
    {
      UpdateConsistent(State(), id, p, now);
      if id !in sessions {
        return None;
      }
      var merged := Merge(sessions[id], id, p, now);
      sessions := sessions[id := merged];
      return Some(merged);
    }

    method DeleteSession(id: string) returns (deleted: bool)
      modifies this
      ensures old(Valid()) ==> Valid()
      ensures var r := Delete(old(State()), id); deleted == r.value && State() == r.after
    {
      if Consistent(State()) {
        DeleteConsistent(State(), id);
      }
      deleted := id in sessions;
      sessions := sessions - {id};
      users := users - {id};
    }

    /** `getAllSessions`: every stored record, once per id. */
    method GetAllSessions() returns (all: seq<Session>)
      ensures |all| == |sessions|
      ensures forall i | 0 <= i < |all| :: all[i] in sessions.Values
      ensures forall id | id in sessions :: sessions[id] in all
    {
      var current := sessions;
      var ids := Elements(current.Keys);
      all := seq(|ids|, i requires 0 <= i < |ids| => current[ids[i]]);
      forall id | id in sessions ensures sessions[id] in all {
        var i :| 0 <= i < |ids| && ids[i] == id;
        assert all[i] == sessions[id];
      }
      assert |sessions| == |sessions.Keys|;
    }

    method AddUser(id: string, u: string) returns (count: nat)
      requires Valid()
      modifies this
      ensures Valid()
      ensures var r := Join(old(State()), id, u); count == r.value && State() == r.after
    {
      JoinConsistent(State(), id, u);
      if id !in users {
        users := users[id := {}];
      }
      users := users[id := users[id] + {u}];
      if id in sessions {
        var s := sessions[id];
        sessions := sessions[id := s.(activeUsers := |users[id]|)];
      }
      count := |users[id]|;
    }

    method RemoveUser(id: string, u: string) returns (count: nat)
      requires Valid()
      modifies this
      ensures Valid()
      ensures var r := Leave(old(State()), id, u); count == r.value && State() == r.after
    {
      LeaveConsistent(State(), id, u);
      if id !in users {
        return 0;
      }
      users := users[id := users[id] - {u}];
      count := |users[id]|;
      if id in sessions {
        var s := sessions[id];
        sessions := sessions[id := s.(activeUsers := count)];
      }
    }

    /** `getSessionUsers`: one entry per user of the session, each user once, stamped `now`. */
    method GetSessionUsers(id: string, now: int) returns (list: seq<UserEntry>)
      ensures |list| == |UsersOf(State(), id)|
      ensures forall i | 0 <= i < |list| ::
        list[i].userId in UsersOf(State(), id) && list[i].connectedAt == now && list[i].lastActivity == now
      ensures forall u | u in UsersOf(State(), id) :: UserEntry(u, now, now) in list
      ensures forall i, j | 0 <= i < j < |list| :: list[i].userId != list[j].userId
    {
      if id !in users {
        return [];
      }
      var ids := Elements(users[id]);
      DistinctPairwise(ids);
      list := seq(|ids|, i requires 0 <= i < |ids| => UserEntry(ids[i], now, now));
      forall u | u in users[id] ensures UserEntry(u, now, now) in list {
        var i :| 0 <= i < |ids| && ids[i] == u;
        assert list[i] == UserEntry(u, now, now);
      }
    }

    method GetActiveUserCount(id: string) returns (count: nat)
      ensures count == |UsersOf(State(), id)|
      ensures id !in users ==> count == 0
    {
      if id !in users {
        return 0;
      }
      return |users[id]|;
    }

    method InitializeDemoSession(now: int)
      modifies this
      ensures old(Valid()) ==> Valid()
      ensures State() == WithDemo(old(State()), now)
    {
      if Consistent(State()) {
        WithDemoConsistent(State(), now);
      }
      sessions := sessions[DemoId := DemoSession(now)];
      users := users[DemoId := {}];
    }

    /** One pass over the sessions, deleting as it goes; an entry deleted before it is reached is skipped. */
    method CleanupExpiredSessions(now: int) returns (cleaned: nat)
      modifies this
      ensures old(Valid()) ==> Valid()
      ensures var r := Cleanup(old(State()), now); cleaned == r.value && State() == r.after
    {
      ghost var start := State();
      var ids := Elements(sessions.Keys);
      cleaned := 0;
      var i := 0;
      while i < |ids|
        invariant 0 <= i <= |ids|
        invariant SweepInOrder(start, ids[..i], now) == Outcome(cleaned, State())
      {
        var id := ids[i];
        assert ids[..i + 1][..i] == ids[..i];
        ghost var visited := State();
        if id in sessions && id != DemoId && sessions[id].expiresAt < now {
          var _ := DeleteSession(id);
          cleaned := cleaned + 1;
          assert State() == Without(visited, {id});
        }
        i := i + 1;
      }
      assert ids[..i] == ids;
      MembersAreElements(ids);
      assert Members(ids) == start.sessions.Keys;
      SweepInOrderIsCleanup(start, ids, now);
      if Consistent(start) {
        CleanupConsistent(start, now);
      }
    }

    method Clear(now: int)
      modifies this
      ensures Valid()
      ensures State() == Cleared(now)
    {
      sessions := map[];
      users := map[];
      InitializeDemoSession(now);
    }

    method GetStats() returns (stats: Stats)
      ensures stats.totalSessions == |sessions|
      ensures stats.totalActiveUsers == TotalUsers(users)
    {
      var total := 0;
      var pending := users.Keys;
      ghost var counted: set<string> := {};
      while pending != {}
        invariant pending + counted == users.Keys && pending !! counted
        invariant total == TotalUsers(Restrict(users, counted))
        decreases pending
      {
        var id :| id in pending;
        TotalUsersRemove(Restrict(users, counted + {id}), id);
        assert Restrict(users, counted + {id}) - {id} == Restrict(users, counted);
        total := total + |users[id]|;
        pending := pending - {id};
        counted := counted + {id};
      }
      assert Restrict(users, counted) == users;
      stats := Stats(|sessions|, total);
    }
  }
}
