/**
 * The `/api/rooms` route: listing the signed-in user's rooms (GET) and
 * creating a room with a fresh room code (POST). The database is the store of
 * users and chatrooms; the session, the request body, the generator's random
 * draws, the new row's id and the creation time are inputs.
 */
module RoomsRoute {
  import opened Wrappers
  import JsText
  import RoomUrl

  const MaxAttempts: nat := 10

  datatype Chatroom = Chatroom(id: string, title: string, roomUrl: string, userId: string, createdAt: int)

  /** What `getServerSession` yields: it may throw, find no session, or find a
      session whose user has an email (possibly the empty string). */
  datatype Session = SessionThrew | NoSession | SignedIn(email: string)

  /** The value of `title` in a parsed JSON body. */
  datatype JsonValue = Missing | JsonNull | JsonBool | JsonNumber | JsonString(s: string) | JsonComposite

  /** `request.json()`: a body that does not parse makes the call throw. */
  datatype RequestBody = Unparsable | Body(title: JsonValue)

  datatype ResponseBody =
    | ErrorMessage(error: string)
    | RoomList(rooms: seq<Chatroom>)
    | CreatedRoom(roomUrl: string, title: string)

  datatype Response = Response(status: int, body: ResponseBody)

  const Unauthorized := Response(401, ErrorMessage("Unauthorized"))
  const UserNotFound := Response(404, ErrorMessage("User not found"))
  const FetchFailed := Response(500, ErrorMessage("Failed to fetch chatrooms"))
  const TitleInvalid := Response(400, ErrorMessage("Title is required and must be a non-empty string"))
  const TitleConflict := Response(409, ErrorMessage("You already have a room with this name"))
  const UrlExhausted := Response(500, ErrorMessage("Failed to generate unique room URL"))
  const CreateFailed := Response(500, ErrorMessage("Failed to create chatroom"))

  /** `session?.user?.email` is truthy: a failed session lookup, a missing
      session and a session whose email is the empty string are all refused. */
  predicate Authenticated(session: Session): (ok: bool)
    ensures session.SessionThrew? || session.NoSession? || session == SignedIn("") ==> !ok
    ensures session.SignedIn? && session.email != [] ==> ok
  {
    session.SignedIn? && session.email != ""
  }

  /** The title a POST body asks for: a string that is not empty after
      trimming, trimmed; None for anything else. */
  function TitleOf(v: JsonValue): (title: Option<string>)
    ensures title.Some? <==> v.JsonString? && !JsText.AllSpace(v.s)
    ensures title.Some? ==> title.value == JsText.Trim(v.s) && title.value != []
  {
    if v.JsonString? && JsText.Trim(v.s) != [] then Some(JsText.Trim(v.s)) else None
  }

  /** The room codes in use. */
  function Codes(rooms: seq<Chatroom>): set<string> {
    set r | r in rooms :: r.roomUrl
  }

  /** No two rooms share a code (the column is unique). */
  predicate UniqueCodes(rooms: seq<Chatroom>) {
    forall i, j :: 0 <= i < j < |rooms| ==> rooms[i].roomUrl != rooms[j].roomUrl
  }

  /** The user already owns a room with this title. */
  predicate TitleTaken(rooms: seq<Chatroom>, userId: string, title: string) {
    exists r :: r in rooms && r.userId == userId && r.title == title
  }

  /** The user's rooms, in store order. Each room appears as often as it does
      in the store if the user owns it, and not at all otherwise. */
  function OwnedBy(rooms: seq<Chatroom>, userId: string): (owned: seq<Chatroom>)
    ensures forall r :: multiset(owned)[r] == if r.userId == userId then multiset(rooms)[r] else 0
  {
    if rooms == [] then []
    else
      assert rooms == [rooms[0]] + rooms[1..];
      var rest := OwnedBy(rooms[1..], userId);
      if rooms[0].userId == userId then [rooms[0]] + rest else rest
  }

  predicate NewestFirst(rooms: seq<Chatroom>) {
    forall i, j :: 0 <= i < j < |rooms| ==> rooms[i].createdAt >= rooms[j].createdAt
  }

  /** A room no older than every room of a newest-first list can go in front. */
  lemma PrependNewest(room: Chatroom, rooms: seq<Chatroom>)
    requires NewestFirst(rooms)
    requires forall j :: 0 <= j < |rooms| ==> rooms[j].createdAt <= room.createdAt
    ensures NewestFirst([room] + rooms)
  {
    var r := [room] + rooms;
    forall i, j | 0 <= i < j < |r| ensures r[i].createdAt >= r[j].createdAt {
      assert r[j] == rooms[j - 1];
      if i > 0 { assert r[i] == rooms[i - 1]; }
    }
  }

  function InsertByAge(room: Chatroom, rooms: seq<Chatroom>): (r: seq<Chatroom>)
    requires NewestFirst(rooms)
    ensures NewestFirst(r)
    ensures multiset(r) == multiset(rooms) + multiset{room}
  {
    if rooms == [] then [room]
    else if room.createdAt >= rooms[0].createdAt then
      PrependNewest(room, rooms);
      [room] + rooms
    else
      assert rooms == [rooms[0]] + rooms[1..];
      var rest := InsertByAge(room, rooms[1..]);
      InsertedNoNewer(room, rooms, rest);
      PrependNewest(rooms[0], rest);
      [rooms[0]] + rest
  }

  lemma InsertedNoNewer(room: Chatroom, rooms: seq<Chatroom>, rest: seq<Chatroom>)
    requires NewestFirst(rooms) && rooms != [] && room.createdAt < rooms[0].createdAt
    requires multiset(rest) == multiset(rooms[1..]) + multiset{room}
    ensures forall j :: 0 <= j < |rest| ==> rest[j].createdAt <= rooms[0].createdAt
  {
    forall j | 0 <= j < |rest| ensures rest[j].createdAt <= rooms[0].createdAt {
      assert rest[j] in multiset(rest);
      if rest[j] != room {
        assert rest[j] in multiset(rooms[1..]);
        var k :| 0 <= k < |rooms[1..]| && rooms[1..][k] == rest[j];
        assert rooms[k + 1] == rest[j];
      }
    }
  }

  /** `orderBy: { createdAt: "desc" }`: the same rooms, newest first. */
  function SortNewestFirst(rooms: seq<Chatroom>): (r: seq<Chatroom>)
    ensures NewestFirst(r)
    ensures multiset(r) == multiset(rooms)
  {
    if rooms == [] then []
    else
      assert rooms == [rooms[0]] + rooms[1..];
      InsertByAge(rooms[0], SortNewestFirst(rooms[1..]))
  }

  /** The generator's draws: at least one per attempt, six picks each. */
  predicate WellFormedDraws(draws: seq<seq<RoomUrl.Pick>>) {
    |draws| >= MaxAttempts && forall j :: 0 <= j < |draws| ==> |draws[j]| == RoomUrl.CodeLength
  }

  /** The code `generateRoomUrl` returns on attempt `j`. */
  function Candidate(draws: seq<seq<RoomUrl.Pick>>, j: nat): (code: string)
    requires WellFormedDraws(draws) && j < |draws|
    ensures RoomUrl.IsValidRoomUrl(code)
  {
    RoomUrl.GenerateRoomUrl(draws[j])
  }

  /** The first of the attempts `from` .. `MaxAttempts - 1` whose code is not
      in use, or None when every one of them collides. */
  function FirstFree(used: set<string>, draws: seq<seq<RoomUrl.Pick>>, from: nat): (k: Option<nat>)
    requires WellFormedDraws(draws)
    ensures k.Some? ==> from <= k.value < MaxAttempts && Candidate(draws, k.value) !in used
    ensures k.Some? ==> forall j :: from <= j < k.value ==> Candidate(draws, j) in used
    ensures k.None? ==> forall j :: from <= j < MaxAttempts ==> Candidate(draws, j) in used
    decreases MaxAttempts - from
  {
    if from >= MaxAttempts then None
    else if Candidate(draws, from) !in used then Some(from)
    else FirstFree(used, draws, from + 1)
  }

  /** A room whose code is not in use keeps the codes unique. */
  lemma AddFreshCode(rooms: seq<Chatroom>, room: Chatroom)
    requires UniqueCodes(rooms)
    requires room.roomUrl !in Codes(rooms)
    ensures UniqueCodes(rooms + [room])
  {
    var all := rooms + [room];
    forall i, j | 0 <= i < j < |all| ensures all[i].roomUrl != all[j].roomUrl {
      if j == |rooms| {
        assert all[i] in rooms;
      }
    }
  }

  /** The users table (email to user id, emails are unique), the chatrooms
      table in insertion order, and whether queries reach the database (when
      not, every query throws). */
  class Database {
    var users: map<string, string>
    var chatrooms: seq<Chatroom>
    var reachable: bool

    constructor (users: map<string, string>, chatrooms: seq<Chatroom>, reachable: bool)
      ensures this.users == users && this.chatrooms == chatrooms && this.reachable == reachable
    {
      this.users := users;
      this.chatrooms := chatrooms;
      this.reachable := reachable;
    }

    /** `user.findUnique({ where: { email } })`: the user's id. */
    method FindUserId(email: string) returns (threw: bool, userId: Option<string>)
      ensures threw == !reachable
      ensures !threw ==> userId == if email in users then Some(users[email]) else None
    {
      threw := !reachable;
      userId := if email in users then Some(users[email]) else None;
    }

    /** `chatroom.findFirst({ where: { title, userId } })` is non-null. */
    method HasRoomTitled(userId: string, title: string) returns (threw: bool, found: bool)
      ensures threw == !reachable
      ensures !threw ==> found == TitleTaken(chatrooms, userId, title)
    {
      threw := !reachable;
      found := exists r :: r in chatrooms && r.userId == userId && r.title == title;
    }

    /** `chatroom.findUnique({ where: { roomUrl } })` is non-null. */
    method HasRoomUrl(roomUrl: string) returns (threw: bool, found: bool)
      ensures threw == !reachable
      ensures !threw ==> found == (roomUrl in Codes(chatrooms))
    {
      threw := !reachable;
      found := roomUrl in Codes(chatrooms);
    }

    /** `chatroom.findMany({ where: { userId }, orderBy: { createdAt: "desc" } })`. */
    method RoomsOf(userId: string) returns (threw: bool, rooms: seq<Chatroom>)
      ensures threw == !reachable
      ensures !threw ==> NewestFirst(rooms) && multiset(rooms) == multiset(OwnedBy(chatrooms, userId))
    {
      threw := !reachable;
      rooms := SortNewestFirst(OwnedBy(chatrooms, userId));
    }

    /** `chatroom.create({ data })`. */
    method Create(room: Chatroom) returns (threw: bool)
      modifies this
      ensures threw == !reachable
      ensures users == old(users) && reachable == old(reachable)
      ensures chatrooms == if threw then old(chatrooms) else old(chatrooms) + [room]
    {
      threw := !reachable;
      if !threw {
        chatrooms := chatrooms + [room];
      }
    }
  }

  /** GET: the signed-in user's rooms, newest first. */
  method Get(db: Database, session: Session) returns (resp: Response)
    ensures session.SessionThrew? ==> resp == FetchFailed
    ensures !session.SessionThrew? && !Authenticated(session) ==> resp == Unauthorized
    ensures Authenticated(session) && !db.reachable ==> resp == FetchFailed
    ensures Authenticated(session) && db.reachable && session.email !in db.users ==> resp == UserNotFound
    ensures Authenticated(session) && db.reachable && session.email in db.users ==>
      resp.status == 200 && resp.body.RoomList? && NewestFirst(resp.body.rooms) &&
      multiset(resp.body.rooms) == multiset(OwnedBy(db.chatrooms, db.users[session.email]))
  {
    if session.SessionThrew? {
      return FetchFailed;
    }
    if !Authenticated(session) {
      return Unauthorized;
    }
    var threw, user := db.FindUserId(session.email);
    if threw {
      return FetchFailed;
    }
    if user.None? {
      return UserNotFound;
    }
    var rooms;
    threw, rooms := db.RoomsOf(user.value);
    if threw {
      return FetchFailed;
    }
    resp := Response(200, RoomList(rooms));
  }

  /** The retry loop of POST: generate a code, look it up, and stop at the
      first one not in use; give up after `MaxAttempts` collisions. */
  method ChooseRoomUrl(db: Database, draws: seq<seq<RoomUrl.Pick>>) returns (threw: bool, roomUrl: Option<string>)
    requires WellFormedDraws(draws)
    ensures threw == !db.reachable
    ensures !threw ==> roomUrl == match FirstFree(Codes(db.chatrooms), draws, 0)
      case None => None
      case Some(k) => Some(Candidate(draws, k))
  {
    ghost var used := Codes(db.chatrooms);
    var attempts: nat := 0;
    while true
      invariant attempts < MaxAttempts
      invariant FirstFree(used, draws, 0) == FirstFree(used, draws, attempts)
      decreases MaxAttempts - attempts
    {
      var candidate := RoomUrl.GenerateRoomUrl(draws[attempts]);
      attempts := attempts + 1;
      var found;
      threw, found := db.HasRoomUrl(candidate);
      if threw {
        return true, None;
      }
      if !found {
        return false, Some(candidate);
      }
      if attempts >= MaxAttempts {
        return false, None;
      }
    }
  }

  /** The request gets past the session and body checks and reaches the database. */
  predicate ReachesStore(session: Session, request: RequestBody) {
    Authenticated(session) && request.Body? && TitleOf(request.title).Some?
  }

  /** POST: create a room titled with the trimmed title, owned by the signed-in
      user, under the first of at most ten generated codes that is not in use. */
  method Post(db: Database, session: Session, request: RequestBody,
              draws: seq<seq<RoomUrl.Pick>>, newId: string, now: int) returns (resp: Response)
    requires WellFormedDraws(draws)
    modifies db
    ensures db.users == old(db.users) && db.reachable == old(db.reachable)
    ensures resp.status != 200 ==> db.chatrooms == old(db.chatrooms)
    ensures session.SessionThrew? ==> resp == CreateFailed
    ensures !session.SessionThrew? && !Authenticated(session) ==> resp == Unauthorized
    ensures Authenticated(session) && request.Unparsable? ==> resp == CreateFailed
    ensures Authenticated(session) && request.Body? && TitleOf(request.title).None? ==> resp == TitleInvalid
    ensures ReachesStore(session, request) && !db.reachable ==> resp == CreateFailed
    ensures ReachesStore(session, request) && db.reachable && session.email !in db.users ==>
      resp == UserNotFound
    ensures ReachesStore(session, request) && db.reachable && session.email in db.users ==>
      var title, userId := TitleOf(request.title).value, db.users[session.email];
      if TitleTaken(old(db.chatrooms), userId, title) then
        resp == TitleConflict
      else
        match FirstFree(Codes(old(db.chatrooms)), draws, 0)
        case None => resp == UrlExhausted
        case Some(k) =>
          db.chatrooms == old(db.chatrooms) + [Chatroom(newId, title, Candidate(draws, k), userId, now)] &&
          resp == Response(200, CreatedRoom(Candidate(draws, k), title))
    ensures UniqueCodes(old(db.chatrooms)) ==> UniqueCodes(db.chatrooms)
  {
    if session.SessionThrew? {
      return CreateFailed;
    }
    if !Authenticated(session) {
      return Unauthorized;
    }
    if request.Unparsable? {
      return CreateFailed;
    }
    var title := TitleOf(request.title);
    if title.None? {
      return TitleInvalid;
    }
    var threw, user := db.FindUserId(session.email);
    if threw {
      return CreateFailed;
    }
    if user.None? {
      return UserNotFound;
    }
    var taken;
    threw, taken := db.HasRoomTitled(user.value, title.value);
    if threw {
      return CreateFailed;
    }
    if taken {
      return TitleConflict;
    }

    var roomUrl;
    threw, roomUrl := ChooseRoomUrl(db, draws);
    if threw {
      return CreateFailed;
    }
    if roomUrl.None? {
      return UrlExhausted;
    }

    var room := Chatroom(newId, title.value, roomUrl.value, user.value, now);
    threw := db.Create(room);
    if threw {
      return CreateFailed;
    }
    if UniqueCodes(old(db.chatrooms)) {
      AddFreshCode(old(db.chatrooms), room);
    }
    resp := Response(200, CreatedRoom(room.roomUrl, room.title));
  }
}
