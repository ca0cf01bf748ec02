// The backend's persisted tables (the Prisma models User, Chatbot, Document,
// Conversation, Session and QRScan) as sequences of rows, the queries the controllers
// run over them, and the class holding the whole database.
module Store {
  import opened Common
  import opened Text

  datatype User = User(id: int, name: string, email: string, password: string, role: string, isAnonymous: bool)

  /** A chatbot row; description, primaryColor and qrUrl are nullable columns. */
  datatype Chatbot = Chatbot(id: int, name: string, description: Option<string>, logoUrl: string,
                             primaryColor: Option<string>, isActive: bool, ownerId: int, qrUrl: Option<string>)

  datatype Document = Document(id: int, chatbotId: int, fileName: string, fileType: string, size: nat,
                               url: string, createdAt: int)

  /** One question/answer exchange; `createdAt` is a timestamp in milliseconds. */
  datatype Conversation = Conversation(id: int, userId: int, chatbotId: int, question: string, answer: string,
                                       createdAt: int)

  /** A chat session: open while `endedAt` is null. */
  datatype Session = Session(id: int, userId: int, chatbotId: int, startedAt: int, endedAt: Option<int>)

  datatype QRScan = QRScan(id: int, chatbotId: int, userId: int, scannedAt: int)

  /** What a handler does with the request: a response with a status, or `next(e)` to the error middleware. */
  datatype Outcome = Reply(status: int) | Forwarded

  // ---------------------------------------------------------------- generic queries

  /** The position of the first row satisfying `p`: findFirst, and findUnique on a unique column. */
  function First<T>(rows: seq<T>, p: T -> bool): (r: Option<nat>)
    ensures r.Some? ==> r.value < |rows| && p(rows[r.value]) && forall j :: 0 <= j < r.value ==> !p(rows[j])
    ensures r.None? <==> forall j :: 0 <= j < |rows| ==> !p(rows[j])
  {
    if |rows| == 0 then None
    else if p(rows[0]) then Some(0)
    else
      var r := First(rows[1..], p);
      if r.None? then None else Some(r.value + 1)
  }

  /** The rows satisfying `p`, in table order: findMany, and the rows a count or deleteMany sees. */
  function Where<T>(rows: seq<T>, p: T -> bool): (r: seq<T>)
    ensures |r| <= |rows|
    ensures forall i :: 0 <= i < |r| ==> p(r[i]) && r[i] in rows
    ensures forall i :: 0 <= i < |rows| && p(rows[i]) ==> rows[i] in r
  {
    if |rows| == 0 then []
    else
      var init := Where(rows[..|rows| - 1], p);
      var last := rows[|rows| - 1];
      assert forall i :: 0 <= i < |rows| - 1 ==> rows[i] == rows[..|rows| - 1][i];
      init + (if p(last) then [last] else [])
  }

  /** `count({ where })`. */
  function Count<T>(rows: seq<T>, p: T -> bool): (n: nat)
    ensures n <= |rows|
  {
    |Where(rows, p)|
  }

  /** Appending a row extends the query result by that row when it matches. */
  lemma WhereAppend<T>(rows: seq<T>, x: T, p: T -> bool)
    ensures Where(rows + [x], p) == Where(rows, p) + (if p(x) then [x] else [])
  {
    assert (rows + [x])[..|rows|] == rows;
  }

  /** A weaker filter never counts fewer rows. */
  lemma {:induction false} CountMonotone<T>(rows: seq<T>, p: T -> bool, q: T -> bool)
    requires forall x :: p(x) ==> q(x)
    ensures Count(rows, p) <= Count(rows, q)
  {
    if |rows| > 0 {
      CountMonotone(rows[..|rows| - 1], p, q);
    }
  }

  /** Changing one row changes a count by at most that row's own contribution. */
  lemma {:induction false} CountUpdate<T>(rows: seq<T>, i: nat, x: T, p: T -> bool)
    requires i < |rows|
    ensures Count(rows[i := x], p) + (if p(rows[i]) then 1 else 0) == Count(rows, p) + (if p(x) then 1 else 0)
  {
    var n := |rows| - 1;
    if i < n {
      CountUpdate(rows[..n], i, x, p);
      assert rows[i := x][..n] == rows[..n][i := x];
    } else {
      assert rows[i := x][..n] == rows[..n];
    }
  }

  /** A query over two runs of rows is the query over the first followed by the query over the second. */
  lemma {:induction false} WhereConcat<T>(a: seq<T>, b: seq<T>, p: T -> bool)
    ensures Where(a + b, p) == Where(a, p) + Where(b, p)
  {
    if |b| > 0 {
      WhereConcat(a, b[..|b| - 1], p);
      assert (a + b)[..|a + b| - 1] == a + b[..|b| - 1];
    } else {
      assert a + b == a;
    }
  }

  /** Rows failing `p` are kept, in order: what deleteMany leaves behind. */
  function Without<T>(rows: seq<T>, p: T -> bool): (r: seq<T>)
    ensures |r| + Count(rows, p) == |rows|
    ensures forall i :: 0 <= i < |r| ==> !p(r[i]) && r[i] in rows
    ensures forall i :: 0 <= i < |rows| && !p(rows[i]) ==> rows[i] in r
  {
    WhereSplit(rows, p);
    Where(rows, Not(p))
  }

  lemma {:induction false} WhereSplit<T>(rows: seq<T>, p: T -> bool)
    ensures |Where(rows, Not(p))| + |Where(rows, p)| == |rows|
  {
    if |rows| > 0 {
      WhereSplit(rows[..|rows| - 1], p);
    }
  }

  function Not<T>(p: T -> bool): T -> bool
  {
    (x: T) => !p(x)
  }

  // ---------------------------------------------------------------- rows by key

  function UserWithId(id: int): User -> bool { (u: User) => u.id == id }
  function ChatbotWithId(id: int): Chatbot -> bool { (b: Chatbot) => b.id == id }
  function ActiveChatbotWithId(id: int): Chatbot -> bool { (b: Chatbot) => b.id == id && b.isActive }
  function DocumentWithId(id: int): Document -> bool { (d: Document) => d.id == id }
  function DocumentOf(chatbotId: int): Document -> bool { (d: Document) => d.chatbotId == chatbotId }

  /** The rows of one (user, chatbot) pair. */
  function PairRow(userId: int, chatbotId: int): Conversation -> bool
  {
    (c: Conversation) => c.userId == userId && c.chatbotId == chatbotId
  }

  /** An open session of one (user, chatbot) pair: `{ userId, chatbotId, endedAt: null }`. */
  function OpenFor(userId: int, chatbotId: int): Session -> bool
  {
    (s: Session) => s.userId == userId && s.chatbotId == chatbotId && s.endedAt.None?
  }

  predicate HasOpenSession(sessions: seq<Session>, userId: int, chatbotId: int)
  {
    First(sessions, OpenFor(userId, chatbotId)).Some?
  }

  // ---------------------------------------------------------------- session rules

  /**
   * sendMessage's session step: a session starting at `now` is created for the pair only
   * when it has no open one.
   */
  function EnsureOpen(sessions: seq<Session>, userId: int, chatbotId: int, now: int, id: int): (r: seq<Session>)
    ensures HasOpenSession(r, userId, chatbotId)
    ensures HasOpenSession(sessions, userId, chatbotId) ==> r == sessions
    ensures !HasOpenSession(sessions, userId, chatbotId) ==> r == sessions + [Session(id, userId, chatbotId, now, None)]
  {
    if HasOpenSession(sessions, userId, chatbotId) then sessions
    else
      var r := sessions + [Session(id, userId, chatbotId, now, None)];
      assert OpenFor(userId, chatbotId)(r[|sessions|]);
      r
  }

  /** A second message on the same pair opens nothing new. */
  lemma EnsureOpenIdempotent(sessions: seq<Session>, userId: int, chatbotId: int, now: int, id: int, now2: int, id2: int)
    ensures var once := EnsureOpen(sessions, userId, chatbotId, now, id);
            EnsureOpen(once, userId, chatbotId, now2, id2) == once
  {
  }

  /** A pair with no open session has exactly one afterwards. */
  lemma EnsureOpenCreatesOne(sessions: seq<Session>, userId: int, chatbotId: int, now: int, id: int)
    requires !HasOpenSession(sessions, userId, chatbotId)
    ensures Count(EnsureOpen(sessions, userId, chatbotId, now, id), OpenFor(userId, chatbotId)) == 1
  {
    var p := OpenFor(userId, chatbotId);
    NoneMatch(sessions, p);
    WhereAppend(sessions, Session(id, userId, chatbotId, now, None), p);
  }

  lemma {:induction false} NoneMatch<T>(rows: seq<T>, p: T -> bool)
    requires forall j :: 0 <= j < |rows| ==> !p(rows[j])
    ensures Where(rows, p) == []
  {
    if |rows| > 0 {
      NoneMatch(rows[..|rows| - 1], p);
    }
  }

  lemma {:induction false} AllMatch<T>(rows: seq<T>, p: T -> bool)
    requires forall j :: 0 <= j < |rows| ==> p(rows[j])
    ensures Where(rows, p) == rows
  {
    if |rows| > 0 {
      AllMatch(rows[..|rows| - 1], p);
      assert rows[..|rows| - 1] + [rows[|rows| - 1]] == rows;
    }
  }

  /** endSession's write: the session at `i` gets `endedAt = now`. */
  function Close(sessions: seq<Session>, i: nat, now: int): (r: seq<Session>)
    requires i < |sessions|
    ensures |r| == |sessions|
    ensures r[i].endedAt == Some(now)
  {
    sessions[i := sessions[i].(endedAt := Some(now))]
  }

  /** Closing a pair's first open session leaves one open session fewer for that pair. */
  lemma CloseCountsDown(sessions: seq<Session>, userId: int, chatbotId: int, now: int)
    requires HasOpenSession(sessions, userId, chatbotId)
    ensures var i := First(sessions, OpenFor(userId, chatbotId)).value;
            Count(Close(sessions, i, now), OpenFor(userId, chatbotId)) + 1
              == Count(sessions, OpenFor(userId, chatbotId))
  {
    var i := First(sessions, OpenFor(userId, chatbotId)).value;
    CountUpdate(sessions, i, sessions[i].(endedAt := Some(now)), OpenFor(userId, chatbotId));
  }

  /** With a single open session, closing it leaves the pair with none, so a repeated close finds nothing. */
  lemma CloseTwiceFails(sessions: seq<Session>, userId: int, chatbotId: int, now: int)
    requires Count(sessions, OpenFor(userId, chatbotId)) == 1
    ensures HasOpenSession(sessions, userId, chatbotId)
    ensures var i := First(sessions, OpenFor(userId, chatbotId)).value;
            !HasOpenSession(Close(sessions, i, now), userId, chatbotId)
  {
    var p := OpenFor(userId, chatbotId);
    if !HasOpenSession(sessions, userId, chatbotId) {
      NoneMatch(sessions, p);
    }
    var i := First(sessions, p).value;
    var r := Close(sessions, i, now);
    CloseCountsDown(sessions, userId, chatbotId, now);
  }

  // ---------------------------------------------------------------- the database

  /**
   * Every table, and for each the autoincrement id its next created row receives.
   */
  datatype Tables = Tables(users: seq<User>, chatbots: seq<Chatbot>, documents: seq<Document>,
                           conversations: seq<Conversation>, sessions: seq<Session>, qrScans: seq<QRScan>,
                           nextUserId: int, nextChatbotId: int, nextDocumentId: int,
                           nextConversationId: int, nextSessionId: int, nextScanId: int)

  /** A fresh database: no rows, every id sequence at 1. */
  const EMPTY: Tables := Tables([], [], [], [], [], [], 1, 1, 1, 1, 1, 1)

  /** The row for `id` in the User table, when there is one. */
  function FindUser(t: Tables, id: int): (u: Option<User>)
    ensures u.Some? ==> u.value in t.users && u.value.id == id
    ensures u.None? <==> forall j :: 0 <= j < |t.users| ==> t.users[j].id != id
  {
    match First(t.users, UserWithId(id))
    case None => None
    case Some(j) => Some(t.users[j])
  }

  /** `findUnique({ where: { id, isActive: true } })` on the Chatbot table. */
  function FindActiveChatbot(t: Tables, id: int): (b: Option<Chatbot>)
    ensures b.Some? ==> b.value in t.chatbots && b.value.id == id && b.value.isActive
    ensures b.None? <==> forall j :: 0 <= j < |t.chatbots| ==> !(t.chatbots[j].id == id && t.chatbots[j].isActive)
  {
    match First(t.chatbots, ActiveChatbotWithId(id))
    case None => None
    case Some(j) => Some(t.chatbots[j])
  }

  /** `findUnique({ where: { id } })` on the Chatbot table. */
  function FindChatbot(t: Tables, id: int): (b: Option<Chatbot>)
    ensures b.Some? ==> b.value in t.chatbots && b.value.id == id
    ensures b.None? <==> forall j :: 0 <= j < |t.chatbots| ==> t.chatbots[j].id != id
  {
    match First(t.chatbots, ChatbotWithId(id))
    case None => None
    case Some(j) => Some(t.chatbots[j])
  }

  /** The anonymous visitor sendMessage and getChatbot create: role USER, isAnonymous, no email. */
  function AnonymousUser(id: int, now: int): User
  {
    User(id, "Anonymous_" + IntToDecimal(now), "", "", USER, true)
  }

  /** `prisma.user.create` of an anonymous visitor: one row appended, with the next user id. */
  function WithAnonymousUser(t: Tables, now: int): (r: Tables)
    ensures FindUser(r, t.nextUserId).Some?
    ensures |r.users| == |t.users| + 1 && r.users[..|t.users|] == t.users
    ensures r.users[|t.users|] == AnonymousUser(t.nextUserId, now)
    ensures r.users[|t.users|].isAnonymous && r.users[|t.users|].role == USER
    ensures r.nextUserId == t.nextUserId + 1
    ensures r == t.(users := r.users, nextUserId := r.nextUserId)
  {
    var r := t.(users := t.users + [AnonymousUser(t.nextUserId, now)], nextUserId := t.nextUserId + 1);
    assert r.users[|t.users|].id == t.nextUserId;
    r
  }

  /** When every user id is below the next one, the new row is the one found under its id. */
  lemma NewVisitorIsFound(t: Tables, now: int)
    requires forall j :: 0 <= j < |t.users| ==> t.users[j].id < t.nextUserId
    ensures FindUser(WithAnonymousUser(t, now), t.nextUserId) == Some(AnonymousUser(t.nextUserId, now))
  {
    var r := WithAnonymousUser(t, now);
    var u := FindUser(r, t.nextUserId).value;
    var j :| 0 <= j < |r.users| && r.users[j] == u;
    assert j == |t.users|;
  }

  /** The database one PrismaClient talks to. */
  class Database {
    var tables: Tables

    constructor ()
      ensures tables == EMPTY
    {
      tables := EMPTY;
    }
  }
}
