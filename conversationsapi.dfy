// The chat-history controller (controllers/conversation.controller.js): the list of
// threads, one per (user, chatbot) pair among the conversations a principal may see, with
// the page's counters, and the deletion of one pair's conversations.
module ConversationController {
  import opened Common
  import opened Text
  import opened Auth
  import opened Sorting
  import opened Store
  import opened Stats

  // ---------------------------------------------------------------- Number(s)

  predicate AllDigits(s: string, radix: nat)
  {
    forall i :: 0 <= i < |s| ==> DigitValue(s[i], radix) >= 0
  }

  /** An optional exponent: nothing, or 'e'/'E', an optional sign and at least one digit. */
  predicate IsExponentPart(s: string)
  {
    s == [] || (s[0] in "eE" && var d := if |s| > 1 && s[1] in "+-" then s[2..] else s[1..];
                                 |d| > 0 && AllDigits(d, 10))
  }

  /** StrUnsignedDecimalLiteral: "Infinity", or digits with an optional fraction and exponent. */
  predicate IsUnsignedDecimal(u: string)
  {
    u == "Infinity" ||
    var k := DigitRun(u, 10);
    var rest := u[k..];
    if |rest| > 0 && rest[0] == '.' then
      var m := DigitRun(rest[1..], 10);
      (k > 0 || m > 0) && IsExponentPart(rest[1..][m..])
    else k > 0 && IsExponentPart(rest)
  }

  /** NonDecimalIntegerLiteral: "0x", "0o" or "0b" (either case) and at least one digit of that radix. */
  predicate IsNonDecimalInteger(t: string)
  {
    |t| >= 3 && t[0] == '0' &&
    ((t[1] in "xX" && AllDigits(t[2..], 16)) || (t[1] in "oO" && AllDigits(t[2..], 8))
     || (t[1] in "bB" && AllDigits(t[2..], 2)))
  }

  /**
   * The global isNaN applied to a string: Number(s) is NaN unless the trimmed text is
   * empty, a signed decimal literal or a non-decimal integer literal.
   */
  predicate NumberIsNaN(s: string)
  {
    var t := JsTrim(s);
    !(t == [] || IsNonDecimalInteger(t)
      || (if t[0] in "+-" then IsUnsignedDecimal(t[1..]) else IsUnsignedDecimal(t)))
  }

  /** ".5" passes isNaN, but parseInt(".5", 10) is NaN. */
  lemma FractionPassesIsNaN()
    ensures !NumberIsNaN(".5") && ParseInt(".5", false).None?
  {
    assert LeadingCount(".5", IsJsSpace) == 0;
    assert TrailingCount(".5", IsJsSpace) == 0;
    assert JsTrim(".5") == ".5";
    assert DigitRun(".5", 10) == 0;
    assert ".5"[1..] == "5";
    assert DigitRun("5", 10) == 1;
  }

  /** "12abc" fails isNaN, although parseInt("12abc", 10) reads 12. */
  lemma TrailingTextFailsIsNaN()
    ensures NumberIsNaN("12abc") && ParseInt("12abc", false) == Some(12)
  {
    TrimmedAlready("12abc");
    assert DigitRun("12abc", 10) == 2 by {
      assert "12abc"[1..] == "2abc" && "2abc"[1..] == "abc";
    }
    assert !IsUnsignedDecimal("12abc") by {
      assert "12abc"[2..] == "abc";
    }
    ReadsTwelve();
  }

  lemma ReadsTwelve()
    ensures ParseInt("12abc", false) == Some(12)
  {
    var s := "12abc";
    assert ParseSigned(s, false) == Some(12) by {
      assert s[0] == '1';
      TwelveDigits();
    }
    assert TrimStart(s, IsJsSpace) == s by {
      TrimmedAlready(s);
    }
  }

  /** The digit run of "12abc" is "12", worth twelve. */
  lemma TwelveDigits()
    ensures ParseUnsigned("12abc", false) == Some(12)
  {
    var s := "12abc";
    assert DigitRun(s, 10) == 2 by {
      assert s[1..] == "2abc" && "2abc"[1..] == "abc";
    }
    assert s[..2] == "12";
    assert DigitsValue("12", 10) == 12 by {
      assert "12"[..1] == "1";
      assert DigitsValue("1", 10) == 1;
    }
  }

  lemma TrimmedAlready(s: string)
    requires |s| > 0 && !IsJsSpace(s[0]) && !IsJsSpace(s[|s| - 1])
    ensures JsTrim(s) == s && TrimStart(s, IsJsSpace) == s
  {
    assert LeadingCount(s, IsJsSpace) == 0;
    assert TrailingCount(s, IsJsSpace) == 0;
  }

  // ---------------------------------------------------------------- filter

  /** A chatbot row with that id exists and is owned by `ownerId` (`chatbot: { ownerId }`). */
  predicate OwnedBy(t: Tables, chatbotId: int, ownerId: int)
  {
    FindChatbot(t, chatbotId).Some? && FindChatbot(t, chatbotId).value.ownerId == ownerId
  }

  /** The role scope: every conversation for ADMIN, else those of the principal's chatbots. */
  predicate Visible(t: Tables, principal: Claims, c: Conversation)
  {
    principal.role == ADMIN || OwnedBy(t, c.chatbotId, principal.id)
  }

  function InScope(t: Tables, principal: Claims): Conversation -> bool
  {
    (c: Conversation) => Visible(t, principal, c)
  }

  /** A query-string id filter: absent or empty, a parsed id, or text parseInt reads as NaN. */
  datatype QueryId = NoFilter | FilterBy(id: int) | NotANumber

  function QueryFilter(q: Option<string>): (f: QueryId)
    ensures f == NoFilter <==> !Present(q)
    ensures f.FilterBy? ==> ParseInt(q.value, false) == Some(f.id)
  {
    if !Present(q) then NoFilter
    else match ParseInt(q.value, false)
      case None => NotANumber
      case Some(n) => FilterBy(n)
  }

  predicate Admits(f: QueryId, id: int)
  {
    f.NoFilter? || (f.FilterBy? && f.id == id)
  }

  /** `question` or `answer` contains the query, ignoring case; an empty query matches everything. */
  predicate MatchesSearch(c: Conversation, search: string)
  {
    search == "" || IncludesIgnoringCase(c.question, search) || IncludesIgnoringCase(c.answer, search)
  }

  predicate IsMatch(t: Tables, principal: Claims, userId: QueryId, chatbotId: QueryId, search: string,
                    c: Conversation)
  {
    Visible(t, principal, c) && Admits(userId, c.userId) && Admits(chatbotId, c.chatbotId) && MatchesSearch(c, search)
  }

  /** The merged where clause: the role scope and the three optional filters, all together. */
  function Matching(t: Tables, principal: Claims, userId: QueryId, chatbotId: QueryId, search: string)
    : Conversation -> bool
  {
    (c: Conversation) => IsMatch(t, principal, userId, chatbotId, search, c)
  }

  // ---------------------------------------------------------------- groups

  datatype Pair = Pair(userId: int, chatbotId: int)

  function PairOf(c: Conversation): Pair { Pair(c.userId, c.chatbotId) }

  function RowsOf(rows: seq<Conversation>, p: Pair): seq<Conversation>
  {
    Where(rows, PairRow(p.userId, p.chatbotId))
  }

  predicate Distinct<T(==)>(s: seq<T>)
  {
    forall i, j :: 0 <= i < j < |s| ==> s[i] != s[j]
  }

  /**
   * `groupBy({ by: ['userId', 'chatbotId'] })`: the distinct pairs of the rows, in the
   * order of their first row. A pair is a group exactly when it has a row.
   */
  function Groups(rows: seq<Conversation>): (g: seq<Pair>)
    ensures Distinct(g)
    ensures forall p :: p in g <==> |RowsOf(rows, p)| > 0
  {
    if |rows| == 0 then []
    else
      var init := rows[..|rows| - 1];
      var x := rows[|rows| - 1];
      assert rows == init + [x];
      forall p ensures |RowsOf(rows, p)| == |RowsOf(init, p)| + (if p == PairOf(x) then 1 else 0) {
        WhereAppend(init, x, PairRow(p.userId, p.chatbotId));
      }
      var g := Groups(init);
      if PairOf(x) in g then g else g + [PairOf(x)]
  }

  /** The total of the groups' message counts. */
  function CountSum(g: seq<Pair>, rows: seq<Conversation>): nat
  {
    if |g| == 0 then 0 else CountSum(g[..|g| - 1], rows) + |RowsOf(rows, g[|g| - 1])|
  }

  /** The groups partition the rows: their message counts add up to the number of rows. */
  lemma {:induction false} GroupsPartition(rows: seq<Conversation>)
    ensures CountSum(Groups(rows), rows) == |rows|
  {
    if |rows| > 0 {
      var init := rows[..|rows| - 1];
      var x := rows[|rows| - 1];
      assert rows == init + [x];
      GroupsPartition(init);
      var g := Groups(init);
      CountSumAppend(g, init, x);
      if PairOf(x) !in g {
        WhereAppend(init, x, PairRow(x.userId, x.chatbotId));
        assert |RowsOf(init, PairOf(x))| == 0;
      }
    }
  }

  /** Appending a row adds one to the sum when the row's pair is among the groups, and nothing otherwise. */
  lemma {:induction false} CountSumAppend(g: seq<Pair>, rows: seq<Conversation>, x: Conversation)
    requires Distinct(g)
    ensures CountSum(g, rows + [x]) == CountSum(g, rows) + (if PairOf(x) in g then 1 else 0)
  {
    if |g| > 0 {
      var init := g[..|g| - 1];
      var last := g[|g| - 1];
      assert g == init + [last];
      CountSumAppend(init, rows, x);
      WhereAppend(rows, x, PairRow(last.userId, last.chatbotId));
      assert PairOf(x) in g <==> PairOf(x) in init || PairOf(x) == last;
    }
  }

  // ---------------------------------------------------------------- threads

  /** One entry of a thread's `messages` or `botMessages`. */
  datatype Line = Line(id: string, content: string, sender: string, timestamp: int)

  function UserLine(c: Conversation): Line { Line(IntToDecimal(c.id), c.question, "user", c.createdAt) }

  function BotLine(c: Conversation): Line { Line(IntToDecimal(c.id) + "-bot", c.answer, "bot", c.createdAt) }

  /** `messages.map(...)`: one user entry per row, in order. */
  function UserLines(rows: seq<Conversation>): (lines: seq<Line>)
    ensures |lines| == |rows|
    ensures forall i :: 0 <= i < |rows| ==> lines[i] == UserLine(rows[i])
  {
    seq(|rows|, i requires 0 <= i < |rows| => UserLine(rows[i]))
  }

  function Answered(): Conversation -> bool { (c: Conversation) => c.answer != "" }

  /** `messages.filter((msg) => msg.answer).map(...)`: one bot entry per row with an answer. */
  function BotLines(rows: seq<Conversation>): (lines: seq<Line>)
    ensures |lines| <= |rows|
    ensures forall i :: 0 <= i < |lines| ==> lines[i].sender == "bot" && lines[i].content != ""
    ensures |lines| == Count(rows, Answered())
  {
    if |rows| == 0 then []
    else
      var init := rows[..|rows| - 1];
      var x := rows[|rows| - 1];
      assert rows == init + [x];
      WhereAppend(init, x, Answered());
      var r := BotLines(init);
      if x.answer != "" then r + [BotLine(x)] else r
  }

  /**
   * One grouped conversation as the page receives it: the pair, the newest row's user
   * (name, email, isAnonymous) and chatbot (name, logoUrl, primaryColor), the newest
   * question, the count, the latest time, the session status and the entries.
   */
  datatype Thread = Thread(id: string, userId: int, userName: string, userEmail: string, isAnonymous: bool,
                           chatbotId: int, chatbotName: string, chatbotLogo: string,
                           chatbotPrimaryColor: Option<string>, lastMessage: string,
                           messageCount: nat, createdAt: int, active: bool,
                           messages: seq<Line>, botMessages: seq<Line>)

  function Newest(c: Conversation): int { -c.createdAt }

  /** `latestMessage.user.name || 'Anonymous'`. */
  function DisplayName(t: Tables, userId: int): (name: string)
    ensures name != ""
  {
    match FindUser(t, userId)
    case Some(u) => if u.name != "" then u.name else "Anonymous"
    case None => "Anonymous"
  }

  /** The user row a conversation includes; a missing row (the foreign key rules it out) reads as a blank user. */
  function IncludedUser(t: Tables, userId: int): User
  {
    match FindUser(t, userId)
    case Some(u) => u
    case None => User(userId, "", "", "", USER, false)
  }

  /** The chatbot row a conversation includes; a missing row (the foreign key rules it out) reads as a blank chatbot. */
  function IncludedChatbot(t: Tables, chatbotId: int): Chatbot
  {
    match FindChatbot(t, chatbotId)
    case Some(b) => b
    case None => Chatbot(chatbotId, "", None, "", None, false, 0, None)
  }

  /** Every row of the pair's group belongs to the pair. */
  lemma RowOfPair(rows: seq<Conversation>, p: Pair, c: Conversation)
    requires c in RowsOf(rows, p)
    ensures PairOf(c) == p
  {
    var own := RowsOf(rows, p);
    var i :| 0 <= i < |own| && own[i] == c;
    assert PairRow(p.userId, p.chatbotId)(own[i]);
  }

  /**
   * The thread of one group: its matching rows newest first, their number, the newest
   * row's time, question, user and chatbot, and the pair's session status, which
   * ignores the filters.
   */
  function ThreadOf(t: Tables, rows: seq<Conversation>, p: Pair): (th: Thread)
    requires |RowsOf(rows, p)| > 0
    ensures th.userId == p.userId && th.chatbotId == p.chatbotId
    ensures th.messageCount == |RowsOf(rows, p)| == |th.messages|
    ensures |th.botMessages| <= |th.messages|
    ensures th.active <==> HasOpenSession(t.sessions, p.userId, p.chatbotId)
    ensures th.userName == DisplayName(t, p.userId)
    ensures th.isAnonymous <==> FindUser(t, p.userId).Some? && FindUser(t, p.userId).value.isAnonymous
    ensures FindUser(t, p.userId).Some? ==> th.userEmail == FindUser(t, p.userId).value.email
    ensures FindChatbot(t, p.chatbotId).Some? ==>
              var b := FindChatbot(t, p.chatbotId).value;
              th.chatbotName == b.name && th.chatbotLogo == b.logoUrl && th.chatbotPrimaryColor == b.primaryColor
  {
    var msgs := SortBy(RowsOf(rows, p), Newest);
    var latest := msgs[0];
    assert latest in multiset(RowsOf(rows, p));
    RowOfPair(rows, p, latest);
    var user := IncludedUser(t, latest.userId);
    var bot := IncludedChatbot(t, latest.chatbotId);
    Thread(IntToDecimal(p.userId) + "-" + IntToDecimal(p.chatbotId), p.userId, DisplayName(t, latest.userId),
           user.email, user.isAnonymous, p.chatbotId, bot.name, bot.logoUrl, bot.primaryColor,
           latest.question, |msgs|, latest.createdAt,
           HasOpenSession(t.sessions, p.userId, p.chatbotId), UserLines(msgs), BotLines(msgs))
  }

  /**
   * A thread's time is the latest time among the group's matching rows, and its last
   * message is the question of a row with that time.
   */
  lemma ThreadIsLatest(t: Tables, rows: seq<Conversation>, p: Pair)
    requires |RowsOf(rows, p)| > 0
    ensures var th := ThreadOf(t, rows, p);
            && (forall i :: 0 <= i < |rows| && PairOf(rows[i]) == p ==> rows[i].createdAt <= th.createdAt)
            && (exists i :: 0 <= i < |rows| && PairOf(rows[i]) == p && rows[i].createdAt == th.createdAt
                            && rows[i].question == th.lastMessage)
  {
    var own := RowsOf(rows, p);
    var msgs := SortBy(own, Newest);
    assert msgs[0] in multiset(own);
    assert msgs[0] in own;
    var i :| 0 <= i < |rows| && rows[i] == msgs[0];
    forall j | 0 <= j < |rows| && PairOf(rows[j]) == p ensures rows[j].createdAt <= msgs[0].createdAt {
      assert rows[j] in own;
      assert rows[j] in multiset(msgs);
      var k :| 0 <= k < |msgs| && msgs[k] == rows[j];
      if k > 0 {
        assert Newest(msgs[0]) <= Newest(msgs[k]);
      }
    }
  }

  /** A thread's id is `${userId}-${chatbotId}`, and its messages are newest first. */
  lemma ThreadShape(t: Tables, rows: seq<Conversation>, p: Pair)
    requires |RowsOf(rows, p)| > 0
    ensures var th := ThreadOf(t, rows, p);
            && th.id == IntToDecimal(p.userId) + "-" + IntToDecimal(p.chatbotId)
            && forall i, j :: 0 <= i < j < |th.messages| ==> th.messages[j].timestamp <= th.messages[i].timestamp
  {
    var msgs := SortBy(RowsOf(rows, p), Newest);
    assert forall i, j :: 0 <= i < j < |msgs| ==> Newest(msgs[i]) <= Newest(msgs[j]);
  }

  /** `groupedConversations.map(...)`: one thread per group, in group order. */
  function Threads(t: Tables, rows: seq<Conversation>): (threads: seq<Thread>)
    ensures |threads| == |Groups(rows)|
    ensures forall k :: 0 <= k < |threads| ==> threads[k] == ThreadOf(t, rows, Groups(rows)[k])
  {
    var g := Groups(rows);
    seq(|g|, k requires 0 <= k < |g| => ThreadOf(t, rows, g[k]))
  }

  /** The message counts of the threads add up to the number of matching conversations. */
  lemma ThreadsCoverRows(t: Tables, rows: seq<Conversation>)
    ensures MessageTotal(Threads(t, rows)) == |rows|
  {
    ThreadCountsAreGroupCounts(Threads(t, rows), Groups(rows), rows);
    GroupsPartition(rows);
  }

  function MessageTotal(threads: seq<Thread>): nat
  {
    if |threads| == 0 then 0 else MessageTotal(threads[..|threads| - 1]) + threads[|threads| - 1].messageCount
  }

  lemma {:induction false} ThreadCountsAreGroupCounts(threads: seq<Thread>, g: seq<Pair>, rows: seq<Conversation>)
    requires |threads| == |g|
    requires forall k :: 0 <= k < |g| ==> threads[k].messageCount == |RowsOf(rows, g[k])|
    ensures MessageTotal(threads) == CountSum(g, rows)
  {
    if |g| > 0 {
      ThreadCountsAreGroupCounts(threads[..|g| - 1], g[..|g| - 1], rows);
    }
  }

  // ---------------------------------------------------------------- statistics

  datatype HistoryStats = HistoryStats(totalConversations: nat, todaysConversations: nat, activeUsers: nat)

  function TodayMatching(t: Tables, principal: Claims, userId: QueryId, chatbotId: QueryId, search: string,
                         midnight: int): Conversation -> bool
  {
    (c: Conversation) => IsMatch(t, principal, userId, chatbotId, search, c) && midnight <= c.createdAt
  }

  /**
   * The page's counters: the total and the distinct users read only the role scope; the
   * day's count reads the full filter from local midnight on.
   */
  function StatsOf(t: Tables, principal: Claims, userId: QueryId, chatbotId: QueryId, search: string,
                   midnight: int): HistoryStats
  {
    var scoped := Where(t.conversations, InScope(t, principal));
    HistoryStats(|scoped|, Count(t.conversations, TodayMatching(t, principal, userId, chatbotId, search, midnight)),
                 |UsersOf(scoped)|)
  }

  /** Today's conversations are among the total, and there are no more users than conversations. */
  lemma StatsBounds(t: Tables, principal: Claims, userId: QueryId, chatbotId: QueryId, search: string, midnight: int)
    ensures var s := StatsOf(t, principal, userId, chatbotId, search, midnight);
            s.todaysConversations <= s.totalConversations && s.activeUsers <= s.totalConversations
  {
    CountMonotone(t.conversations, TodayMatching(t, principal, userId, chatbotId, search, midnight),
                  InScope(t, principal));
    UsersAtMostRows(Where(t.conversations, InScope(t, principal)));
  }

  // ---------------------------------------------------------------- handlers

  /**
   * GET /conversations (behind auth), with the query's searchQuery, userId and chatbotId.
   * A filter id parseInt reads as NaN makes the query throw, which the handler answers
   * with 500. Changes nothing.
   */
  method GetConversations(db: Database, principal: Option<Claims>, searchQuery: Option<string>,
                          userIdQuery: Option<string>, chatbotIdQuery: Option<string>, midnight: int)
    returns (outcome: Outcome, threads: seq<Thread>, stats: Option<HistoryStats>)
    ensures principal.None? || principal.value.id == 0 ==> outcome == Reply(401) && stats.None?
    ensures principal.Some? && principal.value.id != 0 ==>
              var u := QueryFilter(userIdQuery);
              var c := QueryFilter(chatbotIdQuery);
              var search := if Present(searchQuery) then searchQuery.value else "";
              if u.NotANumber? || c.NotANumber? then outcome == Reply(500) && stats.None?
              else
                var rows := Where(db.tables.conversations, Matching(db.tables, principal.value, u, c, search));
                && outcome == Reply(200)
                && threads == Threads(db.tables, rows)
                && stats == Some(StatsOf(db.tables, principal.value, u, c, search, midnight))
  {
    if principal.None? || principal.value.id == 0 {
      return Reply(401), [], None;
    }
    var u := QueryFilter(userIdQuery);
    var c := QueryFilter(chatbotIdQuery);
    if u.NotANumber? || c.NotANumber? {
      return Reply(500), [], None;
    }
    var search := if Present(searchQuery) then searchQuery.value else "";
    var t := db.tables;
    var rows := Where(t.conversations, Matching(t, principal.value, u, c, search));
    outcome := Reply(200);
    threads := Threads(t, rows);
    stats := Some(StatsOf(t, principal.value, u, c, search, midnight));
  }

  /**
   * DELETE /conversations/:userId/:chatbotId (behind auth). The existence check comes
   * before the permission check, so a caller learns whether a pair has conversations
   * before being refused. A parameter isNaN accepts but parseInt reads as NaN (".5")
   * reaches the query as NaN, which throws.
   */
  method DeleteConversation(db: Database, principal: Claims, userIdParam: string, chatbotIdParam: string)
    returns (outcome: Outcome)
    modifies db
    ensures (userIdParam == "" || chatbotIdParam == "" || NumberIsNaN(userIdParam) || NumberIsNaN(chatbotIdParam))
              ==> outcome == Reply(400)
    ensures !(userIdParam == "" || chatbotIdParam == "" || NumberIsNaN(userIdParam) || NumberIsNaN(chatbotIdParam)) ==>
              var u := ParseInt(userIdParam, false);
              var c := ParseInt(chatbotIdParam, false);
              var t := old(db.tables);
              if u.None? || c.None? then outcome == Forwarded
              else if Count(t.conversations, PairRow(u.value, c.value)) == 0 then outcome == Reply(404)
              else if principal.role != ADMIN && principal.id != u.value then outcome == Reply(403)
              else outcome == Reply(200)
                   && db.tables == t.(conversations := Without(t.conversations, PairRow(u.value, c.value)))
    ensures outcome != Reply(200) ==> db.tables == old(db.tables)
  {
    if userIdParam == "" || chatbotIdParam == "" || NumberIsNaN(userIdParam) || NumberIsNaN(chatbotIdParam) {
      return Reply(400);
    }
    var u := ParseInt(userIdParam, false);
    var c := ParseInt(chatbotIdParam, false);
    if u.None? || c.None? {
      return Forwarded;
    }
    if Count(db.tables.conversations, PairRow(u.value, c.value)) == 0 {
      return Reply(404);
    }
    if principal.role != ADMIN && principal.id != u.value {
      return Reply(403);
    }
    db.tables := db.tables.(conversations := Without(db.tables.conversations, PairRow(u.value, c.value)));
    outcome := Reply(200);
  }

  /** After the deletion the pair has no conversations, every other row is kept, and kept plus deleted make the table. */
  lemma DeletionRemovesOnlyThePair(rows: seq<Conversation>, userId: int, chatbotId: int)
    ensures Count(Without(rows, PairRow(userId, chatbotId)), PairRow(userId, chatbotId)) == 0
    ensures forall c :: c in rows && !PairRow(userId, chatbotId)(c) ==> c in Without(rows, PairRow(userId, chatbotId))
    ensures |Without(rows, PairRow(userId, chatbotId))| + Count(rows, PairRow(userId, chatbotId)) == |rows|
  {
    var rest := Without(rows, PairRow(userId, chatbotId));
    NoneMatch(rest, PairRow(userId, chatbotId));
  }
}
