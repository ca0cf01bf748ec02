// The dashboard statistics of the chatbot controller (getChatbotStats and getUserStats):
// counts over the Conversation, Session and QRScan tables within a set of chatbots, and
// the 30-day trend rule. Timestamps are milliseconds; `now` is the request's Date.now().
module Stats {
  import opened Common
  import opened Store

  const DAY: int := 24 * 60 * 60 * 1000
  const THIRTY_DAYS: int := 30 * DAY

  /** A trend: the percentage before toFixed(1), and whether it is shown as rising. */
  datatype Trend = Trend(percent: real, up: bool)

  /**
   * `previous > 0 ? (current - previous) / previous * 100 : '0.0'`, with the direction
   * `current > previous` that also chooses the '+' prefix.
   */
  function TrendOf(current: nat, previous: nat): (t: Trend)
    ensures previous == 0 ==> t.percent == 0.0
    ensures previous > 0 ==> t.percent * (previous as real) == ((current - previous) as real) * 100.0
    ensures t.up <==> current > previous
    ensures previous > 0 ==> (t.percent > 0.0 <==> t.up) && (t.percent < 0.0 <==> current < previous)
  {
    if previous > 0 then
      var p := ((current - previous) as real) / (previous as real) * 100.0;
      assert p * (previous as real) == ((current - previous) as real) * 100.0;
      Trend(p, current > previous)
    else Trend(0.0, current > previous)
  }

  /** From a zero baseline the trend is 0.0 whatever the current count, shown rising when anything was counted. */
  lemma ZeroBaseline(current: nat)
    ensures TrendOf(current, 0) == Trend(0.0, current > 0)
  {
  }

  /** 10 messages older than 30 days and 15 newer: 25 in all, a rise of 150 percent. */
  lemma TrendExample()
    ensures TrendOf(25, 10) == Trend(150.0, true)
  {
  }

  // ---------------------------------------------------------------- filters

  function MessagesIn(scope: set<int>): Conversation -> bool
  {
    (c: Conversation) => c.chatbotId in scope
  }

  /** `createdAt: { lt: cutoff }` within the scope. */
  function MessagesBefore(scope: set<int>, cutoff: int): Conversation -> bool
  {
    (c: Conversation) => c.chatbotId in scope && c.createdAt < cutoff
  }

  /** `endedAt: null, startedAt: { gte: from }` within the scope. */
  function OpenSince(scope: set<int>, from: int): Session -> bool
  {
    (s: Session) => s.chatbotId in scope && s.endedAt.None? && from <= s.startedAt
  }

  /** `endedAt: null, startedAt: { gte: from, lt: until }` within the scope. */
  function OpenBetween(scope: set<int>, from: int, until: int): Session -> bool
  {
    (s: Session) => s.chatbotId in scope && s.endedAt.None? && from <= s.startedAt < until
  }

  function OpenIn(scope: set<int>): Session -> bool
  {
    (s: Session) => s.chatbotId in scope && s.endedAt.None?
  }

  function ScansIn(scope: set<int>): QRScan -> bool
  {
    (q: QRScan) => q.chatbotId in scope
  }

  function ScansBefore(scope: set<int>, cutoff: int): QRScan -> bool
  {
    (q: QRScan) => q.chatbotId in scope && q.scannedAt < cutoff
  }

  /** The distinct userId values of some conversations: `groupBy({ by: ['userId'] })`. */
  function UsersOf(rows: seq<Conversation>): set<int>
  {
    set i | 0 <= i < |rows| :: rows[i].userId
  }

  predicate IsAnonymousUser(t: Tables, id: int)
  {
    FindUser(t, id).Some? && FindUser(t, id).value.isAnonymous
  }

  /** The groups of the same groupBy with the relation filter `user: { isAnonymous: true }`. */
  function AnonymousUsersOf(t: Tables, rows: seq<Conversation>): (r: set<int>)
    ensures r <= UsersOf(rows)
  {
    set i | 0 <= i < |rows| && IsAnonymousUser(t, rows[i].userId) :: rows[i].userId
  }

  // ---------------------------------------------------------------- getChatbotStats

  datatype BotStats = BotStats(totalMessages: nat, previousMessages: nat, messagesTrend: Trend,
                               uniqueUsers: nat, anonymousUsers: nat, activeSessions: nat, qrScans: nat)

  /** The statistics of chatbot `id` at time `now`. */
  function ChatbotStats(t: Tables, id: int, now: int): BotStats
  {
    var rows := Where(t.conversations, MessagesIn({id}));
    var total := |rows|;
    var previous := Count(t.conversations, MessagesBefore({id}, now - THIRTY_DAYS));
    BotStats(total, previous, TrendOf(total, previous),
             |UsersOf(rows)|, |AnonymousUsersOf(t, rows)|,
             Count(t.sessions, OpenSince({id}, now - DAY)),
             Count(t.qrScans, ScansIn({id})))
  }

  /**
   * The older messages are among all messages, so the message trend never falls; anonymous
   * users are among the users, and there are no more users than messages.
   */
  lemma ChatbotStatsBounds(t: Tables, id: int, now: int)
    ensures var s := ChatbotStats(t, id, now);
            s.previousMessages <= s.totalMessages && s.messagesTrend.percent >= 0.0
            && s.anonymousUsers <= s.uniqueUsers <= s.totalMessages
  {
    CountMonotone(t.conversations, MessagesBefore({id}, now - THIRTY_DAYS), MessagesIn({id}));
    var rows := Where(t.conversations, MessagesIn({id}));
    UsersAtMostRows(rows);
    SubsetCardinality(AnonymousUsersOf(t, rows), UsersOf(rows));
  }

  lemma {:induction false} UsersAtMostRows(rows: seq<Conversation>)
    ensures |UsersOf(rows)| <= |rows|
  {
    if |rows| > 0 {
      var init := rows[..|rows| - 1];
      UsersAtMostRows(init);
      assert UsersOf(rows) == UsersOf(init) + {rows[|rows| - 1].userId} by {
        forall u | u in UsersOf(rows) ensures u in UsersOf(init) + {rows[|rows| - 1].userId} {
          var i :| 0 <= i < |rows| && rows[i].userId == u;
          if i < |rows| - 1 {
            assert init[i] == rows[i];
          }
        }
        forall u | u in UsersOf(init) ensures u in UsersOf(rows) {
          var i :| 0 <= i < |init| && init[i].userId == u;
          assert rows[i] == init[i];
        }
      }
    }
  }

  lemma SubsetCardinality(a: set<int>, b: set<int>)
    requires a <= b
    ensures |a| <= |b|
  {
    assert b == a + (b - a);
  }

  // ---------------------------------------------------------------- getUserStats

  datatype OwnerStats = OwnerStats(totalMessages: nat, previousMessages: nat, messagesTrend: Trend,
                                   activeSessions: nat, previousActiveSessions: nat, sessionsTrend: Trend,
                                   qrScans: nat, previousQrScans: nat, qrScansTrend: Trend)

  /** The chatbots a principal's statistics cover: all of them for ADMIN, else the ones it owns. */
  function OwnedScope(t: Tables, role: string, userId: int): set<int>
  {
    set i | 0 <= i < |t.chatbots| && (role == ADMIN || t.chatbots[i].ownerId == userId) :: t.chatbots[i].id
  }

  /**
   * The statistics of a principal at `now`. Active sessions are open ones started in the
   * last day; the earlier window runs from 31 days ago to one day ago.
   */
  function UserStats(t: Tables, role: string, userId: int, now: int): OwnerStats
  {
    var scope := OwnedScope(t, role, userId);
    var total := Count(t.conversations, MessagesIn(scope));
    var previous := Count(t.conversations, MessagesBefore(scope, now - THIRTY_DAYS));
    var active := Count(t.sessions, OpenSince(scope, now - DAY));
    var previousActive := Count(t.sessions, OpenBetween(scope, now - THIRTY_DAYS - DAY, now - DAY));
    var scans := Count(t.qrScans, ScansIn(scope));
    var previousScans := Count(t.qrScans, ScansBefore(scope, now - THIRTY_DAYS));
    OwnerStats(total, previous, TrendOf(total, previous),
               active, previousActive, TrendOf(active, previousActive),
               scans, previousScans, TrendOf(scans, previousScans))
  }

  /**
   * Messages and scans: the earlier count is part of the total, so those trends never fall.
   * Sessions: the two windows are disjoint, so together they count at most the open sessions.
   */
  lemma UserStatsBounds(t: Tables, role: string, userId: int, now: int)
    ensures var s := UserStats(t, role, userId, now);
            var scope := OwnedScope(t, role, userId);
            s.previousMessages <= s.totalMessages && s.messagesTrend.percent >= 0.0
            && s.previousQrScans <= s.qrScans && s.qrScansTrend.percent >= 0.0
            && s.activeSessions + s.previousActiveSessions <= Count(t.sessions, OpenIn(scope))
  {
    var scope := OwnedScope(t, role, userId);
    CountMonotone(t.conversations, MessagesBefore(scope, now - THIRTY_DAYS), MessagesIn(scope));
    CountMonotone(t.qrScans, ScansBefore(scope, now - THIRTY_DAYS), ScansIn(scope));
    CountDisjoint(t.sessions, OpenSince(scope, now - DAY), OpenBetween(scope, now - THIRTY_DAYS - DAY, now - DAY),
                  OpenIn(scope));
  }

  /** Two filters that never match the same row, both within a third, count at most what it counts. */
  lemma {:induction false} CountDisjoint<T>(rows: seq<T>, p: T -> bool, q: T -> bool, r: T -> bool)
    requires forall x :: !(p(x) && q(x))
    requires forall x :: p(x) || q(x) ==> r(x)
    ensures Count(rows, p) + Count(rows, q) <= Count(rows, r)
  {
    if |rows| > 0 {
      CountDisjoint(rows[..|rows| - 1], p, q, r);
    }
  }

  /**
   * Unlike the other two, the sessions trend can fall: one open session started two days
   * ago is counted only in the earlier window, which gives -100 percent.
   */
  lemma SessionsTrendCanFall()
    ensures var t := EMPTY.(chatbots := [Chatbot(1, "bot", None, "", None, true, 7, None)],
                            sessions := [Session(1, 2, 1, 0, None)]);
            var s := UserStats(t, USER, 7, 2 * DAY);
            s.activeSessions == 0 && s.previousActiveSessions == 1
            && s.sessionsTrend == Trend(-100.0, false)
  {
    var t := EMPTY.(chatbots := [Chatbot(1, "bot", None, "", None, true, 7, None)],
                    sessions := [Session(1, 2, 1, 0, None)]);
    var scope := OwnedScope(t, USER, 7);
    assert scope == {1} by {
      assert t.chatbots[0].id == 1;
    }
    assert Where(t.sessions, OpenSince(scope, 2 * DAY - DAY)) == [];
    assert Where(t.sessions, OpenBetween(scope, 2 * DAY - THIRTY_DAYS - DAY, 2 * DAY - DAY)) == t.sessions;
  }
}
