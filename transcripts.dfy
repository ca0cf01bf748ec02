// How the frontend turns stored conversations into transcripts: the chat-history list
// (components/chat-history/ConversationsList.tsx), which merges a thread's questions and
// answers by time, and the public chat page (pages/PublicChat.tsx), which flattens the
// visitor's history, greets a new visitor, remembers the visitor's id per chatbot and
// sends messages. Server answers, the clock and localStorage reads are parameters.
module Transcripts {
  import opened Common
  import opened Text
  import opened Store
  import opened Sorting
  import Conv = ConversationController
  import Bots = ChatbotController

  function Timestamp(): Conv.Line -> int
  {
    (l: Conv.Line) => l.timestamp
  }

  // ---------------------------------------------------------------- chat history list

  lemma {:induction false} WithKeyConcat<T>(a: seq<T>, b: seq<T>, key: T -> int, k: int)
    ensures WithKey(a + b, key, k) == WithKey(a, key, k) + WithKey(b, key, k)
  {
    if |a| > 0 {
      assert (a + b)[1..] == a[1..] + b;
      WithKeyConcat(a[1..], b, key, k);
    } else {
      assert a + b == b;
    }
  }

  /** allMessages: a thread's user entries, then its bot entries, stably sorted by time. */
  function Transcript(messages: seq<Conv.Line>, botMessages: seq<Conv.Line>): (r: seq<Conv.Line>)
    ensures Sorted(r, Timestamp())
    ensures multiset(r) == multiset(messages + botMessages)
  {
    SortBy(messages + botMessages, Timestamp())
  }

  /**
   * At every instant the questions come before the answers, each group in its own
   * order: a question and the answer stamped with it never swap.
   */
  lemma {:induction false} QuestionsBeforeAnswers(messages: seq<Conv.Line>, botMessages: seq<Conv.Line>, k: int)
    ensures WithKey(Transcript(messages, botMessages), Timestamp(), k)
         == WithKey(messages, Timestamp(), k) + WithKey(botMessages, Timestamp(), k)
  {
    SortStable(messages + botMessages, Timestamp(), k);
    WithKeyConcat(messages, botMessages, Timestamp(), k);
  }

  /** A server thread's transcript has one line per question and one per non-empty answer. */
  lemma ThreadTranscriptSize(t: Tables, rows: seq<Conversation>, p: Conv.Pair)
    requires |Conv.RowsOf(rows, p)| > 0
    ensures var th := Conv.ThreadOf(t, rows, p);
            |Transcript(th.messages, th.botMessages)| == th.messageCount + |th.botMessages|
            && |Transcript(th.messages, th.botMessages)| <= 2 * th.messageCount
  {
    var th := Conv.ThreadOf(t, rows, p);
    assert |multiset(Transcript(th.messages, th.botMessages))| == |th.messages + th.botMessages|;
  }

  /** toggleExpanded: the id flips membership, every other id keeps it. */
  function Toggle(expanded: set<string>, id: string): (r: set<string>)
    ensures id in r <==> id !in expanded
    ensures forall x :: x != id ==> (x in r <==> x in expanded)
  {
    if id in expanded then expanded - {id} else expanded + {id}
  }

  /** Clicking a header twice restores the expansion state. */
  lemma ToggleTwice(expanded: set<string>, id: string)
    ensures Toggle(Toggle(expanded, id), id) == expanded
  {
  }

  class ConversationsView {
    var expanded: set<string>

    constructor ()
      ensures expanded == {}
    {
      expanded := {};
    }

    method ToggleExpanded(id: string)
      modifies this
      ensures expanded == Toggle(old(expanded), id)
    {
      expanded := Toggle(expanded, id);
    }
  }

  const ANONYMOUS: string := "Anonymous"
  const UNKNOWN: string := "Unknown"

  /** The header's user label: 'Anonymous' for anonymous users, else the name, else 'Unknown'. */
  function UserLabel(isAnonymous: bool, userName: string): (shown: string)
    ensures shown != ""
    ensures isAnonymous ==> shown == ANONYMOUS
    ensures !isAnonymous ==> shown == if userName != "" then userName else UNKNOWN
  {
    if isAnonymous then ANONYMOUS else if userName != "" then userName else UNKNOWN
  }

  /** The server never sends an empty user name, so a thread never shows 'Unknown'. */
  lemma ServerThreadsAreNeverUnknown(t: Tables, rows: seq<Conversation>, p: Conv.Pair)
    requires |Conv.RowsOf(rows, p)| > 0
    ensures var th := Conv.ThreadOf(t, rows, p);
            UserLabel(th.isAnonymous, th.userName) == if th.isAnonymous then ANONYMOUS else th.userName
  {
  }

  /**
   * A visitor the public chat created is shown as 'Anonymous', not under the
   * 'Anonymous_<time>' name the server stored and sends.
   */
  lemma AnonymousVisitorsShowAnonymous(t: Tables, rows: seq<Conversation>, p: Conv.Pair, now: int)
    requires |Conv.RowsOf(rows, p)| > 0
    requires FindUser(t, p.userId) == Some(AnonymousUser(p.userId, now))
    ensures var th := Conv.ThreadOf(t, rows, p);
            && th.userName == "Anonymous_" + IntToDecimal(now)
            && UserLabel(th.isAnonymous, th.userName) == ANONYMOUS != th.userName
  {
    var th := Conv.ThreadOf(t, rows, p);
    assert th.userName[..10] == "Anonymous_";
  }

  // ---------------------------------------------------------------- public chat history

  /** The entry of an answer: the row id with '-response'. */
  function ResponseLine(c: Conversation): Conv.Line
  {
    Conv.Line(IntToDecimal(c.id) + "-response", c.answer, "bot", c.createdAt)
  }

  /** historyMessages: per row its question, then its answer when the answer is not empty. */
  function HistoryLines(rows: seq<Conversation>): (lines: seq<Conv.Line>)
    ensures |lines| == |rows| + Count(rows, Conv.Answered())
  {
    if |rows| == 0 then []
    else
      var init := rows[..|rows| - 1];
      var x := rows[|rows| - 1];
      assert rows == init + [x];
      WhereAppend(init, x, Conv.Answered());
      HistoryLines(init) + RowLines(x)
  }

  /** The entries a user typed, in order. */
  function Questions(lines: seq<Conv.Line>): seq<Conv.Line>
  {
    if |lines| == 0 then []
    else Questions(lines[..|lines| - 1]) + (if lines[|lines| - 1].sender == "user" then [lines[|lines| - 1]] else [])
  }

  lemma {:induction false} QuestionsConcat(a: seq<Conv.Line>, b: seq<Conv.Line>)
    ensures Questions(a + b) == Questions(a) + Questions(b)
  {
    if |b| > 0 {
      assert (a + b)[..|a + b| - 1] == a + b[..|b| - 1];
      QuestionsConcat(a, b[..|b| - 1]);
    } else {
      assert a + b == a;
    }
  }

  /** The entries one row adds to the history: its question, then its answer when there is one. */
  function RowLines(x: Conversation): seq<Conv.Line>
  {
    [Conv.UserLine(x)] + (if x.answer != "" then [ResponseLine(x)] else [])
  }

  lemma RowQuestions(x: Conversation)
    ensures Questions(RowLines(x)) == [Conv.UserLine(x)]
  {
    var q := Conv.UserLine(x);
    assert Questions([q]) == [q] by {
      assert [q][..0] == [];
    }
    if x.answer != "" {
      var lines := RowLines(x);
      assert lines[..1] == [q];
      assert lines[1].sender == "bot";
    }
  }

  lemma HistoryLinesSnoc(rows: seq<Conversation>)
    requires |rows| > 0
    ensures HistoryLines(rows) == HistoryLines(rows[..|rows| - 1]) + RowLines(rows[|rows| - 1])
  {
  }

  /** The questions of the page's history are exactly the user entries of the chat-history list. */
  lemma {:induction false} HistoryQuestions(rows: seq<Conversation>)
    ensures Questions(HistoryLines(rows)) == Conv.UserLines(rows)
  {
    if |rows| > 0 {
      var init := rows[..|rows| - 1];
      var x := rows[|rows| - 1];
      calc {
        Questions(HistoryLines(rows));
        == { HistoryLinesSnoc(rows); }
        Questions(HistoryLines(init) + RowLines(x));
        == { QuestionsConcat(HistoryLines(init), RowLines(x)); }
        Questions(HistoryLines(init)) + Questions(RowLines(x));
        == { HistoryQuestions(init); RowQuestions(x); }
        Conv.UserLines(init) + [Conv.UserLine(x)];
        == { UserLinesAppend(init, x); assert rows == init + [x]; }
        Conv.UserLines(rows);
      }
    }
  }

  lemma UserLinesAppend(init: seq<Conversation>, x: Conversation)
    ensures Conv.UserLines(init + [x]) == Conv.UserLines(init) + [Conv.UserLine(x)]
  {
    assert forall i :: 0 <= i < |init| ==> (init + [x])[i] == init[i];
  }

  lemma {:induction false} HistoryBounded(rows: seq<Conversation>, bound: int)
    requires forall j :: 0 <= j < |rows| ==> rows[j].createdAt <= bound
    ensures forall i :: 0 <= i < |HistoryLines(rows)| ==> HistoryLines(rows)[i].timestamp <= bound
  {
    if |rows| > 0 {
      HistoryBounded(rows[..|rows| - 1], bound);
    }
  }

  /** Rows in time order give a history in time order. */
  lemma {:induction false} HistoryInTimeOrder(rows: seq<Conversation>)
    requires Sorted(rows, Bots.CreatedAt)
    ensures Sorted(HistoryLines(rows), Timestamp())
  {
    if |rows| > 0 {
      var init := rows[..|rows| - 1];
      var x := rows[|rows| - 1];
      assert Sorted(init, Bots.CreatedAt) && forall j :: 0 <= j < |init| ==> init[j].createdAt <= x.createdAt by {
        forall i, j | 0 <= i < j < |rows| ensures rows[i].createdAt <= rows[j].createdAt {
          assert Bots.CreatedAt(rows[i]) <= Bots.CreatedAt(rows[j]);
        }
      }
      var h := HistoryLines(init);
      HistoryInTimeOrder(init);
      HistoryBounded(init, x.createdAt);
      assert forall i :: 0 <= i < |RowLines(x)| ==> RowLines(x)[i].timestamp == x.createdAt;
      SortedThenLater(h, RowLines(x), x.createdAt);
      HistoryLinesSnoc(rows);
    }
  }

  /** A time-ordered list followed by entries all stamped `t`, no earlier than any of it, stays in time order. */
  lemma SortedThenLater(a: seq<Conv.Line>, b: seq<Conv.Line>, t: int)
    requires Sorted(a, Timestamp())
    requires forall i :: 0 <= i < |a| ==> a[i].timestamp <= t
    requires forall i :: 0 <= i < |b| ==> b[i].timestamp == t
    ensures Sorted(a + b, Timestamp())
  {
    forall i, j | 0 <= i < j < |a + b|
      ensures Timestamp()((a + b)[i]) <= Timestamp()((a + b)[j])
    {
      if j < |a| {
        assert (a + b)[i] == a[i] && (a + b)[j] == a[j];
      } else if i < |a| {
        assert (a + b)[i] == a[i] && (a + b)[j] == b[j - |a|];
      } else {
        assert (a + b)[i] == b[i - |a|] && (a + b)[j] == b[j - |a|];
      }
    }
  }

  /** The history GET /:id/conversations returns is shown in time order. */
  lemma PageHistoryInTimeOrder(t: Tables, userId: int, chatbotId: int)
    ensures Sorted(HistoryLines(Bots.History(t, userId, chatbotId)), Timestamp())
  {
    HistoryInTimeOrder(Bots.History(t, userId, chatbotId));
  }

  /** The chatbot fields the page reads from GET /api/chatbots/:id, with the visitor's id. */
  datatype PublicBot = PublicBot(id: int, name: string, description: Option<string>, userId: int)

  const DEFAULT_GREETING: string := "How can I help you today?"

  /** The welcome entry shown when there is no history. */
  function Welcome(bot: PublicBot, now: int): (l: Conv.Line)
    ensures l.id == "1" && l.sender == "bot" && l.timestamp == now
    ensures StartsWith(l.content, "Hello! I'm " + bot.name + ". ")
    ensures l.content[|"Hello! I'm " + bot.name + ". "|..] ==
              if Present(bot.description) then bot.description.value else DEFAULT_GREETING
  {
    var intro := "Hello! I'm " + bot.name + ". ";
    var text := intro + (if Present(bot.description) then bot.description.value else DEFAULT_GREETING);
    assert text[..|intro|] == intro;
    Conv.Line("1", text, "bot", now)
  }

  /** What the page shows after loading: the history, or the welcome entry alone. */
  function InitialMessages(bot: PublicBot, rows: seq<Conversation>, now: int): (msgs: seq<Conv.Line>)
    ensures |msgs| >= 1
    ensures |rows| > 0 ==> msgs == HistoryLines(rows)
    ensures |rows| == 0 ==> msgs == [Welcome(bot, now)]
  {
    var h := HistoryLines(rows);
    if |h| == 0 then [Welcome(bot, now)] else h
  }

  /** The localStorage key of the visitor id. */
  function VisitorKey(chatbotId: string): string
  {
    "chatbot_" + chatbotId + "_userId"
  }

  /** Each chatbot has its own key, so a visitor id is never shared between chatbots. */
  lemma VisitorKeysDiffer(a: string, b: string)
    requires VisitorKey(a) == VisitorKey(b)
    ensures a == b
  {
    assert VisitorKey(a)[8..8 + |a|] == a;
    assert VisitorKey(b)[8..8 + |b|] == b;
  }

  const INVALID_REQUEST: string := "Invalid request. Please check your input."
  const AI_UNAVAILABLE: string := "AI service is temporarily unavailable. Please try again later."
  const SEND_FAILED: string := "Failed to send message. Please try again."

  /** The toast of a failed send: 400 and 500 have fixed texts; otherwise the server's message, if any. */
  function SendErrorText(status: Option<int>, message: Option<string>): (text: string)
    ensures text != ""
    ensures text == INVALID_REQUEST <== status == Some(400)
    ensures text == AI_UNAVAILABLE <== status == Some(500)
    ensures status != Some(400) && status != Some(500) ==>
              text == if Present(message) then message.value else SEND_FAILED
  {
    if status == Some(400) then INVALID_REQUEST
    else if status == Some(500) then AI_UNAVAILABLE
    else if Present(message) then message.value
    else SEND_FAILED
  }

  /** The answer of POST /:id/messages: the reply entry, or the error status and message. */
  datatype SendAnswer =
    | BotReplied(id: string, content: string, timestamp: int)
    | SendFailed(status: Option<int>, message: Option<string>)

  /** The body the page posts: the typed text as is and `parseInt(userId)` (NaN serialises as null). */
  datatype MessageRequest = MessageRequest(content: string, userId: Option<int>)

  /** The entries a send appends: the typed one at once, then the reply when there is one. */
  function Exchange(entryId: string, content: string, now: int, answer: SendAnswer): (added: seq<Conv.Line>)
    ensures |added| >= 1 && added[0] == Conv.Line(entryId, content, "user", now)
    ensures answer.BotReplied? ==> added == [added[0], Conv.Line(answer.id, answer.content, "bot", answer.timestamp)]
    ensures answer.SendFailed? ==> added == [added[0]]
  {
    [Conv.Line(entryId, content, "user", now)]
    + (if answer.BotReplied? then [Conv.Line(answer.id, answer.content, "bot", answer.timestamp)] else [])
  }

  /**
   * The body handleSendMessage posts, or None when it returns early: blank input, no
   * chatbot loaded or no visitor id.
   */
  function MessageFor(input: string, bot: Option<PublicBot>, userId: Option<string>): (request: Option<MessageRequest>)
    ensures request.None? <==> JsTrim(input) == "" || bot.None? || !Present(userId)
    ensures request.Some? ==> request.value == MessageRequest(input, ParseInt(userId.value, true))
  {
    if JsTrim(input) == "" || bot.None? || !Present(userId) then None
    else Some(MessageRequest(input, ParseInt(userId.value, true)))
  }

  /** With a chatbot and a visitor id, a message goes out exactly when the input has a non-space character. */
  lemma OnlyBlankInputIsHeldBack(input: string, bot: Option<PublicBot>, userId: Option<string>)
    requires bot.Some? && Present(userId)
    ensures MessageFor(input, bot, userId).Some? <==> exists i :: 0 <= i < |input| && !IsJsSpace(input[i])
  {
    JsTrimEmptyIffBlank(input);
  }

  class ChatPage {
    const chatbotId: string
    var bot: Option<PublicBot>
    var userId: Option<string>
    var messages: seq<Conv.Line>
    var input: string

    /** The page starts with the visitor id stored under this chatbot's key, if any. */
    constructor (chatbotId: string, stored: Option<string>)
      ensures this.chatbotId == chatbotId && bot == None && userId == stored
      ensures messages == [] && input == ""
    {
      this.chatbotId := chatbotId;
      bot := None;
      userId := stored;
      messages := [];
      input := "";
    }

    /**
     * fetchChatbotAndConversations. A failed chatbot fetch changes nothing. Otherwise the
     * chatbot is shown; a visitor without an id takes the one the fetch returned and it
     * is written under VisitorKey (`stored`); the history is asked for the visitor's id
     * (`historyUser`), and when it arrives it replaces the messages.
     */
    method Load(answer: Option<PublicBot>, history: Option<seq<Conversation>>, now: int)
      returns (stored: Option<string>, historyUser: Option<string>)
      modifies this
      ensures answer.None? ==> bot == old(bot) && userId == old(userId) && stored.None? && historyUser.None?
      ensures answer.Some? ==> bot == answer
      ensures answer.Some? && Present(old(userId)) ==> userId == old(userId) && stored.None? && historyUser == old(userId)
      ensures answer.Some? && !Present(old(userId)) ==>
                userId == Some(IntToDecimal(answer.value.userId)) && stored == userId && historyUser == userId
      ensures answer.Some? && history.Some? ==> messages == InitialMessages(answer.value, history.value, now)
      ensures !(answer.Some? && history.Some?) ==> messages == old(messages)
      ensures input == old(input)
    {
      if answer.None? {
        return None, None;
      }
      bot := answer;
      if Present(userId) {
        stored := None;
        historyUser := userId;
      } else {
        userId := Some(IntToDecimal(answer.value.userId));
        stored := userId;
        historyUser := userId;
      }
      if history.Some? {
        messages := InitialMessages(answer.value, history.value, now);
      }
    }

    /**
     * handleSendMessage. Blank input, no chatbot or no visitor id: nothing happens.
     * Otherwise the typed entry is shown at once and the input cleared; the reply is
     * appended after it, or a failure leaves the entry and yields the toast text. The
     * reload that follows a reply is a separate Load.
     */
    method Send(entryId: string, now: int, answer: SendAnswer) returns (request: Option<MessageRequest>, error: Option<string>)
      modifies this
      ensures request == MessageFor(old(input), old(bot), old(userId))
      ensures request.None? ==> messages == old(messages) && input == old(input) && error.None?
      ensures request.Some? ==> input == ""
      ensures request.Some? ==> messages == old(messages) + Exchange(entryId, old(input), now, answer)
      ensures request.Some? && answer.BotReplied? ==> error.None?
      ensures request.Some? && answer.SendFailed? ==> error == Some(SendErrorText(answer.status, answer.message))
      ensures bot == old(bot) && userId == old(userId)
    {
      request := MessageFor(input, bot, userId);
      if request.None? {
        error := None;
      } else {
        messages := messages + Exchange(entryId, input, now, answer);
        input := "";
        error := if answer.SendFailed? then Some(SendErrorText(answer.status, answer.message)) else None;
      }
    }

    /** endSession: posted only with a chatbot id and a visitor id, both as the page holds them. */
    method EndSession() returns (request: Option<(string, string)>)
      ensures request.Some? <==> chatbotId != "" && Present(userId)
      ensures request.Some? ==> request.value == (chatbotId, userId.value)
    {
      if chatbotId == "" || !Present(userId) {
        return None;
      }
      return Some((chatbotId, userId.value));
    }
  }

  /** A visitor id the page stored itself is read back by the message request. */
  lemma StoredVisitorIdReadsBack(id: int)
    ensures ParseInt(IntToDecimal(id), true) == Some(id)
  {
    IntRoundTrip(id, true);
  }
}
