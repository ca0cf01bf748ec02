// The admin list pages: the knowledge-base document list
// (components/knowledge-base/DocumentsList.tsx), the chatbot grid (pages/Chatbots.tsx), the
// dashboard (pages/Dashboard.tsx) and the QR-code grid (pages/QRCodes.tsx). Each filters
// its list with a case-insensitive substring test, shows one page of it, and keeps the
// current page as component state.
module ListPages {
  import opened Common
  import opened Text
  import opened Store
  import opened Pagination
  import opened ChatbotCache

  /** Lowercasing after uppercasing is plain lowercasing: case mapping forgets case. */
  lemma LowerOfUpper(s: string)
    ensures ToLower(ToUpper(s)) == ToLower(s)
  {
    assert forall i :: 0 <= i < |s| ==> ToLower(ToUpper(s))[i] == LowerChar(UpperChar(s[i]));
  }

  /** The query's own case never matters: `q.toLowerCase()` is what is searched for. */
  lemma QueryCaseIrrelevant(s: string, q: string)
    ensures IncludesIgnoringCase(s, ToUpper(q)) == IncludesIgnoringCase(s, q)
    ensures IncludesIgnoringCase(s, ToLower(q)) == IncludesIgnoringCase(s, q)
  {
    LowerOfUpper(q);
    ToLowerIdempotent(q);
  }

  // ---------------------------------------------------------------- documents list

  const DOCUMENTS_PER_PAGE: nat := 5

  /** A row of GET /api/documents as the list reads it. */
  datatype StoredDocument = StoredDocument(id: int, fileName: string, fileType: string)

  /** The list's own shape: the id as a string and the type in upper case. */
  datatype ListedDocument = ListedDocument(id: string, name: string, kind: string)

  /** The query function's mapping `{ id: doc.id.toString(), name: doc.fileName, type: doc.fileType.toUpperCase() }`. */
  function Listed(d: StoredDocument): (r: ListedDocument)
    ensures ParseInt(r.id, false) == Some(d.id)
    ensures r.name == d.fileName
    ensures ToLower(r.kind) == ToLower(d.fileType)
    ensures forall i :: 0 <= i < |r.kind| ==> !('a' <= r.kind[i] <= 'z')
  {
    IntRoundTrip(d.id, false);
    LowerOfUpper(d.fileType);
    ListedDocument(IntToDecimal(d.id), d.fileName, ToUpper(d.fileType))
  }

  const PAGE_FACING_UP: string := "\U{1F4C4}"
  const MEMO: string := "\U{1F4DD}"
  const BAR_CHART: string := "\U{1F4CA}"

  /** getFileIcon: by the lowercased type, docx and xlsx have their own icons, everything else a page. */
  function FileIcon(kind: string): (icon: string)
    ensures icon == MEMO <==> ToLower(kind) == "docx"
    ensures icon == BAR_CHART <==> ToLower(kind) == "xlsx"
    ensures icon != MEMO && icon != BAR_CHART ==> icon == PAGE_FACING_UP
  {
    var k := ToLower(kind);
    if k == "docx" then MEMO else if k == "xlsx" then BAR_CHART else PAGE_FACING_UP
  }

  /** Uppercasing the type for display does not change its icon. */
  lemma IconSurvivesListing(d: StoredDocument)
    ensures FileIcon(Listed(d).kind) == FileIcon(d.fileType)
  {
  }

  function NameMatches(query: string): ListedDocument -> bool
  {
    (d: ListedDocument) => IncludesIgnoringCase(d.name, query)
  }

  /** filteredDocuments: the documents whose name contains the query, ignoring case. */
  function FilteredDocuments(docs: seq<ListedDocument>, query: string): seq<ListedDocument>
  {
    Where(docs, NameMatches(query))
  }

  /** An empty search shows every document, in order. */
  lemma {:induction false} EmptySearchShowsAll(docs: seq<ListedDocument>)
    ensures FilteredDocuments(docs, "") == docs
  {
    forall j | 0 <= j < |docs|
      ensures NameMatches("")(docs[j])
    {
      EveryStringIncludesEmpty(docs[j].name);
    }
    AllMatch(docs, NameMatches(""));
  }

  /**
   * handleDelete's page adjustment: when the page showed exactly one document and is
   * not the first, step back one page.
   */
  function PageAfterDelete(page: int, shown: nat): int
  {
    if shown == 1 && page > 1 then page - 1 else page
  }

  /**
   * Deleting a document shown on a page in range leaves a page in range of the
   * shorter list, and deleting the only document of the last page lands on the new
   * last page. (With one document left there is no page to land on.)
   */
  lemma {:induction false} PageAfterDeleteInRange<T>(items: seq<T>, page: int)
    requires |items| >= 2 && 1 <= page <= PageCount(|items|, DOCUMENTS_PER_PAGE)
    ensures var p := PageAfterDelete(page, |Page(items, page, DOCUMENTS_PER_PAGE)|);
            1 <= p <= PageCount(|items| - 1, DOCUMENTS_PER_PAGE)
    ensures |Page(items, page, DOCUMENTS_PER_PAGE)| == 1 && page > 1 ==>
              PageAfterDelete(page, 1) == PageCount(|items| - 1, DOCUMENTS_PER_PAGE)
  {
    PageContents(items, page, DOCUMENTS_PER_PAGE);
    var n := |items|;
    var shown := |Page(items, page, DOCUMENTS_PER_PAGE)|;
    assert shown == Min(page * 5, n) - (page - 1) * 5;
    var m := PageCount(n - 1, DOCUMENTS_PER_PAGE);
    if shown == 1 && page > 1 {
      assert (page - 1) * 5 == n - 1;
      assert m == page - 1;
    } else if shown >= 2 {
      assert (page - 1) * 5 < n - 1;
    }
  }

  /** The component's paging state; the documents and the query are props. */
  class DocumentsView {
    var currentPage: int

    constructor ()
      ensures currentPage == 1
    {
      currentPage := 1;
    }

    /** handlePageChange. */
    method ChangePage(page: int)
      modifies this
      ensures currentPage == page
    {
      currentPage := page;
    }

    /**
     * handleDelete on a document the current page shows: the cache drops it by its
     * numeric id (see DropListedDocument), and only a successful delete adjusts the page.
     */
    method HandleDelete(store: ChatbotStore, shown: seq<ListedDocument>, doc: StoredDocument,
                        chatbotId: int, token: Option<string>, accepted: bool)
      returns (ok: bool)
      modifies this, store
      ensures ok <==> HasToken(token) && accepted
      ensures ok ==> store.chatbots == DropDocumentOf(old(store.chatbots), doc.id, chatbotId)
      ensures !ok ==> store.chatbots == old(store.chatbots)
      ensures store.selected == old(store.selected)
      ensures currentPage == if ok then PageAfterDelete(old(currentPage), |shown|) else old(currentPage)
    {
      ok := store.DeleteDocument(doc.id, chatbotId, token, accepted);
      if ok {
        currentPage := PageAfterDelete(currentPage, |shown|);
      }
    }
  }

  /** `doc.id !== id`, with the string id the list passes: a number never strictly equals a string. */
  function StrictlyDiffers(key: JsValue): CachedDocument -> bool
  {
    (d: CachedDocument) => key != Num(d.id)
  }

  /** deleteDocument's edit of the owning bot as the list calls it, with `Document.id` (a string). */
  function DropListedDocumentAsWritten(bot: CachedBot, listed: ListedDocument): CachedBot
  {
    bot.(documentsCount := bot.documentsCount - 1,
         documents := Some(if bot.documents.Some? then Where(bot.documents.value, StrictlyDiffers(Str(listed.id))) else []))
  }

  /** With the string id the cached list keeps the deleted document while its count drops. */
  lemma {:induction false} ListedDeleteKeepsTheDocument(bot: CachedBot, d: StoredDocument)
    requires bot.documents.Some? && bot.documentsCount == |bot.documents.value|
    ensures DropListedDocumentAsWritten(bot, Listed(d)).documents == bot.documents
    ensures DropListedDocumentAsWritten(bot, Listed(d)).documentsCount == |bot.documents.value| - 1
  {
    AllMatch(bot.documents.value, StrictlyDiffers(Str(Listed(d).id)));
  }

  /** The intended call: the list's id read back as the number it was printed from. */
  function DropListedDocument(bot: CachedBot, d: StoredDocument): (r: CachedBot)
    ensures r.documentsCount == bot.documentsCount - 1 && r.documents.Some?
    ensures forall i :: 0 <= i < |r.documents.value| ==> r.documents.value[i].id != d.id
    ensures bot.documents.Some? && bot.documentsCount == |bot.documents.value|
            && Count(bot.documents.value, ChatbotCache.DocumentWithId(d.id)) == 1 ==>
              r.documentsCount == |r.documents.value|
  {
    var id := ParseInt(Listed(d).id, false).value;
    assert bot.documents.Some? && bot.documentsCount == |bot.documents.value|
           && Count(bot.documents.value, ChatbotCache.DocumentWithId(d.id)) == 1 ==>
             DropDocument(bot, id).documentsCount == |DropDocument(bot, id).documents.value| by {
      if bot.documents.Some? && bot.documentsCount == |bot.documents.value| {
        DropDocumentKeepsCountInStep(bot, id);
      }
    }
    DropDocument(bot, id)
  }

  // ---------------------------------------------------------------- chatbot grid

  const CHATBOTS_PER_PAGE: nat := 6

  /** A bot matches when its name or its description (if any) contains the query, ignoring case. */
  function BotMatches(query: string): CachedBot -> bool
  {
    (b: CachedBot) => IncludesIgnoringCase(b.name, query)
                      || (b.description.Some? && IncludesIgnoringCase(b.description.value, query))
  }

  function FilteredBots(bots: seq<CachedBot>, query: string): seq<CachedBot>
  {
    Where(bots, BotMatches(query))
  }

  /** An empty search shows every chatbot, and a bot is found by its own name. */
  lemma {:induction false} BotSearchBasics(bots: seq<CachedBot>, j: nat)
    requires j < |bots|
    ensures FilteredBots(bots, "") == bots
    ensures bots[j] in FilteredBots(bots, bots[j].name)
  {
    forall k | 0 <= k < |bots|
      ensures BotMatches("")(bots[k])
    {
      EveryStringIncludesEmpty(bots[k].name);
    }
    AllMatch(bots, BotMatches(""));
    IncludesItself(bots[j].name);
  }

  /** The page state of the grid; the effect on searchQuery sends it back to page 1. */
  class ChatbotsView {
    var query: string
    var currentPage: int

    constructor ()
      ensures query == "" && currentPage == 1
    {
      query := "";
      currentPage := 1;
    }

    /** The cards shown for the cached list. */
    function Shown(bots: seq<CachedBot>): seq<CachedBot>
      reads this
    {
      Page(FilteredBots(bots, query), currentPage, CHATBOTS_PER_PAGE)
    }

    /** handlePageChange. */
    method ChangePage(page: int)
      modifies this
      ensures currentPage == page && query == old(query)
    {
      currentPage := page;
    }

    /** Typing a different query resets the page; setting the same value re-renders nothing. */
    method Search(q: string)
      modifies this
      ensures query == q
      ensures currentPage == if q != old(query) then 1 else old(currentPage)
    {
      if q != query {
        query := q;
        currentPage := 1;
      }
    }
  }

  /** After a new search the grid shows the first matches, or nothing when none match. */
  lemma {:induction false} SearchShowsFirstPage(bots: seq<CachedBot>, query: string)
    ensures var f := FilteredBots(bots, query);
            |f| > 0 ==> Page(f, 1, CHATBOTS_PER_PAGE) == f[..Min(CHATBOTS_PER_PAGE, |f|)]
    ensures FilteredBots(bots, query) == [] ==> Page(FilteredBots(bots, query), 1, CHATBOTS_PER_PAGE) == []
  {
    var f := FilteredBots(bots, query);
    if |f| > 0 {
      PageContents(f, 1, CHATBOTS_PER_PAGE);
    }
  }

  // ---------------------------------------------------------------- dashboard

  /** The fields of GET /api/chatbots/user-stats the dashboard reads. */
  datatype UserStatsReply = UserStatsReply(totalMessages: int, messagesTrend: string, messagesTrendUp: bool,
                                           activeSessions: int, sessionsTrend: string, sessionsTrendUp: bool,
                                           qrScans: int, qrScansTrend: string, qrScansTrendUp: bool)

  datatype StatCard = StatCard(title: string, value: int, trend: string, trendUp: bool)

  const NO_TREND: string := "+0%"

  /**
   * The four cards: the chatbot count with a fixed '+0%', then messages, sessions and
   * scans from the stats reply, each falling back to 0, '+0%' and up while there is none.
   */
  function StatCards(botCount: nat, stats: Option<UserStatsReply>): (cards: seq<StatCard>)
    ensures |cards| == 4
    ensures cards[0] == StatCard("Total Chatbots", botCount, NO_TREND, true)
    ensures stats.None? ==> forall i :: 1 <= i < 4 ==> cards[i].value == 0 && cards[i].trend == NO_TREND && cards[i].trendUp
    ensures stats.Some? ==> cards[1].value == stats.value.totalMessages && cards[2].value == stats.value.activeSessions
                            && cards[3].value == stats.value.qrScans
    ensures stats.Some? ==> cards[1].trendUp == stats.value.messagesTrendUp && cards[2].trendUp == stats.value.sessionsTrendUp
                            && cards[3].trendUp == stats.value.qrScansTrendUp
  {
    var s := if stats.Some? then stats.value
             else UserStatsReply(0, NO_TREND, true, 0, NO_TREND, true, 0, NO_TREND, true);
    [StatCard("Total Chatbots", botCount, NO_TREND, true),
     StatCard("Total Messages", s.totalMessages, s.messagesTrend, s.messagesTrendUp),
     StatCard("Active Sessions", s.activeSessions, s.sessionsTrend, s.sessionsTrendUp),
     StatCard("QR Scans", s.qrScans, s.qrScansTrend, s.qrScansTrendUp)]
  }

  /** The dashboard pages the unfiltered list by 6: its pages together are the whole list. */
  lemma DashboardShowsEveryBot(bots: seq<CachedBot>)
    ensures FirstPages(bots, PageCount(|bots|, CHATBOTS_PER_PAGE), CHATBOTS_PER_PAGE) == bots
  {
    PagesCoverList(bots, CHATBOTS_PER_PAGE);
  }

  // ---------------------------------------------------------------- QR codes

  /** The effect on the list length: a page past the end moves to the last page of a non-empty list. */
  function ClampPage(page: int, n: nat): (p: int)
    ensures n > 0 && page >= 1 ==> 1 <= p <= PageCount(n, CHATBOTS_PER_PAGE)
    ensures p <= page
    ensures page <= PageCount(n, CHATBOTS_PER_PAGE) || n == 0 ==> p == page
  {
    var pages := PageCount(n, CHATBOTS_PER_PAGE);
    if n > 0 && page > pages then pages else page
  }

  /** Page 0 is not past the end, so the clamp keeps it and the grid shows nothing. */
  lemma {:induction false} PageZeroIsNotClamped(items: seq<CachedBot>)
    ensures ClampPage(0, |items|) == 0
    ensures Page(items, ClampPage(0, |items|), CHATBOTS_PER_PAGE) == []
  {
    PageOutOfRange(items, 0, CHATBOTS_PER_PAGE);
  }

  /**
   * handleChatbotAdded as the cache subscription calls it: the subscription is made once,
   * on mount, so the callback computes the last page of the list it saw then.
   */
  function JumpAsWritten(mountedCount: nat): int
  {
    PageCount(mountedCount, CHATBOTS_PER_PAGE)
  }

  /**
   * Mounted before the list arrived, every later cache update jumps to page 0 and the
   * grid stays empty; mounted with six bots, adding a seventh stays on page 1.
   */
  lemma {:induction false} StaleJumpMissesTheLastPage(items: seq<CachedBot>)
    requires |items| > 0
    ensures var p := ClampPage(JumpAsWritten(0), |items|);
            p == 0 && Page(items, p, CHATBOTS_PER_PAGE) == []
    ensures JumpAsWritten(6) == 1 && PageCount(7, CHATBOTS_PER_PAGE) == 2
  {
    PageZeroIsNotClamped(items);
  }

  /** The intended jump: the last page of the list as it is now. */
  function JumpToLastPage(currentCount: nat): (p: nat)
    ensures p == PageCount(currentCount, CHATBOTS_PER_PAGE)
  {
    PageCount(currentCount, CHATBOTS_PER_PAGE)
  }

  /** The last page is in range and shows the newest chatbot, the one appended last. */
  lemma {:induction false} JumpShowsTheNewestBot(items: seq<CachedBot>)
    requires |items| > 0
    ensures var p := JumpToLastPage(|items|);
            1 <= p == ClampPage(p, |items|)
            && |Page(items, p, CHATBOTS_PER_PAGE)| > 0
            && Page(items, p, CHATBOTS_PER_PAGE)[|Page(items, p, CHATBOTS_PER_PAGE)| - 1] == items[|items| - 1]
  {
    var p := JumpToLastPage(|items|);
    PageContents(items, p, CHATBOTS_PER_PAGE);
    assert Min(p * 6, |items|) == |items|;
  }

  /** The grid's page state. */
  class QRCodesView {
    var currentPage: int

    constructor ()
      ensures currentPage == 1
    {
      currentPage := 1;
    }

    method ChangePage(page: int)
      modifies this
      ensures currentPage == page
    {
      currentPage := page;
    }

    /** The clamping effect, run after each render with the list's length. */
    method Clamp(n: nat)
      modifies this
      ensures currentPage == ClampPage(old(currentPage), n)
    {
      currentPage := ClampPage(currentPage, n);
    }

    /** A chatbots cache update: jump to the last page of the current list. */
    method ChatbotsUpdated(n: nat)
      modifies this
      ensures currentPage == JumpToLastPage(n)
      ensures n > 0 ==> 1 <= currentPage
    {
      currentPage := JumpToLastPage(n);
    }
  }
}
