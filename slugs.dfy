// The backend's one-off script scripts/migrateSlugs.js: every chatbot without a slug
// gets a fresh uuid.
module SlugMigrationNode {
  import opened Common

  /** A Chatbot row as the script reads it; a null slug is None. */
  datatype BotRow = BotRow(id: int, slug: Option<string>)

  /** `Updated chatbot ${bot.id} with slug ${bot.slug}`: the slug printed is the old one. */
  datatype LogLine = LogLine(id: int, printedSlug: Option<string>)

  /** The row after the script, when `uuid` is the value uuidv4() returned for it. */
  function Migrated(bot: BotRow, uuid: string): BotRow
  {
    if Present(bot.slug) then bot else bot.(slug := Some(uuid))
  }

  function FalsyCount(bots: seq<BotRow>): (n: nat)
    ensures n <= |bots|
  {
    if |bots| == 0 then 0
    else FalsyCount(bots[..|bots| - 1]) + (if Present(bots[|bots| - 1].slug) then 0 else 1)
  }

  function FalsyLog(bots: seq<BotRow>): seq<LogLine>
  {
    if |bots| == 0 then []
    else FalsyLog(bots[..|bots| - 1])
         + (if Present(bots[|bots| - 1].slug) then [] else [LogLine(bots[|bots| - 1].id, bots[|bots| - 1].slug)])
  }

  /**
   * The loop of migrateSlugs. `uuids[i]` is the uuid generated if bot i is updated and
   * `failAt` the position whose update throws, if any; a throw is rethrown after the
   * rows already written, and the client is disconnected in every case.
   */
  method MigrateSlugs(bots: seq<BotRow>, uuids: seq<string>, failAt: Option<nat>)
    returns (rows: seq<BotRow>, updatedCount: nat, log: seq<LogLine>, failed: bool, disconnected: bool)
    requires |uuids| == |bots| && forall i :: 0 <= i < |uuids| ==> uuids[i] != ""
    ensures disconnected
    ensures |rows| == |bots|
    ensures failed <==> failAt.Some? && failAt.value < |bots| && !Present(bots[failAt.value].slug)
    ensures var done := if failed then failAt.value else |bots|;
            (forall i :: 0 <= i < done ==> rows[i] == Migrated(bots[i], uuids[i]))
            && (forall i :: done <= i < |bots| ==> rows[i] == bots[i])
            && updatedCount == FalsyCount(bots[..done])
            && log == FalsyLog(bots[..done])
    ensures !failed ==> forall i :: 0 <= i < |rows| ==> Present(rows[i].slug) && rows[i].id == bots[i].id
    ensures forall j :: 0 <= j < |log| ==> !Present(log[j].printedSlug)
  {
    rows := bots;
    updatedCount := 0;
    log := [];
    failed := false;
    var i := 0;
    while i < |bots|
      invariant 0 <= i <= |bots| && |rows| == |bots|
      invariant !failed
      invariant forall k :: 0 <= k < i ==> rows[k] == Migrated(bots[k], uuids[k])
      invariant forall k :: i <= k < |bots| ==> rows[k] == bots[k]
      invariant updatedCount == FalsyCount(bots[..i]) && log == FalsyLog(bots[..i])
      invariant forall j :: 0 <= j < |log| ==> !Present(log[j].printedSlug)
      invariant forall k :: 0 <= k < i && failAt == Some(k) ==> Present(bots[k].slug)
    {
      assert bots[..i + 1][..i] == bots[..i];
      var bot := bots[i];
      if !Present(bot.slug) {
        if failAt == Some(i) {
          failed := true;
          break;
        }
        rows := rows[i := bot.(slug := Some(uuids[i]))];
        log := log + [LogLine(bot.id, bot.slug)];
        updatedCount := updatedCount + 1;
      }
      i := i + 1;
    }
    disconnected := true;
  }
}

// The chatbot service's scripts/migrate_slugs.py: slugs are passed through a UTF-8 round
// trip, and every empty one gets a fresh uuid, committed bot by bot.
module SlugMigrationPython {
  import opened Common
  import opened Utf8

  datatype PyBot = PyBot(id: int, slug: Option<PyText>)

  predicate Truthy(s: Option<PyText>) { s.Some? && |s.value| > 0 }

  /** sanitize_slug: None for None or '', else the replacing UTF-8 round trip (None if it raised). */
  function SanitizeSlug(s: Option<PyText>): (r: Option<PyText>)
    ensures !Truthy(s) ==> r == None
    ensures Truthy(s) ==> r == Some(ReplaceSurrogates(s.value))
  {
    if !Truthy(s) then None
    else
      RoundTrip(s.value);
      match Decode(Encode(s.value))
      case None => None
      case Some(t) => Some(t)
  }

  /** Sanitising twice is sanitising once. */
  lemma SanitizeIdempotent(s: Option<PyText>)
    ensures SanitizeSlug(SanitizeSlug(s)) == SanitizeSlug(s)
  {
    if Truthy(s) {
      var t := ReplaceSurrogates(s.value);
      assert ReplaceSurrogates(t) == t;
    }
  }

  /** A slug without lone surrogates is kept as it is. */
  lemma SanitizeKeepsValidText(s: PyText)
    requires |s| > 0 && forall i :: 0 <= i < |s| ==> !IsSurrogate(s[i])
    ensures SanitizeSlug(Some(s)) == Some(s)
  {
    assert ReplaceSurrogates(s) == s;
  }

  /**
   * The bot as the loop leaves it in the session: a non-empty slug with its lone
   * surrogates replaced, an empty one replaced by the uuid.
   */
  function Fixed(bot: PyBot, uuid: PyText): PyBot
  {
    if Truthy(bot.slug) then bot.(slug := Some(ReplaceSurrogates(bot.slug.value)))
    else bot.(slug := Some(uuid))
  }

  /** One past the last position below `n` whose slug is empty: what the last commit covered. */
  function CommitPoint(bots: seq<PyBot>, n: nat): (k: nat)
    requires n <= |bots|
    ensures k <= n
    ensures k > 0 ==> !Truthy(bots[k - 1].slug)
    ensures forall i :: k <= i < n ==> Truthy(bots[i].slug)
  {
    if n == 0 then 0 else if !Truthy(bots[n - 1].slug) then n else CommitPoint(bots, n - 1)
  }

  function EmptyCount(bots: seq<PyBot>, n: nat): nat
    requires n <= |bots|
  {
    if n == 0 then 0 else EmptyCount(bots, n - 1) + (if Truthy(bots[n - 1].slug) then 0 else 1)
  }

  /** The lines `Updated chatbot {id} with new slug {slug}` printed for the first `n` bots. */
  function NewSlugLog(bots: seq<PyBot>, uuids: seq<PyText>, n: nat): (log: seq<(int, PyText)>)
    requires n <= |bots| == |uuids|
    ensures |log| == EmptyCount(bots, n)
  {
    if n == 0 then []
    else NewSlugLog(bots, uuids, n - 1)
         + (if Truthy(bots[n - 1].slug) then [] else [(bots[n - 1].id, uuids[n - 1])])
  }

  /** The session's bots once the loop has visited the first `n`. */
  function SessionAfter(bots: seq<PyBot>, uuids: seq<PyText>, n: nat): (r: seq<PyBot>)
    requires n <= |bots| == |uuids|
    ensures |r| == |bots|
  {
    if n == 0 then bots else SessionAfter(bots, uuids, n - 1)[n - 1 := Fixed(bots[n - 1], uuids[n - 1])]
  }

  /** Bot `k` of the session: fixed when visited, as loaded otherwise. */
  lemma {:induction false} SessionAt(bots: seq<PyBot>, uuids: seq<PyText>, n: nat, k: nat)
    requires n <= |bots| == |uuids| && k < |bots|
    ensures SessionAfter(bots, uuids, n)[k] == if k < n then Fixed(bots[k], uuids[k]) else bots[k]
  {
    if n > 0 {
      SessionAt(bots, uuids, n - 1, k);
    }
  }

  /** What visiting bot `n` does to the session, the commit point, the count and the log. */
  lemma {:induction false} SessionStep(bots: seq<PyBot>, uuids: seq<PyText>, n: nat)
    requires n < |bots| == |uuids|
    ensures SessionAfter(bots, uuids, n)[n] == bots[n]
    ensures Truthy(bots[n].slug) ==>
              CommitPoint(bots, n + 1) == CommitPoint(bots, n) && EmptyCount(bots, n + 1) == EmptyCount(bots, n)
              && NewSlugLog(bots, uuids, n + 1) == NewSlugLog(bots, uuids, n)
    ensures !Truthy(bots[n].slug) ==>
              CommitPoint(bots, n + 1) == n + 1 && EmptyCount(bots, n + 1) == EmptyCount(bots, n) + 1
              && NewSlugLog(bots, uuids, n + 1) == NewSlugLog(bots, uuids, n) + [(bots[n].id, uuids[n])]
  {
    SessionAt(bots, uuids, n, n);
  }

  /** The first two statements of the loop body: sanitise, then fall back to the uuid. */
  method Visit(bot: PyBot, uuid: PyText) returns (visited: PyBot, empty: bool)
    ensures visited == Fixed(bot, uuid)
    ensures empty <==> !Truthy(bot.slug)
  {
    visited := bot.(slug := SanitizeSlug(bot.slug));
    empty := !Truthy(visited.slug);
    if empty {
      visited := visited.(slug := Some(uuid));
    }
  }

  /**
   * One pass of the loop over bot `i`: visit it and, when its slug was empty, count it,
   * commit the session and report the new slug. `raised` says that this commit raised.
   */
  method LoopBody(bots: seq<PyBot>, uuids: seq<PyText>, i: nat, commitRaises: bool,
                  session: seq<PyBot>, committed: seq<PyBot>, updatedCount: nat, log: seq<(int, PyText)>)
    returns (session': seq<PyBot>, committed': seq<PyBot>, updatedCount': nat,
             log': seq<(int, PyText)>, raised: bool)
    requires i < |bots| == |uuids|
    requires session == SessionAfter(bots, uuids, i)
    requires committed == SessionAfter(bots, uuids, CommitPoint(bots, i))
    requires updatedCount == EmptyCount(bots, i) && log == NewSlugLog(bots, uuids, i)
    ensures raised <==> commitRaises && !Truthy(bots[i].slug)
    ensures raised ==> committed' == committed
    ensures !raised ==>
              session' == SessionAfter(bots, uuids, i + 1)
              && committed' == SessionAfter(bots, uuids, CommitPoint(bots, i + 1))
              && updatedCount' == EmptyCount(bots, i + 1) && log' == NewSlugLog(bots, uuids, i + 1)
  {
    SessionStep(bots, uuids, i);
    var bot := session[i];
    var visited, empty := Visit(bot, uuids[i]);
    session' := session[i := visited];
    committed', updatedCount', log', raised := committed, updatedCount, log, false;
    if empty {
      updatedCount' := updatedCount + 1;
      if commitRaises {
        raised := true;
        return;
      }
      committed' := session';
      log' := log + [(bot.id, uuids[i])];
    }
  }

  /**
   * The `try` block of migrate_slugs. The session holds every bot; `committed` is what
   * the database holds. `failAt` is the position whose commit raises, if any: the loop
   * stops there, and what earlier commits wrote is kept.
   */
  method CommitLoop(bots: seq<PyBot>, uuids: seq<PyText>, failAt: Option<nat>)
    returns (committed: seq<PyBot>, updatedCount: nat, log: seq<(int, PyText)>, failed: bool)
    requires |uuids| == |bots|
    ensures failed <==> failAt.Some? && failAt.value < |bots| && !Truthy(bots[failAt.value].slug)
    ensures committed == SessionAfter(bots, uuids, CommitPoint(bots, if failed then failAt.value else |bots|))
    ensures !failed ==> updatedCount == EmptyCount(bots, |bots|) && log == NewSlugLog(bots, uuids, |bots|)
  {
    var session := bots;
    committed := bots;
    updatedCount := 0;
    log := [];
    failed := false;
    var i := 0;
    assert SessionAfter(bots, uuids, 0) == bots;
    while i < |bots|
      invariant 0 <= i <= |bots| && !failed
      invariant session == SessionAfter(bots, uuids, i)
      invariant committed == SessionAfter(bots, uuids, CommitPoint(bots, i))
      invariant updatedCount == EmptyCount(bots, i) && log == NewSlugLog(bots, uuids, i)
      invariant failAt.Some? && failAt.value < i ==> Truthy(bots[failAt.value].slug)
    {
      var raises := failAt.Some? && failAt.value == i;
      session, committed, updatedCount, log, failed :=
        LoopBody(bots, uuids, i, raises, session, committed, updatedCount, log);
      if failed {
        break;
      }
      i := i + 1;
    }
  }

  /**
   * migrate_slugs: the loop, then on an exception db.rollback(), which discards the
   * session's uncommitted changes, and in every case db.close(). `committed` is what the
   * database holds afterwards.
   */
  method MigrateSlugs(bots: seq<PyBot>, uuids: seq<PyText>, failAt: Option<nat>)
    returns (committed: seq<PyBot>, updatedCount: nat, log: seq<(int, PyText)>, failed: bool, closed: bool)
    requires |uuids| == |bots|
    ensures closed
    ensures failed <==> failAt.Some? && failAt.value < |bots| && !Truthy(bots[failAt.value].slug)
    ensures committed == SessionAfter(bots, uuids, CommitPoint(bots, if failed then failAt.value else |bots|))
    ensures !failed ==> updatedCount == EmptyCount(bots, |bots|) && log == NewSlugLog(bots, uuids, |bots|)
  {
    committed, updatedCount, log, failed := CommitLoop(bots, uuids, failAt);
    closed := true;
  }

  /** After a successful run every committed bot has a non-empty slug. */
  lemma {:induction false} EverySlugFilled(bots: seq<PyBot>, uuids: seq<PyText>)
    requires |uuids| == |bots| && forall i :: 0 <= i < |uuids| ==> |uuids[i]| > 0
    ensures var committed := SessionAfter(bots, uuids, CommitPoint(bots, |bots|));
            forall i :: 0 <= i < |committed| ==> Truthy(committed[i].slug)
  {
    var k := CommitPoint(bots, |bots|);
    var committed := SessionAfter(bots, uuids, k);
    forall i | 0 <= i < |committed| ensures Truthy(committed[i].slug) {
      SessionAt(bots, uuids, k, i);
      if i < k {
        var t := SanitizeSlug(bots[i].slug);
        assert Truthy(t) ==> committed[i].slug == t;
      }
    }
  }
}
