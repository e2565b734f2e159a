/**
 * Rankings and history (src/app/services/ranking/ranking.service.ts).
 * The attempts collection is a sequence of attempts and the quizzes collection a map
 * from quiz id to title; every Firestore query is a function over them. The three
 * steps that resolve the signed-in user's best attempt and rank are one synchronous
 * step here. The service keeps a cache of rankings by quiz id and the last published
 * history.
 */
module Ranking {
  import opened Wrappers
  import opened QuizModel

  const UnknownQuizTitle := "Quiz desconocido"

  datatype QuizRanking = QuizRanking(
    quizId: string,
    quizTitle: string,
    topAttempts: seq<Attempt>,
    userBestAttempt: Option<Attempt>,
    userRank: Option<int>)

  /** What the store holds: the quizzes collection (id to title) and the attempts collection. */
  datatype Store = Store(quizTitles: map<string, string>, attempts: seq<Attempt>)

  /** Which reads reject: the quiz document, the top query, the user's best-attempt query, the better-attempts count. */
  datatype StoreFaults = StoreFaults(quizReadFails: bool, topQueryFails: bool, bestQueryFails: bool, rankQueryFails: bool)

  datatype HistoryItem = HistoryItem(
    id: string,
    quizId: string,
    quizTitle: string,
    score: real,
    totalPoints: int,
    maxPossiblePoints: int,
    correctAnswers: int,
    totalQuestions: int)

  // ---------------------------------------------------------------- queries

  /** A `where` filter: the attempts satisfying keep, in store order. */
  function Select(attempts: seq<Attempt>, keep: Attempt -> bool): (r: seq<Attempt>)
    ensures forall a :: multiset(r)[a] == if keep(a) then multiset(attempts)[a] else 0
    ensures forall a :: a in r ==> keep(a)
    ensures |r| <= |attempts|
  {
    if attempts == [] then []
    else
      var rest := Select(attempts[1..], keep);
      assert attempts == [attempts[0]] + attempts[1..];
      if keep(attempts[0]) then [attempts[0]] + rest else rest
  }

  function OfQuiz(attempts: seq<Attempt>, quizId: string): seq<Attempt> {
    Select(attempts, (a: Attempt) => a.quizId == quizId)
  }

  function OfUserOnQuiz(attempts: seq<Attempt>, quizId: string, userId: string): seq<Attempt> {
    Select(attempts, (a: Attempt) => a.quizId == quizId && a.userId == userId)
  }

  predicate NonIncreasing(s: seq<Attempt>) {
    forall i, j :: 0 <= i < j < |s| ==> s[i].totalPoints >= s[j].totalPoints
  }

  /** Inserts x before the first element with fewer points (ties keep store order). */
  function InsertDesc(x: Attempt, s: seq<Attempt>): (r: seq<Attempt>)
    ensures multiset(r) == multiset(s) + multiset{x}
    ensures |r| == |s| + 1
  {
    if s == [] || x.totalPoints >= s[0].totalPoints then [x] + s
    else
      assert s == [s[0]] + s[1..];
      [s[0]] + InsertDesc(x, s[1..])
  }

  predicate AtMost(s: seq<Attempt>, bound: int) {
    forall k :: 0 <= k < |s| ==> s[k].totalPoints <= bound
  }

  lemma {:induction false} InsertDescBounded(x: Attempt, s: seq<Attempt>, bound: int)
    requires AtMost(s, bound) && x.totalPoints <= bound
    ensures AtMost(InsertDesc(x, s), bound)
    decreases |s|
  {
    if !(s == [] || x.totalPoints >= s[0].totalPoints) {
      InsertDescBounded(x, s[1..], bound);
    }
  }

  /** Inserting into a sorted list keeps it sorted. */
  lemma {:induction false} InsertDescSorted(x: Attempt, s: seq<Attempt>)
    requires NonIncreasing(s)
    ensures NonIncreasing(InsertDesc(x, s))
    decreases |s|
  {
    if !(s == [] || x.totalPoints >= s[0].totalPoints) {
      var rest := InsertDesc(x, s[1..]);
      InsertDescSorted(x, s[1..]);
      InsertDescBounded(x, s[1..], s[0].totalPoints);
      assert InsertDesc(x, s) == [s[0]] + rest;
    }
  }

  /** `orderBy('totalPoints', 'desc')`: a sorted permutation. */
  function SortDesc(s: seq<Attempt>): (r: seq<Attempt>)
    ensures multiset(r) == multiset(s) && |r| == |s|
    ensures NonIncreasing(r)
  {
    if s == [] then []
    else
      assert s == [s[0]] + s[1..];
      var rest := SortDesc(s[1..]);
      InsertDescSorted(s[0], rest);
      InsertDesc(s[0], rest)
  }

  function Min(a: int, b: int): int {
    if a <= b then a else b
  }

  /** The top query: the quiz's attempts by points descending, at most limit of them. */
  function TopAttempts(attempts: seq<Attempt>, quizId: string, limit: nat): seq<Attempt> {
    var sorted := SortDesc(OfQuiz(attempts, quizId));
    sorted[..Min(limit, |sorted|)]
  }

  /** The user's best-attempt query (`limit(1)`). */
  function UserBest(attempts: seq<Attempt>, quizId: string, userId: string): Option<Attempt> {
    var sorted := SortDesc(OfUserOnQuiz(attempts, quizId, userId));
    if sorted == [] then None else Some(sorted[0])
  }

  /** The size of the better-attempts query: the quiz's attempts with strictly more points. */
  function CountAbove(attempts: seq<Attempt>, quizId: string, points: int): nat {
    |Select(attempts, (a: Attempt) => a.quizId == quizId && a.totalPoints > points)|
  }

  /** `findIndex(attempt => attempt.userId === userId)` as an option. */
  function FirstIndexOfUser(top: seq<Attempt>, userId: string): (r: Option<nat>)
    ensures r.Some? ==> r.value < |top| && top[r.value].userId == userId
    ensures r.Some? ==> forall k :: 0 <= k < r.value ==> top[k].userId != userId
    ensures r.None? <==> forall k :: 0 <= k < |top| ==> top[k].userId != userId
  {
    if top == [] then None
    else if top[0].userId == userId then Some(0)
    else
      match FirstIndexOfUser(top[1..], userId)
      case None => None
      case Some(i) => Some(i + 1)
  }

  // ---------------------------------------------------------------- properties of the queries

  lemma {:induction false} SortedSplit(s: seq<Attempt>, k: nat)
    requires NonIncreasing(s) && k <= |s|
    ensures multiset(s) - multiset(s[..k]) == multiset(s[k..])
    ensures forall a, b :: a in s[k..] && b in s[..k] ==> a.totalPoints <= b.totalPoints
  {
    assert s == s[..k] + s[k..];
    forall a, b | a in s[k..] && b in s[..k] ensures a.totalPoints <= b.totalPoints {
      var j :| 0 <= j < |s[k..]| && s[k..][j] == a;
      var i :| 0 <= i < |s[..k]| && s[..k][i] == b;
      assert s[k + j] == a && s[i] == b;
    }
  }

  /**
   * The top list holds only attempts of that quiz, by non-increasing points, as many as the
   * limit allows, each taken from the quiz's attempts; none left out has more points than
   * any kept.
   */
  lemma TopAttemptsAreBest(attempts: seq<Attempt>, quizId: string, limit: nat)
    ensures var top := TopAttempts(attempts, quizId, limit);
      && (forall a :: a in top ==> a.quizId == quizId)
      && NonIncreasing(top)
      && |top| == Min(limit, |OfQuiz(attempts, quizId)|)
      && multiset(top) <= multiset(OfQuiz(attempts, quizId))
      && (forall a, b :: a in multiset(OfQuiz(attempts, quizId)) - multiset(top) && b in top ==> a.totalPoints <= b.totalPoints)
  {
    var all := OfQuiz(attempts, quizId);
    var sorted := SortDesc(all);
    var k := Min(limit, |sorted|);
    PrefixOfSorted(all, sorted, k);
    forall a | a in sorted[..k] ensures a.quizId == quizId {
      assert a in multiset(sorted[..k]);
      assert a in multiset(all);
    }
  }

  /** A prefix of a sorted permutation of all: sorted, drawn from all, and no remaining element beats it. */
  lemma {:induction false} PrefixOfSorted(all: seq<Attempt>, sorted: seq<Attempt>, k: nat)
    requires NonIncreasing(sorted) && multiset(sorted) == multiset(all) && k <= |sorted|
    ensures NonIncreasing(sorted[..k])
    ensures multiset(sorted[..k]) <= multiset(all)
    ensures forall a, b :: a in multiset(all) - multiset(sorted[..k]) && b in sorted[..k] ==> a.totalPoints <= b.totalPoints
  {
    PrefixSorted(sorted, k);
    SortedSplit(sorted, k);
    assert sorted == sorted[..k] + sorted[k..];
    assert multiset(sorted) == multiset(sorted[..k]) + multiset(sorted[k..]);
    var rest := multiset(all) - multiset(sorted[..k]);
    assert rest == multiset(sorted[k..]);
    forall a, b | a in rest && b in sorted[..k] ensures a.totalPoints <= b.totalPoints {
      assert a in sorted[k..];
    }
  }

  lemma PrefixSorted(s: seq<Attempt>, k: nat)
    requires NonIncreasing(s) && k <= |s|
    ensures NonIncreasing(s[..k])
  {
    forall i, j | 0 <= i < j < k ensures s[..k][i].totalPoints >= s[..k][j].totalPoints {
      assert s[..k][i] == s[i] && s[..k][j] == s[j];
    }
  }

  /** The best-attempt query finds an attempt exactly when the user has one on the quiz, and it has the most points. */
  lemma UserBestIsMaximum(attempts: seq<Attempt>, quizId: string, userId: string)
    ensures UserBest(attempts, quizId, userId).Some? <==>
      exists a :: a in attempts && a.quizId == quizId && a.userId == userId
    ensures var best := UserBest(attempts, quizId, userId);
      best.Some? ==>
        && best.value in attempts && best.value.quizId == quizId && best.value.userId == userId
        && forall a :: a in attempts && a.quizId == quizId && a.userId == userId ==> a.totalPoints <= best.value.totalPoints
  {
    var mine := OfUserOnQuiz(attempts, quizId, userId);
    var sorted := SortDesc(mine);
    forall a ensures a in sorted <==> a in attempts && a.quizId == quizId && a.userId == userId {
      InOfUserOnQuiz(attempts, quizId, userId, a);
      SortDescKeepsMembers(mine, a);
    }
    if sorted != [] {
      assert sorted[0] in sorted;
      SortedHeadIsMaximum(sorted);
    }
  }

  /** The user's attempts on the quiz are exactly the store's attempts with both ids. */
  lemma InOfUserOnQuiz(attempts: seq<Attempt>, quizId: string, userId: string, a: Attempt)
    ensures a in OfUserOnQuiz(attempts, quizId, userId) <==> a in attempts && a.quizId == quizId && a.userId == userId
  {
    var mine := OfUserOnQuiz(attempts, quizId, userId);
    assert a in mine <==> a in multiset(mine);
    assert a in attempts <==> a in multiset(attempts);
  }

  lemma SortDescKeepsMembers(s: seq<Attempt>, a: Attempt)
    ensures a in SortDesc(s) <==> a in s
  {
    assert a in SortDesc(s) <==> a in multiset(SortDesc(s));
    assert a in s <==> a in multiset(s);
  }

  /** The head of a list sorted by decreasing points has the most points. */
  lemma SortedHeadIsMaximum(s: seq<Attempt>)
    requires NonIncreasing(s) && s != []
    ensures forall a :: a in s ==> a.totalPoints <= s[0].totalPoints
  {
    forall a | a in s ensures a.totalPoints <= s[0].totalPoints {
      var j :| 0 <= j < |s| && s[j] == a;
      if j > 0 {
        assert s[0].totalPoints >= s[j].totalPoints;
      }
    }
  }

  lemma SmallerMultiset(x: multiset<Attempt>, y: multiset<Attempt>, b: Attempt)
    requires x <= y && x[b] < y[b]
    ensures |x| < |y|
  {
    var d := y - x;
    assert y == x + d;
    assert b in d;
  }

  /** A rank computed from the user's best attempt lies between 1 and the number of the quiz's attempts. */
  lemma {:induction false} RankOutsideTopBounds(attempts: seq<Attempt>, quizId: string, userId: string)
    requires UserBest(attempts, quizId, userId).Some?
    ensures 1 <= CountAbove(attempts, quizId, UserBest(attempts, quizId, userId).value.totalPoints) + 1 <= |OfQuiz(attempts, quizId)|
  {
    UserBestIsMaximum(attempts, quizId, userId);
    var b := UserBest(attempts, quizId, userId).value;
    var above := Select(attempts, (a: Attempt) => a.quizId == quizId && a.totalPoints > b.totalPoints);
    var all := OfQuiz(attempts, quizId);
    assert b in multiset(attempts);
    assert multiset(above)[b] == 0;
    assert multiset(all)[b] == multiset(attempts)[b] > 0;
    assert multiset(above) <= multiset(all);
    SmallerMultiset(multiset(above), multiset(all), b);
  }

  // ---------------------------------------------------------------- the ranking entry

  function UnknownRanking(quizId: string): QuizRanking {
    QuizRanking(quizId, UnknownQuizTitle, [], None, None)
  }

  /**
   * findUserBestAttemptAndRank followed by determineUserRank, run to the end: a user in the
   * top list gets their first entry and its position; otherwise their best attempt and one
   * more than the number of better attempts, as far as the two queries succeed.
   */
  function ResolveUser(ranking: QuizRanking, attempts: seq<Attempt>, userId: string, faults: StoreFaults): QuizRanking {
    match FirstIndexOfUser(ranking.topAttempts, userId)
    case Some(i) => ranking.(userBestAttempt := Some(ranking.topAttempts[i]), userRank := Some(i + 1))
    case None =>
      if faults.bestQueryFails then ranking
      else match UserBest(attempts, ranking.quizId, userId)
        case None => ranking
        case Some(best) =>
          var withBest := ranking.(userBestAttempt := Some(best));
          if faults.rankQueryFails then withBest
          else withBest.(userRank := Some(CountAbove(attempts, ranking.quizId, best.totalPoints) + 1))
  }

  /** A user in the top list: the rank is the 1-based position of their first entry. */
  lemma RankInTop(ranking: QuizRanking, attempts: seq<Attempt>, userId: string, faults: StoreFaults)
    requires exists k :: 0 <= k < |ranking.topAttempts| && ranking.topAttempts[k].userId == userId
    ensures var r := ResolveUser(ranking, attempts, userId, faults);
      && r.userRank.Some? && 1 <= r.userRank.value <= |ranking.topAttempts|
      && r.userBestAttempt == Some(ranking.topAttempts[r.userRank.value - 1])
      && r.userBestAttempt.value.userId == userId
      && (forall k :: 0 <= k < r.userRank.value - 1 ==> ranking.topAttempts[k].userId != userId)
      && r.topAttempts == ranking.topAttempts && r.quizId == ranking.quizId && r.quizTitle == ranking.quizTitle
  {
  }

  /**
   * A user not in the top list, on an entry whose user fields are still unset: a user without
   * attempts on the quiz leaves it as it was; a user with attempts gets their maximum as best
   * attempt and, when the count query is answered, one more than the number of strictly better
   * attempts as rank (no rank when it fails).
   */
  lemma RankOutsideTop(ranking: QuizRanking, attempts: seq<Attempt>, userId: string, faults: StoreFaults)
    requires forall k :: 0 <= k < |ranking.topAttempts| ==> ranking.topAttempts[k].userId != userId
    requires ranking.userBestAttempt.None? && ranking.userRank.None?
    requires !faults.bestQueryFails
    ensures var r := ResolveUser(ranking, attempts, userId, faults);
      && ((forall a :: a in attempts && a.quizId == ranking.quizId ==> a.userId != userId) ==> r == ranking)
      && ((exists a :: a in attempts && a.quizId == ranking.quizId && a.userId == userId) ==>
            && r.userBestAttempt.Some?
            && r.userBestAttempt.value in attempts
            && r.userBestAttempt.value.quizId == ranking.quizId && r.userBestAttempt.value.userId == userId
            && (forall a :: a in attempts && a.quizId == ranking.quizId && a.userId == userId ==>
                  a.totalPoints <= r.userBestAttempt.value.totalPoints)
            && (faults.rankQueryFails ==> r.userRank.None?)
            && (!faults.rankQueryFails ==>
                  && r.userRank == Some(CountAbove(attempts, ranking.quizId, r.userBestAttempt.value.totalPoints) + 1)
                  && 1 <= r.userRank.value <= |OfQuiz(attempts, ranking.quizId)|))
  {
    NotInTop(ranking.topAttempts, userId);
    UserBestIsMaximum(attempts, ranking.quizId, userId);
    if UserBest(attempts, ranking.quizId, userId).Some? {
      RankOutsideTopBounds(attempts, ranking.quizId, userId);
    }
  }

  lemma NotInTop(top: seq<Attempt>, userId: string)
    requires forall k :: 0 <= k < |top| ==> top[k].userId != userId
    ensures FirstIndexOfUser(top, userId).None?
  {
  }

  /**
   * A signed-in user with an attempt on a quiz whose ranking loads gets a best attempt, and
   * a rank unless the count query fails while they are outside the top list.
   */
  lemma LoadRankingFindsUser(store: Store, quizId: string, limit: int, uid: string, faults: StoreFaults)
    requires !faults.quizReadFails && quizId in store.quizTitles && limit > 0 && !faults.topQueryFails
    requires uid != "" && !faults.bestQueryFails
    requires exists a :: a in store.attempts && a.quizId == quizId && a.userId == uid
    ensures var (entry, cached) := LoadRanking(store, quizId, limit, Some(uid), faults);
      && cached && entry.userBestAttempt.Some? && entry.userBestAttempt.value.userId == uid
      && (!faults.rankQueryFails ==> entry.userRank.Some? && entry.userRank.value >= 1)
  {
    var withTop := QuizRanking(quizId, store.quizTitles[quizId], TopAttempts(store.attempts, quizId, limit), None, None);
    match FirstIndexOfUser(withTop.topAttempts, uid)
    case Some(i) =>
    case None =>
      RankOutsideTop(withTop, store.attempts, uid, faults);
  }

  /**
   * getQuizRanking after a miss, run to the end, with the signed-in user's uid: the entry
   * returned and whether it is cached. An absent or unreadable quiz, or a limit the query
   * refuses, yields the unknown entry; a failing top query yields the bare entry; neither
   * is cached.
   */
  function LoadRanking(store: Store, quizId: string, limit: int, currentUid: Option<string>, faults: StoreFaults): (QuizRanking, bool) {
    if faults.quizReadFails || quizId !in store.quizTitles || limit <= 0 then (UnknownRanking(quizId), false)
    else
      var ranking := QuizRanking(quizId, store.quizTitles[quizId], [], None, None);
      if faults.topQueryFails then (ranking, false)
      else
        var withTop := ranking.(topAttempts := TopAttempts(store.attempts, quizId, limit));
        if currentUid.Some? && currentUid.value != "" then (ResolveUser(withTop, store.attempts, currentUid.value, faults), true)
        else (withTop, true)
  }

  /** The user resolution only ever sets the two user fields. */
  lemma ResolveUserKeepsEntry(ranking: QuizRanking, attempts: seq<Attempt>, userId: string, faults: StoreFaults)
    ensures var r := ResolveUser(ranking, attempts, userId, faults);
      r.quizId == ranking.quizId && r.quizTitle == ranking.quizTitle && r.topAttempts == ranking.topAttempts
  {
  }

  /** Which outcomes are cached, and what the failure entries hold. */
  lemma LoadRankingOutcomes(store: Store, quizId: string, limit: int, currentUid: Option<string>, faults: StoreFaults)
    ensures var (entry, cached) := LoadRanking(store, quizId, limit, currentUid, faults);
      && entry.quizId == quizId
      && (cached <==> !faults.quizReadFails && quizId in store.quizTitles && limit > 0 && !faults.topQueryFails)
      && (faults.quizReadFails || quizId !in store.quizTitles || limit <= 0 ==>
            entry.quizTitle == UnknownQuizTitle && entry.topAttempts == [] && entry.userBestAttempt.None? && entry.userRank.None?)
      && (!cached ==> entry.topAttempts == [] && entry.userBestAttempt.None? && entry.userRank.None?)
      && (cached ==> entry.quizTitle == store.quizTitles[quizId] && entry.topAttempts == TopAttempts(store.attempts, quizId, limit))
      && (currentUid.None? || currentUid == Some("") ==> entry.userBestAttempt.None? && entry.userRank.None?)
  {
    if !(faults.quizReadFails || quizId !in store.quizTitles || limit <= 0 || faults.topQueryFails) {
      var withTop := QuizRanking(quizId, store.quizTitles[quizId], TopAttempts(store.attempts, quizId, limit), None, None);
      if currentUid.Some? && currentUid.value != "" {
        ResolveUserKeepsEntry(withTop, store.attempts, currentUid.value, faults);
      }
    }
  }

  // ---------------------------------------------------------------- history

  /** `[...new Set(ids)]`: the distinct quiz ids in order of first occurrence. */
  function DistinctQuizIds(attempts: seq<Attempt>): (r: seq<string>)
    ensures forall id :: id in r <==> exists a :: a in attempts && a.quizId == id
    ensures forall i, j :: 0 <= i < j < |r| ==> r[i] != r[j]
    decreases |attempts|
  {
    if attempts == [] then []
    else
      var front := DistinctQuizIds(attempts[..|attempts| - 1]);
      var last := attempts[|attempts| - 1];
      assert forall a :: a in attempts <==> a in attempts[..|attempts| - 1] || a == last by {
        assert attempts == attempts[..|attempts| - 1] + [last];
      }
      if last.quizId in front then front else front + [last.quizId]
  }

  /**
   * The title map built from the title lookups for the distinct ids: the stored title,
   * or the unknown title for a quiz that no longer exists.
   */
  function TitleMap(ids: seq<string>, titles: map<string, string>): (m: map<string, string>)
    ensures m.Keys == set id | id in ids
    ensures forall id :: id in m ==> m[id] == if id in titles then titles[id] else UnknownQuizTitle
  {
    map id | id in ids :: if id in titles then titles[id] else UnknownQuizTitle
  }

  function HistoryItemFor(attempt: Attempt, titleMap: map<string, string>): HistoryItem {
    var title := if attempt.quizId in titleMap && titleMap[attempt.quizId] != "" then titleMap[attempt.quizId] else UnknownQuizTitle;
    HistoryItem(attempt.id, attempt.quizId, title, attempt.score, attempt.totalPoints,
      attempt.maxPossiblePoints, attempt.correctAnswers, attempt.totalQuestions)
  }

  function HistoryItems(attempts: seq<Attempt>, titles: map<string, string>): seq<HistoryItem> {
    var titleMap := TitleMap(DistinctQuizIds(attempts), titles);
    seq(|attempts|, i requires 0 <= i < |attempts| => HistoryItemFor(attempts[i], titleMap))
  }

  /** One item per attempt in the same order, titled from the quizzes collection, falling back to the unknown title. */
  lemma HistoryItemsMatchAttempts(attempts: seq<Attempt>, titles: map<string, string>)
    ensures var items := HistoryItems(attempts, titles);
      && |items| == |attempts|
      && forall i :: 0 <= i < |attempts| ==>
        && items[i].id == attempts[i].id && items[i].quizId == attempts[i].quizId
        && items[i].score == attempts[i].score && items[i].totalPoints == attempts[i].totalPoints
        && items[i].maxPossiblePoints == attempts[i].maxPossiblePoints
        && items[i].correctAnswers == attempts[i].correctAnswers && items[i].totalQuestions == attempts[i].totalQuestions
        && items[i].quizTitle == if attempts[i].quizId in titles && titles[attempts[i].quizId] != "" then titles[attempts[i].quizId] else UnknownQuizTitle
  {
    var ids := DistinctQuizIds(attempts);
    forall i | 0 <= i < |attempts| ensures attempts[i].quizId in TitleMap(ids, titles) {
      assert attempts[i] in attempts;
    }
  }

  // ---------------------------------------------------------------- the service

  class RankingService {
    var cache: map<string, QuizRanking>
    /** The value last pushed to userHistorySubject. */
    var userHistory: seq<HistoryItem>

    constructor ()
      ensures cache == map[] && userHistory == []
    {
      cache := map[];
      userHistory := [];
    }

    /**
     * loadRankingData followed by the user resolution: fills the top list, resolves the
     * user when one is signed in, and caches the entry; a failing top query returns the
     * entry as it came.
     */
    method LoadRankingData(store: Store, ranking: QuizRanking, topLimit: nat, currentUid: Option<string>, faults: StoreFaults)
      returns (r: QuizRanking)
      requires topLimit > 0
      modifies this
      ensures userHistory == old(userHistory)
      ensures faults.topQueryFails ==> r == ranking && cache == old(cache)
      ensures !faults.topQueryFails ==>
        var withTop := ranking.(topAttempts := TopAttempts(store.attempts, ranking.quizId, topLimit));
        && r == (if currentUid.Some? && currentUid.value != "" then ResolveUser(withTop, store.attempts, currentUid.value, faults) else withTop)
        && cache == old(cache)[ranking.quizId := r]
    {
      if faults.topQueryFails {
        return ranking;
      }
      r := ranking.(topAttempts := TopAttempts(store.attempts, ranking.quizId, topLimit));
      if currentUid.Some? && currentUid.value != "" {
        ResolveUserKeepsEntry(r, store.attempts, currentUid.value, faults);
        r := ResolveUser(r, store.attempts, currentUid.value, faults);
      }
      cache := cache[r.quizId := r];
    }

    /** getQuizRanking: a hit returns the cached entry and reads nothing; a miss loads, and caches only a success. */
    method GetQuizRanking(store: Store, quizId: string, limit: int, currentUid: Option<string>, faults: StoreFaults)
      returns (r: QuizRanking)
      modifies this
      ensures userHistory == old(userHistory)
      ensures quizId in old(cache) ==> r == old(cache)[quizId] && cache == old(cache)
      ensures quizId !in old(cache) ==>
        var (entry, cached) := LoadRanking(store, quizId, limit, currentUid, faults);
        && r == entry
        && cache == if cached then old(cache)[quizId := entry] else old(cache)
    {
      if quizId in cache {
        return cache[quizId];
      }
      if faults.quizReadFails || quizId !in store.quizTitles || limit <= 0 {
        return UnknownRanking(quizId);
      }
      var ranking := QuizRanking(quizId, store.quizTitles[quizId], [], None, None);
      r := LoadRankingData(store, ranking, limit, currentUid, faults);
    }

    /** clearCache: every later getQuizRanking is a miss. */
    method ClearCache()
      modifies this
      ensures cache == map[] && userHistory == old(userHistory)
    {
      cache := map[];
    }

    /**
     * getUserQuizHistory with the current user, the outcome of the user's attempts query
     * (newest first) and the quizzes collection. It always returns the empty list; the
     * history is published when every title lookup succeeds.
     */
    method GetUserQuizHistory(user: Option<User>, queried: Result<seq<Attempt>, string>, titles: map<string, string>, titleLookupFails: bool)
      returns (returned: seq<HistoryItem>)
      modifies this
      ensures returned == [] && cache == old(cache)
      ensures user.None? || user.value.uid == "" || queried.Err? ==> userHistory == []
      ensures user.Some? && user.value.uid != "" && queried.Ok? ==>
        userHistory == if titleLookupFails then old(userHistory) else HistoryItems(queried.value, titles)
    {
      returned := [];
      if user.None? || user.value.uid == "" {
        userHistory := [];
        return;
      }
      match queried {
        case Err(_) =>
          userHistory := [];
        case Ok(attempts) =>
          if !titleLookupFails {
            userHistory := HistoryItems(attempts, titles);
          }
      }
    }
  }

  /** A second request for the same quiz after a cached load returns the same entry without reading the store. */
  method RepeatedRequestHitsCache(service: RankingService, store: Store, quizId: string, limit: int, currentUid: Option<string>, faults: StoreFaults, later: Store, laterFaults: StoreFaults)
    returns (first: QuizRanking, second: QuizRanking)
    requires LoadRanking(store, quizId, limit, currentUid, faults).1
    modifies service
    ensures first == second
    ensures quizId !in old(service.cache) ==> first == LoadRanking(store, quizId, limit, currentUid, faults).0
  {
    first := service.GetQuizRanking(store, quizId, limit, currentUid, faults);
    second := service.GetQuizRanking(later, quizId, limit, currentUid, laterFaults);
  }
}
