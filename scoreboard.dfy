/** The verified-score leaderboard of the Express server (frontend/server.ts):
    a list of `VerifiedScore` records read from a JSON file, a GET that
    answers the ten best, and a POST that upserts one record keyed by the
    World ID nullifier hash and reports the record's 1-based position.

    The file is not modelled: the list `readScores` returned is an input and
    what `writeScores` would store is an output (`None`: nothing written).
    The proof check `verifyCloudProof` is the boolean `verified`; the ISO
    timestamp `new Date().toISOString()` is the input `now`. */
module ScoreBoard {
  import opened Common

  /** One leaderboard entry as stored in the JSON file. */
  datatype VerifiedScore = VerifiedScore(score: int, nullifierHash: string, verificationLevel: string, timestamp: string)

  /** The fields of a POST body the handler uses: `score`, `nullifier_hash`, `verification_level`. */
  datatype Submission = Submission(score: int, nullifierHash: string, verificationLevel: string)

  /** An HTTP answer: a status and its JSON body. */
  datatype Reply =
    | Board(status: nat, top: seq<VerifiedScore>)
    | Refused(status: nat, error: string)
    | Recorded(status: nat, verifiedScore: int, nullifierHash: string, leaderboardPosition: int)

  const TopSize: nat := 10

  predicate Descending(s: seq<VerifiedScore>)
  {
    forall i, j :: 0 <= i < j < |s| ==> s[i].score >= s[j].score
  }

  /** No nullifier hash occurs twice. */
  predicate UniqueHashes(s: seq<VerifiedScore>)
  {
    forall i, j :: 0 <= i < |s| && 0 <= j < |s| && s[i].nullifierHash == s[j].nullifierHash ==> i == j
  }

  // ---------------------------------------------------------------------------
  // `Array.prototype.find` / `findIndex` on the nullifier hash

  /** Index of the first record carrying hash `h`, or -1 (JavaScript's `findIndex`). */
  function FindIndex(s: seq<VerifiedScore>, h: string): (r: int)
    ensures -1 <= r < |s|
    ensures r >= 0 ==> s[r].nullifierHash == h && forall i :: 0 <= i < r ==> s[i].nullifierHash != h
    ensures r == -1 ==> forall i :: 0 <= i < |s| ==> s[i].nullifierHash != h
  {
    if s == [] then -1
    else if s[0].nullifierHash == h then 0
    else
      var k := FindIndex(s[1..], h);
      if k < 0 then -1 else k + 1
  }

  // ---------------------------------------------------------------------------
  // `sort((a, b) => b.score - a.score)`: a stable sort, highest score first

  /** Puts `x` in front of the first record that does not score strictly
      more, so that records with equal scores keep their order. */
  function Insert(x: VerifiedScore, t: seq<VerifiedScore>): (r: seq<VerifiedScore>)
    ensures |r| == |t| + 1
    ensures multiset(r) == multiset(t) + multiset{x}
  {
    if t == [] || t[0].score <= x.score then
      [x] + t
    else
      assert t == [t[0]] + t[1..];
      [t[0]] + Insert(x, t[1..])
  }

  lemma {:induction false} InsertKeepsOrder(x: VerifiedScore, t: seq<VerifiedScore>)
    requires Descending(t)
    ensures Descending(Insert(x, t))
  {
    if t != [] && t[0].score > x.score {
      var rest := Insert(x, t[1..]);
      InsertKeepsOrder(x, t[1..]);
      InsertFrom(x, t[1..]);
      HeadLeads(t);
      assert Insert(x, t) == [t[0]] + rest;
      LeaderCons(t[0], rest);
    }
  }

  /** `Insert` adds nothing but `x`. */
  lemma InsertFrom(x: VerifiedScore, t: seq<VerifiedScore>)
    ensures forall y :: y in Insert(x, t) ==> y == x || y in t
  {
    forall y | y in Insert(x, t) ensures y == x || y in t {
      assert y in multiset(Insert(x, t));
    }
  }

  /** The head of a descending list scores at least as much as any later record. */
  lemma HeadLeads(t: seq<VerifiedScore>)
    requires Descending(t) && t != []
    ensures forall y :: y in t[1..] ==> y.score <= t[0].score
  {
    forall y | y in t[1..] ensures y.score <= t[0].score {
      var i :| 0 <= i < |t[1..]| && t[1..][i] == y;
      assert t[i + 1] == y;
    }
  }

  /** A record scoring at least as much as every record of a descending list
      can lead it. */
  lemma LeaderCons(h: VerifiedScore, s: seq<VerifiedScore>)
    requires Descending(s) && forall y :: y in s ==> y.score <= h.score
    ensures Descending([h] + s)
  {
    forall i, j | 0 <= i < j < |[h] + s| ensures ([h] + s)[i].score >= ([h] + s)[j].score {
      assert ([h] + s)[j] == s[j - 1];
      if i > 0 {
        assert ([h] + s)[i] == s[i - 1];
      } else {
        assert s[j - 1] in s;
      }
    }
  }

  /** The order JavaScript's stable sort produces for the descending comparator. */
  function SortByScore(s: seq<VerifiedScore>): (r: seq<VerifiedScore>)
    ensures |r| == |s|
    ensures multiset(r) == multiset(s)
    ensures Descending(r)
  {
    if s == [] then []
    else
      assert s == [s[0]] + s[1..];
      InsertKeepsOrder(s[0], SortByScore(s[1..]));
      Insert(s[0], SortByScore(s[1..]))
  }

  /** Number of records scoring strictly more than `v`. */
  function Above(s: seq<VerifiedScore>, v: int): (n: nat)
    ensures n <= |s|
  {
    if s == [] then 0 else (if s[0].score > v then 1 else 0) + Above(s[1..], v)
  }

  /** The records scoring exactly `v`, in their order in `s`. */
  function Ties(s: seq<VerifiedScore>, v: int): (r: seq<VerifiedScore>)
    ensures |r| <= |s|
    ensures forall y :: y in r ==> y in s && y.score == v
  {
    if s == [] then []
    else (if s[0].score == v then [s[0]] else []) + Ties(s[1..], v)
  }

  /** Reference definition of a leaderboard position: one more than the number
      of records scoring strictly higher, plus the number of equal-scoring
      records listed earlier; 0 when the hash is absent. */
  function Rank(board: seq<VerifiedScore>, h: string): int
  {
    var i := FindIndex(board, h);
    if i < 0 then 0
    else 1 + Above(board, board[i].score) + FindIndex(Ties(board, board[i].score), h)
  }

  // ---------------------------------------------------------------------------
  // Facts about the sort

  lemma {:induction false} AboveInsert(x: VerifiedScore, t: seq<VerifiedScore>, v: int)
    ensures Above(Insert(x, t), v) == Above([x] + t, v)
  {
    if t == [] || t[0].score <= x.score {
    } else {
      AboveInsert(x, t[1..], v);
      assert ([t[0]] + Insert(x, t[1..]))[1..] == Insert(x, t[1..]);
      assert ([x] + t[1..])[1..] == t[1..];
      assert ([x] + t)[1..] == t;
    }
  }

  /** Sorting neither adds nor loses a record that outranks `v`. */
  lemma {:induction false} SortKeepsAbove(s: seq<VerifiedScore>, v: int)
    ensures Above(SortByScore(s), v) == Above(s, v)
  {
    if s != [] {
      SortKeepsAbove(s[1..], v);
      AboveInsert(s[0], SortByScore(s[1..]), v);
      assert ([s[0]] + SortByScore(s[1..]))[1..] == SortByScore(s[1..]);
    }
  }

  lemma {:induction false} TiesInsert(x: VerifiedScore, t: seq<VerifiedScore>, v: int)
    ensures Ties(Insert(x, t), v) == Ties([x] + t, v)
  {
    if t != [] && t[0].score > x.score {
      var u := Insert(x, t[1..]);
      assert Insert(x, t) == [t[0]] + u;
      TiesInsert(x, t[1..], v);
      TiesCons(t[0], u, v);
      TiesCons(x, t[1..], v);
      TiesCons(x, t, v);
      assert t == [t[0]] + t[1..];
      TiesCons(t[0], t[1..], v);
      var rest := Ties(t[1..], v);
      if t[0].score == v {
        assert Ties(Insert(x, t), v) == [t[0]] + rest;
        assert Ties([x] + t, v) == [t[0]] + rest;
      } else if x.score == v {
        assert Ties(Insert(x, t), v) == [x] + rest;
        assert Ties([x] + t, v) == [x] + rest;
      } else {
        assert Ties(Insert(x, t), v) == rest;
      }
    }
  }

  lemma TiesCons(y: VerifiedScore, s: seq<VerifiedScore>, v: int)
    ensures y.score == v ==> Ties([y] + s, v) == [y] + Ties(s, v)
    ensures y.score != v ==> Ties([y] + s, v) == Ties(s, v)
  {
    assert ([y] + s)[1..] == s;
    assert [] + Ties(s, v) == Ties(s, v);
  }

  /** Stability: the records that tie on a score keep their relative order. */
  lemma {:induction false} SortKeepsTies(s: seq<VerifiedScore>, v: int)
    ensures Ties(SortByScore(s), v) == Ties(s, v)
  {
    if s != [] {
      SortKeepsTies(s[1..], v);
      TiesInsert(s[0], SortByScore(s[1..]), v);
      assert ([s[0]] + SortByScore(s[1..]))[1..] == SortByScore(s[1..]);
    }
  }

  lemma {:induction false} AboveNone(s: seq<VerifiedScore>, v: int)
    requires forall y :: y in s ==> y.score <= v
    ensures Above(s, v) == 0
  {
    if s != [] {
      assert forall y :: y in s[1..] ==> y in s;
      AboveNone(s[1..], v);
    }
  }

  lemma {:induction false} TiesContains(s: seq<VerifiedScore>, i: nat)
    requires i < |s|
    ensures s[i] in Ties(s, s[i].score)
  {
    if i > 0 {
      TiesContains(s[1..], i - 1);
    }
  }

  /** In a list sorted by score, the first record with hash `h` sits behind
      every higher score and every earlier equal score. */
  lemma {:induction false} RankInSorted(t: seq<VerifiedScore>, h: string)
    requires Descending(t) && FindIndex(t, h) >= 0
    ensures var p := FindIndex(t, h);
            FindIndex(Ties(t, t[p].score), h) >= 0 &&
            p == Above(t, t[p].score) + FindIndex(Ties(t, t[p].score), h)
  {
    var p := FindIndex(t, h);
    var v := t[p].score;
    if t[0].nullifierHash == h {
      assert p == 0;
      assert forall y :: y in t ==> y.score <= v by {
        forall y | y in t ensures y.score <= v {
          var k :| 0 <= k < |t| && t[k] == y;
          assert k == 0 || t[0].score >= t[k].score;
        }
      }
      AboveNone(t, v);
      assert Ties(t, v) == [t[0]] + Ties(t[1..], v);
    } else {
      var rest := t[1..];
      assert FindIndex(rest, h) == p - 1;
      assert rest[p - 1] == t[p];
      RankInSorted(rest, h);
      assert t[0].score >= v;
      var tail := Ties(rest, v);
      if t[0].score == v {
        assert Ties(t, v) == [t[0]] + tail;
        assert ([t[0]] + tail)[1..] == tail;
      } else {
        assert Ties(t, v) == tail;
      }
    }
  }

  /** The sort-then-findIndex of the handler computes `Rank`. */
  lemma SortedRank(board: seq<VerifiedScore>, h: string)
    requires UniqueHashes(board) && FindIndex(board, h) >= 0
    ensures FindIndex(SortByScore(board), h) + 1 == Rank(board, h)
    ensures Rank(board, h) >= 1
  {
    var t := SortByScore(board);
    var i := FindIndex(board, h);
    var x := board[i];
    assert x in multiset(t);
    var q :| 0 <= q < |t| && t[q] == x;
    var p := FindIndex(t, h);
    assert p >= 0;
    var y := t[p];
    assert y in multiset(board);
    var k :| 0 <= k < |board| && board[k] == y;
    assert k == i;
    RankInSorted(t, h);
    SortKeepsAbove(board, x.score);
    SortKeepsTies(board, x.score);
  }

  // ---------------------------------------------------------------------------
  // GET /api/verify-score

  /** The first ten records of the descending sort. */
  function TopTen(s: seq<VerifiedScore>): (r: seq<VerifiedScore>)
    ensures |r| == Min(TopSize, |s|)
    ensures Descending(r)
    ensures multiset(r) <= multiset(s)
  {
    var sorted := SortByScore(s);
    assert sorted == sorted[..Min(TopSize, |s|)] + sorted[Min(TopSize, |s|)..];
    sorted[..Min(TopSize, |s|)]
  }

  /** No record left out of the top ten scores more than one that is in it. */
  lemma TopTenHoldsBest(s: seq<VerifiedScore>)
    ensures forall x, y :: x in s && x !in TopTen(s) && y in TopTen(s) ==> x.score <= y.score
  {
    var sorted := SortByScore(s);
    var n := Min(TopSize, |s|);
    assert TopTen(s) == sorted[..n];
    forall x, y | x in s && x !in TopTen(s) && y in TopTen(s) ensures x.score <= y.score {
      assert x in multiset(s);
      PrefixOutranks(sorted, n, x, y);
    }
  }

  /** In a descending list, a record outside the first `n` scores no more
      than one inside them. */
  lemma PrefixOutranks(t: seq<VerifiedScore>, n: nat, x: VerifiedScore, y: VerifiedScore)
    requires Descending(t) && n <= |t|
    requires x in t && x !in t[..n] && y in t[..n]
    ensures x.score <= y.score
  {
    var q :| 0 <= q < |t| && t[q] == x;
    var m :| 0 <= m < n && t[..n][m] == y;
    assert n <= q;
    assert t[m] == y;
  }

  /** The GET route: status 200 and the ten best records. */
  function Get(stored: seq<VerifiedScore>): (reply: Reply)
    ensures reply.Board? && reply.status == 200
    ensures |reply.top| <= TopSize && Descending(reply.top)
    ensures forall x :: x in reply.top ==> x in stored
  {
    var top := TopTen(stored);
    assert forall x :: x in top ==> x in multiset(stored);
    Board(200, top)
  }

  // ---------------------------------------------------------------------------
  // POST /api/verify-score

  /** The record a first submission creates. */
  function Fresh(sub: Submission, now: string): VerifiedScore
  {
    VerifiedScore(sub.score, sub.nullifierHash, sub.verificationLevel, now)
  }

  /** What the POST writes to the file, or `None` when it writes nothing. */
  function Upsert(stored: seq<VerifiedScore>, sub: Submission, now: string): Option<seq<VerifiedScore>>
  {
    var i := FindIndex(stored, sub.nullifierHash);
    if i < 0 then Some(stored + [Fresh(sub, now)])
    else if sub.score > stored[i].score then Some(stored[i := stored[i].(score := sub.score, timestamp := now)])
    else None
  }

  /** The in-memory list after the upsert: what was written, or the list as read. */
  function Kept(stored: seq<VerifiedScore>, written: Option<seq<VerifiedScore>>): seq<VerifiedScore>
  {
    if written.Some? then written.value else stored
  }

  /** An unknown hash appends exactly one record, with the submitted score,
      hash and verification level. */
  lemma UpsertAppendsNew(stored: seq<VerifiedScore>, sub: Submission, now: string)
    requires FindIndex(stored, sub.nullifierHash) < 0
    ensures Upsert(stored, sub, now) == Some(stored + [Fresh(sub, now)])
    ensures |Kept(stored, Upsert(stored, sub, now))| == |stored| + 1
  {
  }

  /** A known hash changes at most that record's score and timestamp, and
      only when the new score is strictly higher; otherwise nothing is written.
      The stored score becomes the larger of the two, and a raise stamps the
      record with the current time. */
  lemma UpsertRaisesOnly(stored: seq<VerifiedScore>, sub: Submission, now: string)
    requires FindIndex(stored, sub.nullifierHash) >= 0
    ensures var i := FindIndex(stored, sub.nullifierHash);
            var board := Kept(stored, Upsert(stored, sub, now));
            && |board| == |stored|
            && (Upsert(stored, sub, now).None? <==> sub.score <= stored[i].score)
            && board[i].score == (if sub.score > stored[i].score then sub.score else stored[i].score)
            && board[i].nullifierHash == stored[i].nullifierHash
            && board[i].verificationLevel == stored[i].verificationLevel
            && board[i].timestamp == (if sub.score > stored[i].score then now else stored[i].timestamp)
            && forall k :: 0 <= k < |stored| && k != i ==> board[k] == stored[k]
  {
  }

  /** Upserting keeps hashes unique, and the submitted hash is then present. */
  lemma UpsertKeepsUnique(stored: seq<VerifiedScore>, sub: Submission, now: string)
    requires UniqueHashes(stored)
    ensures UniqueHashes(Kept(stored, Upsert(stored, sub, now)))
    ensures FindIndex(Kept(stored, Upsert(stored, sub, now)), sub.nullifierHash) >= 0
    ensures |stored| <= |Kept(stored, Upsert(stored, sub, now))| <= |stored| + 1
  {
    var board := Kept(stored, Upsert(stored, sub, now));
    var i := FindIndex(stored, sub.nullifierHash);
    if i < 0 {
      assert board[|stored|].nullifierHash == sub.nullifierHash;
    } else {
      assert board[i].nullifierHash == sub.nullifierHash;
    }
  }

  /** A newcomer scoring strictly above every stored record is first
      (stored 500 and 300, a new hash with 700: position 1). */
  lemma NewLeaderRanksFirst(stored: seq<VerifiedScore>, sub: Submission, now: string)
    requires FindIndex(stored, sub.nullifierHash) < 0
    requires forall y :: y in stored ==> y.score < sub.score
    ensures Rank(Kept(stored, Upsert(stored, sub, now)), sub.nullifierHash) == 1
  {
    var board := stored + [Fresh(sub, now)];
    assert Kept(stored, Upsert(stored, sub, now)) == board;
    var h := sub.nullifierHash;
    assert FindIndex(board, h) == |stored| by {
      assert board[|stored|].nullifierHash == h;
      assert forall m :: 0 <= m < |stored| ==> board[m].nullifierHash != h;
    }
    AboveNone(board, sub.score);
    TiesContains(board, |stored|);
    var ties := Ties(board, sub.score);
    assert ties[0] in board && ties[0].score == sub.score;
    assert ties[0] == Fresh(sub, now);
  }

  /** Sorting keeps every record, so a hash present before the sort is found
      after it. */
  lemma SortedFinds(s: seq<VerifiedScore>, h: string, j: nat)
    requires j < |s| && s[j].nullifierHash == h
    ensures FindIndex(SortByScore(s), h) >= 0
  {
    var t := SortByScore(s);
    assert s[j] in multiset(t);
    var m :| 0 <= m < |t| && t[m] == s[j];
    assert t[m].nullifierHash == h;
  }

  /** The POST route of the Express server. `verified` stands for the outcome
      of the external proof check. The in-memory list is changed in place as
      the handler does, written, then sorted to look up the position. */
  method Post(stored: seq<VerifiedScore>, sub: Submission, verified: bool, now: string)
    returns (reply: Reply, written: Option<seq<VerifiedScore>>)
    ensures !verified ==> reply == Refused(400, "Invalid proof") && written == None
    ensures verified ==> written == Upsert(stored, sub, now)
    ensures verified ==> reply.Recorded? && reply.status == 200
    ensures verified ==> reply.verifiedScore == sub.score && reply.nullifierHash == sub.nullifierHash
    ensures verified ==> reply.leaderboardPosition >= 1
    ensures verified && UniqueHashes(stored) ==>
              reply.leaderboardPosition == Rank(Kept(stored, written), sub.nullifierHash)
  {
    if !verified {
      return Refused(400, "Invalid proof"), None;
    }
    var h := sub.nullifierHash;
    var data := stored;
    var i := FindIndex(data, h);
    ghost var at := i;
    written := None;
    if i >= 0 {
      if sub.score > data[i].score {
        data := data[i := data[i].(score := sub.score, timestamp := now)];
        written := Some(data);
      }
    } else {
      data := data + [VerifiedScore(sub.score, h, sub.verificationLevel, now)];
      written := Some(data);
      at := |data| - 1;
    }
    assert 0 <= at < |data| && data[at].nullifierHash == h;
    SortedFinds(data, h, at);
    assert data == Kept(stored, written);
    if UniqueHashes(stored) {
      UpsertKeepsUnique(stored, sub, now);
      SortedRank(data, h);
    }
    data := SortByScore(data);
    var position := FindIndex(data, h) + 1;
    reply := Recorded(200, sub.score, h, position);
  }
}
