/** The Next.js API route `handler` (frontend/pages/api/verify-score.ts):
    the same leaderboard as the Express server, behind a dispatch on the HTTP
    method. GET answers the ten best records, POST runs the same upsert as
    `ScoreBoard.Post`, and anything else is refused with 405. */
module NextRoute {
  import opened Common
  import opened ScoreBoard

  /** One request: `httpMethod` is `req.method`; `stored` is what `readScores`
      returned; `verified` the outcome of the proof check. `written` is what
      `writeScores` would store, `None` when nothing is written. */
  method Handler(httpMethod: string, stored: seq<VerifiedScore>, sub: Submission, verified: bool, now: string)
    returns (reply: Reply, written: Option<seq<VerifiedScore>>)
    ensures httpMethod == "GET" ==>
              reply.Board? && reply.status == 200 && reply.top == TopTen(stored) && written == None
    ensures httpMethod != "GET" && httpMethod != "POST" ==>
              reply == Refused(405, "Method not allowed") && written == None
    ensures httpMethod == "POST" && !verified ==>
              reply == Refused(400, "Invalid proof") && written == None
    ensures httpMethod == "POST" && verified ==>
              written == Upsert(stored, sub, now) &&
              reply.Recorded? && reply.status == 200 &&
              reply.verifiedScore == sub.score && reply.nullifierHash == sub.nullifierHash &&
              reply.leaderboardPosition >= 1
    ensures httpMethod == "POST" && verified && UniqueHashes(stored) ==>
              reply.leaderboardPosition == Rank(Kept(stored, written), sub.nullifierHash)
  {
    if httpMethod == "GET" {
      return Board(200, TopTen(stored)), None;
    }
    if httpMethod != "POST" {
      return Refused(405, "Method not allowed"), None;
    }
    reply, written := Post(stored, sub, verified, now);
  }

  /** Two successive POSTs for the same hash: the second leaves the file alone
      unless it brings a strictly higher score, and a repeated submission of
      the same score is a no-op. */
  lemma ResubmissionIsIdempotent(stored: seq<VerifiedScore>, sub: Submission, now: string, later: string)
    ensures var first := Kept(stored, Upsert(stored, sub, now));
            Upsert(first, sub, later) == None
  {
    var h := sub.nullifierHash;
    var first := Kept(stored, Upsert(stored, sub, now));
    var i := FindIndex(stored, h);
    if i < 0 {
      UpsertAppendsNew(stored, sub, now);
      assert first[|stored|].nullifierHash == h;
      assert forall m :: 0 <= m < |stored| ==> first[m].nullifierHash != h;
      assert FindIndex(first, h) == |stored|;
    } else {
      UpsertRaisesOnly(stored, sub, now);
      assert first[i].nullifierHash == h;
      assert forall m :: 0 <= m < i ==> first[m].nullifierHash != h;
      assert FindIndex(first, h) == i;
    }
  }
}
