/** What one leaderboard response contributes to the results screen's panel list:
    the response's scores in order, minus those whose online identifier equals the
    local score's. */
module ScoreMerge {
  import opened Scoring

  /** The scores handed to `AddScore`, in order, when a response arrives and the local
      score's online identifier is `localId`. */
  function ScoresToAdd(localId: OnlineScoreId, response: seq<ScoreInfo>): (added: seq<ScoreInfo>)
    ensures |added| <= |response|
    decreases |response|
  {
    if response == [] then []
    else if response[0].onlineScoreId == localId then ScoresToAdd(localId, response[1..])
    else [response[0]] + ScoresToAdd(localId, response[1..])
  }

  /** How many scores of `response` carry the local score's online identifier. */
  function MatchCount(localId: OnlineScoreId, response: seq<ScoreInfo>): (n: nat)
    ensures n <= |response|
    decreases |response|
  {
    if response == [] then 0
    else (if response[0].onlineScoreId == localId then 1 else 0) + MatchCount(localId, response[1..])
  }

  /** A response contributes one score per entry whose identifier differs from the local one. */
  lemma {:induction false} ScoresToAddLength(localId: OnlineScoreId, response: seq<ScoreInfo>)
    ensures |ScoresToAdd(localId, response)| == |response| - MatchCount(localId, response)
    decreases |response|
  {
    if response != [] {
      ScoresToAddLength(localId, response[1..]);
    }
  }

  /** A score is added exactly when it is in the response and does not share the local identifier. */
  lemma {:induction false} ScoresToAddMembership(localId: OnlineScoreId, response: seq<ScoreInfo>, s: ScoreInfo)
    ensures s in ScoresToAdd(localId, response) <==> s in response && s.onlineScoreId != localId
    decreases |response|
  {
    if response != [] {
      ScoresToAddMembership(localId, response[1..], s);
      assert response == [response[0]] + response[1..];
    }
  }

  /** No added score shares the local score's online identifier. */
  lemma {:induction false} ScoresToAddExcludesLocal(localId: OnlineScoreId, response: seq<ScoreInfo>)
    ensures NoneShareId(localId, ScoresToAdd(localId, response))
    decreases |response|
  {
    if response != [] {
      ScoresToAddExcludesLocal(localId, response[1..]);
    }
  }

  /** The filter works entry by entry: the scores a prefix contributes come first, then
      those of the rest, so response order is kept. */
  lemma {:induction false} ScoresToAddConcat(localId: OnlineScoreId, a: seq<ScoreInfo>, b: seq<ScoreInfo>)
    ensures ScoresToAdd(localId, a + b) == ScoresToAdd(localId, a) + ScoresToAdd(localId, b)
    decreases |a|
  {
    if a != [] {
      assert (a + b)[1..] == a[1..] + b;
      ScoresToAddConcat(localId, a[1..], b);
    } else {
      assert a + b == b;
    }
  }

  /** A response is added whole exactly when none of its scores shares the local identifier. */
  lemma {:induction false} ScoresToAddKeepsAll(localId: OnlineScoreId, response: seq<ScoreInfo>)
    ensures ScoresToAdd(localId, response) == response <==> NoneShareId(localId, response)
    decreases |response|
  {
    if response != [] {
      ScoresToAddKeepsAll(localId, response[1..]);
      if ScoresToAdd(localId, response) == response {
        ScoresToAddExcludesLocal(localId, response);
      }
      if NoneShareId(localId, response) {
        assert NoneShareId(localId, response[1..]) by {
          forall i | 0 <= i < |response[1..]|
            ensures response[1..][i].onlineScoreId != localId
          {
            assert response[1..][i] == response[i + 1];
          }
        }
      }
    }
  }

  /** Applying the filter to its own output changes nothing. */
  lemma {:induction false} ScoresToAddIdempotent(localId: OnlineScoreId, response: seq<ScoreInfo>)
    ensures ScoresToAdd(localId, ScoresToAdd(localId, response)) == ScoresToAdd(localId, response)
  {
    ScoresToAddExcludesLocal(localId, response);
    ScoresToAddKeepsAll(localId, ScoresToAdd(localId, response));
  }

  /** Only the local identifier is filtered: a remote score whose identifier differs from
      the local one is added as many times as it occurs, so duplicates among the remote
      scores themselves all reach the panel list. */
  lemma {:induction false} RemoteDuplicatesKept(localId: OnlineScoreId, response: seq<ScoreInfo>, s: ScoreInfo)
    requires s.onlineScoreId != localId
    ensures multiset(ScoresToAdd(localId, response))[s] == multiset(response)[s]
    decreases |response|
  {
    if response != [] {
      RemoteDuplicatesKept(localId, response[1..], s);
      assert response == [response[0]] + response[1..];
    }
  }

  /** Two remote scores with the same non-local identifier are both added, in order. */
  lemma {:induction false} SameRemoteIdBothAdded(localId: OnlineScoreId, a: ScoreInfo, b: ScoreInfo)
    requires a.onlineScoreId == b.onlineScoreId && a.onlineScoreId != localId
    ensures ScoresToAdd(localId, [a, b]) == [a, b]
  {
    ScoresToAddKeepsAll(localId, [a, b]);
  }

  /** A local score without an online identifier still filters: every remote score
      without one is dropped, because `null == null` holds for `long?`. */
  lemma {:induction false} AbsentLocalIdDropsAbsentRemoteIds(response: seq<ScoreInfo>, s: ScoreInfo)
    requires s in ScoresToAdd(None, response)
    ensures s.onlineScoreId.Some? && s in response
  {
    ScoresToAddMembership(None, response, s);
  }
}
