/** The results screen shown after a play: the local score's panel, the leaderboard
    fetched for the same beatmap and ruleset, and the retry button and hotkey. */
module Ranking {
  import opened Scoring
  import opened ScoreMerge

  /** The leaderboard query, keyed by beatmap and ruleset. */
  datatype ScoresRequest = GetScoresRequest(beatmap: int, ruleset: int)

  /** The play session the screen was reached from. Only the number of times
      `Restart` was invoked is recorded; what a restart does is not modelled. */
  class Player {
    var restartCount: nat

    constructor ()
      ensures restartCount == 0
    {
      restartCount := 0;
    }

    method Restart()
      modifies this
      ensures restartCount == old(restartCount) + 1
    {
      restartCount := restartCount + 1;
    }
  }

  /** Whether `load` installs the retry button and hotkey. */
  predicate RetryEnabled(hasPlayer: bool, allowRetry: bool)
  {
    hasPlayer && allowRetry
  }

  class ResultsScreen {
    const score: ScoreInfo
    const allowRetry: bool

    /** The resolved `Player` dependency, possibly null. */
    var player: Player?
    /** Whether `load` has run (it builds the panel list and the buttons). */
    var loaded: bool
    /** Every score handed to the panel list: the local score it was built with, then
        each score passed to `AddScore`, in call order. */
    var panels: seq<ScoreInfo>
    var retryButtonAdded: bool
    var hotkeyOverlayAdded: bool
    /** Requests handed to the API queue by this screen. */
    var queuedRequests: seq<ScoresRequest>
    /** Whether `LoadComplete` has queued the leaderboard request. */
    var requestQueued: bool

    ghost predicate Valid()
      reads this
    {
      (loaded ==> |panels| >= 1 && panels[0] == score && NoneShareId(score.onlineScoreId, panels[1..])) &&
      (!loaded ==> panels == [] && !retryButtonAdded) &&
      hotkeyOverlayAdded == retryButtonAdded &&
      (retryButtonAdded ==> player != null && allowRetry) &&
      (requestQueued ==> loaded) &&
      queuedRequests == (if requestQueued then [GetScoresRequest(score.beatmap, score.ruleset)] else [])
    }

    constructor (score: ScoreInfo, allowRetry: bool := true)
      ensures Valid()
      ensures this.score == score && this.allowRetry == allowRetry
      ensures player == null && !loaded && panels == [] && queuedRequests == []
      ensures !retryButtonAdded && !hotkeyOverlayAdded && !requestQueued
    {
      this.score := score;
      this.allowRetry := allowRetry;
      player := null;
      loaded := false;
      panels := [];
      retryButtonAdded := false;
      hotkeyOverlayAdded := false;
      queuedRequests := [];
      requestQueued := false;
    }

    /** `load`: builds the panel list seeded with the local score, and adds the retry
        button and hotkey only when a player was resolved and retrying is allowed. */
    method Load(resolvedPlayer: Player?)
      requires Valid() && !loaded
      modifies this
      ensures Valid() && loaded
      ensures player == resolvedPlayer
      ensures panels == [score]
      ensures retryButtonAdded == RetryEnabled(resolvedPlayer != null, allowRetry)
      ensures hotkeyOverlayAdded == retryButtonAdded
      ensures queuedRequests == old(queuedRequests) && !requestQueued
    {
      player := resolvedPlayer;
      panels := [score];
      loaded := true;
      if player != null && allowRetry {
        retryButtonAdded := true;
        hotkeyOverlayAdded := true;
      }
    }

    /** `LoadComplete`: builds one leaderboard request for the local score's beatmap and
        ruleset and queues it. The framework runs it once, after `load`. */
    method LoadComplete()
      requires Valid() && loaded && !requestQueued
      modifies this`queuedRequests, this`requestQueued
      ensures Valid() && requestQueued
      ensures queuedRequests == old(queuedRequests) + [GetScoresRequest(score.beatmap, score.ruleset)]
      ensures queuedRequests == [GetScoresRequest(score.beatmap, score.ruleset)]
    {
      var req := GetScoresRequest(score.beatmap, score.ruleset);
      queuedRequests := queuedRequests + [req];
      requestQueued := true;
    }

    /** `ScorePanelList.AddScore`, seen from the screen: one more score handed over. */
    method AddScore(s: ScoreInfo)
      requires loaded
      modifies this`panels
      ensures panels == old(panels) + [s]
    {
      panels := panels + [s];
    }

    /** The request's success callback: every response score whose online identifier
        differs from the local score's is passed to `AddScore`, in response order.
        It can only run once the request has been queued. */
    method ApplyScores(response: seq<ScoreInfo>)
      requires Valid() && requestQueued
      modifies this`panels
      ensures Valid()
      ensures panels == old(panels) + ScoresToAdd(score.onlineScoreId, response)
    {
      var i := 0;
      while i < |response|
        invariant 0 <= i <= |response|
        invariant panels == old(panels) + ScoresToAdd(score.onlineScoreId, response[..i])
      {
        var s := response[i];
        assert response[..i + 1] == response[..i] + [s];
        ScoresToAddConcat(score.onlineScoreId, response[..i], [s]);
        if s.onlineScoreId == score.onlineScoreId {
          i := i + 1;
          continue;
        }
        AddScore(s);
        i := i + 1;
      }
      assert response[..i] == response;
      ghost var added := ScoresToAdd(score.onlineScoreId, response);
      ScoresToAddExcludesLocal(score.onlineScoreId, response);
      assert panels[1..] == old(panels)[1..] + added;
    }

    /** The retry hotkey's action. Without the overlay the key does nothing; with it,
        `Restart` is invoked only while this screen is the current one. */
    method PressRetryHotkey(isCurrentScreen: bool) returns (restarted: bool)
      requires Valid()
      modifies player
      ensures restarted <==> hotkeyOverlayAdded && isCurrentScreen
      ensures restarted ==> player != null && player.restartCount == old(player.restartCount) + 1
      ensures !restarted && player != null ==> player.restartCount == old(player.restartCount)
    {
      restarted := false;
      if !hotkeyOverlayAdded {
        return;
      }
      if !isCurrentScreen {
        return;
      }
      if player != null {
        player.Restart();
        restarted := true;
      }
    }
  }

  /** A screen built without naming `allowRetry` allows retrying. */
  method DefaultAllowsRetry(score: ScoreInfo) returns (allowed: bool)
    ensures allowed
  {
    var screen := new ResultsScreen(score);
    allowed := screen.allowRetry;
  }

  /** With a player and retrying allowed, the hotkey restarts exactly when the screen is
      current; without either, never. */
  method RetryFromResults(score: ScoreInfo, allowRetry: bool, resolvedPlayer: Player?, isCurrentScreen: bool)
    returns (restarted: bool)
    modifies resolvedPlayer
    ensures restarted <==> RetryEnabled(resolvedPlayer != null, allowRetry) && isCurrentScreen
    ensures resolvedPlayer != null ==>
      resolvedPlayer.restartCount == old(resolvedPlayer.restartCount) + (if restarted then 1 else 0)
  {
    var screen := new ResultsScreen(score, allowRetry);
    screen.Load(resolvedPlayer);
    restarted := screen.PressRetryHotkey(isCurrentScreen);
  }

  /** The whole flow for a local score with identifier 42 on beatmap 1, ruleset 0: one
      request keyed by them is queued, and a response [7, 42, 9] leaves the panel list
      as the local score followed by 7 and 9. */
  method LeaderboardScenario() returns (requests: seq<ScoresRequest>, shown: seq<ScoreInfo>)
    ensures requests == [GetScoresRequest(1, 0)]
    ensures shown == [ScoreInfo(Some(42), 1, 0, 1000), ScoreInfo(Some(7), 1, 0, 900), ScoreInfo(Some(9), 1, 0, 800)]
  {
    var local := ScoreInfo(Some(42), 1, 0, 1000);
    var r7 := ScoreInfo(Some(7), 1, 0, 900);
    var r42 := ScoreInfo(Some(42), 1, 0, 1000);
    var r9 := ScoreInfo(Some(9), 1, 0, 800);
    var screen := new ResultsScreen(local);
    screen.Load(null);
    screen.LoadComplete();
    var response := [r7, r42, r9];
    assert response[1..] == [r42, r9] && response[1..][1..] == [r9] && [r9][1..] == [];
    assert ScoresToAdd(local.onlineScoreId, [r9]) == [r9];
    assert ScoresToAdd(local.onlineScoreId, [r42, r9]) == [r9];
    assert ScoresToAdd(local.onlineScoreId, response) == [r7, r9];
    screen.ApplyScores(response);
    requests := screen.queuedRequests;
    shown := screen.panels;
  }
}
