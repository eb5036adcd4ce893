/** The score record the results screen works with. */
module Scoring {

  /** A C# nullable value: `None` is `null`. */
  datatype Option<T> = None | Some(value: T)

  /** A C# `long`. */
  newtype int64 = x: int | -0x8000_0000_0000_0000 <= x < 0x8000_0000_0000_0000

  /** `ScoreInfo.OnlineScoreID`, a `long?`: absent for a score never submitted online.
      C#'s lifted `==` on `long?` is true for two nulls, false for a null and a value,
      and compares the values otherwise, which is exactly `==` on this datatype. */
  type OnlineScoreId = Option<int64>

  /** The parts of a `ScoreInfo` the screen looks at. `beatmap` and `ruleset` stand for
      the `BeatmapInfo` and `RulesetInfo` the score was set on, by identifier;
      `totalScore` stands for the display payload, which is only carried along. */
  datatype ScoreInfo = ScoreInfo(onlineScoreId: OnlineScoreId, beatmap: int, ruleset: int, totalScore: int)

  /** No score of `s` carries the online identifier `id`. */
  predicate NoneShareId(id: OnlineScoreId, s: seq<ScoreInfo>)
  {
    forall i :: 0 <= i < |s| ==> s[i].onlineScoreId != id
  }
}
