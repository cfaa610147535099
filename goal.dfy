/** The Goal component: a trigger volume that scores for every ball
    overlap it is told about and optionally sends the ball back to spawn. */
module Goals {
  import opened Engine
  import opened Balls
  import opened Scoring

  /** `n` copies of `v`: the amounts added by n overlap events. */
  function Repeat(v: int32, n: nat): (s: seq<int32>)
    ensures |s| == n && forall i :: 0 <= i < n ==> s[i] == v
  {
    seq(n, _ => v)
  }

  /** No debouncing: n overlaps add n times the goal's value (wrapped to
      32 bits; exactly n * v when that does not overflow). */
  lemma {:induction false} RepeatedOverlaps(start: int32, v: int32, n: nat)
    ensures Accumulate(start, Repeat(v, n)) == Wrap32(start + n * v)
    ensures Int32Min <= start + n * v <= Int32Max ==> Accumulate(start, Repeat(v, n)) == start + n * v
  {
    SumRepeat(v, n);
    AccumulateIsWrappedSum(start, Repeat(v, n));
  }

  lemma {:induction false} SumRepeat(v: int32, n: nat)
    ensures Sum(Repeat(v, n)) == n * v
  {
    if n > 0 {
      assert Repeat(v, n)[..n - 1] == Repeat(v, n - 1);
      SumRepeat(v, n - 1);
    }
  }

  class Goal {
    const scoreValue: int32
    const resetBallOnScore: bool

    constructor (scoreValue: int32, resetBallOnScore: bool)
      ensures this.scoreValue == scoreValue && this.resetBallOnScore == resetBallOnScore
    {
      this.scoreValue := scoreValue;
      this.resetBallOnScore := resetBallOnScore;
    }

    /** An overlap began with a collider whose parent chain carries
        `inParents` and which itself carries `onCollider` (either may be
        null). The ball found adds `scoreValue` through the singleton, if
        there is one, and is then reset when `resetBallOnScore` is set. */
    method OnTriggerEnter(inParents: Ball?, onCollider: Ball?, statics: ScoreManagerStatics)
      requires statics.Instance != null ==> statics.Instance.Valid()
      modifies statics.Instance, inParents, onCollider
      ensures var ball := if inParents != null then inParents else onCollider;
        && (ball == null && old(statics.Instance) != null ==> unchanged(old(statics.Instance)))
        && (ball != null && old(statics.Instance) != null ==> old(statics.Instance).Added(scoreValue))
        && (ball != null && resetBallOnScore ==>
              ball.State() == Reset(old(ball.State()), ball.hasRigidbody))
        && (ball != null && !resetBallOnScore ==> unchanged(ball))
        && (ball != null && onCollider != null && ball != onCollider ==> unchanged(onCollider))
    {
      var ball := if inParents != null then inParents else onCollider;
      if ball == null {
        return;
      }
      var manager := statics.Instance;
      if manager != null {
        manager.AddScore(scoreValue);
      }
      if resetBallOnScore {
        ball.ResetBall();
      }
    }
  }

  /** Three overlap events of a ball resting in a goal worth 1 add 3. */
  method ThreeOverlapsScoreThree(goal: Goal, ball: Ball, statics: ScoreManagerStatics)
    requires goal.scoreValue == 1
    requires statics.Instance != null && statics.Instance.Valid()
    requires statics.Instance.score <= Int32Max - 3
    modifies statics.Instance, ball
    ensures statics.Instance == old(statics.Instance)
    ensures statics.Instance.score == old(statics.Instance.score) + 3
  {
    goal.OnTriggerEnter(ball, null, statics);
    goal.OnTriggerEnter(ball, null, statics);
    goal.OnTriggerEnter(ball, null, statics);
  }
}
