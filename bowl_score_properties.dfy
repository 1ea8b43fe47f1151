/**
 * What count_score promises about a whole game: how each kind of frame is
 * scored, which frame a failure names, that balls after the game are never
 * read, and how far the total is bounded.
 */
module BowlScoreProperties {
  import opened BowlScore

  // ---------------------------------------------------------------------
  // How each kind of frame is scored
  // ---------------------------------------------------------------------

  /**
   * A strike in frames 1-9 takes one ball and scores 10 plus the next two
   * balls, which stay in place as the next frame's own balls.
   */
  lemma StrikeRule(balls: seq<int>, pos: nat, frame: int)
    requires 1 <= frame < LastFrame
    requires pos < |balls| && balls[pos] == Pins
    ensures ScoreFrames(balls, pos, frame) ==
              Plus(Pins + LookAhead(balls, pos + 1, 2), ScoreFrames(balls, pos + 1, frame + 1))
  {
  }

  /**
   * A legal spare in frames 1-9 takes two balls and scores 10 plus the next
   * ball, which stays in place as the next frame's first ball.
   */
  lemma SpareRule(balls: seq<int>, pos: nat, frame: int)
    requires 1 <= frame < LastFrame
    requires pos + 1 < |balls| && balls[pos] != Pins
    requires InRange(balls[pos]) && InRange(balls[pos + 1]) && balls[pos] + balls[pos + 1] == Pins
    ensures ScoreFrames(balls, pos, frame) ==
              Plus(Pins + LookAhead(balls, pos + 2, 1), ScoreFrames(balls, pos + 2, frame + 1))
  {
  }

  /** A legal open frame in frames 1-9 takes two balls and scores only their pins. */
  lemma OpenRule(balls: seq<int>, pos: nat, frame: int)
    requires 1 <= frame < LastFrame
    requires pos + 1 < |balls| && balls[pos] != Pins
    requires InRange(balls[pos]) && InRange(balls[pos + 1]) && balls[pos] + balls[pos + 1] < Pins
    ensures ScoreFrames(balls, pos, frame) ==
              Plus(balls[pos] + balls[pos + 1], ScoreFrames(balls, pos + 2, frame + 1))
  {
  }

  /**
   * In frames 1-9 a pair with a ball outside [0, 10] or more than 10 pins
   * in all fails, naming the frame and the pair as read.
   */
  lemma IllegalPairRule(balls: seq<int>, pos: nat, frame: int)
    requires 1 <= frame < LastFrame
    requires pos + 1 < |balls| && balls[pos] != Pins
    requires !InRange(balls[pos]) || !InRange(balls[pos + 1]) || balls[pos] + balls[pos + 1] > Pins
    ensures ScoreFrames(balls, pos, frame) == Err(InvalidFrame(frame, balls[pos], balls[pos + 1]))
  {
  }

  /**
   * A strike in frame 10 scores 10 plus the two balls after it, whatever
   * their values: the bonus balls are never range-checked.
   */
  lemma LastFrameStrike(balls: seq<int>, pos: nat)
    requires pos + 2 < |balls| && balls[pos] == Pins
    ensures ScoreFrames(balls, pos, LastFrame) == Ok(Pins + balls[pos + 1] + balls[pos + 2])
  {
  }

  /** A spare in frame 10 scores 10 plus the one ball after it, whatever its value. */
  lemma LastFrameSpare(balls: seq<int>, pos: nat)
    requires pos + 2 < |balls| && balls[pos] != Pins
    requires InRange(balls[pos]) && InRange(balls[pos + 1]) && balls[pos] + balls[pos + 1] == Pins
    ensures ScoreFrames(balls, pos, LastFrame) == Ok(Pins + balls[pos + 2])
  {
  }

  /**
   * Frame 10 checks only the range of each ball, never their sum: any two
   * balls in [0, 10] that are not a strike or spare score their sum, even
   * above 10.
   */
  lemma LastFrameOpen(balls: seq<int>, pos: nat)
    requires pos + 1 < |balls| && balls[pos] != Pins
    requires InRange(balls[pos]) && InRange(balls[pos + 1]) && balls[pos] + balls[pos + 1] != Pins
    ensures ScoreFrames(balls, pos, LastFrame) == Ok(balls[pos] + balls[pos + 1])
  {
  }

  /** A strike or spare in frame 10 without all its bonus balls fails. */
  lemma LastFrameShort(balls: seq<int>, pos: nat)
    requires pos < |balls| <= pos + 2
    requires balls[pos] == Pins ||
             (|balls| == pos + 2 && InRange(balls[pos]) && InRange(balls[pos + 1]) &&
              balls[pos] + balls[pos + 1] == Pins)
    ensures ScoreFrames(balls, pos, LastFrame) == Err(NotEnoughBalls)
  {
  }

  // ---------------------------------------------------------------------
  // Which frame a failure names
  // ---------------------------------------------------------------------

  /**
   * Frames `frame` to `k - 1`, read from `pos`, are complete and legal and
   * leave the cursor at `end`. Frames before the last one cannot fail for
   * missing bonus balls, so nothing else is needed for them to succeed.
   */
  ghost predicate Fills(balls: seq<int>, pos: nat, frame: int, k: int, end: nat)
    requires 1 <= frame <= k <= LastFrame
    decreases k - frame
  {
    if frame == k then pos == end
    else match ReadFrame(balls, pos, frame)
      case Err(_) => false
      case Ok(roll) => LegalPair(frame, roll.first, roll.second) && Fills(balls, roll.next, frame + 1, k, end)
  }

  /** From `end` the balls run out before a frame is complete. */
  predicate RunsOut(balls: seq<int>, end: nat)
  {
    |balls| <= end || (end + 1 == |balls| && balls[end] != Pins)
  }

  /** A failure of frame `k` after legal frames before it is the failure of the game. */
  lemma {:induction false} FailureAfterFilledFrames(balls: seq<int>, pos: nat, frame: int, k: int, end: nat, e: Error)
    requires 1 <= frame <= k <= LastFrame
    requires Fills(balls, pos, frame, k, end)
    requires PlayFrame(balls, end, k) == Err(e)
    ensures ScoreFrames(balls, pos, frame) == Err(e)
    decreases k - frame
  {
    if frame < k {
      var roll := ReadFrame(balls, pos, frame).value;
      FailureAfterFilledFrames(balls, roll.next, frame + 1, k, end, e);
    }
  }

  /**
   * Every failure is raised by the frame it names, after all the frames
   * before it were read complete and legal.
   */
  lemma {:induction false} FailureLocated(balls: seq<int>, pos: nat, frame: int, e: Error)
    requires 1 <= frame <= LastFrame
    requires ScoreFrames(balls, pos, frame) == Err(e)
    ensures frame <= FrameOf(e) <= LastFrame
    ensures exists end: nat :: Fills(balls, pos, frame, FrameOf(e), end) && PlayFrame(balls, end, FrameOf(e)) == Err(e)
    decreases LastFrame - frame
  {
    match PlayFrame(balls, pos, frame)
    case Err(_) =>
      assert Fills(balls, pos, frame, frame, pos);
    case Ok(Played(_, next)) =>
      FailureLocated(balls, next, frame + 1, e);
      var end: nat :| Fills(balls, next, frame + 1, FrameOf(e), end) && PlayFrame(balls, end, FrameOf(e)) == Err(e);
      assert Fills(balls, pos, frame, FrameOf(e), end);
  }

  /**
   * The game fails with "no data for frame k" exactly when frames 1 to
   * k - 1 are complete and legal and the balls run out inside frame k,
   * before its first or its second ball; the pair is then never checked.
   */
  lemma RunOutNamesFrame(balls: seq<int>, k: int)
    requires 1 <= k <= LastFrame
    ensures Score(balls) == Err(NoData(k)) <==>
              exists end: nat :: Fills(balls, 0, 1, k, end) && RunsOut(balls, end)
  {
    if Score(balls) == Err(NoData(k)) {
      FailureLocated(balls, 0, 1, NoData(k));
    }
    if exists end: nat :: Fills(balls, 0, 1, k, end) && RunsOut(balls, end) {
      var end: nat :| Fills(balls, 0, 1, k, end) && RunsOut(balls, end);
      FailureAfterFilledFrames(balls, 0, 1, k, end, NoData(k));
    }
  }

  /**
   * The game fails with an invalid frame k and pair (a, b) exactly when
   * frames 1 to k - 1 are complete and legal and frame k reads the illegal
   * pair (a, b).
   */
  lemma InvalidFrameNamesPair(balls: seq<int>, k: int, a: int, b: int)
    requires 1 <= k <= LastFrame
    ensures Score(balls) == Err(InvalidFrame(k, a, b)) <==>
              !LegalPair(k, a, b) &&
              exists end: nat :: Fills(balls, 0, 1, k, end) && ReadFrame(balls, end, k).Ok? &&
                                 ReadFrame(balls, end, k).value.first == a &&
                                 ReadFrame(balls, end, k).value.second == b
  {
    if Score(balls) == Err(InvalidFrame(k, a, b)) {
      FailureLocated(balls, 0, 1, InvalidFrame(k, a, b));
    }
    if !LegalPair(k, a, b) &&
       exists end: nat :: Fills(balls, 0, 1, k, end) && ReadFrame(balls, end, k).Ok? &&
                          ReadFrame(balls, end, k).value.first == a &&
                          ReadFrame(balls, end, k).value.second == b {
      var end: nat :| Fills(balls, 0, 1, k, end) && ReadFrame(balls, end, k).Ok? &&
                      ReadFrame(balls, end, k).value.first == a &&
                      ReadFrame(balls, end, k).value.second == b;
      FailureAfterFilledFrames(balls, 0, 1, k, end, InvalidFrame(k, a, b));
    }
  }

  /** After a strike or spare in frame 10, fewer bonus balls than it needs remain. */
  ghost predicate BonusShort(balls: seq<int>, end: nat)
  {
    match ReadFrame(balls, end, LastFrame)
    case Err(_) => false
    case Ok(roll) =>
      InRange(roll.first) && InRange(roll.second) && roll.first + roll.second == Pins &&
      |balls| - roll.next < (if roll.first == Pins then 2 else 1)
  }

  /**
   * "Not enough balls" is raised only by frame 10, and exactly when frames
   * 1 to 9 are complete and legal and frame 10 is a strike or spare short of
   * its bonus balls.
   */
  lemma NotEnoughBallsOnlyAtEnd(balls: seq<int>)
    ensures Score(balls) == Err(NotEnoughBalls) <==>
              exists end: nat :: Fills(balls, 0, 1, LastFrame, end) && BonusShort(balls, end)
  {
    if Score(balls) == Err(NotEnoughBalls) {
      FailureLocated(balls, 0, 1, NotEnoughBalls);
    }
    if exists end: nat :: Fills(balls, 0, 1, LastFrame, end) && BonusShort(balls, end) {
      var end: nat :| Fills(balls, 0, 1, LastFrame, end) && BonusShort(balls, end);
      FailureAfterFilledFrames(balls, 0, 1, LastFrame, end, NotEnoughBalls);
    }
  }

  // ---------------------------------------------------------------------
  // Exactly ten frames are scored
  // ---------------------------------------------------------------------

  /**
   * A game that scores reads at least one ball for each of frames
   * `frame` to 9 and at least two for frame 10.
   */
  lemma {:induction false} ScoredGameLength(balls: seq<int>, pos: nat, frame: int)
    requires 1 <= frame <= LastFrame
    requires ScoreFrames(balls, pos, frame).Ok?
    ensures |balls| >= pos + (LastFrame - frame) + 2
    decreases LastFrame - frame
  {
    var next := PlayFrame(balls, pos, frame).value.next;
    if frame < LastFrame {
      ScoredGameLength(balls, next, frame + 1);
    }
  }

  /**
   * Balls after a scored game are never read: appending any balls leaves
   * the score unchanged.
   */
  lemma {:induction false} LeftoverBallsIgnored(balls: seq<int>, extra: seq<int>, pos: nat, frame: int)
    requires 1 <= frame <= LastFrame + 1
    requires ScoreFrames(balls, pos, frame).Ok?
    ensures ScoreFrames(balls + extra, pos, frame) == ScoreFrames(balls, pos, frame)
    decreases LastFrame + 1 - frame
  {
    if frame <= LastFrame {
      var longer := balls + extra;
      var roll := ReadFrame(balls, pos, frame).value;
      assert ReadFrame(longer, pos, frame) == ReadFrame(balls, pos, frame);
      if frame < LastFrame {
        ScoredGameLength(balls, roll.next, frame + 1);
      }
      assert PlayFrame(longer, pos, frame) == PlayFrame(balls, pos, frame);
      LeftoverBallsIgnored(balls, extra, roll.next, frame + 1);
    }
  }

  /** Score of a whole game: the balls after it are never read. */
  lemma GameIgnoresLeftovers(balls: seq<int>, extra: seq<int>)
    requires Score(balls).Ok?
    ensures Score(balls + extra) == Score(balls)
  {
    LeftoverBallsIgnored(balls, extra, 0, 1);
  }

  // ---------------------------------------------------------------------
  // Bounds on the total
  // ---------------------------------------------------------------------

  /**
   * When every ball, bonus balls included, lies in [0, 10], a frame scores
   * between 0 and 30.
   */
  lemma FramePointsBounded(balls: seq<int>, pos: nat, frame: int)
    requires forall i :: 0 <= i < |balls| ==> InRange(balls[i])
    requires PlayFrame(balls, pos, frame).Ok?
    ensures 0 <= PlayFrame(balls, pos, frame).value.points <= 3 * Pins
  {
  }

  /** ... so frames `frame` to 10 score between 0 and 30 each. */
  lemma {:induction false} FramesBounded(balls: seq<int>, pos: nat, frame: int, total: int)
    requires 1 <= frame <= LastFrame + 1
    requires forall i :: 0 <= i < |balls| ==> InRange(balls[i])
    requires ScoreFrames(balls, pos, frame) == Ok(total)
    ensures 0 <= total <= 3 * Pins * (LastFrame + 1 - frame)
    decreases LastFrame + 1 - frame
  {
    if frame <= LastFrame {
      var played := PlayFrame(balls, pos, frame).value;
      FramePointsBounded(balls, pos, frame);
      FramesBounded(balls, played.next, frame + 1, total - played.points);
    }
  }

  /** When every ball lies in [0, 10], a scored game totals 0 to 300. */
  lemma PerfectGameIsMaximum(balls: seq<int>, total: int)
    requires forall i :: 0 <= i < |balls| ==> InRange(balls[i])
    requires Score(balls) == Ok(total)
    ensures 0 <= total <= 300
  {
    FramesBounded(balls, 0, 1, total);
  }
}
