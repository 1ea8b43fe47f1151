/**
 * Whole games worked through by the scorer, among them the examples that
 * come with count_score. Each game is given ball by ball, one frame to a
 * line, and each proof walks it backwards one frame at a time by the rule
 * for that kind of frame.
 */
module BowlScoreExamples {
  import opened BowlScore
  import opened BowlScoreProperties

  /** Twelve strikes: the perfect game. Balls: [10, 10, 10, 10, 10, 10, 10, 10, 10, 10, 10, 10]. */
  lemma PerfectGame(balls: seq<int>)
    requires |balls| == 12
    requires balls[0] == 10
    requires balls[1] == 10
    requires balls[2] == 10
    requires balls[3] == 10
    requires balls[4] == 10
    requires balls[5] == 10
    requires balls[6] == 10
    requires balls[7] == 10
    requires balls[8] == 10
    requires balls[9] == 10
    requires balls[10] == 10 && balls[11] == 10
    ensures Score(balls) == Ok(300)
  {
    assert ScoreFrames(balls, 9, 10) == Ok(30) by { LastFrameStrike(balls, 9); }
    assert ScoreFrames(balls, 8, 9) == Ok(60) by { StrikeRule(balls, 8, 9); }
    assert ScoreFrames(balls, 7, 8) == Ok(90) by { StrikeRule(balls, 7, 8); }
    assert ScoreFrames(balls, 6, 7) == Ok(120) by { StrikeRule(balls, 6, 7); }
    assert ScoreFrames(balls, 5, 6) == Ok(150) by { StrikeRule(balls, 5, 6); }
    assert ScoreFrames(balls, 4, 5) == Ok(180) by { StrikeRule(balls, 4, 5); }
    assert ScoreFrames(balls, 3, 4) == Ok(210) by { StrikeRule(balls, 3, 4); }
    assert ScoreFrames(balls, 2, 3) == Ok(240) by { StrikeRule(balls, 2, 3); }
    assert ScoreFrames(balls, 1, 2) == Ok(270) by { StrikeRule(balls, 1, 2); }
    assert ScoreFrames(balls, 0, 1) == Ok(300) by { StrikeRule(balls, 0, 1); }
  }

  /** Open frames only. Balls: [9, 0, 3, 5, 6, 1, 3, 6, 8, 1, 5, 3, 2, 5, 8, 0, 7, 1, 8, 1]. */
  lemma OpenFramesGame(balls: seq<int>)
    requires |balls| == 20
    requires balls[0] == 9 && balls[1] == 0
    requires balls[2] == 3 && balls[3] == 5
    requires balls[4] == 6 && balls[5] == 1
    requires balls[6] == 3 && balls[7] == 6
    requires balls[8] == 8 && balls[9] == 1
    requires balls[10] == 5 && balls[11] == 3
    requires balls[12] == 2 && balls[13] == 5
    requires balls[14] == 8 && balls[15] == 0
    requires balls[16] == 7 && balls[17] == 1
    requires balls[18] == 8 && balls[19] == 1
    ensures Score(balls) == Ok(82)
  {
    assert ScoreFrames(balls, 18, 10) == Ok(9) by { LastFrameOpen(balls, 18); }
    assert ScoreFrames(balls, 16, 9) == Ok(17) by { OpenRule(balls, 16, 9); }
    assert ScoreFrames(balls, 14, 8) == Ok(25) by { OpenRule(balls, 14, 8); }
    assert ScoreFrames(balls, 12, 7) == Ok(32) by { OpenRule(balls, 12, 7); }
    assert ScoreFrames(balls, 10, 6) == Ok(40) by { OpenRule(balls, 10, 6); }
    assert ScoreFrames(balls, 8, 5) == Ok(49) by { OpenRule(balls, 8, 5); }
    assert ScoreFrames(balls, 6, 4) == Ok(58) by { OpenRule(balls, 6, 4); }
    assert ScoreFrames(balls, 4, 3) == Ok(65) by { OpenRule(balls, 4, 3); }
    assert ScoreFrames(balls, 2, 2) == Ok(73) by { OpenRule(balls, 2, 2); }
    assert ScoreFrames(balls, 0, 1) == Ok(82) by { OpenRule(balls, 0, 1); }
  }

  /**
   * Spares and open frames. Frame 10 is the open pair (8, 10), worth 18
   * because frame 10 is exempt from the sum check; the last ball is never
   * read. Balls: [9, 0, 3, 7, 6, 1, 3, 7, 8, 1, 5, 5, 0, 10, 8, 0, 7, 3, 8, 10, 8].
   */
  lemma SparesGame(balls: seq<int>)
    requires |balls| == 21
    requires balls[0] == 9 && balls[1] == 0
    requires balls[2] == 3 && balls[3] == 7
    requires balls[4] == 6 && balls[5] == 1
    requires balls[6] == 3 && balls[7] == 7
    requires balls[8] == 8 && balls[9] == 1
    requires balls[10] == 5 && balls[11] == 5
    requires balls[12] == 0 && balls[13] == 10
    requires balls[14] == 8 && balls[15] == 0
    requires balls[16] == 7 && balls[17] == 3
    requires balls[18] == 8 && balls[19] == 10
    requires balls[20] == 8
    ensures Score(balls) == Ok(131)
  {
    assert ScoreFrames(balls, 18, 10) == Ok(18) by { LastFrameOpen(balls, 18); }
    assert ScoreFrames(balls, 16, 9) == Ok(36) by { SpareRule(balls, 16, 9); }
    assert ScoreFrames(balls, 14, 8) == Ok(44) by { OpenRule(balls, 14, 8); }
    assert ScoreFrames(balls, 12, 7) == Ok(62) by { SpareRule(balls, 12, 7); }
    assert ScoreFrames(balls, 10, 6) == Ok(72) by { SpareRule(balls, 10, 6); }
    assert ScoreFrames(balls, 8, 5) == Ok(81) by { OpenRule(balls, 8, 5); }
    assert ScoreFrames(balls, 6, 4) == Ok(99) by { SpareRule(balls, 6, 4); }
    assert ScoreFrames(balls, 4, 3) == Ok(106) by { OpenRule(balls, 4, 3); }
    assert ScoreFrames(balls, 2, 2) == Ok(122) by { SpareRule(balls, 2, 2); }
    assert ScoreFrames(balls, 0, 1) == Ok(131) by { OpenRule(balls, 0, 1); }
  }

  /** Strikes and spares mixed, three strikes in frame 10. Balls: [10, 3, 7, 6, 1, 10, 10, 10, 2, 8, 9, 0, 7, 3, 10, 10, 10]. */
  lemma MixedGame(balls: seq<int>)
    requires |balls| == 17
    requires balls[0] == 10
    requires balls[1] == 3 && balls[2] == 7
    requires balls[3] == 6 && balls[4] == 1
    requires balls[5] == 10
    requires balls[6] == 10
    requires balls[7] == 10
    requires balls[8] == 2 && balls[9] == 8
    requires balls[10] == 9 && balls[11] == 0
    requires balls[12] == 7 && balls[13] == 3
    requires balls[14] == 10
    requires balls[15] == 10 && balls[16] == 10
    ensures Score(balls) == Ok(193)
  {
    assert ScoreFrames(balls, 14, 10) == Ok(30) by { LastFrameStrike(balls, 14); }
    assert ScoreFrames(balls, 12, 9) == Ok(50) by { SpareRule(balls, 12, 9); }
    assert ScoreFrames(balls, 10, 8) == Ok(59) by { OpenRule(balls, 10, 8); }
    assert ScoreFrames(balls, 8, 7) == Ok(78) by { SpareRule(balls, 8, 7); }
    assert ScoreFrames(balls, 7, 6) == Ok(98) by { StrikeRule(balls, 7, 6); }
    assert ScoreFrames(balls, 6, 5) == Ok(120) by { StrikeRule(balls, 6, 5); }
    assert ScoreFrames(balls, 5, 4) == Ok(150) by { StrikeRule(balls, 5, 4); }
    assert ScoreFrames(balls, 3, 3) == Ok(157) by { OpenRule(balls, 3, 3); }
    assert ScoreFrames(balls, 1, 2) == Ok(173) by { SpareRule(balls, 1, 2); }
    assert ScoreFrames(balls, 0, 1) == Ok(193) by { StrikeRule(balls, 0, 1); }
  }

  /** Twenty-one balls of 5: a spare in every frame. Balls: [5, 5, 5, 5, 5, 5, 5, 5, 5, 5, 5, 5, 5, 5, 5, 5, 5, 5, 5, 5, 5]. */
  lemma AllSparesGame(balls: seq<int>)
    requires |balls| == 21
    requires balls[0] == 5 && balls[1] == 5
    requires balls[2] == 5 && balls[3] == 5
    requires balls[4] == 5 && balls[5] == 5
    requires balls[6] == 5 && balls[7] == 5
    requires balls[8] == 5 && balls[9] == 5
    requires balls[10] == 5 && balls[11] == 5
    requires balls[12] == 5 && balls[13] == 5
    requires balls[14] == 5 && balls[15] == 5
    requires balls[16] == 5 && balls[17] == 5
    requires balls[18] == 5 && balls[19] == 5
    requires balls[20] == 5
    ensures Score(balls) == Ok(150)
  {
    assert ScoreFrames(balls, 18, 10) == Ok(15) by { LastFrameSpare(balls, 18); }
    assert ScoreFrames(balls, 16, 9) == Ok(30) by { SpareRule(balls, 16, 9); }
    assert ScoreFrames(balls, 14, 8) == Ok(45) by { SpareRule(balls, 14, 8); }
    assert ScoreFrames(balls, 12, 7) == Ok(60) by { SpareRule(balls, 12, 7); }
    assert ScoreFrames(balls, 10, 6) == Ok(75) by { SpareRule(balls, 10, 6); }
    assert ScoreFrames(balls, 8, 5) == Ok(90) by { SpareRule(balls, 8, 5); }
    assert ScoreFrames(balls, 6, 4) == Ok(105) by { SpareRule(balls, 6, 4); }
    assert ScoreFrames(balls, 4, 3) == Ok(120) by { SpareRule(balls, 4, 3); }
    assert ScoreFrames(balls, 2, 2) == Ok(135) by { SpareRule(balls, 2, 2); }
    assert ScoreFrames(balls, 0, 1) == Ok(150) by { SpareRule(balls, 0, 1); }
  }

  /** Eleven strikes: frame 10 lacks its second bonus ball. Balls: [10, 10, 10, 10, 10, 10, 10, 10, 10, 10, 10]. */
  lemma ElevenStrikes(balls: seq<int>)
    requires |balls| == 11
    requires balls[0] == 10
    requires balls[1] == 10
    requires balls[2] == 10
    requires balls[3] == 10
    requires balls[4] == 10
    requires balls[5] == 10
    requires balls[6] == 10
    requires balls[7] == 10
    requires balls[8] == 10
    requires balls[9] == 10
    requires balls[10] == 10
    ensures Score(balls) == Err(NotEnoughBalls)
  {
    assert ScoreFrames(balls, 9, 10) == Err(NotEnoughBalls) by { LastFrameShort(balls, 9); }
    assert ScoreFrames(balls, 8, 9) == Err(NotEnoughBalls) by { StrikeRule(balls, 8, 9); }
    assert ScoreFrames(balls, 7, 8) == Err(NotEnoughBalls) by { StrikeRule(balls, 7, 8); }
    assert ScoreFrames(balls, 6, 7) == Err(NotEnoughBalls) by { StrikeRule(balls, 6, 7); }
    assert ScoreFrames(balls, 5, 6) == Err(NotEnoughBalls) by { StrikeRule(balls, 5, 6); }
    assert ScoreFrames(balls, 4, 5) == Err(NotEnoughBalls) by { StrikeRule(balls, 4, 5); }
    assert ScoreFrames(balls, 3, 4) == Err(NotEnoughBalls) by { StrikeRule(balls, 3, 4); }
    assert ScoreFrames(balls, 2, 3) == Err(NotEnoughBalls) by { StrikeRule(balls, 2, 3); }
    assert ScoreFrames(balls, 1, 2) == Err(NotEnoughBalls) by { StrikeRule(balls, 1, 2); }
    assert ScoreFrames(balls, 0, 1) == Err(NotEnoughBalls) by { StrikeRule(balls, 0, 1); }
  }

  /** A spare in frame 10 with no ball after it. Balls: [10, 10, 10, 10, 10, 10, 10, 10, 10, 2, 8]. */
  lemma LastSpareWithoutBonus(balls: seq<int>)
    requires |balls| == 11
    requires balls[0] == 10
    requires balls[1] == 10
    requires balls[2] == 10
    requires balls[3] == 10
    requires balls[4] == 10
    requires balls[5] == 10
    requires balls[6] == 10
    requires balls[7] == 10
    requires balls[8] == 10
    requires balls[9] == 2 && balls[10] == 8
    ensures Score(balls) == Err(NotEnoughBalls)
  {
    assert ScoreFrames(balls, 9, 10) == Err(NotEnoughBalls) by { LastFrameShort(balls, 9); }
    assert ScoreFrames(balls, 8, 9) == Err(NotEnoughBalls) by { StrikeRule(balls, 8, 9); }
    assert ScoreFrames(balls, 7, 8) == Err(NotEnoughBalls) by { StrikeRule(balls, 7, 8); }
    assert ScoreFrames(balls, 6, 7) == Err(NotEnoughBalls) by { StrikeRule(balls, 6, 7); }
    assert ScoreFrames(balls, 5, 6) == Err(NotEnoughBalls) by { StrikeRule(balls, 5, 6); }
    assert ScoreFrames(balls, 4, 5) == Err(NotEnoughBalls) by { StrikeRule(balls, 4, 5); }
    assert ScoreFrames(balls, 3, 4) == Err(NotEnoughBalls) by { StrikeRule(balls, 3, 4); }
    assert ScoreFrames(balls, 2, 3) == Err(NotEnoughBalls) by { StrikeRule(balls, 2, 3); }
    assert ScoreFrames(balls, 1, 2) == Err(NotEnoughBalls) by { StrikeRule(balls, 1, 2); }
    assert ScoreFrames(balls, 0, 1) == Err(NotEnoughBalls) by { StrikeRule(balls, 0, 1); }
  }

  /** Sixteen pins in frame 1. Balls: [9, 7, 10, 10, 10, 10, 10, 10, 10, 10, 8, 1]. */
  lemma TooManyPinsInFirstFrame(balls: seq<int>)
    requires |balls| == 12
    requires balls[0] == 9 && balls[1] == 7
    requires balls[2] == 10
    requires balls[3] == 10
    requires balls[4] == 10
    requires balls[5] == 10
    requires balls[6] == 10
    requires balls[7] == 10
    requires balls[8] == 10
    requires balls[9] == 10
    requires balls[10] == 8 && balls[11] == 1
    ensures Score(balls) == Err(InvalidFrame(1, 9, 7))
  {
    assert ScoreFrames(balls, 0, 1) == Err(InvalidFrame(1, 9, 7)) by { IllegalPairRule(balls, 0, 1); }
  }

  /** A negative ball in frame 1. Balls: [-9, 0, 10, 10, 10, 10, 10, 10, 10, 10, 8, 1]. */
  lemma NegativeBallInFirstFrame(balls: seq<int>)
    requires |balls| == 12
    requires balls[0] == -9 && balls[1] == 0
    requires balls[2] == 10
    requires balls[3] == 10
    requires balls[4] == 10
    requires balls[5] == 10
    requires balls[6] == 10
    requires balls[7] == 10
    requires balls[8] == 10
    requires balls[9] == 10
    requires balls[10] == 8 && balls[11] == 1
    ensures Score(balls) == Err(InvalidFrame(1, -9, 0))
  {
    assert ScoreFrames(balls, 0, 1) == Err(InvalidFrame(1, -9, 0)) by { IllegalPairRule(balls, 0, 1); }
  }

  /** No balls at all: frame 1 has no data. Balls: []. */
  lemma EmptyGame(balls: seq<int>)
    requires |balls| == 0
    ensures Score(balls) == Err(NoData(1))
  {
  }

  /** A lone illegal ball is reported as missing data: the balls run out before the pair is checked. Balls: [11]. */
  lemma RunOutBeforeCheck(balls: seq<int>)
    requires |balls| == 1
    requires balls[0] == 11
    ensures Score(balls) == Err(NoData(1))
  {
  }

  /** Frame 10 may knock down more than ten pins with its two balls. Balls: [0, 0, 0, 0, 0, 0, 0, 0, 0, 0, 0, 0, 0, 0, 0, 0, 0, 0, 7, 8]. */
  lemma LastFrameOverTen(balls: seq<int>)
    requires |balls| == 20
    requires balls[0] == 0 && balls[1] == 0
    requires balls[2] == 0 && balls[3] == 0
    requires balls[4] == 0 && balls[5] == 0
    requires balls[6] == 0 && balls[7] == 0
    requires balls[8] == 0 && balls[9] == 0
    requires balls[10] == 0 && balls[11] == 0
    requires balls[12] == 0 && balls[13] == 0
    requires balls[14] == 0 && balls[15] == 0
    requires balls[16] == 0 && balls[17] == 0
    requires balls[18] == 7 && balls[19] == 8
    ensures Score(balls) == Ok(15)
  {
    assert ScoreFrames(balls, 18, 10) == Ok(15) by { LastFrameOpen(balls, 18); }
    assert ScoreFrames(balls, 16, 9) == Ok(15) by { OpenRule(balls, 16, 9); }
    assert ScoreFrames(balls, 14, 8) == Ok(15) by { OpenRule(balls, 14, 8); }
    assert ScoreFrames(balls, 12, 7) == Ok(15) by { OpenRule(balls, 12, 7); }
    assert ScoreFrames(balls, 10, 6) == Ok(15) by { OpenRule(balls, 10, 6); }
    assert ScoreFrames(balls, 8, 5) == Ok(15) by { OpenRule(balls, 8, 5); }
    assert ScoreFrames(balls, 6, 4) == Ok(15) by { OpenRule(balls, 6, 4); }
    assert ScoreFrames(balls, 4, 3) == Ok(15) by { OpenRule(balls, 4, 3); }
    assert ScoreFrames(balls, 2, 2) == Ok(15) by { OpenRule(balls, 2, 2); }
    assert ScoreFrames(balls, 0, 1) == Ok(15) by { OpenRule(balls, 0, 1); }
  }

  /** The bonus balls of frame 10 are not checked, so the total can pass 300. Balls: [10, 10, 10, 10, 10, 10, 10, 10, 10, 10, 10, 99]. */
  lemma TotalAboveThreeHundred(balls: seq<int>)
    requires |balls| == 12
    requires balls[0] == 10
    requires balls[1] == 10
    requires balls[2] == 10
    requires balls[3] == 10
    requires balls[4] == 10
    requires balls[5] == 10
    requires balls[6] == 10
    requires balls[7] == 10
    requires balls[8] == 10
    requires balls[9] == 10
    requires balls[10] == 10 && balls[11] == 99
    ensures Score(balls) == Ok(389)
  {
    assert ScoreFrames(balls, 9, 10) == Ok(119) by { LastFrameStrike(balls, 9); }
    assert ScoreFrames(balls, 8, 9) == Ok(149) by { StrikeRule(balls, 8, 9); }
    assert ScoreFrames(balls, 7, 8) == Ok(179) by { StrikeRule(balls, 7, 8); }
    assert ScoreFrames(balls, 6, 7) == Ok(209) by { StrikeRule(balls, 6, 7); }
    assert ScoreFrames(balls, 5, 6) == Ok(239) by { StrikeRule(balls, 5, 6); }
    assert ScoreFrames(balls, 4, 5) == Ok(269) by { StrikeRule(balls, 4, 5); }
    assert ScoreFrames(balls, 3, 4) == Ok(299) by { StrikeRule(balls, 3, 4); }
    assert ScoreFrames(balls, 2, 3) == Ok(329) by { StrikeRule(balls, 2, 3); }
    assert ScoreFrames(balls, 1, 2) == Ok(359) by { StrikeRule(balls, 1, 2); }
    assert ScoreFrames(balls, 0, 1) == Ok(389) by { StrikeRule(balls, 0, 1); }
  }

  /** The bonus balls of frame 10 may be negative, and so may the total. Balls: [0, 0, 0, 0, 0, 0, 0, 0, 0, 0, 0, 0, 0, 0, 0, 0, 0, 0, 10, -7, -8]. */
  lemma NegativeTotal(balls: seq<int>)
    requires |balls| == 21
    requires balls[0] == 0 && balls[1] == 0
    requires balls[2] == 0 && balls[3] == 0
    requires balls[4] == 0 && balls[5] == 0
    requires balls[6] == 0 && balls[7] == 0
    requires balls[8] == 0 && balls[9] == 0
    requires balls[10] == 0 && balls[11] == 0
    requires balls[12] == 0 && balls[13] == 0
    requires balls[14] == 0 && balls[15] == 0
    requires balls[16] == 0 && balls[17] == 0
    requires balls[18] == 10
    requires balls[19] == -7 && balls[20] == -8
    ensures Score(balls) == Ok(-5)
  {
    assert ScoreFrames(balls, 18, 10) == Ok(-5) by { LastFrameStrike(balls, 18); }
    assert ScoreFrames(balls, 16, 9) == Ok(-5) by { OpenRule(balls, 16, 9); }
    assert ScoreFrames(balls, 14, 8) == Ok(-5) by { OpenRule(balls, 14, 8); }
    assert ScoreFrames(balls, 12, 7) == Ok(-5) by { OpenRule(balls, 12, 7); }
    assert ScoreFrames(balls, 10, 6) == Ok(-5) by { OpenRule(balls, 10, 6); }
    assert ScoreFrames(balls, 8, 5) == Ok(-5) by { OpenRule(balls, 8, 5); }
    assert ScoreFrames(balls, 6, 4) == Ok(-5) by { OpenRule(balls, 6, 4); }
    assert ScoreFrames(balls, 4, 3) == Ok(-5) by { OpenRule(balls, 4, 3); }
    assert ScoreFrames(balls, 2, 2) == Ok(-5) by { OpenRule(balls, 2, 2); }
    assert ScoreFrames(balls, 0, 1) == Ok(-5) by { OpenRule(balls, 0, 1); }
  }
}
