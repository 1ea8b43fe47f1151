/**
 * Scoring of one ten-pin bowling game from the flat list of pins knocked
 * down by each ball (bowl_score.py, count_score).
 *
 * The specification functions read the game the way the scorer does: a
 * cursor `pos` marks the first ball not yet taken, and every ball before it
 * has been popped. CountScore is the scorer itself, a loop over the ten
 * frames that takes balls from a private copy of the caller's list.
 */
module BowlScore {

  /** Number of frames in a game; the last one is scored specially. */
  const LastFrame := 10

  /** Pins standing at the start of a frame. */
  const Pins := 10

  /** The three ways count_score rejects its input (InvalidInputException). */
  datatype Error =
    | NoData(frame: int)                                 // the balls ran out while `frame` needed one
    | InvalidFrame(frame: int, first: int, second: int)  // `frame` read an illegal pair
    | NotEnoughBalls                                     // frame 10 lacks its bonus balls

  datatype Result<T> = Ok(value: T) | Err(error: Error)

  /** The frame whose processing raises `e`. */
  function FrameOf(e: Error): int
  {
    match e
    case NoData(f) => f
    case InvalidFrame(f, _, _) => f
    case NotEnoughBalls => LastFrame
  }

  /** Adds a frame's points to the score of the frames after it; an error wins. */
  function Plus(points: int, later: Result<int>): Result<int>
  {
    match later
    case Ok(t) => Ok(points + t)
    case Err(e) => Err(e)
  }

  /**
   * The bonus of a strike or spare: the sum of the `extra` balls from `pos`
   * on, or of the balls that remain when there are fewer (a slice never
   * fails).
   */
  function LookAhead(balls: seq<int>, pos: nat, extra: nat): (r: int)
    ensures extra == 1 ==> r == (if pos < |balls| then balls[pos] else 0)
    ensures extra == 2 ==> r == (if pos + 1 < |balls| then balls[pos] + balls[pos + 1]
                                 else if pos < |balls| then balls[pos]
                                 else 0)
    decreases extra
  {
    if extra == 0 || |balls| <= pos then 0 else balls[pos] + LookAhead(balls, pos + 1, extra - 1)
  }

  /** The pair a frame records, and the cursor after the balls it took. */
  datatype Roll = Roll(first: int, second: int, next: nat)

  /**
   * Reads the balls of one frame from `pos`. A first ball of 10 ends the
   * frame at once and the pair is (10, 0), in every frame; any other first
   * ball is followed by a second one. Running out of balls names the frame.
   */
  function ReadFrame(balls: seq<int>, pos: nat, frame: int): (r: Result<Roll>)
    ensures r.Err? <==> |balls| <= pos || (pos + 1 == |balls| && balls[pos] != Pins)
    ensures r.Err? ==> r.error == NoData(frame)
    ensures r.Ok? ==> r.value.first == balls[pos]
    ensures r.Ok? && r.value.first == Pins ==> r.value.second == 0 && r.value.next == pos + 1
    ensures r.Ok? && r.value.first != Pins ==>
              r.value.second == balls[pos + 1] && r.value.next == pos + 2
  {
    if |balls| <= pos then Err(NoData(frame))
    else if balls[pos] == Pins then Ok(Roll(Pins, 0, pos + 1))
    else if |balls| == pos + 1 then Err(NoData(frame))
    else Ok(Roll(balls[pos], balls[pos + 1], pos + 2))
  }

  predicate InRange(ball: int)
  {
    0 <= ball <= Pins
  }

  /**
   * The check of a frame's pair: both balls in [0, 10] and, except in the
   * last frame, at most 10 pins in all.
   */
  predicate LegalPair(frame: int, first: int, second: int): (r: bool)
    ensures r ==> 0 <= first + second <= (if frame == LastFrame then 2 * Pins else Pins)
  {
    InRange(first) && InRange(second) && (first + second <= Pins || frame == LastFrame)
  }

  /** The points of one frame and the cursor for the next frame. */
  datatype Played = Played(points: int, next: nat)

  /**
   * One pass of the frame loop: read the pair, check it, and add the bonus
   * of a strike (two balls) or a spare (one ball) without consuming it. Only
   * the last frame fails when the bonus balls are missing.
   */
  function PlayFrame(balls: seq<int>, pos: nat, frame: int): (r: Result<Played>)
    ensures r.Err? ==> FrameOf(r.error) == frame
    ensures r.Ok? ==> ReadFrame(balls, pos, frame).Ok?
    ensures r.Ok? ==> var roll := ReadFrame(balls, pos, frame).value;
                      LegalPair(frame, roll.first, roll.second) && r.value.next == roll.next
  {
    match ReadFrame(balls, pos, frame)
    case Err(e) => Err(e)
    case Ok(Roll(first, second, next)) =>
      if !LegalPair(frame, first, second) then Err(InvalidFrame(frame, first, second))
      else if first + second == Pins then
        var extra := if first == Pins then 2 else 1;
        if frame == LastFrame && |balls| - next < extra then Err(NotEnoughBalls)
        else Ok(Played(Pins + LookAhead(balls, next, extra), next))
      else Ok(Played(first + second, next))
  }

  /** The score of frames `frame` to 10, the first of them starting at `pos`. */
  function ScoreFrames(balls: seq<int>, pos: nat, frame: int): (r: Result<int>)
    requires 1 <= frame <= LastFrame + 1
    ensures r.Err? ==> frame <= FrameOf(r.error) <= LastFrame
    // The frames still to play bound the recursion; `|balls|` is listed as
    // well so that the verifier unrolls it only when the balls are known.
    decreases LastFrame + 1 - frame, |balls|
  {
    if frame > LastFrame then Ok(0)
    else match PlayFrame(balls, pos, frame)
      case Err(e) => Err(e)
      case Ok(Played(points, next)) => Plus(points, ScoreFrames(balls, next, frame + 1))
  }

  /** The result of count_score on `balls`. */
  function Score(balls: seq<int>): (r: Result<int>)
    ensures r.Err? ==> 1 <= FrameOf(r.error) <= LastFrame
  {
    ScoreFrames(balls, 0, 1)
  }

  lemma PlusAssoc(a: int, b: int, later: Result<int>)
    ensures Plus(a, Plus(b, later)) == Plus(a + b, later)
  {
  }

  /**
   * count_score: scores the game in `balls`. The caller's array is only
   * read; the balls are taken from a private copy, `pos` marking the first
   * ball not yet taken.
   */
  method CountScore(balls: array<int>) returns (r: Result<int>)
    ensures r == Score(balls[..])
  {
    var scores := balls[..];
    var pos := 0;
    var score := 0;
    var frame := 1;
    while frame <= LastFrame
      invariant 1 <= frame <= LastFrame + 1 && pos <= |scores|
      invariant Score(scores) == Plus(score, ScoreFrames(scores, pos, frame))
    {
      ghost var start := pos;
      if pos == |scores| {
        return Err(NoData(frame));
      }
      var first := scores[pos];
      pos := pos + 1;
      var second := 0;
      if first != Pins {
        if pos == |scores| {
          return Err(NoData(frame));
        }
        second := scores[pos];
        pos := pos + 1;
      }
      assert ReadFrame(scores, start, frame) == Ok(Roll(first, second, pos));
      var isLastFrame := frame == LastFrame;
      if !(0 <= first <= Pins && 0 <= second <= Pins) || (first + second > Pins && !isLastFrame) {
        return Err(InvalidFrame(frame, first, second));
      }
      var frameResult := first + second;
      if frameResult == Pins {
        var extraBalls := if first == Pins then 2 else 1;
        frameResult := frameResult + LookAhead(scores, pos, extraBalls);
        if isLastFrame && |scores| - pos < extraBalls {
          return Err(NotEnoughBalls);
        }
      }
      assert PlayFrame(scores, start, frame) == Ok(Played(frameResult, pos));
      PlusAssoc(score, frameResult, ScoreFrames(scores, pos, frame + 1));
      score := score + frameResult;
      frame := frame + 1;
    }
    return Ok(score);
  }

  /** Scoring the same untouched array twice gives the same result. */
  method CountScoreTwice(balls: array<int>) returns (once: Result<int>, again: Result<int>)
    ensures once == again == Score(balls[..])
  {
    once := CountScore(balls);
    again := CountScore(balls);
  }
}
