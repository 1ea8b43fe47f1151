# Ten-pin bowling score, modelled in Dafny

This project models `count_score` from `bowl_score.py`: the function that
scores one game of ten-pin bowling from a flat list holding the pins knocked
down by each ball, and rejects input that is not a legal, complete game.

The scorer works frame by frame. Frames 1 to 10 are played in order, and
each takes its balls from the front of a private copy of the list:

- a first ball of 10 (a strike) ends the frame at once, and the frame's pair
  is recorded as (10, 0);
- any other first ball is followed by a second ball;
- running out of balls for the frame is the error "no data for frame f";
- the pair must have both balls in [0, 10]. In frames 1 to 9 it must also
  total at most 10; frame 10 is exempt from that sum check. An illegal pair
  is the error "frame f has invalid scores (a, b)";
- a frame totalling exactly 10 adds a bonus: the next two balls after a
  strike, or the next ball after a spare. The bonus balls are not taken:
  they remain the next frame's own balls. The bonus is a list slice, so it
  sums only the balls that remain;
- only in frame 10 does a missing bonus ball fail, with "not enough balls";
- balls after frame 10 are never read.

The Dafny files are as follows.

- `bowl_score.dfy` (module `BowlScore`) holds the data model and the
  scorer:
  - the error kinds of `InvalidInputException`, as the datatype `Error`;
  - the specification functions, which read the game through a cursor:
    - `ReadFrame` takes the balls of one frame;
    - `PlayFrame` is one pass of the frame loop;
    - `ScoreFrames` and `Score` score the frames from a given one to 10;
  - `CountScore`, the scorer itself. It is a `while` loop over the frames.
    It takes balls from a private copy of the caller's array, through an
    index cursor, and returns early on the first error. Its loop invariant
    ties the running total and the cursor to `ScoreFrames`.
- `bowl_score_properties.dfy` (module `BowlScoreProperties`) proves what the
  scorer promises:
  - the rule for each kind of frame;
  - which frame, and which pair, each failure names, in both directions;
  - that leftover balls are ignored;
  - the bounds on the total.
- `bowl_score_examples.dfy` (module `BowlScoreExamples`) works through whole
  games, including every example that ships with `count_score`.

Two behaviours of the code are easy to misread, and the model follows the
code in both:

- A first ball of 10 in frame 10 takes one ball, as in every other frame.
  The two balls after it are its bonus. Frame 10 does not always take two
  balls of its own.
- The code does not keep the total within 0 to 300. The bonus balls of
  frame 10 are never range-checked. `TotalAboveThreeHundred` scores 389, and
  `NegativeTotal` scores -5. The bound is proved only for games whose every
  ball lies in [0, 10] (`PerfectGameIsMaximum`).

## Model

| member | source | states |
|---|---|---|
| BowlScore.CountScore | bowl_score.py:11-66 | the scorer returns exactly `Score` of the caller's balls: the total of the ten frames, or the first error raised. The caller's array is only read. |
| BowlScore.CountScoreTwice | bowl_score.py:40 | scoring works on a private copy, so two calls on the same array give the same result, and that result is `Score` of its contents |
| BowlScore.LookAhead | bowl_score.py:61 | the bonus is the sum of the next one or two balls, or of fewer when fewer remain; the slice never fails |
| BowlScore.ReadFrame | bowl_score.py:42-50 | fails, naming the frame, exactly when no ball is left or only one non-10 ball is left. A first ball of 10 takes one ball and records (10, 0); any other first ball takes two balls and records both. |
| BowlScore.PlayFrame | bowl_score.py:49-64 | a frame fails only with an error that names it; a frame that scores has read a complete, legal pair, and the next frame starts after the balls that pair took |
| BowlScore.LegalPair | bowl_score.py:51-53 | a legal pair knocks down 0 to 10 pins in frames 1-9 and 0 to 20 in frame 10, where the sum is not checked |
| BowlScore.ScoreFrames | bowl_score.py:47-66 | scoring frames f to 10 fails only with an error naming one of those frames |
| BowlScore.Score | bowl_score.py:11-66 | the result of `count_score` as a function; an error always names one of frames 1 to 10 |
| BowlScoreProperties.StrikeRule | bowl_score.py:57-61 | a strike in frames 1-9 scores 10 plus the next two balls; the next frame starts at the ball after the strike |
| BowlScoreProperties.SpareRule | bowl_score.py:57-61 | a legal spare in frames 1-9 scores 10 plus the next ball; the next frame starts at that ball |
| BowlScoreProperties.OpenRule | bowl_score.py:57-64 | a legal pair totalling under 10 in frames 1-9 scores just its pins |
| BowlScoreProperties.IllegalPairRule | bowl_score.py:52-55 | in frames 1-9 a pair with a ball outside [0, 10] or with more than 10 pins fails with that frame and that exact pair |
| BowlScoreProperties.LastFrameStrike | bowl_score.py:49-61 | a strike in frame 10 takes one ball and scores 10 plus the next two balls, whatever their values |
| BowlScoreProperties.LastFrameSpare | bowl_score.py:57-61 | a spare in frame 10 scores 10 plus the next ball, whatever its value |
| BowlScoreProperties.LastFrameOpen | bowl_score.py:51-53 | frame 10 is never checked for a sum above 10: two in-range balls that are not a strike or spare score their sum |
| BowlScoreProperties.LastFrameShort | bowl_score.py:62-63 | a strike or spare in frame 10 without all its bonus balls fails with "not enough balls" |
| BowlScoreProperties.FailureAfterFilledFrames | bowl_score.py:48-66 | if the frames before frame k are complete and legal, the error of frame k is the error of the game |
| BowlScoreProperties.FailureLocated | bowl_score.py:48-66 | every error is raised by the frame it names, and all the frames before it were complete and legal |
| BowlScoreProperties.RunOutNamesFrame | bowl_score.py:42-45 | "no data for frame k" holds exactly when frames 1 to k-1 are complete and legal and the balls run out inside frame k, before its pair is checked |
| BowlScoreProperties.InvalidFrameNamesPair | bowl_score.py:52-55 | "frame k has invalid scores (a, b)" holds exactly when frames 1 to k-1 are complete and legal and frame k reads the illegal pair (a, b) |
| BowlScoreProperties.NotEnoughBallsOnlyAtEnd | bowl_score.py:62-63 | "not enough balls" holds exactly when frames 1 to 9 are complete and legal and frame 10 is a strike or spare without enough bonus balls |
| BowlScoreProperties.ScoredGameLength | bowl_score.py:48-66 | a game that scores has at least one ball for each frame before 10 and at least two for frame 10 |
| BowlScoreProperties.LeftoverBallsIgnored | bowl_score.py:48-66 | once frames f to 10 score, appending any balls leaves their score unchanged |
| BowlScoreProperties.GameIgnoresLeftovers | bowl_score.py:48-66 | exactly ten frames are scored: balls after a scored game are never read |
| BowlScoreProperties.FramePointsBounded | bowl_score.py:57-64 | when every ball lies in [0, 10], a frame scores 0 to 30 |
| BowlScoreProperties.FramesBounded | bowl_score.py:47-66 | when every ball lies in [0, 10], frames f to 10 score 0 to 30 each |
| BowlScoreProperties.PerfectGameIsMaximum | bowl_score.py:47-66 | when every ball lies in [0, 10], a scored game totals 0 to 300 |
| BowlScoreExamples.PerfectGame | bowl_score.py:15-16 | twelve strikes score 300 |
| BowlScoreExamples.OpenFramesGame | bowl_score.py:17-18 | the open-frames example scores 82 |
| BowlScoreExamples.SparesGame | bowl_score.py:19-20 | the spares example scores 131 |
| BowlScoreExamples.MixedGame | bowl_score.py:21-22 | the mixed example scores 193 |
| BowlScoreExamples.ElevenStrikes | bowl_score.py:23-26 | eleven strikes fail with "not enough balls" |
| BowlScoreExamples.LastSpareWithoutBonus | bowl_score.py:27-30 | nine strikes and a spare of 2 and 8 fail with "not enough balls" |
| BowlScoreExamples.TooManyPinsInFirstFrame | bowl_score.py:31-34 | a first frame of (9, 7) fails as frame 1 with the pair (9, 7) |
| BowlScoreExamples.NegativeBallInFirstFrame | bowl_score.py:35-38 | a first frame of (-9, 0) fails as frame 1 with the pair (-9, 0) |
| BowlScoreExamples.EmptyGame | bowl_score.py:42-44 | no balls at all is "no data for frame 1" |
| BowlScoreExamples.RunOutBeforeCheck | bowl_score.py:49-52 | a lone ball of 11 is "no data for frame 1": the second ball is missing before the pair is checked |
| BowlScoreExamples.AllSparesGame | bowl_score.py:57-64 | twenty-one balls of 5 score 150 |
| BowlScoreExamples.LastFrameOverTen | bowl_score.py:51-53 | eighteen gutter balls followed by 7 and 8 score 15: frame 10 may exceed 10 pins |
| BowlScoreExamples.TotalAboveThreeHundred | bowl_score.py:61 | eleven strikes and a bonus ball of 99 score 389: the bonus balls of frame 10 are not range-checked |
| BowlScoreExamples.NegativeTotal | bowl_score.py:61 | eighteen gutter balls, a strike and bonus balls -7 and -8 score -5 |

## Left out

- The command-line block at bowl_score.py:68-79 is not modelled. It parses
  `sys.argv` with `int()`, prints results and the `INVALID_FORMAT` message,
  and exits with status 1 or 2. All of that is I/O and process handling.
- Exception messages are not modelled as text. Each kind of
  `InvalidInputException` is a constructor of `Error` that carries the frame
  and, for an invalid frame, the pair. The `%` formatting of the messages is
  left out.
- The input is a list of Python integers. The model uses a Dafny
  `array<int>` for the caller's list and `seq<int>` for its contents.
  Elements that are not integers are not modelled, and neither is the
  dynamic typing that would allow them.
- `scores.pop(0)` on the private copy is modelled as a cursor that advances
  over the copy. The balls before the cursor are exactly the ones popped.
  The copy itself is never shrunk.
- Python 2 details (`xrange`, `map` with a `lambda`, the `[:]` copy idiom)
  are written as plain loops, indexing and comparisons.
