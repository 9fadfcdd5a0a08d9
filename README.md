# Flappy Bird with a tabular Q-learning agent

A model of the learning and bookkeeping core of `flappybird.py`: a Flappy
Bird clone in which a tabular Q-learning agent, instead of a player, decides
every 15 frames whether the bird flaps.

The model has one module per part of the game:

- `Timing` and `Screen`: the frame/millisecond conversions and the window
  size.
- `Streams`: the two random streams. A stream is a fixed infinite sequence of
  uniform values plus a read position. `randint(lo, hi)` picks one of
  `hi - lo + 1` equal slices of `[0, 1)`. This is Python 2's `randrange`,
  `lo + int(random() * width)`; the code is Python 2 (it uses `print`
  statements), though its first line names python3.
- `Birds`: the bird's sink and climb kinematics and the out-of-window test.
- `Pipes`: the pipe pair's piece counts, pixel heights, visibility and
  scroll.
- `Encoder`: the quantised state triple, with Python's truncating `int()`.
- `QLearning`: the value table with default-0 lookups, `get_max_reward`,
  `determine_action`, the three table updates, and the agent's history of
  pairs (current, previous, early).
- `FlappyBird`: the game loop of `main()` as two classes.
  - `Life` owns what the outer loop recreates for every life: the bird, the
    pipe deque, the frame clock and the score. It spawns, prunes, scrolls and
    scores pipes. Its invariant says:
    - every pipe in the deque sits where its spawn frame puts it;
    - the obstacle stream has been read once per spawn;
    - the score is the number of distinct pipes flagged as counted.
  - `Game` owns what survives across lives: the table, the best score, the
    two streams, `old_pipe` and the `dead` flag. It also holds the state the
    top of every life resets: the agent's history, the decision countdown and
    `done`. `Game.Frame` is one pass
    of `while not done`. `Game.PlayLife` is that loop over a finite sequence
    of per-frame inputs. `Game.StartLife` is the restart at the top of the
    outer loop.

The things the model does not compute are given to it. Per frame, a
`FrameInput` supplies the two pixel-mask collision answers and the cosine
factor of a climb. The random values come from the streams' sequences.

Three details of the code that the model keeps:

- The state offsets are truncated toward zero by `int()`, not rounded
  (`Encoder.Trunc`, `Encoder.TruncOfNegative`).
- The climb timer is not clamped at 0. It can end a climb below 0
  (`Birds.Flight`, `Birds.Bird.Update`).
- On death the terminal pair is written as -1000 first and then the previous
  pair is updated. When the two pairs are the same key, the second write
  wins, so the terminal value need not be -1000: it is
  -1000 + 0.525 * Max(-1000, Q[s, not a]) (`QLearning.DeathUpdate`).

A frame runs in two halves. The agent's half (`Game.AgentHalf`) decides,
counts down, spawns, ends the interval, pays the bonus and runs the death
check. Its effect on the agent's state (table, best score, history, `dead`,
`done`) is the pure function `FlappyBird.AgentFrame` of that state, the
countdown, the two exploration draws, the two collision answers and what the
agent sees (`FlappyBird.Sight`, read off the start of the frame by
`Game.Foreseen`). The world's half (`Game.WorldHalf`, `Life.Step`) prunes,
scrolls, moves the bird, scores and advances the frame clock.

## Model

| member | source | states |
|---|---|---|
| Timing.FramesToMsec | flappybird.py:296-303 | the result times the frame rate is 1000 times the frame count |
| Timing.MsecToFrames | flappybird.py:306-313 | the result times 1000 is the frame rate times the milliseconds |
| Timing.ConversionsRoundTrip | flappybird.py:296-313 | the two conversions undo each other in both orders |
| Timing.OneFrame | flappybird.py:296-303 | at 60 FPS one frame lasts 50/3 ms |
| Streams.FromUniform | flappybird.py:191 | a draw of randint(lo, hi) lies in [lo, hi] |
| Streams.FromUniformSlice | flappybird.py:191 | each outcome lo + k comes from exactly the k-th of hi - lo + 1 equal slices of [0, 1) |
| Streams.RollBelowThree | flappybird.py:334-336 | the exploration roll randint(1, 10) is below 3 exactly when the uniform value is below 0.2 |
| Streams.CoinIsOne | flappybird.py:337-339 | the coin randint(0, 1) is 1 exactly when the uniform value is at least 0.5 |
| Streams.Stream.RandInt | flappybird.py:189-192 | setstate, randint, getstate: the result is the next value's outcome, in range, and the stream advances by exactly one |
| Streams.Stream.Reseed | flappybird.py:370-371 | random.seed(0) puts the obstacle stream back at its first value |
| Birds.SinkDistance | flappybird.py:98 | sinking moves the bird 3 px per frame, and moves it down exactly when time has passed |
| Birds.ClimbDistance | flappybird.py:94-95 | a climb lifts the bird 5 px per frame times the cosine factor, so between 0 and 10 px per frame |
| Birds.OutOfBounds | flappybird.py:434 | the window test of the decision check and of the death check (also line 513): y <= 0 or y >= 480 |
| Birds.InBoundsIsOpenInterval | flappybird.py:434 | the bird is inside the window exactly when 0 < y < 480 |
| Birds.Flight | flappybird.py:92-98 | while the timer is positive it falls by one frame time and the bird rises by at most 10 px per frame and never sinks; otherwise the bird sinks 3 px per frame and the timer stays |
| Birds.Bird.constructor | flappybird.py:55-72 | a bird at the given x and y with the given climb timer |
| Birds.Bird.Update | flappybird.py:92-98 | the new height and climb timer are Flight of the old ones |
| Pipes.TotalPipeBodyPieces | flappybird.py:181-186 | the piece budget is 10 |
| Pipes.PieceCounts | flappybird.py:191-212 | the bottom count is the draw plus its end piece, the bodies use the whole budget of 10, the counts sum to 12, the top has 1..10 pieces and the bottom 2..11 |
| Pipes.GapIsConstant | flappybird.py:181-212 | whatever the draw, the gap between the pipes is 128 px, four bird heights |
| Pipes.PixelHeights | flappybird.py:217-225 | the pixel heights are the piece counts times 32, they leave 128 px free, and the top pipe is 32..320 px tall |
| Pipes.Drift | flappybird.py:244 | a pipe scrolls 3 px left per frame |
| Pipes.VisibleAt | flappybird.py:227-230 | the pair is on screen when its left edge x satisfies -80 < x < 568 |
| Pipes.PipePair.constructor | flappybird.py:164-212 | a new pair starts at x = 567, not counted, reads one value of the obstacle stream, and its piece counts come from that value |
| Pipes.PipePair.TopHeightPx | flappybird.py:217-220 | the top pipe is its piece count times 32 px tall (bounds in PixelHeights) |
| Pipes.PipePair.BottomHeightPx | flappybird.py:222-225 | the bottom pipe is its piece count times 32 px tall (bounds in PixelHeights) |
| Pipes.PipePair.Visible | flappybird.py:227-230 | the property `visible` is VisibleAt of the pair's x |
| Pipes.PipePair.Update | flappybird.py:237-244 | x falls by the drift and nothing else changes |
| Encoder.Trunc | flappybird.py:438 | int() keeps the sign and drops the fraction: the result is between 0 and r and less than 1 away from r |
| Encoder.TowardZeroUnique | flappybird.py:438 | only one integer truncates r, so Trunc is determined by its contract |
| Encoder.TruncOfNegative | flappybird.py:438 | truncation differs from floor on negative inputs, e.g. -0.5 gives 0 |
| Encoder.GapReference | flappybird.py:438 | the y the vertical offset is measured from: the top of the bottom pipe less 27 px |
| Encoder.Quantise | flappybird.py:438 | the state is the truncated offset of the bird to the gap reference line, the truncated distance to the front pipe, and the death flag |
| Encoder.AnnotatedExample | flappybird.py:394-403 | the hand-written initial state (75, 517, False) is what quantising bird 240 against a fresh 10-piece pipe at 567 gives |
| QLearning.Get | flappybird.py:327-328 | dict.get(k, 0): the stored value, 0 for an absent key |
| QLearning.GetMaxReward | flappybird.py:316-321 | the result is one of Q[s,a] and Q[s,not a], absent keys reading 0, and at least both |
| QLearning.MaxRewardIsBestOfState | flappybird.py:316-321 | the action passed in does not matter: the result is the best value of the state |
| QLearning.TdUpdate | flappybird.py:452 | only key k changes, it is added if absent, and its new value is 0.3 of the old plus 0.7 of reward + gamma * maxReward |
| QLearning.TdUpdateMovesTowardTarget | flappybird.py:452 | the update removes 70% of the distance to the target and never overshoots it |
| QLearning.DistanceShrinks | flappybird.py:452 | after n updates toward one target the distance is the first distance scaled by 0.3 n times |
| QLearning.ShrinkKeepsSignAndShrinks | flappybird.py:452 | repeated scaling by 0.3 keeps the sign and never grows the magnitude |
| QLearning.RepeatedUpdatesConverge | flappybird.py:452 | repeated updates toward one target approach it from one side, without ever passing it |
| QLearning.Reward | flappybird.py:440-442 | the interval reward is 1 when alive and -1000 when dead |
| QLearning.IntervalUpdate | flappybird.py:440-452 | only the previous pair changes, toward 1 or -1000 plus 0.9 times the best value of the current state |
| QLearning.IntervalUpdateFromEmpty | flappybird.py:440-452 | from an empty table, surviving an interval stores exactly 0.7 |
| QLearning.DeathUpdate | flappybird.py:513-535 | only the terminal and previous pairs change; the terminal pair becomes -1000; the previous pair moves toward -1000 + 0.75 times the best value read after that write; when both pairs are one key, that key ends at -1000 + 0.525 times the best value |
| QLearning.WithBonus | flappybird.py:470-472 | the early pair's value, 0 when absent, grows by 100 and no other key changes |
| QLearning.InitialHistory | flappybird.py:403-410 | a life starts with current, previous and early state all the initial state and no flap |
| QLearning.Shift | flappybird.py:454-458 | early takes previous, previous takes the current pair, the current state becomes the new one, and the action is kept |
| QLearning.EarlyIsTwoIntervalsBack | flappybird.py:454-458 | two shifts later the current pair has become the early pair that the bonus rewards |
| QLearning.Explores | flappybird.py:336 | the agent explores when the roll is below 3 and the score has reached the record |
| QLearning.ChooseAction | flappybird.py:327-349 | when exploring, the action is the coin; otherwise it is a flap exactly when the flap value is strictly larger |
| QLearning.GreedyChoiceIsBest | flappybird.py:345-349 | without exploration the chosen action has the best value of the state |
| QLearning.GreedyTieMeansNoFlap | flappybird.py:345-349 | exact ties, and an empty table, give no flap |
| QLearning.NoExplorationBelowRecord | flappybird.py:334-349 | below the best score the random draws do not affect the choice |
| QLearning.DetermineAction | flappybird.py:323-349 | the action is ChooseAction on the next one or two stream values; the stream advances by two when exploring and by one otherwise |
| FlappyBird.PipeX | flappybird.py:175-244 | helper: where the layout puts the pair spawned with a given index after a number of scroll steps, 567 less 3 px per step since its spawn |
| FlappyBird.FramesPerPipe | flappybird.py:427 | a pipe every 180 frames, and the bird starts at y = 240 |
| FlappyBird.SpawnDue | flappybird.py:427 | a pair spawns when frame_clock is a multiple of 180 |
| FlappyBird.SpawnCounting | flappybird.py:427 | how many spawns the first t frames hold, in closed form |
| FlappyBird.Decided | flappybird.py:413-414 | at countdown 0 the history's action becomes determine_action's choice, from the table, state, roll, coin, score and record; otherwise the agent state is unchanged |
| FlappyBird.EndOfInterval | flappybird.py:432-459 | dead is the collision answer or the window test, done also becomes true on death, the previous pair gets the interval update with the current state and action, and the history shifts to the quantised new state |
| FlappyBird.IntervalEnded | flappybird.py:432 | EndOfInterval when the countdown has reached 15, otherwise no change |
| FlappyBird.BonusFires | flappybird.py:468-469 | the bonus fires when the front pair is no longer old_pipe, the score beats the record and the bird is not dead |
| FlappyBird.Bonused | flappybird.py:468-472 | when the bonus fires the early pair gets WithBonus; otherwise no change |
| FlappyBird.DeathChecked | flappybird.py:513-538 | a hit or the window test sets done, applies DeathUpdate to the current and previous pairs and lifts the record to a higher score; otherwise no change |
| FlappyBird.AgentFrame | flappybird.py:412-538 | the agent's half of a frame in the loop's order: Decided, IntervalEnded at the advanced countdown, Bonused, DeathChecked |
| FlappyBird.DrawsUsed | flappybird.py:334-338 | a decision reads one value of the exploration stream, two when it explores; a frame without a decision reads none |
| FlappyBird.ClimbTimer | flappybird.py:413-417 | a decision to flap restarts the climb timer at 333.3 ms; otherwise the timer is kept |
| FlappyBird.AgentFrameGrows | flappybird.py:412-538 | a frame only adds keys to the table, never lowers the record and never revives a finished life |
| FlappyBird.FrameEndsLifeExactly | flappybird.py:432-514 | a frame leaves the life over exactly when it was over, the per-frame check hits, the bird is out of the window, or the frame ends an interval on a hit |
| FlappyBird.RecordOnlyOnDeath | flappybird.py:513-538 | the record changes only in a frame whose death check fires, and then to the score when that is higher |
| FlappyBird.FrameBonusFires | flappybird.py:468-469 | whether the bonus fires in a frame, tested on the agent state after the decision and the end of the interval |
| FlappyBird.PrunedAt | flappybird.py:547-548 | the prune loop's effect on the deque: a suffix is kept, every dropped pair was off screen and the kept front is on screen |
| FlappyBird.SpawnedOnto | flappybird.py:427-429 | the spawn test's effect on the deque: one pair joins the back on a spawn frame, otherwise the deque is unchanged |
| FlappyBird.SpawnThenPrune | flappybird.py:427-548 | after a spawn and a prune every pair in the deque was there before or is the one the spawn added |
| FlappyBird.NextTurn | flappybird.py:412-538 | one frame's effect on the agent state, the countdown and the exploration stream: AgentFrame on the draws at the stream's position, the countdown modulo 15, the stream advanced by DrawsUsed |
| FlappyBird.NextTurnOf | flappybird.py:412-538 | proof helper for Game.PlayFrame: a Turn assembled from the agent state, countdown and stream position a frame leaves is NextTurn of the Turn before it |
| FlappyBird.Replays | flappybird.py:412 | a trace replays a prefix of the inputs: each Turn is NextTurn of the one before it, and no frame starts from a Turn whose life is over |
| FlappyBird.ReplayExtends | flappybird.py:412 | playing one more frame from a Turn whose life goes on extends a replay by one Turn |
| FlappyBird.ReplayGrows | flappybird.py:412-538 | along a replay the table only gains keys and the record never falls |
| FlappyBird.Life.constructor | flappybird.py:370-391 | a life starts with the obstacle stream reseeded, a centred bird with a 2 ms climb, an empty deque, frame 0 and score 0 |
| FlappyBird.Life.SpawnIfDue | flappybird.py:427-429 | on every 180th frame exactly one new pair joins the back and the rest of the deque is unchanged; otherwise nothing changes |
| FlappyBird.Life.LastPipeVisible | flappybird.py:228-230 | the pair spawned last is always still on screen |
| FlappyBird.Life.Prune | flappybird.py:547-548 | the deque loses only a prefix, every dropped pair was off screen, and the new front is on screen |
| FlappyBird.Life.DistinctPipes | flappybird.py:428-429 | the pairs in the deque are distinct objects |
| FlappyBird.Life.MovePipes | flappybird.py:550-551 | every pair scrolls exactly once by the drift |
| FlappyBird.Life.Passed | flappybird.py:559 | a pair is passed once its right edge x + 80 is left of the bird's x |
| FlappyBird.Life.PassedNotCounted | flappybird.py:558-561 | the pairs of the deque that are passed and not yet counted |
| FlappyBird.Life.PassedBy | flappybird.py:558-561 | the same set with each pair at the position the layout gives it after a number of scroll steps |
| FlappyBird.Life.PassedByPositions | flappybird.py:558-559 | when every pair stands where the layout puts it, the two sets are equal |
| FlappyBird.Life.AllPassedAdded | flappybird.py:558-561 | a set that holds every passed, uncounted pair of the deque and only such pairs is PassedNotCounted |
| FlappyBird.Life.FlagPassed | flappybird.py:558-561 | the loop flags exactly the passed pairs, and the pairs it newly flagged are exactly PassedNotCounted and as many as the count it returns |
| FlappyBird.Life.CountScore | flappybird.py:558-561 | a pair ends flagged exactly when it was flagged or has been passed; the counted set grows by exactly the passed pairs not counted before, and the score by their number, so it stays the number of distinct pairs counted and no pair scores twice |
| FlappyBird.Life.Scroll | flappybird.py:547-551 | prune then scroll: the deque keeps a suffix of itself, every dropped pair was off screen and the new front on screen where the layout put them before the scroll, and every pair stands where the next frame puts it |
| FlappyBird.Life.Tally | flappybird.py:558-568 | the clock advances by one, the counted set and score grow by exactly PassedBy at the new clock, and the life invariant holds |
| FlappyBird.Life.Step | flappybird.py:547-568 | the pruning facts of Scroll; the bird moves by Flight; the counted set and the score grow by exactly the pairs the scroll took left of the bird that were not counted; the clock advances by one; the life invariant holds |
| FlappyBird.Game.constructor | flappybird.py:359-410 | program start: an empty table, best score 0, both streams at their start, and a first life with the bird at y = 240 on a 2 ms climb, the initial history, countdown 0, `done` false; old_pipe starts as null and `dead` as false |
| FlappyBird.Game.StartLife | flappybird.py:364-410 | a new life that keeps the table, best score and exploration stream, and resets the history and countdown |
| FlappyBird.Game.Seen | flappybird.py:438-469 | helper: what the agent reads of the world now: score, bird height, front pair's bottom pieces and x, and whether the front is no longer old_pipe |
| FlappyBird.Game.Foreseen | flappybird.py:427-438 | what the agent will see once the spawn test has run: the current front, or the pair the next obstacle value will spawn at x = 567; the front has changed only when no spawn is due and old_pipe is not the front |
| FlappyBird.Game.Decide | flappybird.py:413-417 | the agent state becomes Decided, the exploration stream advances by DrawsUsed, and the climb timer becomes ClimbTimer; so between decisions nothing changes |
| FlappyBird.Game.BeginFrame | flappybird.py:413-430 | the effects of Decide, then those of CountDownAndSpawn; in particular the agent then sees what Foreseen read off the start of the frame |
| FlappyBird.Game.DecisionStep | flappybird.py:432-459 | the agent state becomes EndOfInterval of the collision answer, the bird height and the front pair, and the countdown restarts |
| FlappyBird.Game.EndIntervalIfDue | flappybird.py:432-459 | at countdown 15 the agent state becomes EndOfInterval and the countdown 0; at any other countdown nothing changes |
| FlappyBird.Game.Bonus | flappybird.py:468-480 | the agent state becomes Bonused, and old_pipe becomes the front exactly when BonusFires |
| FlappyBird.Game.DeathCheck | flappybird.py:513-538 | the agent state becomes DeathChecked of the collision answer, the bird height and the score |
| FlappyBird.Game.CountDownAndSpawn | flappybird.py:420-430 | the countdown advances by one; on a spawn frame one pair joins and old_pipe becomes the front, otherwise the deque and old_pipe are unchanged; the agent sees what Foreseen predicted |
| FlappyBird.Game.Settle | flappybird.py:468-538 | the agent state becomes DeathChecked of Bonused, with old_pipe moved exactly when the bonus fires |
| FlappyBird.Game.AgentHalf | flappybird.py:412-538 | the agent state becomes AgentFrame of the start of the frame; the countdown advances modulo 15, the stream by DrawsUsed, and the climb timer becomes ClimbTimer; the deque gains one fresh pair at its back exactly on a spawn frame (SpawnedOnto); old_pipe becomes the front on a spawn frame or when the bonus fires (FrameBonusFires), and is kept otherwise |
| FlappyBird.Game.WorldHalf | flappybird.py:547-568 | Life.Step seen from the game: the deque is pruned as PrunedAt says at the clock before the scroll, both invariants hold again, the bird flies by Flight, the score grows by PassedBy |
| FlappyBird.Game.Frame | flappybird.py:412-568 | the agent state becomes AgentFrame of the state, countdown, draws, collision answers and Foreseen at the start of the frame; the countdown advances modulo 15; the stream advances by DrawsUsed; the bird flies by Flight from the timer ClimbTimer leaves; the score grows as in Life.Step; the clock advances by one and both invariants hold |
| FlappyBird.Game.PlayFrame | flappybird.py:412-568 | one frame as the loop sees it: the Turn after the frame is NextTurn of the Turn before it, on the frame's input and what Foreseen read; the clock advances by one and the life's score does not fall |
| FlappyBird.Game.PlayLife | flappybird.py:412-568 | one frame per input until the life ends or the inputs run out; the returned trace starts at the Turn before the loop, ends at the Turn after it, and replays the inputs frame by frame (Replays), so no frame is played from a Turn whose life is over; `ended` is the `done` of each Turn played to, true only for the last; the table only grows and neither score falls |

## Left out

- Rendering, image loading, fonts, `display.flip`, `clock.tick` and the
  event queue (the quit key and the writes of `foo.txt` and
  `max_score.txt`): they are I/O with the host platform. `print` output is
  left out for the same reason.
- Pixel-mask collision (`collide_mask`) depends on the images and on which
  wing image the wall clock selects. Each frame's two collision answers are
  inputs instead.
- Birds.Bird.Update: the cosine ease `1 - cos(frac_climb_done * pi)` of a
  climb is an input (`ease`), because `cos` is transcendental. The contract
  states the climb in terms of that input.
- The Mersenne Twister and the `setstate`/`getstate` swapping. Each stream
  is a fixed sequence of uniform values. The source keeps one global
  generator, so at the top of each life `random_state[1]` may capture the
  obstacle stream's state. The model keeps the two streams independent
  instead.
- Floating point: every quantity is an exact real, so rounding in
  `0.3 * old + ...` or in an accumulated `x` is not modelled.
- The commented-out -9999 "instant death path": it is dead code.
- Game.Frame: does not state what old_pipe becomes or which pairs the prune
  dropped. Game.AgentHalf and Game.WorldHalf state those for their half;
  Frame passes on the life invariant, which fixes every remaining pair's
  layout and position.
- Game.PlayLife: the Turn trace pins the agent state, the countdown and the
  exploration stream frame by frame, but what the agent saw in each frame
  (`seen`) is tied to the world only through the one-frame contract of
  Game.PlayFrame; the ensures do not restate the deque and the bird frame by
  frame.
- The scoring pass runs after `frame_clock += 1` in `Life.Tally`. The pass
  does not read the clock, so the order makes no difference.
- `old_pipe` and `dead` have no value in the code until their first
  assignment (the spawn at frame 0 and the first decision check). The model
  starts them at null and false; no read can happen before those
  assignments.
- The outer `while(1)` loop is modelled as one restart step
  (`Game.StartLife`), not as an endless sequence of lives.
- Pausing: `paused` is never set, so it is always false and the `continue`
  after the event loop never runs.
- The unused `previous_reward` and `old_pipe_action` variables: nothing
  reads them.
