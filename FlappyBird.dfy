// The game loop of main() in flappybird.py, lifted into two classes: the value
// table and best score that survive across lives, and the per-life state
// (bird, pipe queue, counters, the agent's rolling history of pairs).

module FlappyBird {
  import opened Timing
  import opened Streams
  import opened Encoder
  import opened QLearning
  import Screen
  import Birds
  import Pipes

  /** The agent decides once every 15 frames. */
  const DECISION_INTERVAL: nat := 15
  /** The pipe interval of 3000 ms in frames: a new pipe pair every 180 frames. */
  const FRAMES_PER_PIPE: nat := 180
  /** The bird's fixed horizontal position. */
  const BIRD_X: int := 50
  /** The bird starts vertically centred in the window, its height truncated to a whole pixel. */
  const BIRD_START_Y: real := (Screen.WIN_HEIGHT / 2 - Birds.HEIGHT / 2) as real
  /** Each life starts with a 2 ms climb. */
  const BIRD_START_CLIMB: real := 2.0
  /** The first state of every life, written out by hand in the loop:
      (240 - 165, 567 - 50, False). */
  const INITIAL_STATE: State := State(240 - 165, 567 - 50, false)

  lemma FramesPerPipe()
    ensures MsecToFrames(Pipes.ADD_INTERVAL as real, FPS) == FRAMES_PER_PIPE as real
    ensures BIRD_START_Y == 240.0
  {
  }

  /** The spawn test: a pair spawns when the frame clock is a multiple of
      the pipe interval in frames (the game is never paused). */
  predicate SpawnDue(frameClock: nat)
  {
    frameClock % FRAMES_PER_PIPE == 0
  }

  /** How many of the frames 0 .. t - 1 spawn a pipe pair. */
  function SpawnsBefore(t: nat): nat
  {
    (t + FRAMES_PER_PIPE - 1) / FRAMES_PER_PIPE
  }

  lemma SpawnCounting(t: nat)
    ensures SpawnsBefore(t + 1) == t / FRAMES_PER_PIPE + 1
    ensures SpawnDue(t) ==> SpawnsBefore(t) == t / FRAMES_PER_PIPE
    ensures !SpawnDue(t) ==> SpawnsBefore(t) == t / FRAMES_PER_PIPE + 1
  {
    var q, r := t / FRAMES_PER_PIPE, t % FRAMES_PER_PIPE;
    assert t == FRAMES_PER_PIPE * q + r;
    assert t + FRAMES_PER_PIPE == FRAMES_PER_PIPE * (q + 1) + r;
    if r == 0 {
      assert t + FRAMES_PER_PIPE - 1 == FRAMES_PER_PIPE * q + (FRAMES_PER_PIPE - 1);
    } else {
      assert t + FRAMES_PER_PIPE - 1 == FRAMES_PER_PIPE * (q + 1) + (r - 1);
    }
  }

  /** Where the pair spawned in frame FRAMES_PER_PIPE * index is, once the
      scroll step has run `moves` times in total during the life. */
  function PipeX(moves: int, index: nat): real
  {
    Pipes.SPAWN_X - 3.0 * (moves - FRAMES_PER_PIPE * index) as real
  }

  /** The prune step seen on the queue: `after` is a suffix of `before`,
      every pair it dropped was off screen with the scroll step at `moves`,
      and its front pair is on screen. */
  ghost predicate PrunedAt(before: seq<Pipes.PipePair>, moves: int, after: seq<Pipes.PipePair>)
  {
    && |after| <= |before| && after == before[|before| - |after|..]
    && (forall i | 0 <= i < |before| - |after| :: !Pipes.VisibleAt(PipeX(moves, before[i].drawIndex)))
    && after != [] && Pipes.VisibleAt(PipeX(moves, after[0].drawIndex))
  }

  /** What the inner loop carries from one frame to the next besides the
      world: the agent's state, the decision countdown and how far the
      exploration stream has been read. */
  datatype Turn = Turn(agent: Agent, countdown: nat, pos: nat)

  /** One frame's effect on a Turn, given the exploration stream's values,
      the frame's input and what the agent sees: AgentFrame on the two
      draws at the stream's position, the countdown modulo
      DECISION_INTERVAL, and the stream advanced by the draws used. */
  ghost function NextTurn(t: Turn, values: nat -> real, input: FrameInput, s: Sight): Turn
    requires Uniform(values)
  {
    var roll := FromUniform(values(t.pos), 1, 10);
    var coin := FromUniform(values(t.pos + 1), 0, 1);
    Turn(AgentFrame(t.agent, t.countdown, roll, coin, input.hitAtDecision, input.hitAtCheck, s),
         (t.countdown + 1) % DECISION_INTERVAL,
         t.pos + DrawsUsed(t.countdown, roll, s.score, t.agent.maxScore))
  }

  /** A Turn built from one frame's pieces is the NextTurn of that frame. */
  lemma NextTurnOf(t: Turn, values: nat -> real, input: FrameInput, s: Sight, a: Agent, countdown: nat, pos: nat)
    requires Uniform(values)
    requires a == AgentFrame(t.agent, t.countdown, FromUniform(values(t.pos), 1, 10), FromUniform(values(t.pos + 1), 0, 1),
                             input.hitAtDecision, input.hitAtCheck, s)
    requires countdown == (t.countdown + 1) % DECISION_INTERVAL
    requires pos == t.pos + DrawsUsed(t.countdown, FromUniform(values(t.pos), 1, 10), s.score, t.agent.maxScore)
    ensures Turn(a, countdown, pos) == NextTurn(t, values, input, s)
  {
  }

  /** `trace` replays the first |seen| frames of `inputs`: each Turn is
      NextTurn of the one before it on that frame's input and sight, and no
      frame is played from a Turn whose life is over. */
  ghost predicate Replays(trace: seq<Turn>, values: nat -> real, inputs: seq<FrameInput>, seen: seq<Sight>)
    requires Uniform(values)
  {
    && |trace| == |seen| + 1 && |seen| <= |inputs|
    && forall k | 0 <= k < |seen| ::
         !trace[k].agent.done && trace[k + 1] == NextTurn(trace[k], values, inputs[k], seen[k])
  }

  /** A replay grows by one frame played from a Turn whose life goes on. */
  lemma ReplayExtends(trace: seq<Turn>, values: nat -> real, inputs: seq<FrameInput>, seen: seq<Sight>,
                      s: Sight, next: Turn)
    requires Uniform(values) && Replays(trace, values, inputs, seen) && |seen| < |inputs|
    requires !trace[|seen|].agent.done && next == NextTurn(trace[|seen|], values, inputs[|seen|], s)
    ensures Replays(trace + [next], values, inputs, seen + [s])
  {
    var trace', seen' := trace + [next], seen + [s];
    forall k | 0 <= k < |seen'|
      ensures !trace'[k].agent.done && trace'[k + 1] == NextTurn(trace'[k], values, inputs[k], seen'[k])
    {
      if k < |seen| {
        assert trace'[k] == trace[k] && trace'[k + 1] == trace[k + 1] && seen'[k] == seen[k];
      }
    }
  }

  /** Along a replay the table only gains keys and the best score never
      falls. */
  lemma {:induction false} ReplayGrows(trace: seq<Turn>, values: nat -> real, inputs: seq<FrameInput>,
                                       seen: seq<Sight>, n: nat)
    requires Uniform(values) && Replays(trace, values, inputs, seen) && n <= |seen|
    ensures trace[0].agent.table.Keys <= trace[n].agent.table.Keys
    ensures trace[0].agent.maxScore <= trace[n].agent.maxScore
    decreases n
  {
    if n > 0 {
      ReplayGrows(trace, values, inputs, seen, n - 1);
      var t := trace[n - 1];
      AgentFrameGrows(t.agent, t.countdown, FromUniform(values(t.pos), 1, 10), FromUniform(values(t.pos + 1), 0, 1),
                      inputs[n - 1].hitAtDecision, inputs[n - 1].hitAtCheck, seen[n - 1]);
    }
  }

  /** The spawn test seen on the queue: one pair joins the back when a
      spawn is due, and otherwise the queue is unchanged. */
  predicate SpawnedOnto(before: seq<Pipes.PipePair>, due: bool, after: seq<Pipes.PipePair>)
  {
    if due then |after| == |before| + 1 && after[..|before|] == before else after == before
  }

  /** A spawn followed by a prune leaves only pairs that were queued
      before, or the pair the spawn added. */
  lemma SpawnThenPrune(before: seq<Pipes.PipePair>, due: bool, mid: seq<Pipes.PipePair>, moves: int,
                       after: seq<Pipes.PipePair>)
    requires SpawnedOnto(before, due, mid) && PrunedAt(mid, moves, after)
    ensures forall i | 0 <= i < |after| :: after[i] in before || (due && after[i] == mid[|mid| - 1])
  {
    forall i | 0 <= i < |after|
      ensures after[i] in before || (due && after[i] == mid[|mid| - 1])
    {
      var k := i + (|mid| - |after|);
      assert after[i] == mid[k];
      if k < |before| {
        assert mid[k] == before[k];
      }
    }
  }

  lemma DisjointUnionSize<T>(a: set<T>, b: set<T>)
    requires a * b == {}
    ensures |a + b| == |a| + |b|
  {
  }

  /** What the model leaves to the environment in one frame: the two
      pixel-mask collision answers (at the decision check and at the
      per-frame check) and the cosine factor of a climb. */
  datatype FrameInput = FrameInput(hitAtDecision: bool, hitAtCheck: bool, ease: real)

  /** The agent's part of main()'s state: the value table, the best score,
      the rolling history of pairs, and the `dead` and `done` flags. */
  datatype Agent = Agent(table: Table, maxScore: nat, history: History, dead: bool, done: bool)

  /** What the agent reads of the world in a frame once the spawn test has
      run: the score, the bird's height, the front pair's bottom pieces and
      position, and whether the front pair is no longer old_pipe. */
  datatype Sight = Sight(score: nat, birdY: real, frontBottom: int, frontX: real, frontChanged: bool)

  /** The decision at the start of an interval (countdown 0): the action
      chosen from the current state with the exploration roll and coin. */
  function Decided(a: Agent, countdown: nat, roll: int, coin: int, score: nat): Agent
  {
    if countdown == 0 then
      a.(history := a.history.(action := ChooseAction(a.table, a.history.state, roll, coin, score, a.maxScore)))
    else a
  }

  /** The end of an interval: death from the collision answer or the window
      bounds, the periodic update of the previous pair, and the history
      shifted by the newly encoded state. */
  function EndOfInterval(a: Agent, hit: bool, birdY: real, frontBottom: int, frontX: real): Agent
  {
    var dead := hit || Birds.OutOfBounds(birdY);
    Agent(IntervalUpdate(a.table, a.history.state, a.history.action, a.history.previous.0, a.history.previous.1, dead),
          a.maxScore,
          Shift(a.history, Quantise(birdY, frontBottom, frontX, dead)),
          dead,
          a.done || dead)
  }

  /** The countdown after its increment decides whether the interval ends. */
  function IntervalEnded(a: Agent, countdown: nat, hit: bool, s: Sight): Agent
  {
    if countdown == DECISION_INTERVAL then EndOfInterval(a, hit, s.birdY, s.frontBottom, s.frontX) else a
  }

  /** The delayed bonus fires when the front pair has changed, the life
      beats the record and the bird is not dead. */
  predicate BonusFires(a: Agent, frontChanged: bool, score: nat)
  {
    frontChanged && score > a.maxScore && !a.dead
  }

  /** Whether the bonus fires in the frame AgentFrame describes: tested
      after the decision and the end of the interval. */
  predicate FrameBonusFires(a: Agent, countdown: nat, roll: int, coin: int, hitAtDecision: bool, s: Sight)
  {
    BonusFires(IntervalEnded(Decided(a, countdown, roll, coin, s.score), countdown + 1, hitAtDecision, s),
               s.frontChanged, s.score)
  }

  function Bonused(a: Agent, frontChanged: bool, score: nat): Agent
  {
    if BonusFires(a, frontChanged, score) then a.(table := WithBonus(a.table, a.history.early)) else a
  }

  /** The per-frame death check: a collision or leaving the window ends the
      life, applies the death update and lifts the record to the score. */
  function DeathChecked(a: Agent, hit: bool, birdY: real, score: nat): Agent
  {
    if hit || Birds.OutOfBounds(birdY) then
      a.(table := DeathUpdate(a.table, a.history.state, a.history.action, a.history.previous.0, a.history.previous.1),
         maxScore := if score > a.maxScore then score else a.maxScore,
         done := true)
    else a
  }

  /** The agent's half of one frame, in the order the game loop runs it:
      decide, end the interval, the bonus, the death check. `countdown` is
      fps_to_next_action at the start of the frame. */
  function AgentFrame(a: Agent, countdown: nat, roll: int, coin: int, hitAtDecision: bool, hitAtCheck: bool, s: Sight): Agent
  {
    var decided := Decided(a, countdown, roll, coin, s.score);
    var ended := IntervalEnded(decided, countdown + 1, hitAtDecision, s);
    DeathChecked(Bonused(ended, s.frontChanged, s.score), hitAtCheck, s.birdY, s.score)
  }

  /** How many values of the exploration stream the decision draws: none
      between decisions, the roll, and the coin too when exploring. */
  function DrawsUsed(countdown: nat, roll: int, score: nat, maxScore: nat): nat
  {
    if countdown != 0 then 0 else if Explores(roll, score, maxScore) then 2 else 1
  }

  /** The climb timer after the decision: a flap restarts it at
      CLIMB_DURATION, whatever was left of it. */
  function ClimbTimer(a: Agent, countdown: nat, roll: int, coin: int, score: nat, msecToClimb: real): real
  {
    if countdown == 0 && Decided(a, countdown, roll, coin, score).history.action then Birds.CLIMB_DURATION
    else msecToClimb
  }

  /** A frame only adds entries to the table, never lowers the record and
      never revives a finished life. */
  lemma AgentFrameGrows(a: Agent, countdown: nat, roll: int, coin: int, hitAtDecision: bool, hitAtCheck: bool, s: Sight)
    ensures var r := AgentFrame(a, countdown, roll, coin, hitAtDecision, hitAtCheck, s);
      && a.table.Keys <= r.table.Keys && a.maxScore <= r.maxScore && (a.done ==> r.done)
  {
    var decided := Decided(a, countdown, roll, coin, s.score);
    var ended := IntervalEnded(decided, countdown + 1, hitAtDecision, s);
    var bonused := Bonused(ended, s.frontChanged, s.score);
    assert a.table.Keys <= ended.table.Keys;
    assert ended.table.Keys <= bonused.table.Keys;
  }

  /** A frame ends the life exactly when the life was over already, the
      per-frame check hits or the bird is out of the window, or the frame
      ends an interval on a hit at the decision check. */
  lemma FrameEndsLifeExactly(a: Agent, countdown: nat, roll: int, coin: int, hitAtDecision: bool, hitAtCheck: bool, s: Sight)
    ensures AgentFrame(a, countdown, roll, coin, hitAtDecision, hitAtCheck, s).done
            <==> a.done || hitAtCheck || Birds.OutOfBounds(s.birdY)
                 || (countdown + 1 == DECISION_INTERVAL && hitAtDecision)
  {
  }

  /** The record moves only in a frame that fails the per-frame check, and
      then to the life's score when that is higher. */
  lemma RecordOnlyOnDeath(a: Agent, countdown: nat, roll: int, coin: int, hitAtDecision: bool, hitAtCheck: bool, s: Sight)
    ensures AgentFrame(a, countdown, roll, coin, hitAtDecision, hitAtCheck, s).maxScore
            == if (hitAtCheck || Birds.OutOfBounds(s.birdY)) && s.score > a.maxScore then s.score else a.maxScore
  {
  }

  /** One life of the game loop: the bird, the pipe deque, the frame clock
      and the score, all created afresh at the top of the outer loop, and
      the obstacle stream they draw from. */
  class Life {
    /** random_state[0], the obstacle stream, reseeded with 0 for each life. */
    const obstacles: Stream
    const bird: Birds.Bird
    /** The pipe deque; the front is pipes[0]. */
    var pipes: seq<Pipes.PipePair>
    var frameClock: nat
    var score: nat
    /** The pipes whose point has been taken in this life. */
    ghost var counted: set<Pipes.PipePair>

    /** The queue holds the pairs spawned last in the life, oldest first,
        each laid out by its own value of the obstacle stream... */
    ghost predicate Layout()
      reads this`pipes, obstacles`pos
    {
      && obstacles.Valid()
      && |pipes| <= obstacles.pos
      && (forall i | 0 <= i < |pipes| :: pipes[i].drawIndex == obstacles.pos - |pipes| + i)
      && (forall i | 0 <= i < |pipes| ::
            (pipes[i].topPieces, pipes[i].bottomPieces)
            == Pipes.PieceCounts(FromUniform(obstacles.values(pipes[i].drawIndex), 1, Pipes.TotalPipeBodyPieces())))
    }

    /** ...and each where the scroll has taken it. */
    ghost predicate Positions(moves: int)
      reads this`pipes, pipes`x
    {
      forall i | 0 <= i < |pipes| :: pipes[i].x == PipeX(moves, pipes[i].drawIndex)
    }

    ghost predicate Queue(moves: int)
      reads this`pipes, pipes`x, obstacles`pos
    {
      Layout() && Positions(moves)
    }

    /** The score is the number of pipes counted, and a pipe is flagged
        exactly when it has been counted. */
    ghost predicate Scoring()
      reads this`score, this`counted, this`pipes, pipes`scoreCounted
    {
      && score == |counted|
      && (forall i | 0 <= i < |pipes| :: pipes[i].scoreCounted <==> pipes[i] in counted)
    }

    /** What holds between two frames. */
    ghost predicate Valid()
      reads this, pipes, obstacles
    {
      && bird.x == BIRD_X
      && Queue(frameClock)
      && obstacles.pos == SpawnsBefore(frameClock)
      && (frameClock == 0 <==> pipes == [])
      && Scoring()
    }

    /** What holds in the middle of a frame, once the spawn test has run:
        the obstacle stream has drawn for the current frame and the queue
        is not empty. */
    ghost predicate Spawned()
      reads this, pipes, obstacles
    {
      && bird.x == BIRD_X
      && Queue(frameClock)
      && obstacles.pos == SpawnsBefore(frameClock + 1)
      && pipes != []
      && Scoring()
    }

    /** The top of the outer loop: random.seed(0) on the obstacle stream, a
        centred bird with a 2 ms climb, an empty deque, frame_clock = 0 and
        score = 0. */
    constructor (obstacles: Stream)
      requires obstacles.Valid()
      modifies obstacles
      ensures Valid() && this.obstacles == obstacles && obstacles.pos == 0
      ensures fresh(bird) && bird.y == BIRD_START_Y && bird.msecToClimb == BIRD_START_CLIMB
      ensures pipes == [] && frameClock == 0 && score == 0
    {
      obstacles.Reseed();
      this.obstacles := obstacles;
      bird := new Birds.Bird(BIRD_X, BIRD_START_Y, BIRD_START_CLIMB);
      pipes := [];
      frameClock := 0;
      score := 0;
      counted := {};
    }

    /** Every FRAMES_PER_PIPE frames a new pair, laid out by the next value
        of the obstacle stream, joins the back of the queue. */
    method SpawnIfDue() returns (spawned: bool)
      requires Valid()
      modifies this`pipes, obstacles
      ensures Spawned()
      ensures spawned == SpawnDue(frameClock)
      ensures spawned ==>
        && |pipes| == |old(pipes)| + 1 && pipes[..|old(pipes)|] == old(pipes)
        && fresh(pipes[|old(pipes)|])
      ensures !spawned ==> pipes == old(pipes)
      ensures forall p | p in pipes :: p in old(pipes) || fresh(p)
    {
      SpawnCounting(frameClock);
      spawned := SpawnDue(frameClock);
      if spawned {
        var pp := new Pipes.PipePair(obstacles);
        pipes := pipes + [pp];
      }
    }

    /** The pair spawned last is still on screen: at most 179 scroll steps
        have moved it from x = 567 since it spawned, so it is at x >= 30. */
    lemma LastPipeVisible()
      requires Spawned()
      ensures pipes[|pipes| - 1].Visible()
    {
      SpawnCounting(frameClock);
      var k := frameClock / FRAMES_PER_PIPE;
      assert pipes[|pipes| - 1].drawIndex == k;
      assert 0 <= frameClock - FRAMES_PER_PIPE * k < FRAMES_PER_PIPE;
    }

    /** Drop pairs from the front of the deque for as long as the front pair is off screen. */
    method Prune()
      requires Queue(frameClock) && Scoring()
      modifies this`pipes
      ensures |pipes| <= |old(pipes)| && pipes == old(pipes)[|old(pipes)| - |pipes|..]
      ensures forall i | 0 <= i < |old(pipes)| - |pipes| :: !old(pipes)[i].Visible()
      ensures pipes != [] ==> pipes[0].Visible()
      ensures Queue(frameClock) && Scoring()
      ensures forall i | 0 <= i < |old(pipes)| - |pipes| ::
        !Pipes.VisibleAt(PipeX(frameClock, old(pipes)[i].drawIndex))
      ensures pipes != [] ==> Pipes.VisibleAt(PipeX(frameClock, pipes[0].drawIndex))
    {
      while pipes != [] && !pipes[0].Visible()
        invariant |pipes| <= |old(pipes)| && pipes == old(pipes)[|old(pipes)| - |pipes|..]
        invariant forall i | 0 <= i < |old(pipes)| - |pipes| :: !old(pipes)[i].Visible()
        invariant Queue(frameClock) && Scoring()
        decreases |pipes|
      {
        pipes := pipes[1..];
      }
    }

    /** Distinct spawn indices make the pipes distinct objects. */
    lemma DistinctPipes(moves: int)
      requires Queue(moves)
      ensures forall i, j | 0 <= i < j < |pipes| :: pipes[i] != pipes[j]
    {
    }

    /** Scroll every pair in the deque left by one frame's drift. */
    method MovePipes()
      requires Queue(frameClock) && Scoring()
      modifies pipes`x
      ensures forall i | 0 <= i < |pipes| :: pipes[i].x == old(pipes[i].x) - Pipes.Drift(1.0)
      ensures Queue(frameClock + 1) && Scoring()
    {
      DistinctPipes(frameClock);
      var ps := pipes;
      for i := 0 to |ps|
        invariant forall j | 0 <= j < i :: ps[j].x == PipeX(frameClock + 1, ps[j].drawIndex)
        invariant forall j | i <= j < |ps| :: ps[j].x == PipeX(frameClock, ps[j].drawIndex)
      {
        ps[i].Update(1.0);
      }
    }

    /** A pipe has been passed once its right edge is left of the bird. */
    predicate Passed(p: Pipes.PipePair)
      reads p`x
    {
      p.x + Pipes.WIDTH as real < bird.x as real
    }

    /** The pairs of `ps` the bird has passed that are not in `before`. */
    ghost function PassedNotCounted(ps: seq<Pipes.PipePair>, before: set<Pipes.PipePair>): set<Pipes.PipePair>
      reads ps`x
    {
      set p | p in ps && Passed(p) && p !in before
    }

    /** The pairs of `ps` not in `before` that are left of the bird once the
        scroll step has run `moves` times: PassedNotCounted read off the
        layout instead of the positions. */
    ghost function PassedBy(ps: seq<Pipes.PipePair>, moves: int, before: set<Pipes.PipePair>): set<Pipes.PipePair>
    {
      set p | p in ps && PipeX(moves, p.drawIndex) + Pipes.WIDTH as real < BIRD_X as real && p !in before
    }

    lemma PassedByPositions(moves: int, before: set<Pipes.PipePair>)
      requires Positions(moves) && bird.x == BIRD_X
      ensures PassedNotCounted(pipes, before) == PassedBy(pipes, moves, before)
    {
      forall p | p in pipes
        ensures Passed(p) == (PipeX(moves, p.drawIndex) + Pipes.WIDTH as real < BIRD_X as real)
      {
        var i :| 0 <= i < |pipes| && pipes[i] == p;
      }
    }

    /** A set that holds every passed pair of `ps` not in `before`, and only
        such pairs, is PassedNotCounted(ps, before). */
    lemma AllPassedAdded(ps: seq<Pipes.PipePair>, before: set<Pipes.PipePair>, added: set<Pipes.PipePair>)
      requires forall j | 0 <= j < |ps| && Passed(ps[j]) && ps[j] !in before :: ps[j] in added
      requires forall p | p in added :: p in ps && Passed(p) && p !in before
      ensures added == PassedNotCounted(ps, before)
    {
      forall p | p in PassedNotCounted(ps, before)
        ensures p in added
      {
        var j :| 0 <= j < |ps| && ps[j] == p;
      }
    }

    /** The loop of the scoring pass: flag every pair of `ps` that has been
        passed and is not flagged yet, and report which pairs were flagged
        (`added`) and how many (`gained`). */
    method FlagPassed(ps: seq<Pipes.PipePair>, ghost before: set<Pipes.PipePair>)
      returns (gained: nat, ghost added: set<Pipes.PipePair>)
      requires forall i, j | 0 <= i < j < |ps| :: ps[i] != ps[j]
      requires forall j | 0 <= j < |ps| :: ps[j].scoreCounted <==> ps[j] in before
      modifies ps`scoreCounted
      ensures forall j | 0 <= j < |ps| ::
        ps[j].scoreCounted == (old(ps[j].scoreCounted) || Passed(ps[j]))
      ensures forall j | 0 <= j < |ps| :: ps[j].scoreCounted <==> ps[j] in before || ps[j] in added
      ensures added == old(PassedNotCounted(ps, before))
      ensures gained == |added| && added * before == {}
    {
      gained := 0;
      added := {};
      for i := 0 to |ps|
        invariant forall j | 0 <= j < |ps| ::
          ps[j].scoreCounted == (old(ps[j].scoreCounted) || (j < i && Passed(ps[j])))
        invariant forall j | 0 <= j < |ps| :: ps[j].scoreCounted <==> ps[j] in before || ps[j] in added
        invariant forall j | 0 <= j < i && Passed(ps[j]) && ps[j] !in before :: ps[j] in added
        invariant forall p | p in added :: p in ps && Passed(p) && p !in before
        invariant gained == |added|
      {
        var p := ps[i];
        if Passed(p) && !p.scoreCounted {
          gained := gained + 1;
          p.scoreCounted := true;
          added := added + {p};
        }
      }
      AllPassedAdded(ps, before, added);
    }

    /** The scoring pass: every passed pair in the deque scores once and is
        flagged. The score grows by exactly the number of passed pairs not
        counted before. */
    method CountScore()
      requires forall i, j | 0 <= i < j < |pipes| :: pipes[i] != pipes[j]
      requires Scoring()
      modifies this`score, this`counted, pipes`scoreCounted
      ensures forall i | 0 <= i < |pipes| ::
        pipes[i].scoreCounted == (old(pipes[i].scoreCounted) || Passed(pipes[i]))
      ensures counted == old(counted + PassedNotCounted(pipes, counted))
      ensures score == old(score + |PassedNotCounted(pipes, counted)|)
      ensures Scoring()
    {
      ghost var before := counted;
      var gained, added := FlagPassed(pipes, before);
      DisjointUnionSize(before, added);
      score := score + gained;
      counted := before + added;
    }

    /** Drop the pairs that have left the screen, then scroll the rest; the
        pair spawned last is never dropped. */
    method Scroll()
      requires Spawned()
      modifies this`pipes, pipes`x
      ensures |pipes| <= |old(pipes)| && pipes == old(pipes)[|old(pipes)| - |pipes|..]
      ensures forall i | 0 <= i < |old(pipes)| - |pipes| ::
        !Pipes.VisibleAt(PipeX(old(frameClock), old(pipes)[i].drawIndex))
      ensures pipes != [] && Pipes.VisibleAt(PipeX(old(frameClock), pipes[0].drawIndex))
      ensures Queue(frameClock + 1) && Scoring()
      ensures obstacles.pos == SpawnsBefore(frameClock + 1)
    {
      LastPipeVisible();
      Prune();
      MovePipes();
    }

    /** The scoring pass and the advance of the frame clock, once everything has scrolled. */
    method Tally()
      requires bird.x == BIRD_X && pipes != []
      requires Queue(frameClock + 1) && Scoring() && obstacles.pos == SpawnsBefore(frameClock + 1)
      modifies this`score, this`counted, this`frameClock, pipes`scoreCounted
      ensures counted == old(counted) + PassedBy(pipes, frameClock, old(counted))
      ensures score == old(score) + |PassedBy(pipes, frameClock, old(counted))|
      ensures frameClock == old(frameClock) + 1
      ensures Valid()
    {
      DistinctPipes(frameClock + 1);
      // the scoring pass does not read the clock, so advancing it first is
      // the same as advancing it after
      frameClock := frameClock + 1;
      assert Queue(frameClock) && obstacles.pos == SpawnsBefore(frameClock);
      PassedByPositions(frameClock, counted);
      CountScore();
    }

    /** The world's half of a frame: prune and scroll, move the bird, score
        and advance the frame clock. A pair is scored in the frame in which
        the scroll takes its right edge left of the bird. */
    method Step(ease: real)
      requires Spawned()
      modifies this`pipes, this`score, this`counted, this`frameClock, pipes, bird`y, bird`msecToClimb
      ensures |pipes| <= |old(pipes)| && pipes == old(pipes)[|old(pipes)| - |pipes|..]
      ensures forall i | 0 <= i < |old(pipes)| - |pipes| ::
        !Pipes.VisibleAt(PipeX(old(frameClock), old(pipes)[i].drawIndex))
      ensures pipes != [] && Pipes.VisibleAt(PipeX(old(frameClock), pipes[0].drawIndex))
      ensures (bird.y, bird.msecToClimb) == Birds.Flight(old(bird.y), old(bird.msecToClimb), 1.0, ease)
      ensures counted == old(counted) + PassedBy(pipes, frameClock, old(counted))
      ensures score == old(score) + |PassedBy(pipes, frameClock, old(counted))|
      ensures frameClock == old(frameClock) + 1
      ensures Valid()
    {
      Scroll();
      bird.Update(1.0, ease);
      Tally();
    }
  }

  /** The state of main() around the current life: what outlives a life
      (the value table, the best score, the two streams, old_pipe and dead)
      and what the top of every life resets (the agent's history, the
      decision countdown and done). */
  class Game {
    /** The value table. */
    var table: Table
    /** The best score of all finished lives. */
    var maxScore: nat
    /** random_state[1], the exploration stream. */
    const explore: Stream
    /** random_state[0], handed to every life. */
    const obstacles: Stream
    var life: Life
    /** state and action, previous_state and previous_action,
        early_state and early_action. */
    var history: History
    var fpsToNextAction: nat
    var oldPipe: Pipes.PipePair?
    var dead: bool
    var done: bool

    /** What holds between two frames. */
    ghost predicate Valid()
      reads this`life, this`fpsToNextAction, life, life.pipes, obstacles
    {
      && explore != obstacles
      && explore.Valid()
      && life.obstacles == obstacles
      && life.Valid()
      && fpsToNextAction < DECISION_INTERVAL
    }

    /** What holds in the middle of a frame, once the countdown has been
        advanced and the spawn test has run. */
    ghost predicate Spawned()
      reads this`life, this`fpsToNextAction, life, life.pipes, obstacles
    {
      && explore != obstacles
      && explore.Valid()
      && life.obstacles == obstacles
      && life.Spawned()
      && fpsToNextAction <= DECISION_INTERVAL
    }

    /** Program start: an empty table, a best score of 0, the exploration
        stream at the generator's initial state, the obstacle stream seeded
        with 0; then the first life. */
    constructor (exploreValues: nat -> real, seedZeroValues: nat -> real)
      requires Uniform(exploreValues) && Uniform(seedZeroValues)
      ensures Valid()
      ensures table == map[] && maxScore == 0 && !done
      ensures explore.values == exploreValues && explore.pos == 0
      ensures obstacles.values == seedZeroValues && obstacles.pos == 0
      ensures life.pipes == [] && life.frameClock == 0 && life.score == 0
      ensures life.bird.y == BIRD_START_Y && life.bird.msecToClimb == BIRD_START_CLIMB
      ensures history == InitialHistory(INITIAL_STATE) && fpsToNextAction == 0
      ensures oldPipe == null && !dead
    {
      table := map[];
      maxScore := 0;
      explore := new Stream(exploreValues);
      var rng := new Stream(seedZeroValues);
      obstacles := rng;
      life := new Life(rng);
      history := InitialHistory(INITIAL_STATE);
      fpsToNextAction := 0;
      oldPipe := null;
      dead := false;
      done := false;
    }

    /** The top of the outer loop: a fresh life that keeps the table, the
        best score, the exploration stream, old_pipe and dead, and starts
        the history and the interval countdown over. */
    method StartLife()
      requires explore != obstacles && explore.Valid() && obstacles.Valid()
      modifies this`life, this`history, this`fpsToNextAction, this`done, obstacles
      ensures Valid() && fresh(life)
      ensures life.pipes == [] && life.frameClock == 0 && life.score == 0 && obstacles.pos == 0
      ensures life.bird.y == BIRD_START_Y && life.bird.msecToClimb == BIRD_START_CLIMB
      ensures history == InitialHistory(INITIAL_STATE) && fpsToNextAction == 0 && !done
      ensures explore.pos == old(explore.pos)
    {
      life := new Life(obstacles);
      history := InitialHistory(INITIAL_STATE);
      fpsToNextAction := 0;
      done := false;
    }

    /** The agent's fields as one value. */
    ghost function AgentState(): Agent
      reads this`table, this`maxScore, this`history, this`dead, this`done
    {
      Agent(table, maxScore, history, dead, done)
    }

    /** The roll and the coin the next decision would draw. */
    ghost function Draws(): (int, int)
      requires explore.Valid()
      reads explore`pos
    {
      (FromUniform(explore.values(explore.pos), 1, 10), FromUniform(explore.values(explore.pos + 1), 0, 1))
    }

    /** What the agent sees now. */
    ghost function Seen(): Sight
      requires life.pipes != []
      reads this`life, this`oldPipe, life`score, life`pipes, life.bird`y, life.pipes`x
    {
      Sight(life.score, life.bird.y, life.pipes[0].bottomPieces, life.pipes[0].x, oldPipe != life.pipes[0])
    }

    /** What the agent will see in this frame once the spawn test has run,
        read off the start of the frame: the front pair is the current
        front, or the pair about to spawn from the next obstacle value; a
        spawn makes the front the new old_pipe. */
    ghost function Foreseen(): Sight
      requires obstacles.Valid()
      reads this`life, this`oldPipe, life`pipes, life`score, life`frameClock, life.bird`y, life.pipes`x, obstacles`pos
    {
      if life.pipes != [] then
        Sight(life.score, life.bird.y, life.pipes[0].bottomPieces, life.pipes[0].x,
              !SpawnDue(life.frameClock) && oldPipe != life.pipes[0])
      else
        Sight(life.score, life.bird.y,
              Pipes.PieceCounts(FromUniform(obstacles.values(obstacles.pos), 1, Pipes.TotalPipeBodyPieces())).1,
              Pipes.SPAWN_X, false)
    }

    /** At the start of an interval: choose the action and, on a flap,
        restart the climb timer (whatever was left of it). */
    method Decide()
      requires explore.Valid()
      modifies this`history, explore, life.bird`msecToClimb
      ensures AgentState() == old(Decided(AgentState(), fpsToNextAction, Draws().0, Draws().1, life.score))
      ensures explore.pos == old(explore.pos + DrawsUsed(fpsToNextAction, Draws().0, life.score, maxScore))
      ensures life.bird.msecToClimb
              == old(ClimbTimer(AgentState(), fpsToNextAction, Draws().0, Draws().1, life.score, life.bird.msecToClimb))
    {
      if fpsToNextAction == 0 {
        var a := DetermineAction(history.state, table, explore, life.score, maxScore);
        history := history.(action := a);
        if a {
          life.bird.msecToClimb := Birds.CLIMB_DURATION;
        }
      }
    }

    /** The end of an interval: detect death, encode the new state from the
        front pipe, apply the periodic update to the previous pair, and
        shift the history early <- previous <- current <- new. */
    method DecisionStep(hit: bool)
      requires life.pipes != []
      modifies this`dead, this`done, this`table, this`history, this`fpsToNextAction
      ensures AgentState()
              == old(EndOfInterval(AgentState(), hit, life.bird.y, life.pipes[0].bottomPieces, life.pipes[0].x))
      ensures fpsToNextAction == 0
    {
      dead := hit || Birds.OutOfBounds(life.bird.y);
      if dead {
        done := true;
      }
      var newState := Quantise(life.bird.y, life.pipes[0].bottomPieces, life.pipes[0].x, dead);
      var reward := Reward(dead);
      var maxReward := GetMaxReward(history.state, table, history.action);
      table := TdUpdate(table, history.previous, reward, GAMMA_INTERVAL, maxReward);
      history := Shift(history, newState);
      fpsToNextAction := 0;
    }

    /** The delayed bonus: when the front pipe is no longer old_pipe, the
        life beats the record and the bird is not dead, the early pair earns
        +100 and old_pipe becomes the front. */
    method Bonus()
      requires life.pipes != []
      modifies this`table, this`oldPipe
      ensures AgentState() == old(Bonused(AgentState(), oldPipe != life.pipes[0], life.score))
      ensures oldPipe == if old(BonusFires(AgentState(), oldPipe != life.pipes[0], life.score))
                         then life.pipes[0] else old(oldPipe)
    {
      if oldPipe != life.pipes[0] && life.score > maxScore {
        if !dead {
          var reward := Get(table, history.early);
          reward := reward + BONUS;
          table := table[history.early := reward];
          oldPipe := life.pipes[0];
        }
      }
    }

    /** The per-frame death check: on a collision or out of the window, end
        the life, apply the death update and record a new best score. */
    method DeathCheck(hit: bool)
      modifies this`done, this`table, this`maxScore
      ensures AgentState() == old(DeathChecked(AgentState(), hit, life.bird.y, life.score))
    {
      if hit || Birds.OutOfBounds(life.bird.y) {
        done := true;
        table := table[(history.state, history.action) := REWARD_DEATH];
        var reward := REWARD_DEATH;
        var maxReward := GetMaxReward(history.state, table, history.action);
        table := TdUpdate(table, history.previous, reward, GAMMA_DEATH, maxReward);
        if life.score > maxScore {
          maxScore := life.score;
        }
      }
    }

    /** Advance the decision countdown by one and run the spawn test; a
        spawn makes the front of the queue the new old_pipe. */
    method CountDownAndSpawn()
      requires Valid()
      modifies this`fpsToNextAction, this`oldPipe, obstacles, life`pipes
      ensures Spawned()
      ensures fpsToNextAction == old(fpsToNextAction) + 1
      ensures Seen() == old(Foreseen())
      ensures SpawnDue(life.frameClock) ==> oldPipe == life.pipes[0]
      ensures !SpawnDue(life.frameClock) ==> oldPipe == old(oldPipe)
      ensures SpawnedOnto(old(life.pipes), SpawnDue(life.frameClock), life.pipes)
      ensures SpawnDue(life.frameClock) ==> fresh(life.pipes[|life.pipes| - 1])
    {
      fpsToNextAction := fpsToNextAction + 1;
      var spawned := life.SpawnIfDue();
      if spawned {
        oldPipe := life.pipes[0];
      }
    }

    /** The start of a frame: the decision when an interval begins, then
        the countdown and the spawn test. */
    method BeginFrame()
      requires Valid()
      modifies this`history, this`fpsToNextAction, this`oldPipe, explore, obstacles,
               life`pipes, life.bird`msecToClimb
      ensures Spawned()
      ensures AgentState() == old(Decided(AgentState(), fpsToNextAction, Draws().0, Draws().1, life.score))
      ensures explore.pos == old(explore.pos + DrawsUsed(fpsToNextAction, Draws().0, life.score, maxScore))
      ensures life.bird.msecToClimb
              == old(ClimbTimer(AgentState(), fpsToNextAction, Draws().0, Draws().1, life.score, life.bird.msecToClimb))
      ensures fpsToNextAction == old(fpsToNextAction) + 1
      ensures Seen() == old(Foreseen())
      ensures SpawnDue(life.frameClock) ==> oldPipe == life.pipes[0]
      ensures !SpawnDue(life.frameClock) ==> oldPipe == old(oldPipe)
      ensures SpawnedOnto(old(life.pipes), SpawnDue(life.frameClock), life.pipes)
      ensures SpawnDue(life.frameClock) ==> fresh(life.pipes[|life.pipes| - 1])
    {
      Decide();
      CountDownAndSpawn();
    }

    /** After DECISION_INTERVAL frames the interval ends. */
    method EndIntervalIfDue(hit: bool)
      requires Spawned()
      modifies this`dead, this`done, this`table, this`history, this`fpsToNextAction
      ensures Spawned()
      ensures AgentState() == old(IntervalEnded(AgentState(), fpsToNextAction, hit, Seen()))
      ensures fpsToNextAction == old(fpsToNextAction) % DECISION_INTERVAL
    {
      if fpsToNextAction == DECISION_INTERVAL {
        DecisionStep(hit);
      }
    }

    /** The bonus test, then the per-frame death check. */
    method Settle(hit: bool)
      requires Spawned()
      modifies this`table, this`oldPipe, this`done, this`maxScore
      ensures Spawned()
      ensures AgentState()
              == old(DeathChecked(Bonused(AgentState(), Seen().frontChanged, life.score), hit, life.bird.y, life.score))
      ensures oldPipe == if old(BonusFires(AgentState(), Seen().frontChanged, life.score))
                         then life.pipes[0] else old(oldPipe)
    {
      Bonus();
      DeathCheck(hit);
    }

    /** The agent's half of a frame: everything before the world moves. */
    method AgentHalf(input: FrameInput)
      requires Valid()
      modifies this`history, this`fpsToNextAction, this`oldPipe, this`dead, this`done, this`table, this`maxScore,
               explore, obstacles, life`pipes, life.bird`msecToClimb
      ensures Spawned() && fpsToNextAction < DECISION_INTERVAL
      ensures AgentState() == old(AgentFrame(AgentState(), fpsToNextAction, Draws().0, Draws().1,
                                             input.hitAtDecision, input.hitAtCheck, Foreseen()))
      ensures fpsToNextAction == (old(fpsToNextAction) + 1) % DECISION_INTERVAL
      ensures explore.pos == old(explore.pos + DrawsUsed(fpsToNextAction, Draws().0, life.score, maxScore))
      ensures life.bird.msecToClimb
              == old(ClimbTimer(AgentState(), fpsToNextAction, Draws().0, Draws().1, life.score, life.bird.msecToClimb))
      ensures SpawnedOnto(old(life.pipes), SpawnDue(life.frameClock), life.pipes)
      ensures SpawnDue(life.frameClock) ==> fresh(life.pipes[|life.pipes| - 1])
      ensures oldPipe == if SpawnDue(life.frameClock)
                           || old(FrameBonusFires(AgentState(), fpsToNextAction, Draws().0, Draws().1,
                                                  input.hitAtDecision, Foreseen()))
                         then life.pipes[0] else old(oldPipe)
    {
      BeginFrame();
      EndIntervalIfDue(input.hitAtDecision);
      Settle(input.hitAtCheck);
    }

    /** The world's half of a frame. */
    method WorldHalf(ease: real)
      requires Spawned() && fpsToNextAction < DECISION_INTERVAL
      modifies life`pipes, life`score, life`counted, life`frameClock, life.pipes, life.bird`y, life.bird`msecToClimb
      ensures Valid()
      ensures life.frameClock == old(life.frameClock) + 1
      ensures (life.bird.y, life.bird.msecToClimb) == Birds.Flight(old(life.bird.y), old(life.bird.msecToClimb), 1.0, ease)
      ensures life.counted == old(life.counted) + life.PassedBy(life.pipes, life.frameClock, old(life.counted))
      ensures life.score == old(life.score) + |life.PassedBy(life.pipes, life.frameClock, old(life.counted))|
      ensures PrunedAt(old(life.pipes), old(life.frameClock), life.pipes)
      ensures forall i | 0 <= i < |life.pipes| :: life.pipes[i] in old(life.pipes)
    {
      life.Step(ease);
    }

    /** One pass of `while not done`, with paused always false and the event
        queue left out: the agent's half, then the world's. */
    method Frame(input: FrameInput)
      requires Valid()
      modifies this, explore, obstacles, life, life.bird, life.pipes
      ensures Valid()
      ensures life == old(life) && life.frameClock == old(life.frameClock) + 1
      ensures AgentState() == old(AgentFrame(AgentState(), fpsToNextAction, Draws().0, Draws().1,
                                             input.hitAtDecision, input.hitAtCheck, Foreseen()))
      ensures fpsToNextAction == (old(fpsToNextAction) + 1) % DECISION_INTERVAL
      ensures explore.pos == old(explore.pos + DrawsUsed(fpsToNextAction, Draws().0, life.score, maxScore))
      ensures (life.bird.y, life.bird.msecToClimb)
              == Birds.Flight(old(life.bird.y),
                              old(ClimbTimer(AgentState(), fpsToNextAction, Draws().0, Draws().1, life.score, life.bird.msecToClimb)),
                              1.0, input.ease)
      ensures life.counted == old(life.counted) + life.PassedBy(life.pipes, life.frameClock, old(life.counted))
      ensures life.score == old(life.score) + |life.PassedBy(life.pipes, life.frameClock, old(life.counted))|
      ensures forall i | 0 <= i < |life.pipes| :: life.pipes[i] in old(life.pipes) || fresh(life.pipes[i])
    {
      ghost var before := life.pipes;
      AgentHalf(input);
      ghost var spawned := life.pipes;
      WorldHalf(input.ease);
      SpawnThenPrune(before, SpawnDue(old(life.frameClock)), spawned, old(life.frameClock), life.pipes);
    }

    /** The loop's part of the game besides the world, as one value. */
    ghost function TurnState(): Turn
      reads this`table, this`maxScore, this`history, this`dead, this`done, this`fpsToNextAction, explore`pos
    {
      Turn(AgentState(), fpsToNextAction, explore.pos)
    }

    /** One frame as the inner loop sees it: what the agent saw, and the
        Turn the frame leaves, as NextTurn of the Turn before it. */
    method PlayFrame(input: FrameInput) returns (ghost sight: Sight)
      requires Valid()
      modifies this, explore, obstacles, life, life.bird, life.pipes
      ensures Valid()
      ensures sight == old(Foreseen())
      ensures TurnState() == old(NextTurn(TurnState(), explore.values, input, Foreseen()))
      ensures life == old(life) && life.frameClock == old(life.frameClock) + 1 && old(life.score) <= life.score
      ensures forall i | 0 <= i < |life.pipes| :: life.pipes[i] in old(life.pipes) || fresh(life.pipes[i])
    {
      sight := Foreseen();
      ghost var before := TurnState();
      Frame(input);
      NextTurnOf(before, explore.values, input, sight, AgentState(), fpsToNextAction, explore.pos);
    }

    /** The inner `while not done` loop of one life, driven by one input per
        frame: it stops after the frame that ends the life, or when the
        inputs run out. `trace` holds the Turn before each frame and after
        the last, and `seen` what the agent saw in each frame: the frames
        replay the inputs one by one, none is played once the life is over,
        and `ended` records that only the last frame played can have ended
        it. The table only grows and the best score and the life's score
        never fall. */
    method PlayLife(inputs: seq<FrameInput>)
      returns (played: nat, ghost ended: seq<bool>, ghost trace: seq<Turn>, ghost seen: seq<Sight>)
      requires Valid()
      modifies this, explore, obstacles, life, life.bird, life.pipes
      ensures Valid()
      ensures played <= |inputs| && (done || played == |inputs|) && (old(done) ==> played == 0)
      ensures |seen| == played && |trace| == played + 1
      ensures trace[0] == old(TurnState()) && trace[played] == TurnState()
      ensures Replays(trace, explore.values, inputs, seen)
      ensures |ended| == played
      ensures forall k | 0 <= k < played :: ended[k] == trace[k + 1].agent.done == (k == played - 1 && done)
      ensures life == old(life) && life.frameClock == old(life.frameClock) + played
      ensures old(table).Keys <= table.Keys && old(maxScore) <= maxScore
      ensures old(life.score) <= life.score && (old(done) ==> done)
    {
      played := 0;
      ended := [];
      trace := [TurnState()];
      seen := [];
      while played < |inputs| && !done
        invariant Valid()
        invariant played <= |inputs| && (old(done) ==> played == 0)
        invariant |seen| == played && |trace| == played + 1
        invariant trace[0] == old(TurnState()) && trace[played] == TurnState()
        invariant Replays(trace, explore.values, inputs, seen)
        invariant |ended| == played
        invariant forall k | 0 <= k < played :: ended[k] == trace[k + 1].agent.done == (k == played - 1 && done)
        invariant life == old(life) && life.frameClock == old(life.frameClock) + played
        invariant old(life.score) <= life.score && (old(done) ==> done)
        invariant forall i | 0 <= i < |life.pipes| :: life.pipes[i] in old(life.pipes) || fresh(life.pipes[i])
        decreases |inputs| - played
      {
        var sight := PlayFrame(inputs[played]);
        ghost var after := TurnState();
        ReplayExtends(trace, explore.values, inputs, seen, sight, after);
        played := played + 1;
        ended := ended + [done];
        trace := trace + [after];
        seen := seen + [sight];
      }
      ReplayGrows(trace, explore.values, inputs, seen, played);
    }
  }
}
