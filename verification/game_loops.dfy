/** The fixed-timestep scheduler of src/GameLoop.ts ("play catch-up").

    The browser's frame scheduler becomes a running flag (the source's
    `ref_id != null`) and the timestamps become arguments. The game the loop
    drives is an outside collaborator: what it is asked to do is recorded as
    a list of calls, and what its `update` answers is an argument
    `outcome`, where `outcome(k)` is the answer to the k-th `update` call of
    the frame. */
module GameLoops {

  /** A call the loop makes on the game. */
  datatype Call = ProcessInput(timestamp: real) | Update(elapsed: real) | Render

  /** `n` calls of `update`, each with the fixed step `ms`. */
  function Updates(n: nat, ms: real): (r: seq<Call>)
    ensures |r| == n && forall i :: 0 <= i < n ==> r[i] == Update(ms)
  {
    if n == 0 then [] else Updates(n - 1, ms) + [Update(ms)]
  }

  /** How many whole fixed steps fit in `lag` (none when it is negative). */
  function WholeSteps(lag: real, ms: real): (n: nat)
    requires ms > 0.0
    ensures (n as real) * ms <= if lag < 0.0 then 0.0 else lag
    ensures lag < ((n + 1) as real) * ms
  {
    var q := (lag / ms).Floor;
    FloorProduct(lag, ms);
    if q < 0 then 0 else q
  }

  lemma FloorProduct(lag: real, ms: real)
    requires ms > 0.0
    ensures ((lag / ms).Floor as real) * ms <= lag
    ensures lag < (((lag / ms).Floor + 1) as real) * ms
  {
    var r := lag / ms;
    var q := r.Floor as real;
    assert r * ms == lag;
    assert q <= r < q + 1.0;
    assert q * ms <= r * ms;
    var q1 := (r.Floor + 1) as real;
    assert q1 == q + 1.0;
    assert r * ms < q1 * ms;
    assert lag < q1 * ms;
  }

  /** Multiples of a positive step are ordered as their counts. */
  lemma CountsOrderedAsMultiples(c: int, d: int, ms: real)
    requires ms > 0.0 && (c as real) * ms < (d as real) * ms
    ensures c < d
  {
    var diff := (d - c) as real;
    assert diff * ms == (d as real) * ms - (c as real) * ms;
    assert diff * ms > 0.0;
  }

  /** Every count of steps that fits in `lag` is at most WholeSteps. */
  lemma StepsFitBelowWhole(c: nat, lag: real, ms: real)
    requires ms > 0.0 && (c as real) * ms <= lag
    ensures c <= WholeSteps(lag, ms)
  {
    CountsOrderedAsMultiples(c, WholeSteps(lag, ms) + 1, ms);
  }

  /** WholeSteps is at most every count whose next multiple exceeds `lag`. */
  lemma WholeBelowSteps(c: nat, lag: real, ms: real)
    requires ms > 0.0 && lag < ((c + 1) as real) * ms
    ensures WholeSteps(lag, ms) <= c
  {
    var n := WholeSteps(lag, ms);
    if lag >= 0.0 {
      CountsOrderedAsMultiples(n, c + 1, ms);
    }
  }

  class GameLoop {
    /** The timestamp of the previous frame, or of `start`. */
    var previous: real
    /** How far, in ms, the game's "now" is behind the real one. */
    var lag: real
    /** The fixed step every `update` advances the game by. */
    const msPerUpdate: real
    /** `ref_id != null`: a frame request is outstanding. */
    var running: bool
    /** `game != null`. */
    const hasGame: bool

    /** In the source `previous` and `lag` are undefined until `start`; here
        they begin at 0. The step is required to be positive: with a step of
        0 or less the drain loop, once started, stops only when an `update`
        reports game over. */
    constructor (hasGame: bool, msPerUpdate: real)
      requires msPerUpdate > 0.0
      ensures this.hasGame == hasGame && this.msPerUpdate == msPerUpdate
      ensures !running && previous == 0.0 && lag == 0.0
    {
      this.hasGame := hasGame;
      this.msPerUpdate := msPerUpdate;
      previous, lag, running := 0.0, 0.0, false;
    }

    predicate IsRunning()
      reads this
    {
      running
    }

    /** When stopped: remember `now` (the source's `performance.now()`),
        clear the lag and request a frame. When running: nothing. */
    method Start(now: real)
      modifies this
      ensures running
      ensures old(running) ==> previous == old(previous) && lag == old(lag)
      ensures !old(running) ==> previous == now && lag == 0.0
    {
      if !IsRunning() {
        previous := now;
        lag := 0.0;
        running := true;
      }
    }

    /** When running: cancel the frame request. The clock state is kept. */
    method Stop()
      modifies this
      ensures !running
      ensures previous == old(previous) && lag == old(lag)
    {
      if IsRunning() {
        running := false;
      }
    }

    method Toggle(now: real)
      modifies this
      ensures running == !old(running)
      ensures old(running) ==> previous == old(previous) && lag == old(lag)
      ensures !old(running) ==> previous == now && lag == 0.0
    {
      if IsRunning() {
        Stop();
      } else {
        Start(now);
      }
    }

    /** One animation frame at `timestamp`. The time since the previous frame
        is added to the lag, which is then drained in fixed steps, one
        `update` per step, until it is less than one step or an `update`
        reports game over; input is processed once before and the game
        rendered once after. Returns whether another frame is requested and
        the calls made on the game. */
    method Step(timestamp: real, outcome: nat -> bool) returns (again: bool, calls: seq<Call>)
      requires msPerUpdate > 0.0
      modifies this
      ensures previous == timestamp
      ensures !hasGame ==> calls == [] && again && lag == old(lag) + (timestamp - old(previous))
      // `update` is called n times, between one `processInput` and one `render`
      ensures hasGame ==>
        |calls| >= 2 && calls == [ProcessInput(timestamp)] + Updates(|calls| - 2, msPerUpdate) + [Render]
      ensures hasGame ==>
        var lagBefore, n := old(lag) + (timestamp - old(previous)), |calls| - 2;
        // never more than the whole steps in the lag, each taking one step off it
        && n <= WholeSteps(lagBefore, msPerUpdate)
        && lag == lagBefore - (n as real) * msPerUpdate
        // the loop stops right after the first game over, and only then early
        && (forall k :: 0 <= k < n - 1 ==> !outcome(k))
        && (again <==> !(n > 0 && outcome(n - 1)))
        && (again ==> n == WholeSteps(lagBefore, msPerUpdate))
        // a non-negative lag is drained to less than one step
        && (again && lagBefore >= 0.0 ==> 0.0 <= lag < msPerUpdate)
      ensures again ==> running == old(running)
      ensures !again ==> !running
    {
      var elapsed := timestamp - previous;
      previous := timestamp;
      lag := lag + elapsed;
      var gameover := false;
      calls := [];
      if hasGame {
        var n;
        gameover, n := CatchUp(outcome);
        calls := [ProcessInput(timestamp)] + Updates(n, msPerUpdate) + [Render];
      }
      if gameover {
        running := false;
      }
      again := !gameover;
    }

    /** The drain loop of `step`: while no game over has been reported and
        at least one step is left in the lag, `update` the game by one step
        and take the step off the lag. Returns whether the game is over and
        how many `update` calls were made. */
    method CatchUp(outcome: nat -> bool) returns (gameover: bool, n: nat)
      requires msPerUpdate > 0.0
      modifies this`lag
      // never more than the whole steps in the lag, each taking one step off it
      ensures n <= WholeSteps(old(lag), msPerUpdate)
      ensures lag == old(lag) - (n as real) * msPerUpdate
      // the loop stops right after the first game over, and only then early
      ensures forall k :: 0 <= k < n - 1 ==> !outcome(k)
      ensures gameover <==> n > 0 && outcome(n - 1)
      ensures !gameover ==> n == WholeSteps(old(lag), msPerUpdate)
      // a non-negative lag is drained to less than one step
      ensures !gameover && old(lag) >= 0.0 ==> 0.0 <= lag < msPerUpdate
    {
      ghost var whole := WholeSteps(lag, msPerUpdate);
      gameover, n := false, 0;
      while !gameover && lag >= msPerUpdate
        invariant n <= whole
        invariant lag == old(lag) - (n as real) * msPerUpdate
        invariant forall j :: 0 <= j < n - 1 ==> !outcome(j)
        invariant gameover <==> n > 0 && outcome(n - 1)
        invariant old(lag) >= 0.0 ==> lag >= 0.0
        decreases whole - n
      {
        assert ((n + 1) as real) * msPerUpdate == (n as real) * msPerUpdate + msPerUpdate;
        StepsFitBelowWhole(n + 1, old(lag), msPerUpdate);
        gameover := outcome(n);
        lag := lag - msPerUpdate;
        n := n + 1;
      }
      if !gameover {
        WholeBelowSteps(n, old(lag), msPerUpdate);
      }
    }
  }

  /** A frame that comes ten whole steps after `start` runs `update` exactly
      ten times and renders once, when no update ends the game; afterwards the
      lag is empty and another frame is requested. */
  method CatchUpTenSteps(start: real, ms: real) returns (calls: seq<Call>, again: bool, lagAfter: real)
    requires ms > 0.0
    ensures again && lagAfter == 0.0
    ensures calls == [ProcessInput(start + 10.0 * ms)] + Updates(10, ms) + [Render]
  {
    assert (10.0 * ms) / ms == 10.0;
    assert WholeSteps(10.0 * ms, ms) == 10;
    var loop := new GameLoop(true, ms);
    loop.Start(start);
    again, calls := loop.Step(start + 10.0 * ms, _ => false);
    lagAfter := loop.lag;
  }

  /** A frame delivered after `stop` is still played. `stop` cancels the
      request `start` made, but `step` does not remember the requests it
      makes, so the one from the first frame stays pending: the next frame
      updates and renders the game and requests yet another frame, though
      the loop no longer counts as running. */
  method FrameAfterStop(start: real, ms: real) returns (again: bool, calls: seq<Call>, running: bool)
    requires ms > 0.0
    ensures again && !running
    ensures calls == [ProcessInput(start + 2.0 * ms)] + Updates(1, ms) + [Render]
  {
    assert ms / ms == 1.0;
    assert WholeSteps(ms, ms) == 1;
    var loop := new GameLoop(true, ms);
    loop.Start(start);
    var first, _ := loop.Step(start + ms, _ => false);
    loop.Stop();
    again, calls := loop.Step(start + 2.0 * ms, _ => false);
    running := loop.IsRunning();
  }
}
