/**
 * Whole games: sequences of the events the view can receive, and what
 * they do to the state of `ContentView`.
 *
 * The view only offers an action while its control is on screen: the
 * "Starte Runde" button is shown when the game is not over, the ready
 * animation is not running and no tap is awaited; the restart button,
 * the save alert and the name sheet belong to the game-over screen. A
 * cue is delivered only when one is scheduled. An event that the view
 * does not offer in a state leaves that state alone.
 */
module Session {
  import opened Wrappers
  import opened Scoring
  import opened ContentView

  datatype Event =
    | StartPressed
    | CueFired
    | ScreenTapped
    | TimePassed(ms: nat)
    | RestartPressed
    | NameEntered(name: string)
    | SavePressed

  /** Whether the "Starte Runde" button is on screen. */
  predicate StartButtonShown(s: Snapshot) {
    !s.isGameOver && !s.showReadyAnimation && !s.isWaiting
  }

  function Step(s: Snapshot, e: Event): Snapshot {
    match e
    case StartPressed => if StartButtonShown(s) then Started(s) else s
    case CueFired => if s.pendingCues > 0 then CueShown(s) else s
    case ScreenTapped => TapHandled(s)
    case TimePassed(ms) => Advanced(s, ms)
    case RestartPressed => if s.isGameOver then Restarted(s) else s
    case NameEntered(name) => NameTyped(s, name)
    case SavePressed => if s.isGameOver then ScoreSaved(s) else s
  }

  function Run(s: Snapshot, events: seq<Event>): Snapshot
    decreases |events|
  {
    if events == [] then s else Run(Step(s, events[0]), events[1..])
  }

  /** The points a single event awards: one entry for a scored tap, none otherwise. */
  function Award(s: Snapshot, e: Event): seq<int> {
    if e.ScreenTapped? && s.isWaiting && s.startTime.Some? then [Points(s.now - s.startTime.value)] else []
  }

  /** The points of every round scored while `events` run from `s`, in order. */
  function Awards(s: Snapshot, events: seq<Event>): seq<int>
    decreases |events|
  {
    if events == [] then [] else Award(s, events[0]) + Awards(Step(s, events[0]), events[1..])
  }

  /** Whether `events` contains no restart and no save, so one game runs on. */
  predicate OneGame(events: seq<Event>) {
    forall i :: 0 <= i < |events| ==> !events[i].RestartPressed? && !events[i].SavePressed?
  }

  function Sum(xs: seq<int>): int
    decreases |xs|
  {
    if xs == [] then 0 else xs[0] + Sum(xs[1..])
  }

  /** `best` raised by every element of `xs`, as `bestRoundScore = max(bestRoundScore, points)` does. */
  function BestOf(best: int, xs: seq<int>): int
    decreases |xs|
  {
    if xs == [] then best else BestOf(if best < xs[0] then xs[0] else best, xs[1..])
  }

  /**
   * What holds in every state the view reaches: the round counter runs
   * from 1 to 6 and is 6 exactly when the game is over; at most one cue
   * is scheduled, exactly while the ready animation runs; a tap is
   * awaited only with a start time and never after the game; the scores
   * are bounded by 100 points per completed round with the best round
   * never above the total.
   */
  ghost predicate Inv(s: Snapshot) {
    && 1 <= s.round <= RoundsPerGame + 1
    && (s.isGameOver <==> s.round == RoundsPerGame + 1)
    && s.pendingCues <= 1
    && (s.pendingCues == 1 <==> s.showReadyAnimation)
    && (s.showReadyAnimation ==> !s.isWaiting && !s.isGameOver)
    && (s.isWaiting ==> s.startTime.Some? && !s.isGameOver)
    && (s.startTime.Some? ==> s.startTime.value <= s.now)
    && 0 <= s.reactionTime
    && 0 <= s.bestRoundScore <= s.score <= MaxPoints * (s.round - 1)
    && s.bestRoundScore <= MaxPoints
  }

  lemma InitialInv(t0: int)
    ensures Inv(Initial(t0))
  {
  }

  lemma StepInv(s: Snapshot, e: Event)
    requires Inv(s)
    ensures Inv(Step(s, e))
  {
  }

  /** Every state reached from an invariant state satisfies the invariant. */
  lemma {:induction false} RunInv(s: Snapshot, events: seq<Event>)
    requires Inv(s)
    ensures Inv(Run(s, events))
    decreases |events|
  {
    if events != [] {
      StepInv(s, events[0]);
      RunInv(Step(s, events[0]), events[1..]);
    }
  }

  /** The view never reaches a seventh round, and a finished game is always at round six. */
  lemma {:induction false} RoundBounded(t0: int, events: seq<Event>)
    ensures var r := Run(Initial(t0), events);
      1 <= r.round <= RoundsPerGame + 1 && (r.isGameOver ==> r.round == RoundsPerGame + 1)
  {
    InitialInv(t0);
    RunInv(Initial(t0), events);
  }

  /** Nothing is scheduled and nothing awaited on the game-over screen, so a restart there cancels nothing. */
  lemma GameOverIsQuiet(s: Snapshot)
    requires Inv(s) && s.isGameOver
    ensures s.pendingCues == 0 && !s.showReadyAnimation && !s.isWaiting
  {
  }

  /**
   * Within one game the state is the bookkeeping of the rounds scored:
   * the score grows by their points, the best round score is the largest
   * of them and the round counter advances once per scored round.
   */
  lemma {:induction false} RunAccounting(s: Snapshot, events: seq<Event>)
    requires OneGame(events)
    ensures var r, aw := Run(s, events), Awards(s, events);
      r.score == s.score + Sum(aw) &&
      r.bestRoundScore == BestOf(s.bestRoundScore, aw) &&
      r.round == s.round + |aw|
    decreases |events|
  {
    if events != [] {
      var e, rest := events[0], events[1..];
      assert OneGame(rest) by {
        forall i | 0 <= i < |rest| ensures !rest[i].RestartPressed? && !rest[i].SavePressed? {
          assert rest[i] == events[i + 1];
        }
      }
      assert !e.RestartPressed? && !e.SavePressed? by { assert e == events[0]; }
      var t := Step(s, e);
      RunAccounting(t, rest);
      var head, tail := Award(s, e), Awards(t, rest);
      if head != [] {
        assert (head + tail)[0] == head[0];
        assert (head + tail)[1..] == tail;
      } else {
        assert head + tail == tail;
      }
    }
  }

  /** The best round score is one of the awards (or the starting value) and no award exceeds it. */
  lemma {:induction false} BestOfIsMax(best: int, xs: seq<int>)
    ensures best <= BestOf(best, xs)
    ensures forall i :: 0 <= i < |xs| ==> xs[i] <= BestOf(best, xs)
    ensures BestOf(best, xs) == best || exists i :: 0 <= i < |xs| && BestOf(best, xs) == xs[i]
    decreases |xs|
  {
    if xs != [] {
      var b := if best < xs[0] then xs[0] else best;
      BestOfIsMax(b, xs[1..]);
      forall i | 0 <= i < |xs| ensures xs[i] <= BestOf(best, xs) {
        if i > 0 {
          assert xs[i] == xs[1..][i - 1];
        }
      }
      if BestOf(best, xs) != best && BestOf(best, xs) != xs[0] {
        var j :| 0 <= j < |xs[1..]| && BestOf(b, xs[1..]) == xs[1..][j];
        assert xs[j + 1] == xs[1..][j];
      }
    }
  }

  lemma {:induction false} SumNonNegative(xs: seq<int>)
    requires forall i :: 0 <= i < |xs| ==> 0 <= xs[i]
    ensures 0 <= Sum(xs)
    decreases |xs|
  {
    if xs != [] {
      assert forall i :: 0 <= i < |xs[1..]| ==> xs[1..][i] == xs[i + 1];
      SumNonNegative(xs[1..]);
    }
  }

  lemma {:induction false} AwardsInRange(s: Snapshot, events: seq<Event>)
    requires Inv(s)
    ensures forall i :: 0 <= i < |Awards(s, events)| ==> 0 <= Awards(s, events)[i] <= MaxPoints
    decreases |events|
  {
    if events != [] {
      var t := Step(s, events[0]);
      StepInv(s, events[0]);
      AwardsInRange(t, events[1..]);
      var head, tail := Award(s, events[0]), Awards(t, events[1..]);
      assert Awards(s, events) == head + tail;
      forall i | 0 <= i < |head + tail| ensures 0 <= (head + tail)[i] <= MaxPoints {
        if i >= |head| {
          assert (head + tail)[i] == tail[i - |head|];
        }
      }
    }
  }

  /** Within one game the total score never goes down. */
  lemma ScoreNeverDecreases(s: Snapshot, events: seq<Event>)
    requires Inv(s) && OneGame(events)
    ensures s.score <= Run(s, events).score
  {
    RunAccounting(s, events);
    AwardsInRange(s, events);
    SumNonNegative(Awards(s, events));
  }

  /**
   * A game started from round one is over exactly when five rounds have
   * been scored, and never scores more than five; its total is the sum
   * and its best round score the maximum of the rounds' points.
   */
  lemma FiveRoundsEndTheGame(s: Snapshot, events: seq<Event>)
    requires Inv(s) && s.round == 1 && OneGame(events)
    ensures var r, aw := Run(s, events), Awards(s, events);
      |aw| <= RoundsPerGame &&
      (r.isGameOver <==> |aw| == RoundsPerGame) &&
      r.score == Sum(aw) &&
      r.bestRoundScore == BestOf(0, aw)
  {
    RunAccounting(s, events);
    RunInv(s, events);
  }

  /**
   * Two states that agree on everything the game reads: the counters,
   * the flags, the scheduled cues, and (while a tap is awaited) the time
   * since the cue. The absolute clock, the stored name and the saved
   * entries may differ.
   */
  predicate SameGame(a: Snapshot, b: Snapshot) {
    && a.round == b.round && a.score == b.score && a.bestRoundScore == b.bestRoundScore
    && a.isWaiting == b.isWaiting && a.isGameOver == b.isGameOver
    && a.showReadyAnimation == b.showReadyAnimation && a.pendingCues == b.pendingCues
    && a.reactionTime == b.reactionTime
    && (a.isWaiting ==> a.startTime.Some? && b.startTime.Some? &&
                        a.now - a.startTime.value == b.now - b.startTime.value)
  }

  lemma {:induction false} SameGameRun(a: Snapshot, b: Snapshot, events: seq<Event>)
    requires SameGame(a, b)
    ensures Awards(a, events) == Awards(b, events)
    ensures SameGame(Run(a, events), Run(b, events))
    decreases |events|
  {
    if events != [] {
      SameGameRun(Step(a, events[0]), Step(b, events[0]), events[1..]);
    }
  }

  /**
   * A restart from the game-over screen behaves like a freshly created
   * view: whatever events follow, the same rounds are scored with the
   * same points and the game state agrees with that of the fresh view.
   */
  lemma RestartLikeFresh(s: Snapshot, t0: int, events: seq<Event>)
    requires Inv(s) && s.isGameOver
    ensures Awards(Run(s, [RestartPressed]), events) == Awards(Initial(t0), events)
    ensures SameGame(Run(Run(s, [RestartPressed]), events), Run(Initial(t0), events))
  {
    assert Run(s, [RestartPressed]) == Restarted(s);
    SameGameRun(Restarted(s), Initial(t0), events);
  }
}
