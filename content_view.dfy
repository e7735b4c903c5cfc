/**
 * The round and scoring state machine of the reaction test's main view.
 *
 * The view keeps its game state in mutable fields and changes them in
 * `startRound`, the deferred cue callback that `startRound` schedules,
 * `endRound`, `restartGame` and `saveScore`. Here the fields are those of
 * class `Game`, and each of its methods is specified by a pure transition
 * on `Snapshot`, the value of all the fields at one moment.
 *
 * Two things outside the view are made explicit:
 *  - the wall clock `Date()` is the field `now`, a number of milliseconds
 *    that only time passing (`Advanced`) moves forward;
 *  - the callback scheduled with `asyncAfter` is counted in `pendingCues`
 *    and runs when the cue event is delivered.
 * The score store is a sink: `saved` is the list of entries handed to it.
 */
module ContentView {
  import opened Wrappers
  import opened Scoring

  /** What `saveScore` hands to the score store. */
  datatype ScoreEntry = ScoreEntry(name: string, points: int, reactionTime: int)

  /** The view's game state, plus the clock, the scheduled cues and the store. */
  datatype Snapshot = Snapshot(
    round: int,
    score: int,
    isWaiting: bool,
    reactionTime: int,
    startTime: Option<int>,
    isGameOver: bool,
    bestRoundScore: int,
    playerName: string,
    showReadyAnimation: bool,
    now: int,
    pendingCues: nat,
    saved: seq<ScoreEntry>)

  /** The state a freshly created view starts in, at clock time `t0`. */
  function Initial(t0: int): (s: Snapshot)
    ensures s.round == 1 && s.score == 0 && s.bestRoundScore == 0
    ensures !s.isWaiting && !s.isGameOver && !s.showReadyAnimation
    ensures s.startTime == None && s.pendingCues == 0 && s.saved == []
  {
    Snapshot(1, 0, false, 0, None, false, 0, "", false, t0, 0, [])
  }

  /** `startRound`: arm a round unless five rounds are done, and schedule the cue. */
  function Started(s: Snapshot): Snapshot {
    if s.round > RoundsPerGame then s
    else s.(isWaiting := false, reactionTime := 0, showReadyAnimation := true,
            pendingCues := s.pendingCues + 1)
  }

  /** The scheduled callback: hide the ready animation, wait for a tap, start timing. */
  function CueShown(s: Snapshot): Snapshot
    requires s.pendingCues > 0
  {
    s.(showReadyAnimation := false, isWaiting := true, startTime := Some(s.now),
       pendingCues := s.pendingCues - 1)
  }

  /** `endRound`: score the reaction measured from `startTime` to now. */
  function RoundEnded(s: Snapshot): Snapshot {
    if !s.isWaiting then s
    else match s.startTime
      case None => s.(isWaiting := false)
      case Some(t) =>
        var elapsed := s.now - t;
        var points := Points(elapsed);
        var round := s.round + 1;
        s.(isWaiting := false,
           reactionTime := elapsed,
           score := s.score + points,
           bestRoundScore := if s.bestRoundScore < points then points else s.bestRoundScore,
           round := round,
           isGameOver := if round > RoundsPerGame then true else s.isGameOver)
  }

  /** The tap gesture on the view: it ends the round only while a tap is awaited. */
  function TapHandled(s: Snapshot): Snapshot {
    if s.isWaiting then RoundEnded(s) else s
  }

  /** `restartGame`: reset the counters of the game (and nothing else). */
  function Restarted(s: Snapshot): Snapshot {
    s.(round := 1, score := 0, reactionTime := 0, isWaiting := false,
       isGameOver := false, bestRoundScore := 0)
  }

  /** `saveScore`: submit the best round score under the player's name, then restart. */
  function ScoreSaved(s: Snapshot): Snapshot {
    Restarted(s.(saved := s.saved + [ScoreEntry(DefaultName(s.playerName), s.bestRoundScore, s.reactionTime)]))
  }

  /** The name text field writing `playerName`. */
  function NameTyped(s: Snapshot, name: string): Snapshot {
    s.(playerName := name)
  }

  /** Time passing on the wall clock. */
  function Advanced(s: Snapshot, ms: nat): Snapshot {
    s.(now := s.now + ms)
  }

  /** Outside the game over the round counter stays put and nothing is awaited. */
  lemma StartedArms(s: Snapshot)
    ensures s.round > RoundsPerGame ==> Started(s) == s
    ensures s.round <= RoundsPerGame ==>
      var r := Started(s);
      r.showReadyAnimation && !r.isWaiting && r.reactionTime == 0 &&
      r.pendingCues == s.pendingCues + 1 &&
      r.round == s.round && r.score == s.score && r.bestRoundScore == s.bestRoundScore &&
      r.isGameOver == s.isGameOver && r.startTime == s.startTime
  {
  }

  /** The cue starts timing whatever the round: it does not check which round scheduled it. */
  lemma CueShownWaits(s: Snapshot)
    requires s.pendingCues > 0
    ensures var r := CueShown(s);
      r.isWaiting && !r.showReadyAnimation && r.startTime == Some(s.now) &&
      r.pendingCues == s.pendingCues - 1 &&
      r.round == s.round && r.score == s.score && r.bestRoundScore == s.bestRoundScore &&
      r.isGameOver == s.isGameOver
  {
  }

  /**
   * A scored `endRound` adds exactly the round's points to the score,
   * raises the best round score to at least those points, advances the
   * round, stops waiting, and ends the game exactly when the round
   * counter passes five.
   */
  lemma RoundEndedScores(s: Snapshot)
    requires s.isWaiting && s.startTime.Some?
    ensures var p := Points(s.now - s.startTime.value);
      var r := RoundEnded(s);
      r.score == s.score + p && r.score >= s.score &&
      r.bestRoundScore >= s.bestRoundScore && r.bestRoundScore >= p &&
      (r.bestRoundScore == s.bestRoundScore || r.bestRoundScore == p) &&
      r.round == s.round + 1 && !r.isWaiting &&
      r.reactionTime == s.now - s.startTime.value &&
      (r.isGameOver <==> s.isGameOver || r.round > RoundsPerGame)
  {
  }

  /** `endRound` without a running round changes nothing; without a start time it only stops waiting. */
  lemma RoundEndedGuards(s: Snapshot)
    ensures !s.isWaiting ==> RoundEnded(s) == s
    ensures s.isWaiting && s.startTime.None? ==> RoundEnded(s) == s.(isWaiting := false)
  {
  }

  /** A tap during the ready animation (cue not yet shown) is ignored. */
  lemma TapDuringReadyIgnored(s: Snapshot)
    requires s.showReadyAnimation && !s.isWaiting
    ensures TapHandled(s) == s
  {
  }

  /** Restarting twice is the same as restarting once, and a restart puts the counters back to the start. */
  lemma RestartIdempotent(s: Snapshot)
    ensures Restarted(Restarted(s)) == Restarted(s)
    ensures var r := Restarted(s);
      r.round == 1 && r.score == 0 && r.bestRoundScore == 0 && r.reactionTime == 0 &&
      !r.isWaiting && !r.isGameOver
  {
  }

  /** Saving appends one entry with the best round score, named by `DefaultName`, and restarts. */
  lemma ScoreSavedRecords(s: Snapshot)
    ensures var r := ScoreSaved(s);
      r.saved == s.saved + [ScoreEntry(DefaultName(s.playerName), s.bestRoundScore, s.reactionTime)] &&
      r == Restarted(s).(saved := r.saved)
  {
  }

  /**
   * The mutable state of the view. Each method is one event; its
   * contract ties the new state to the transition of the same name.
   */
  class Game {
    var round: int
    var score: int
    var isWaiting: bool
    var reactionTime: int
    var startTime: Option<int>
    var isGameOver: bool
    var bestRoundScore: int
    var playerName: string
    var showReadyAnimation: bool
    var now: int
    var pendingCues: nat
    var saved: seq<ScoreEntry>

    /** The value of all fields. */
    function Snap(): Snapshot
      reads this
    {
      Snapshot(round, score, isWaiting, reactionTime, startTime, isGameOver,
               bestRoundScore, playerName, showReadyAnimation, now, pendingCues, saved)
    }

    constructor (t0: int)
      ensures Snap() == Initial(t0)
    {
      round, score, isWaiting, reactionTime := 1, 0, false, 0;
      startTime, isGameOver, bestRoundScore := None, false, 0;
      playerName, showReadyAnimation := "", false;
      now, pendingCues, saved := t0, 0, [];
    }

    method StartRound()
      modifies this
      ensures Snap() == Started(old(Snap()))
    {
      if round > RoundsPerGame {
        return;
      }
      isWaiting := false;
      reactionTime := 0;
      showReadyAnimation := true;
      pendingCues := pendingCues + 1;
    }

    /** The body of the closure `startRound` passes to `asyncAfter`. */
    method ShowCue()
      requires pendingCues > 0
      modifies this
      ensures Snap() == CueShown(old(Snap()))
    {
      pendingCues := pendingCues - 1;
      showReadyAnimation := false;
      isWaiting := true;
      startTime := Some(now);
    }

    method EndRound()
      modifies this
      ensures Snap() == RoundEnded(old(Snap()))
    {
      if !isWaiting {
        return;
      }
      isWaiting := false;
      if startTime.Some? {
        reactionTime := now - startTime.value;
        var points := Points(reactionTime);
        score := score + points;
        bestRoundScore := if bestRoundScore < points then points else bestRoundScore;
        round := round + 1;
        if round > RoundsPerGame {
          isGameOver := true;
        }
      }
    }

    /** The tap gesture handler of the view. */
    method Tap()
      modifies this
      ensures Snap() == TapHandled(old(Snap()))
    {
      if isWaiting {
        EndRound();
      }
    }

    method RestartGame()
      modifies this
      ensures Snap() == Restarted(old(Snap()))
    {
      round := 1;
      score := 0;
      reactionTime := 0;
      isWaiting := false;
      isGameOver := false;
      bestRoundScore := 0;
    }

    method SaveScore()
      modifies this
      ensures Snap() == ScoreSaved(old(Snap()))
    {
      saved := saved + [ScoreEntry(DefaultName(playerName), bestRoundScore, reactionTime)];
      RestartGame();
    }

    /** The name text field's binding. */
    method TypeName(name: string)
      modifies this
      ensures Snap() == NameTyped(old(Snap()), name)
    {
      playerName := name;
    }

    /** Time passing: the only way the clock read by `Date()` moves. */
    method Advance(ms: nat)
      modifies this
      ensures Snap() == Advanced(old(Snap()), ms)
    {
      now := now + ms;
    }
  }
}
