# Reaction test: round and scoring state machine

This project models the game logic of the reaction test's main view in Dafny. The player presses "Starte Runde" and a ready animation runs. Three seconds later a deferred callback shows the cue and starts timing. The player then taps, and the tap is scored `max(0, 100 - Int(ms / 10))` points. After five scored rounds the game is over. The best round score can then be saved under the player's name, and the game restarts.

Files:

- `wrappers.dfy`: `Option`, the type of `startTime: Date?`.
- `scoring.dfy` (module `Scoring`): the constants (5 rounds, 100 points, 10 ms per point, the placeholder name "Unbekannt"), the points rule with Swift's truncating `Int(...)`, and the name default.
- `content_view.dfy` (module `ContentView`):
  - `Snapshot`, a value holding every state field of the view.
  - One pure transition per event: `Started`, `CueShown`, `RoundEnded`, `TapHandled`, `Restarted`, `ScoreSaved`, `NameTyped` and `Advanced`.
  - Class `Game`, which holds the same fields as mutable state. It has one method per event, and each method's postcondition ties `Snap()` to the matching transition of `old(Snap())`.
- `session.dfy` (module `Session`): whole games as sequences of the events the view can receive (`Step`, `Run`). It also holds the reachable-state invariant `Inv`, the list of points awarded (`Awards`), and lemmas about complete games.

Modelling choices:

- The wall clock `Date()` is a whole-millisecond counter, the field `now`. It moves forward only through the time-passing event.
- The reaction time is therefore `now - startTime` in whole milliseconds. For a non-negative time `e`, `Int(e / 10)` equals `⌊⌊e⌋ / 10⌋`, so whole milliseconds give the same points.
- The callback passed to `asyncAfter` is a separate event, `ShowCue` / `CueFired`. The field `pendingCues` counts the callbacks that are scheduled but have not run yet.
- Saving to the score store is modelled as appending a `ScoreEntry(name, points, reactionTime)` to `saved`.
- Events reach the state only while the view offers them:
  - The "Starte Runde" button exists only when the game is not over, no ready animation is running and no tap is awaited (reactiontest/ContentView.swift:23, 45, 64, 73-76).
  - Restart and save exist only on the game-over screen, its alert and its name sheet (lines 28-30, 101-106, 116-118).
  - The tap gesture goes to `endRound` only while `isWaiting` is set (lines 127-131).

What the code does, and the model with it, in places where one might expect otherwise:

- There is no early-tap handling. A tap before the cue is ignored.
- The cue callback does not check which round scheduled it.
- `restartGame` neither cancels a scheduled cue nor clears `showReadyAnimation`, `startTime` or `playerName`. `Session.GameOverIsQuiet` shows that nothing is scheduled when a restart can happen. `Session.RestartLikeFresh` shows that a restart from the game-over screen still behaves like a fresh view for every later sequence of events. The exceptions are the stored name and the saved entries.
- The name default applies only to the empty string. A name made only of spaces is stored as typed.
- The code keeps the newest `endRound` reaction time and saves it next to the best round score. That time need not belong to the best round.

## Model

| member | source | states |
|---|---|---|
| Scoring.WholeTens | reactiontest/ContentView.swift:154 | `Int(ms/10)` rounds toward zero: for `ms ≥ 0` the result `q` satisfies `10q ≤ ms < 10q+10`; for negative `ms`, `10q-10 < ms ≤ 10q ≤ 0` |
| Scoring.Points | reactiontest/ContentView.swift:152-154 | points are never negative; for a non-negative reaction time they are at most 100, exactly 100 below 10 ms and 0 from 1000 ms on |
| Scoring.PointsBand | reactiontest/ContentView.swift:154 | for `e ≥ 0` the points equal `max(0, 100 - ⌊e/10⌋)`; below one second a score of `p > 0` pins the time to the ten-millisecond band `[10(100-p), 10(100-p)+10)` |
| Scoring.PointsAntitone | reactiontest/ContentView.swift:153-154 | a slower reaction never earns more points |
| Scoring.DefaultName | reactiontest/ContentView.swift:180 | the submitted name is never empty: the typed name if there is one, otherwise "Unbekannt" |
| ContentView.Initial | reactiontest/ContentView.swift:4-14 | a new view starts in round 1 with score and best 0, not waiting, not over, no start time, no cue scheduled, nothing saved |
| ContentView.StartedArms | reactiontest/ContentView.swift:134-140 | `startRound` does nothing after round 5; otherwise it stops waiting, zeroes the reaction time, starts the ready animation, schedules one cue and leaves round, score, best, game-over flag and start time alone |
| ContentView.CueShownWaits | reactiontest/ContentView.swift:140-144 | the cue starts waiting for a tap, stops the animation and sets the start time to now, whatever the round, and leaves the scores alone |
| ContentView.RoundEndedScores | reactiontest/ContentView.swift:147-163 | a scored `endRound` adds exactly the round's points to the score, makes the best score the larger of the old best and the points, advances the round by one, stops waiting, records the reaction time, and sets game over exactly when the round passes 5 |
| ContentView.RoundEndedGuards | reactiontest/ContentView.swift:147-150 | `endRound` while not waiting changes nothing; with no start time it only stops waiting |
| ContentView.TapDuringReadyIgnored | reactiontest/ContentView.swift:127-131 | a tap during the ready animation, before the cue, changes nothing |
| ContentView.RestartIdempotent | reactiontest/ContentView.swift:169-176 | `restartGame` resets round to 1, score, best and reaction time to 0, clears the waiting and game-over flags, and a second restart changes nothing more |
| ContentView.ScoreSavedRecords | reactiontest/ContentView.swift:178-185 | saving appends one entry with the default name, the best round score and the reaction time, and then leaves the state of a restart |
| ContentView.Game.constructor | reactiontest/ContentView.swift:4-14 | the fields of a new view are the initial state |
| ContentView.Game.StartRound | reactiontest/ContentView.swift:134-145 | the new fields are those of `Started` applied to the old ones |
| ContentView.Game.ShowCue | reactiontest/ContentView.swift:140-144 | the new fields are those of `CueShown` applied to the old ones |
| ContentView.Game.EndRound | reactiontest/ContentView.swift:147-167 | the new fields are those of `RoundEnded` applied to the old ones |
| ContentView.Game.Tap | reactiontest/ContentView.swift:127-131 | the new fields are those of `TapHandled` applied to the old ones |
| ContentView.Game.RestartGame | reactiontest/ContentView.swift:169-176 | the new fields are those of `Restarted` applied to the old ones |
| ContentView.Game.SaveScore | reactiontest/ContentView.swift:178-185 | the new fields are those of `ScoreSaved` applied to the old ones |
| ContentView.Game.TypeName | reactiontest/ContentView.swift:113 | the name field's binding sets `playerName` and nothing else |
| ContentView.Game.Advance | reactiontest/ContentView.swift:143 | the clock read by `Date()` moves forward by the given milliseconds and nothing else changes |
| Session.InitialInv | reactiontest/ContentView.swift:4-14 | the initial state satisfies the reachable-state invariant |
| Session.StepInv | reactiontest/ContentView.swift:127-185 | every event the view offers preserves the invariant: round in 1..6 and 6 exactly when the game is over, at most one cue scheduled and only during the ready animation, waiting only with a start time, `0 ≤ best ≤ score ≤ 100·(round-1)` and `best ≤ 100` |
| Session.RunInv | reactiontest/ContentView.swift:127-185 | the invariant holds after any sequence of events |
| Session.RoundBounded | reactiontest/ContentView.swift:135-163 | from a new view the round never exceeds 6, and game over implies round 6 |
| Session.GameOverIsQuiet | reactiontest/ContentView.swift:169-176 | on the game-over screen no cue is scheduled, no animation runs and no tap is awaited, so the missing timer cancellation in `restartGame` is harmless |
| Session.RunAccounting | reactiontest/ContentView.swift:150-157 | within one game the score grows by the sum of the awarded points, the best round score is the running maximum of them, and the round advances once per award |
| Session.BestOfIsMax | reactiontest/ContentView.swift:156 | the running maximum is at least the start value and every award, and equals the start value or one of the awards |
| Session.AwardsInRange | reactiontest/ContentView.swift:152-154 | in reachable states every awarded round earns between 0 and 100 points |
| Session.ScoreNeverDecreases | reactiontest/ContentView.swift:155 | within one game the total score never decreases |
| Session.FiveRoundsEndTheGame | reactiontest/ContentView.swift:155-163 | from round 1 a game scores at most five rounds, is over exactly when five rounds have been scored, and its total and best are the sum and the maximum of the round points |
| Session.SameGameRun | reactiontest/ContentView.swift:127-185 | two states that agree on the counters, flags, scheduled cues and the time since the cue award the same points and stay in agreement under every event sequence |
| Session.RestartLikeFresh | reactiontest/ContentView.swift:169-176 | a restart from the game-over screen is followed, for any events, by the same awards and game state as a freshly created view |

## Left out

- SwiftUI layout, animation (`pulseEffect`), texts, navigation, and the showing of the alert and the sheet (reactiontest/ContentView.swift:17-126) are presentation only. Their only effect on the model is which events the view offers (see above).
- The 3-second delay of `asyncAfter`: the cue may be delivered at any time after it is scheduled. Real time and `Double` arithmetic are not modelled. Times are whole milliseconds.
- A wall clock that is set backwards is not modelled: `now` never decreases. `Points` still rounds toward zero for a negative reaction time, as Swift's `Int(...)` does.
- `print` logging.
- Persistence.swift (Core Data container, `saveScore` into `NSManagedObjectContext`, fetch, delete and batch delete) is not part of this model. Its library code is not visible, and its failures are only logged. `saveScore` hands its entry to the sink `saved`.
- ScoreboardView.swift and reactiontestApp.swift are not part of this model. They hold UI and app wiring, and the scoreboard's ordering is a fetch sort descriptor.
