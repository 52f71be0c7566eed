# Walls and Warriors: game-screen campaign progress and outcome dispatch

Walls and Warriors is a puzzle game. The player places wall pieces on a grid
to enclose knights. A campaign is an ordered list of challenges with a
parallel list of progress flags: "1" means unlocked, "0" means locked.

This project models the logic of the game screen (`GameScreen.java`):

- **Placement attempt.** It is consulted only when a grid block is hovered
  and a piece is carried. If the grid manager accepts, the screen saves the
  session and checks the solution.
- **Click on a wall.** With nothing carried, the primary button picks the
  wall up. The secondary button sends it back to the palette and saves the
  session.
- **Solution check.** It classifies the validator's answer and announces
  the verdict. For a win reached from the campaign screen, it records
  progress.
- **Challenge lookup.** A linear search of the campaign by name that returns
  the first match, or -1.
- **Progress update.** It overwrites at most one entry of the flag list.
  A win unlocks the next entry when there is one. A loss locks the next entry
  with no bound check.
- **Next challenge.** It goes back to the previous screen or loads a copy of
  the next campaign entry.

Files:

- `entities.dfy` (module `Entities`): the challenge data the screen touches.
- `campaign.dfy` (module `CampaignProgress`): the shared campaign store.
  - The class `Campaign` holds a `seq` of challenges and an `array` of flags.
    The flags are overwritten in place, so the list never changes length.
  - The methods `GetIndex` (a loop) and `UpdateProgress` (an in-place write)
    are proved against the specification functions `IndexOf` and
    `EditedProgress`.
  - `NextStep` gives the decision of "go to the next challenge".
  - Lemmas relate these to each other.
- `game_screen.dfy` (module `GameScreens`):
  - The three-way verdict `Unclosed | Mistakes(count) | Won` and how it is
    announced.
  - The class `GameScreen`. Its methods record their visible effects in an
    event log: session saved, alert shown, progress saved, session cleared,
    screen set.

Code whose source is not part of this model is taken as a parameter instead
of being given rules:

- `place` stands for the grid manager's `attemptPlacement`. It returns the
  challenge after an accepted placement, or `None`.
- `validate` stands for the solution manager's `checkSolution`. It returns
  `None` for the Java `null`, or the list of incorrect red knights.
- `copy` stands for `ChallengeData.createCopy`.

The game's singletons (challenge manager, hint manager, storage manager,
screen manager) become fields of `GameScreen`: `challenge`, `hint`,
`previousScreen` and `log`.

Behaviour of the code worth noting, as the model states it:

- `editProgressInfo` writes entry `index + 1`, not `index`: a win unlocks
  the next challenge.
- If a challenge is missing from the campaign, `getIndex` returns -1. A win
  then writes "1" to entry 0 (`UnknownChallengeUnlocksFirst`).
- The loss branch of `editProgressInfo` has no bound check. Its index error
  is a `Result.OutOfBounds` outcome. No caller in this file passes `false`.
- `handleViewClick` runs only while no piece is carried. Its test "the
  clicked wall is the carried one" is therefore always false, so a primary
  click always picks the wall up (`HandleViewClick`'s ensures).
- `goNextChallenge` bounds `nextIndex` by the progress list but reads the
  campaign list. Because `nextIndex` is at most the campaign length, the
  campaign lookup fails (`Step.MissingEntry`) exactly when the current
  challenge is the last campaign entry and the progress list is longer
  (`MissingEntryOnlyAfterLast`). When the two lists have the same length it
  never fails (`EqualLengthsNeverMissEntry`).

## Model

| member | source | states |
|---|---|---|
| `CampaignProgress.IndexOf` | src/WallsAndWarriors/src/com/oops/wallsandwarriors/screens/game/GameScreen.java:387-394 | The result is -1 or a position in the campaign list. At that position the name matches, and at no earlier position does it. The result is -1 exactly when no campaign name matches. |
| `CampaignProgress.Campaign.GetIndex` | src/WallsAndWarriors/src/com/oops/wallsandwarriors/screens/game/GameScreen.java:387-394 | The counting loop with early return yields exactly `IndexOf` of the challenge's name: the first match, or -1. |
| `CampaignProgress.SetFlag` | src/WallsAndWarriors/src/com/oops/wallsandwarriors/screens/game/GameScreen.java:373 | `List.set` succeeds exactly for a position in `[0, size)`. It writes the value there, keeps the length and leaves every other entry as it was. Otherwise it is an index error at that position. |
| `CampaignProgress.EditedProgress` | src/WallsAndWarriors/src/com/oops/wallsandwarriors/screens/game/GameScreen.java:367-374 | There is an index error exactly when `index < -1`, or for a loss when `index + 1 >= size`. The length never changes. A win on a challenge that is not last sets entry `index + 1` to "1"; a loss sets it to "0". Every other entry is unchanged. A win on the last challenge, or beyond it, leaves the list unchanged. |
| `CampaignProgress.Campaign.UpdateProgress` | src/WallsAndWarriors/src/com/oops/wallsandwarriors/screens/game/GameScreen.java:368-374 | The in-place update of the flag array succeeds exactly when `EditedProgress` does. The array then holds `EditedProgress`'s list. On failure it is untouched. |
| `CampaignProgress.NextStep` | src/WallsAndWarriors/src/com/oops/wallsandwarriors/screens/game/GameScreen.java:402-406 | For the index `getIndex` returned: it goes back exactly when the index is -1 (not found) or `index + 1 >= progress size`. Otherwise the next index is `index + 1`, which lies in `(0, progress size)`. It loads exactly when that index is also inside the campaign list; otherwise the campaign lookup is out of bounds. |
| `CampaignProgress.MissingEntryOnlyAfterLast` | src/WallsAndWarriors/src/com/oops/wallsandwarriors/screens/game/GameScreen.java:402-406 | The campaign lookup of "next" is out of bounds exactly when the current challenge is the last campaign entry and the progress list is longer than the campaign list. |
| `CampaignProgress.EqualLengthsNeverMissEntry` | src/WallsAndWarriors/src/com/oops/wallsandwarriors/screens/game/GameScreen.java:403-406 | When the campaign and progress lists have equal length, the campaign lookup of "next" is always in bounds. |
| `CampaignProgress.WinUnlocksWhatNextLoads` | src/WallsAndWarriors/src/com/oops/wallsandwarriors/screens/game/GameScreen.java:367-408 | After a win on campaign entry `i` that is not the last, "next" loads entry `i + 1`, and the win has set that entry's flag to "1". |
| `CampaignProgress.UnknownChallengeUnlocksFirst` | src/WallsAndWarriors/src/com/oops/wallsandwarriors/screens/game/GameScreen.java:367-371 | For a challenge not in the campaign, with a non-empty flag list, a win writes "1" to entry 0 and changes nothing else. "Next" goes back. |
| `CampaignProgress.WinNeverRelocks` | src/WallsAndWarriors/src/com/oops/wallsandwarriors/screens/game/GameScreen.java:368-371 | For any index `getIndex` can return, a win has no index error, and every unlocked entry stays unlocked. |
| `CampaignProgress.WinIsIdempotent` | src/WallsAndWarriors/src/com/oops/wallsandwarriors/screens/game/GameScreen.java:368-371 | Recording the same win twice gives the same list as recording it once. |
| `CampaignProgress.WinAfterLossIsWin` | src/WallsAndWarriors/src/com/oops/wallsandwarriors/screens/game/GameScreen.java:368-374 | A loss followed by a win on the same non-last challenge gives the same list as the win alone. |
| `CampaignProgress.Campaign.constructor` | src/WallsAndWarriors/src/com/oops/wallsandwarriors/screens/game/GameScreen.java:388-401 | The campaign store holds the given challenges, and a new flag array with the given flags. |
| `Entities.Lifted` | src/WallsAndWarriors/src/com/oops/wallsandwarriors/screens/game/GameScreen.java:155-160 | `setPosition(null)` on one wall puts that wall on the palette and keeps its shape. Every other wall, the knights, the towers and the name are unchanged. |
| `GameScreens.Classify` | src/WallsAndWarriors/src/com/oops/wallsandwarriors/screens/game/GameScreen.java:228-234 | `null` is `Unclosed`, in both directions. A non-empty list is `Mistakes` carrying the list's size. Only the empty list is `Won`. |
| `GameScreens.Announcement` | src/WallsAndWarriors/src/com/oops/wallsandwarriors/screens/game/GameScreen.java:229-236 | At most one alert. It exists exactly when the verdict is a win or mistakes are to be shown. A win is titled "WIN" with the congratulations message. Any other verdict is titled "Mistake": "walls not closed" for `Unclosed`, and the knight count for `Mistakes`. |
| `GameScreens.PlacementCommits` | src/WallsAndWarriors/src/com/oops/wallsandwarriors/screens/game/GameScreen.java:135-136 | A placement commits exactly when a block is hovered, a piece is selected and the grid manager accepts it. The result is then the grid manager's challenge. |
| `GameScreens.GameScreen.constructor` | src/WallsAndWarriors/src/com/oops/wallsandwarriors/screens/game/GameScreen.java:55-65 | A screen starts with the given previous screen, challenge and hint. Nothing is selected, nothing is hovered and no events are logged. |
| `GameScreens.GameScreen.SaveSession` | src/WallsAndWarriors/src/com/oops/wallsandwarriors/screens/game/GameScreen.java:328-338 | The current challenge and the hint challenge, in that order, are handed to the session codec. Nothing else changes. |
| `GameScreens.GameScreen.ChangeScreen` | src/WallsAndWarriors/src/com/oops/wallsandwarriors/screens/game/GameScreen.java:319-322 | The session is cleared before the screen is set. |
| `GameScreens.GameScreen.EditProgressInfo` | src/WallsAndWarriors/src/com/oops/wallsandwarriors/screens/game/GameScreen.java:361-380 | The flags become `EditedProgress` at the challenge's `IndexOf`, and the new list is saved. On an index error, neither the flags nor the log change. |
| `GameScreens.GameScreen.CheckSolution` | src/WallsAndWarriors/src/com/oops/wallsandwarriors/screens/game/GameScreen.java:225-241 | The log gains the verdict's announcement. Progress is edited and saved only for a win reached from the campaign screen; otherwise the flags are unchanged. |
| `GameScreens.GameScreen.AttemptPlacement` | src/WallsAndWarriors/src/com/oops/wallsandwarriors/screens/game/GameScreen.java:131-142 | It returns true exactly when `PlacementCommits` does. Then the challenge is the committed one, the session is saved and the solution is checked with mistakes hidden. Otherwise the challenge, the log and the flags are unchanged. |
| `GameScreens.GameScreen.HandleViewClick` | src/WallsAndWarriors/src/com/oops/wallsandwarriors/screens/game/GameScreen.java:145-167 | The click is handled exactly when nothing is carried, a wall was clicked, and the button is primary or secondary. Primary lifts the wall and selects it without saving. Secondary lifts it, keeps the selection and saves the session. Otherwise nothing changes. |
| `GameScreens.GameScreen.GoNextChallenge` | src/WallsAndWarriors/src/com/oops/wallsandwarriors/screens/game/GameScreen.java:399-412 | It follows `NextStep` at the current challenge's `IndexOf`. Going back clears the session and shows the previous screen. Loading installs `copy(entry, true)` as the challenge and `copy(entry, false)` as the hint, then shows the game screen. A missing entry fails and changes nothing. |

## Left out

- The grid manager's placement rules, the solution manager's validation and the `EncodeUtils` session codec are not part of this model. They are parameters (`place`, `validate`) or appear only as the challenges handed to the codec (`SessionSaved`).
- `ChallengeData.createCopy` is not part of this model. It is the parameter `copy`, so the model does not say what a copy resets.
- Alert dialogs: the model records the alert (title and message) but not the player's reply. In the source, "Go to the Next Challenge" calls `goNextChallenge` and "Go Back" calls `changeScreen` from inside the alert, before progress is edited. Here those are the separate operations `GoNextChallenge` and `ChangeScreen`.
- File I/O: the temp-file, delete and rename steps of `saveSession`, and the text format of the saved progress list (`toString`). If the delete or rename fails, the model still records `SessionSaved`. `IOException` paths are not modelled.
- GameScreen.EditProgressInfo: in the source, the `FileWriter` empties the progress file before the index lookup. On an index error, the model leaves the log unchanged and does not model the emptied file.
- Sounds, `step`, `drawWalls`, `initViewObjects`, `addComponents` (button wiring) and the `Game` singleton: rendering and UI plumbing.
- `showHint` and `resetState`: they depend on the hint manager and on `ChallengeData.resetWalls`, neither of which is part of this model. `showHint` also hard-codes wall 1.
- `setPreviousScreen` is covered by `GameScreen`'s constructor. The hovered block and the carried piece are set by the base screen, which is not part of this model.
- `HighTowerView.java` (floating-point drawing) and `StorageManager.java` (creating and opening files in the home directory) are not modelled.
