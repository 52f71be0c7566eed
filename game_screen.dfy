/** The game screen's decisions: what a placement attempt, a click on a wall
    and the solution check do, which alert the player sees, when campaign
    progress is recorded and where "go to the next challenge" leads.

    The collaborators whose code is not part of this model are parameters:
    the grid manager's placement (`place`), the solution manager's check
    (`validate`) and ChallengeData.createCopy (`copy`). Dialogs, sounds, file
    writes and screen switches are recorded as events in `log`. */
module GameScreens {
  import opened Entities
  import opened CampaignProgress

  datatype Screen = CampaignChallenges | Playing | Other(name: string)

  datatype MouseButton = NoButton | Primary | Middle | Secondary | Back | Forward

  /** What was clicked: the view of wall `wall` of the challenge, or any other view. */
  datatype ClickedView = WallView(wall: nat) | OtherView

  /** The solution check's outcome, as a tagged value. */
  datatype Verdict = Unclosed | Mistakes(count: nat) | Won

  datatype Message = WallsNotClosed | RedKnightProblems(count: nat) | Congratulations

  datatype Event =
    | SessionSaved(current: Challenge, hint: Challenge)  // both challenges handed to the session codec
    | AlertShown(title: string, message: Message)
    | ProgressSaved(flags: seq<string>)                   // the flag list written to the progress file
    | SessionCleared
    | ScreenSet(screen: Screen)

  /** The validator answers null (walls not closed) or the list of incorrect
      red knights; only the empty list is a win. */
  function Classify(incorrect: Option<seq<Knight>>): (v: Verdict)
    ensures v == Unclosed <==> incorrect == None
    ensures v.Mistakes? <==> incorrect.Some? && |incorrect.value| > 0
    ensures v.Mistakes? ==> v.count == |incorrect.value|
    ensures v == Won <==> incorrect == Some([])
  {
    match incorrect
    case None => Unclosed
    case Some(knights) => if |knights| == 0 then Won else Mistakes(|knights|)
  }

  /** The alert the player sees for a verdict: a win is always announced, a
      mistake only when mistakes are to be shown. */
  function Announcement(v: Verdict, showMistake: bool): (alerts: seq<Event>)
    ensures |alerts| <= 1
    ensures alerts != [] <==> v == Won || showMistake
    ensures alerts != [] ==> alerts[0].AlertShown? && (alerts[0].title == "WIN" <==> v == Won)
    ensures alerts != [] && v == Unclosed ==> alerts[0].message == WallsNotClosed
    ensures alerts != [] && v.Mistakes? ==> alerts[0].message == RedKnightProblems(v.count)
    ensures alerts != [] && v == Won ==> alerts[0].message == Congratulations
    ensures alerts != [] && v != Won ==> alerts[0].title == "Mistake"
  {
    match v
    case Unclosed => if showMistake then [AlertShown("Mistake", WallsNotClosed)] else []
    case Mistakes(n) => if showMistake then [AlertShown("Mistake", RedKnightProblems(n))] else []
    case Won => [AlertShown("WIN", Congratulations)]
  }

  /** The challenge a placement attempt commits, or None: the grid manager is
      consulted only with both a hovered block and a selected piece. */
  function PlacementCommits(hovered: Option<Cell>, selected: Option<nat>, c: Challenge,
                            place: (Challenge, Cell, nat) -> Option<Challenge>): (r: Option<Challenge>)
    ensures r.Some? <==>
              hovered.Some? && selected.Some? && place(c, hovered.value, selected.value).Some?
    ensures r.Some? ==> r == place(c, hovered.value, selected.value)
  {
    if hovered.Some? && selected.Some? then place(c, hovered.value, selected.value) else None
  }

  class GameScreen {
    const campaign: Campaign
    var previousScreen: Screen
    var challenge: Challenge       // the challenge being played
    var hint: Challenge            // the solution copy the hints come from
    var selected: Option<nat>      // the wall piece being carried, by position in challenge.walls
    var hovered: Option<Cell>      // the grid block under the pointer
    var log: seq<Event>

    constructor (campaign: Campaign, previousScreen: Screen, challenge: Challenge, hint: Challenge)
      ensures this.campaign == campaign && this.previousScreen == previousScreen
      ensures this.challenge == challenge && this.hint == hint
      ensures selected == None && hovered == None && log == []
    {
      this.campaign := campaign;
      this.previousScreen := previousScreen;
      this.challenge := challenge;
      this.hint := hint;
      selected := None;
      hovered := None;
      log := [];
    }

    /** What the solution check of challenge `c` leaves behind, from the flag
        list `flags0` and the event log `log0` it started with. */
    ghost predicate SolutionChecked(c: Challenge, showMistake: bool, validate: Challenge -> Option<seq<Knight>>,
                                    flags0: seq<string>, log0: seq<Event>)
      reads this, campaign, campaign.progress
    {
      var v := Classify(validate(c));
      if v == Won && previousScreen == CampaignChallenges then
        var r := EditedProgress(flags0, IndexOf(campaign.challenges, c.name), true);
        r.Ok? && campaign.progress[..] == r.value &&
        log == log0 + Announcement(v, showMistake) + [ProgressSaved(r.value)]
      else
        campaign.progress[..] == flags0 && log == log0 + Announcement(v, showMistake)
    }

    /** Hands the current and hint challenges to the session codec. */
    method SaveSession()
      modifies this`log
      ensures log == old(log) + [SessionSaved(challenge, hint)]
    {
      log := log + [SessionSaved(challenge, hint)];
    }

    /** Leaves for `screen`, discarding the crash-recovery session. */
    method ChangeScreen(screen: Screen)
      modifies this`log
      ensures log == old(log) + [SessionCleared, ScreenSet(screen)]
    {
      log := log + [SessionCleared, ScreenSet(screen)];
    }

    /** Records a result for challenge `c` in the campaign progress and saves
        the flag list; an index error leaves everything as it was. */
    method EditProgressInfo(c: Challenge, solved: bool) returns (ok: bool)
      modifies this`log, campaign.progress
      ensures var r := EditedProgress(old(campaign.progress[..]), IndexOf(campaign.challenges, c.name), solved);
              ok == r.Ok? &&
              (ok ==> campaign.progress[..] == r.value && log == old(log) + [ProgressSaved(r.value)]) &&
              (!ok ==> campaign.progress[..] == old(campaign.progress[..]) && log == old(log))
    {
      var index := campaign.GetIndex(c);
      ok := campaign.UpdateProgress(index, solved);
      if ok {
        log := log + [ProgressSaved(campaign.progress[..])];
      }
    }

    /** Checks the current challenge: announces the verdict and, for a win
        reached from the campaign screen, unlocks the next challenge. */
    method CheckSolution(showMistake: bool, validate: Challenge -> Option<seq<Knight>>)
      modifies this`log, campaign.progress
      ensures SolutionChecked(challenge, showMistake, validate, old(campaign.progress[..]), old(log))
    {
      var v := Classify(validate(challenge));
      log := log + Announcement(v, showMistake);
      if v == Won && previousScreen == CampaignChallenges {
        var ok := EditProgressInfo(challenge, true);
      }
    }

    /** Drops the carried piece on the hovered block. Only when the grid
        manager accepts is the session saved and the solution checked. */
    method AttemptPlacement(place: (Challenge, Cell, nat) -> Option<Challenge>,
                            validate: Challenge -> Option<seq<Knight>>) returns (placed: bool)
      modifies this`challenge, this`log, campaign.progress
      ensures var committed := PlacementCommits(old(hovered), old(selected), old(challenge), place);
              placed == committed.Some? &&
              (placed ==> challenge == committed.value &&
                          SolutionChecked(challenge, false, validate, old(campaign.progress[..]),
                                          old(log) + [SessionSaved(challenge, hint)])) &&
              (!placed ==> challenge == old(challenge) && log == old(log) &&
                           campaign.progress[..] == old(campaign.progress[..]))
    {
      if hovered.Some? && selected.Some? {
        var next := place(challenge, hovered.value, selected.value);
        if next.Some? {
          challenge := next.value;
          SaveSession();
          CheckSolution(false, validate);
          return true;
        }
      }
      return false;
    }

    /** A click on a view while no piece is carried: the primary button picks
        a wall up, the secondary button sends it back to the palette and saves
        the session. Anything else is not handled. */
    method HandleViewClick(clicked: ClickedView, button: MouseButton) returns (handled: bool)
      requires clicked.WallView? ==> clicked.wall < |challenge.walls|
      modifies this`challenge, this`selected, this`log
      ensures handled <==> old(selected) == None && clicked.WallView? && (button == Primary || button == Secondary)
      ensures handled ==> challenge == Lifted(old(challenge), clicked.wall)
      ensures handled && button == Primary ==> selected == Some(clicked.wall) && log == old(log)
      ensures handled && button == Secondary ==>
                selected == old(selected) && log == old(log) + [SessionSaved(challenge, hint)]
      ensures !handled ==> challenge == old(challenge) && selected == old(selected) && log == old(log)
    {
      if selected == None {
        match clicked
        case WallView(w) =>
          if button == Primary {
            // Nothing is carried here, so the source's test "the clicked wall
            // is the carried one" (which would put it down) is always false:
            // the click always picks the wall up.
            challenge := Lifted(challenge, w);
            selected := Some(w);
            return true;
          } else if button == Secondary {
            challenge := Lifted(challenge, w);
            SaveSession();
            return true;
          }
        case OtherView =>
      }
      return false;
    }

    /** "Go to the next challenge": back to the previous screen when the
        current challenge is unknown or the last one, otherwise a fresh copy
        of the next campaign entry. Fails, changing nothing, when the progress
        list is longer than the campaign list and allows a missing entry. */
    method GoNextChallenge(copy: (Challenge, bool) -> Challenge) returns (ok: bool)
      modifies this`challenge, this`hint, this`log
      ensures var s := NextStep(IndexOf(campaign.challenges, old(challenge).name), |campaign.challenges|,
                                campaign.progress.Length);
              ok == !s.MissingEntry? &&
              (s.BackToPrevious? ==> challenge == old(challenge) && hint == old(hint) &&
                                     log == old(log) + [SessionCleared, ScreenSet(previousScreen)]) &&
              (s.Load? ==> challenge == copy(campaign.challenges[s.index], true) &&
                           hint == copy(campaign.challenges[s.index], false) &&
                           log == old(log) + [ScreenSet(Playing)]) &&
              (s.MissingEntry? ==> challenge == old(challenge) && hint == old(hint) && log == old(log))
    {
      var index := campaign.GetIndex(challenge);
      var nextIndex := index + 1;
      if nextIndex == 0 || nextIndex >= campaign.progress.Length {
        ChangeScreen(previousScreen);
        return true;
      }
      if nextIndex >= |campaign.challenges| {
        return false;
      }
      var next := campaign.challenges[nextIndex];
      challenge := copy(next, true);
      hint := copy(next, false);
      log := log + [ScreenSet(Playing)];
      return true;
    }
  }
}
