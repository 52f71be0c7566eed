/** Campaign progress: the shared list of campaign challenges and the parallel
    list of per-challenge flags ("1" unlocked, "0" locked) that the game screen
    consults and updates when a campaign challenge is solved. */
module CampaignProgress {
  import opened Entities

  /** Outcome of a `List.set`: the updated list, or the index error the Java
      list raises for a position outside `[0, size)`. */
  datatype Result<T> = Ok(value: T) | OutOfBounds(index: int)

  /** What "go to the next challenge" does. */
  datatype Step =
    | BackToPrevious        // return to the screen play came from
    | Load(index: nat)      // load campaign entry `index`
    | MissingEntry(index: nat)  // the progress list allows `index`, the campaign list has no such entry

  /** Position of the first campaign challenge called `name`, or -1 when none is. */
  function IndexOf(challenges: seq<Challenge>, name: string): (r: int)
    ensures -1 <= r < |challenges|
    ensures r >= 0 ==> challenges[r].name == name
    ensures forall j :: 0 <= j < |challenges| && (r == -1 || j < r) ==> challenges[j].name != name
  {
    if challenges == [] then -1
    else if challenges[0].name == name then 0
    else
      var k := IndexOf(challenges[1..], name);
      if k == -1 then -1 else k + 1
  }

  /** The Java `List.set(k, v)` on the flag list. */
  function SetFlag(flags: seq<string>, k: int, v: string): (r: Result<seq<string>>)
    ensures r.Ok? <==> 0 <= k < |flags|
    ensures r.OutOfBounds? ==> r.index == k
    ensures r.Ok? ==> |r.value| == |flags| && r.value[k] == v
    ensures r.Ok? ==> forall j :: 0 <= j < |flags| && j != k ==> r.value[j] == flags[j]
  {
    if 0 <= k < |flags| then Ok(flags[k := v]) else OutOfBounds(k)
  }

  /** The flag list after the progress update for the challenge at `index`
      (-1 when the challenge is not in the campaign): a win unlocks the next
      entry when there is one, a loss locks the next entry unguarded. */
  function EditedProgress(flags: seq<string>, index: int, solved: bool): (r: Result<seq<string>>)
    ensures r.OutOfBounds? <==> index < -1 || (!solved && index + 1 >= |flags|)
    ensures r.Ok? ==> |r.value| == |flags|
    ensures r.Ok? && (!solved || index < |flags| - 1) ==>
              r.value[index + 1] == (if solved then "1" else "0")
    ensures r.Ok? ==> forall j :: 0 <= j < |flags| && j != index + 1 ==> r.value[j] == flags[j]
    ensures solved && index >= |flags| - 1 ==> r == Ok(flags)
  {
    if solved then
      if index < |flags| - 1 then SetFlag(flags, index + 1, "1") else Ok(flags)
    else
      SetFlag(flags, index + 1, "0")
  }

  /** The decision "go to the next challenge" takes for the challenge at
      `index` (-1 when it is not in the campaign), given the lengths of the
      campaign list and of the progress list. */
  function NextStep(index: int, campaignLength: nat, progressLength: nat): (s: Step)
    requires index >= -1
    ensures s.BackToPrevious? <==> index == -1 || index + 1 >= progressLength
    ensures !s.BackToPrevious? ==> s.index == index + 1 && 0 < s.index < progressLength
    ensures s.Load? <==> !s.BackToPrevious? && s.index < campaignLength
  {
    var next := index + 1;
    if next == 0 || next >= progressLength then BackToPrevious
    else if next < campaignLength then Load(next)
    else MissingEntry(next)
  }

  /** When both lists have the same length, "next" never reaches past the
      campaign list. */
  lemma EqualLengthsNeverMissEntry(challenges: seq<Challenge>, flags: seq<string>, current: Challenge)
    requires |challenges| == |flags|
    ensures !NextStep(IndexOf(challenges, current.name), |challenges|, |flags|).MissingEntry?
  {
  }

  /** The campaign lookup of "next" fails exactly when the current challenge
      is the last campaign entry and the progress list is longer. */
  lemma MissingEntryOnlyAfterLast(challenges: seq<Challenge>, progressLength: nat, current: Challenge)
    ensures var i := IndexOf(challenges, current.name);
            NextStep(i, |challenges|, progressLength).MissingEntry? <==>
              i == |challenges| - 1 && i >= 0 && |challenges| < progressLength
  {
  }

  /** After a win on campaign entry `i` that is not the last, the entry that
      "next" loads is exactly the one the win unlocked. */
  lemma WinUnlocksWhatNextLoads(challenges: seq<Challenge>, flags: seq<string>, current: Challenge)
    requires |challenges| == |flags|
    requires 0 <= IndexOf(challenges, current.name) < |flags| - 1
    ensures var i := IndexOf(challenges, current.name);
            var r := EditedProgress(flags, i, true);
            NextStep(i, |challenges|, |flags|) == Load(i + 1) && r.Ok? && r.value[i + 1] == "1" &&
            challenges[i].name == current.name
  {
  }

  /** A challenge missing from the campaign (index -1) makes a win unlock the
      first entry of a non-empty list, while "next" goes back. */
  lemma UnknownChallengeUnlocksFirst(challenges: seq<Challenge>, flags: seq<string>, current: Challenge)
    requires forall j :: 0 <= j < |challenges| ==> challenges[j].name != current.name
    requires |flags| > 0
    ensures EditedProgress(flags, IndexOf(challenges, current.name), true) == Ok(flags[0 := "1"])
    ensures NextStep(IndexOf(challenges, current.name), |challenges|, |flags|) == BackToPrevious
  {
  }

  /** A win never fails for an index from IndexOf and never locks anything. */
  lemma WinNeverRelocks(flags: seq<string>, index: int)
    requires index >= -1
    ensures var r := EditedProgress(flags, index, true);
            r.Ok? && forall j :: 0 <= j < |flags| && flags[j] == "1" ==> r.value[j] == "1"
  {
  }

  /** Recording the same win twice is the same as recording it once. */
  lemma WinIsIdempotent(flags: seq<string>, index: int)
    requires index >= -1
    ensures var r := EditedProgress(flags, index, true);
            r.Ok? && EditedProgress(r.value, index, true) == r
  {
    var r := EditedProgress(flags, index, true);
    var r2 := EditedProgress(r.value, index, true);
    assert r2.value == r.value;
  }

  /** A win recorded after a loss on the same challenge undoes the loss. */
  lemma WinAfterLossIsWin(flags: seq<string>, index: int)
    requires -1 <= index < |flags| - 1
    ensures var lost := EditedProgress(flags, index, false);
            lost.Ok? && EditedProgress(lost.value, index, true) == EditedProgress(flags, index, true)
  {
    var lost := EditedProgress(flags, index, false);
    assert EditedProgress(lost.value, index, true).value == EditedProgress(flags, index, true).value;
  }

  /** The campaign data shared between screens: the campaign challenges and
      the progress flags, one per challenge. The flag list object stays the
      same; its entries are overwritten in place. */
  class Campaign {
    var challenges: seq<Challenge>
    const progress: array<string>

    constructor (challenges: seq<Challenge>, flags: seq<string>)
      ensures this.challenges == challenges && progress[..] == flags && fresh(progress)
    {
      this.challenges := challenges;
      progress := new string[|flags|](i requires 0 <= i < |flags| => flags[i]);
    }

    /** Linear search of the campaign by challenge name. */
    method GetIndex(c: Challenge) returns (i: int)
      ensures i == IndexOf(challenges, c.name)
    {
      var k := 0;
      while k < |challenges|
        invariant 0 <= k <= |challenges|
        invariant forall j :: 0 <= j < k ==> challenges[j].name != c.name
      {
        if c.name == challenges[k].name {
          return k;
        }
        k := k + 1;
      }
      return -1;
    }

    /** The list part of recording a result for the challenge at `index`:
        overwrites at most one flag, in place. */
    method UpdateProgress(index: int, solved: bool) returns (ok: bool)
      modifies progress
      ensures var r := EditedProgress(old(progress[..]), index, solved);
              ok == r.Ok? && progress[..] == (if ok then r.value else old(progress[..]))
    {
      if solved {
        if index < progress.Length - 1 {
          if index + 1 < 0 {
            return false;
          }
          progress[index + 1] := "1";
        }
      } else {
        if index + 1 < 0 || index + 1 >= progress.Length {
          return false;
        }
        progress[index + 1] := "0";
      }
      return true;
    }
  }
}
