/**
 * `WALKTHROUGH_STATUS_OPTIONS`: the ordered list of walkthrough steps that
 * the store steps through, and `indexOf` on it.
 */
module WalkthroughStatus {

  const Options: seq<string> := ["unstarted", "setCompareType", "runSetInboxNoteCommand", "restartObsidian", "completed"]

  /** The `WalkthroughStatus` type: exactly the members of the list. */
  type Status = s: string | s in Options witness "unstarted"

  /** `xs.indexOf(x)`: the first position holding `x`, or -1. */
  function IndexOf(xs: seq<string>, x: string): (r: int)
    ensures -1 <= r < |xs|
    ensures r == -1 <==> x !in xs
    ensures r >= 0 ==> xs[r] == x && forall j :: 0 <= j < r ==> xs[j] != x
  {
    if xs == [] then -1
    else if xs[0] == x then 0
    else
      var k := IndexOf(xs[1..], x);
      if k == -1 then -1 else k + 1
  }

  /** The list has five distinct entries, from "unstarted" to "completed". */
  lemma OptionsShape()
    ensures |Options| == 5
    ensures Options[0] == "unstarted" && Options[4] == "completed"
    ensures forall i, j :: 0 <= i < j < |Options| ==> Options[i] != Options[j]
  {
    assert Options[0][0] != Options[4][0];
    assert Options[1][3] != Options[2][3] && Options[1][0] != Options[3][0];
  }

  /** Each member is found at its own position. */
  lemma IndexOfMember(i: int)
    requires 0 <= i < |Options|
    ensures IndexOf(Options, Options[i]) == i
  {
    OptionsShape();
  }

  /** For every member `s`, `indexOf(s)` is in 0..4 and names `s` again. */
  lemma IndexOfStatus(s: Status)
    ensures 0 <= IndexOf(Options, s) <= 4 && Options[IndexOf(Options, s)] == s
  {
  }
}
