/** The `dialog_state` channel of the graph state: a stack of persona names,
    most recently entered persona last, and the reducer that updates it. */
module DialogStack {
  import opened Wrappers

  /** The update value that `update_dialog_stack` reads as "drop the top persona". */
  const PopRequest: string := "pop"

  /** The entry node used when no persona has been pushed. */
  const MainPersona: string := "assistant"

  /** The value `enter_write_sequence` pushes: the name of the writing assistant's node
      (the type annotation says "writer", the code pushes this string). */
  const WriterPersona: string := "write_assistant"

  /** `update_dialog_stack(left, right)`: `None` keeps the stack, "pop" drops the
      last element (an empty stack stays empty), any other value is appended. */
  function UpdateDialogStack(left: seq<string>, right: Option<string>): (r: seq<string>)
    ensures right.None? ==> r == left
    ensures right == Some(PopRequest) && |left| > 0 ==> r + [left[|left| - 1]] == left
    ensures right == Some(PopRequest) && |left| == 0 ==> r == []
    ensures right.Some? && right.value != PopRequest ==>
              |r| == |left| + 1 && r[..|left|] == left && r[|left|] == right.value
  {
    match right
    case None => left
    case Some(v) =>
      if v == PopRequest then
        (if |left| == 0 then [] else left[..|left| - 1])
      else left + [v]
  }

  /** Pushing any persona and then popping restores the stack exactly. */
  lemma PushThenPop(s: seq<string>, v: string)
    requires v != PopRequest
    ensures UpdateDialogStack(UpdateDialogStack(s, Some(v)), Some(PopRequest)) == s
  {
    var pushed := UpdateDialogStack(s, Some(v));
    assert pushed[..|s|] == s;
  }

  /** Popping a non-empty stack and pushing its old top back restores it. */
  lemma PopThenPush(s: seq<string>)
    requires |s| > 0 && s[|s| - 1] != PopRequest
    ensures UpdateDialogStack(UpdateDialogStack(s, Some(PopRequest)), Some(s[|s| - 1])) == s
  {
  }

  /** The depth changes by exactly one on a push, and by one on a pop of a non-empty stack. */
  lemma DepthChange(s: seq<string>, right: Option<string>)
    ensures right.None? ==> |UpdateDialogStack(s, right)| == |s|
    ensures right == Some(PopRequest) ==> |UpdateDialogStack(s, right)| == if |s| == 0 then 0 else |s| - 1
    ensures right.Some? && right.value != PopRequest ==> |UpdateDialogStack(s, right)| == |s| + 1
  {
  }

  /** `pick_starting_point`: the persona on top of the stack, or the main
      assistant when the channel is missing or empty. */
  function PickStartingPoint(dialog: Option<seq<string>>): (r: string)
    ensures dialog.None? ==> r == MainPersona
    ensures dialog.Some? && dialog.value == [] ==> r == MainPersona
    ensures dialog.Some? && dialog.value != [] ==> r == dialog.value[|dialog.value| - 1]
  {
    match dialog
    case None => MainPersona
    case Some(s) => if |s| == 0 then MainPersona else s[|s| - 1]
  }

  /** The entry point follows the stack: after a push it is the pushed persona,
      and after the matching pop it is whatever it was before the push. */
  lemma EntryFollowsStack(s: seq<string>, v: string)
    requires v != PopRequest
    ensures PickStartingPoint(Some(UpdateDialogStack(s, Some(v)))) == v
    ensures PickStartingPoint(Some(UpdateDialogStack(UpdateDialogStack(s, Some(v)), Some(PopRequest))))
            == PickStartingPoint(Some(s))
  {
    PushThenPop(s, v);
  }
}
