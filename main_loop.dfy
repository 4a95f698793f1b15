/** The event loop of src/main.cpp: while the window is open, `getEvent` is
    called until it returns false, and a `KeyPressed` event closes the window.
    `getEvent` needs an open window (it reads through the native handle), so
    the loop is described by the window's state at each `getEvent` call, fed
    the events the successive calls return. */
module MainLoop {

  import opened Events

  /** The index of the first `KeyPressed` among `returned`, or its length when
      there is none. */
  function FirstKeyPress(returned: seq<Event>): (n: nat)
    ensures n <= |returned|
    ensures n < |returned| ==> returned[n].kind == KeyPressed
    ensures forall i :: 0 <= i < n ==> returned[i].kind != KeyPressed
  {
    if returned == [] then 0
    else if returned[0].kind == KeyPressed then 0
    else 1 + FirstKeyPress(returned[1..])
  }

  /** The inner `while (window.getEvent(event))` as written: whether the
      window is open at each `getEvent` call. After a `KeyPressed` the loop
      calls `getEvent` once more on the closed window; the trace ends there,
      since that call reads through the dropped handle. */
  function CallsAsWritten(returned: seq<Event>, open: bool): seq<bool>
    decreases |returned|
  {
    if !open then [false]
    else if returned == [] then [true]
    else [true] + CallsAsWritten(returned[1..], returned[0].kind != KeyPressed)
  }

  /** The inner loop with the open check in its condition,
      `while (window.isOpened() && window.getEvent(event))`. */
  function CallsIntended(returned: seq<Event>, open: bool): seq<bool>
    decreases |returned|
  {
    if !open then []
    else if returned == [] then [true]
    else [true] + CallsIntended(returned[1..], returned[0].kind != KeyPressed)
  }

  /** As written, some `getEvent` call finds the window closed exactly when a
      `KeyPressed` is returned; that call comes right after it. */
  lemma {:induction false} AsWrittenPollsClosed(returned: seq<Event>)
    ensures var calls := CallsAsWritten(returned, true);
      (false in calls <==> FirstKeyPress(returned) < |returned|)
    ensures var calls := CallsAsWritten(returned, true);
      FirstKeyPress(returned) < |returned| ==>
        |calls| == FirstKeyPress(returned) + 2 && !calls[|calls| - 1]
    decreases |returned|
  {
    if returned != [] {
      if returned[0].kind == KeyPressed {
        assert CallsAsWritten(returned, true) == [true, false];
      } else {
        AsWrittenPollsClosed(returned[1..]);
        assert CallsAsWritten(returned, true) == [true] + CallsAsWritten(returned[1..], true);
      }
    }
  }

  /** A single key press is enough: the second `getEvent` call reads the
      handle `close()` has dropped. */
  lemma KeyPressPollsClosed(code: Key)
    ensures CallsAsWritten([KeyPressedEvent(code)], true) == [true, false]
  {
    assert [KeyPressedEvent(code)][1..] == [];
  }

  /** With the open check, every `getEvent` call finds the window open, and
      the loop stops right after the first `KeyPressed`, or after the call
      that returns false when there is none. */
  lemma {:induction false} IntendedPollsOpenOnly(returned: seq<Event>)
    ensures var calls := CallsIntended(returned, true);
      forall j :: 0 <= j < |calls| ==> calls[j]
    ensures |CallsIntended(returned, true)| ==
              if FirstKeyPress(returned) < |returned| then FirstKeyPress(returned) + 1 else |returned| + 1
    decreases |returned|
  {
    if returned != [] {
      if returned[0].kind == KeyPressed {
        assert CallsIntended(returned, true) == [true];
      } else {
        IntendedPollsOpenOnly(returned[1..]);
        assert CallsIntended(returned, true) == [true] + CallsIntended(returned[1..], true);
      }
    }
  }
}
