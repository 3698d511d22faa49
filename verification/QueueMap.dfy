/** The double-ended queue of the processor: a map from keys to values and two indexes. It is
    proved to behave as a plain sequence, although removing from the middle leaves one stale
    entry behind the end of the queue. */
module QueueMaps {
  import opened Types

  ghost predicate Stored<T>(elements: map<nat, T>, start: nat, end: nat) {
    start <= end && forall k :: start < k <= end ==> k in elements
  }

  /** The values stored under the keys start + 1, ..., end. */
  ghost function Window<T>(elements: map<nat, T>, start: nat, end: nat): (s: seq<T>)
    requires Stored(elements, start, end)
    ensures |s| == end - start
  {
    if start == end then [] else Window(elements, start, end - 1) + [elements[end]]
  }

  lemma {:induction false} WindowAt<T>(elements: map<nat, T>, start: nat, end: nat, i: nat)
    requires Stored(elements, start, end) && i < end - start
    ensures Window(elements, start, end)[i] == elements[start + 1 + i]
  {
    if i < end - start - 1 {
      WindowAt(elements, start, end - 1, i);
    }
  }

  /** A window whose values are given one by one. */
  lemma WindowIs<T>(elements: map<nat, T>, start: nat, end: nat, s: seq<T>)
    requires Stored(elements, start, end) && |s| == end - start
    requires forall i :: 0 <= i < |s| ==> s[i] == elements[start + 1 + i]
    ensures Window(elements, start, end) == s
  {
    hide Window;
    forall i | 0 <= i < |s|
      ensures Window(elements, start, end)[i] == s[i]
    {
      WindowAt(elements, start, end, i);
    }
  }

  /** Appending at the end of the window. */
  lemma WindowPushed<T>(elements: map<nat, T>, start: nat, end: nat, value: T)
    requires Stored(elements, start, end)
    ensures var now := elements[end + 1 := value];
            Stored(now, start, end + 1) &&
            Window(now, start, end + 1) == Window(elements, start, end) + [value]
  {
    var now := elements[end + 1 := value];
    var s := Window(elements, start, end) + [value];
    forall i | 0 <= i < |s|
      ensures s[i] == now[start + 1 + i]
    {
      if i < end - start { WindowAt(elements, start, end, i); }
    }
    WindowIs(now, start, end + 1, s);
  }

  /** Dropping the first key of the window. */
  lemma WindowPopped<T>(elements: map<nat, T>, start: nat, end: nat)
    requires Stored(elements, start, end) && start < end
    ensures Stored(elements - {start + 1}, start + 1, end)
    ensures Window(elements, start, end)[0] == elements[start + 1]
    ensures Window(elements - {start + 1}, start + 1, end) == Window(elements, start, end)[1..]
  {
    WindowAt(elements, start, end, 0);
    var s := Window(elements, start, end)[1..];
    forall i | 0 <= i < |s|
      ensures s[i] == (elements - {start + 1})[start + 2 + i]
    {
      WindowAt(elements, start, end, i + 1);
    }
    WindowIs(elements - {start + 1}, start + 1, end, s);
  }

  /** The values from `actual` on have moved up by one key. */
  ghost predicate ShiftedUp<T>(was: map<nat, T>, now: map<nat, T>, start: nat, end: nat, actual: nat)
    requires Stored(was, start, end) && start < actual <= end + 1
  {
    && (forall k {:trigger now[k]} {:trigger k in now} :: start < k < actual ==> k in now && now[k] == was[k])
    && (forall k :: actual < k <= end + 1 ==> k in now && now[k] == was[k - 1])
  }

  /** The values after `actual` have moved down by one key. */
  ghost predicate ShiftedDown<T>(was: map<nat, T>, now: map<nat, T>, start: nat, end: nat, actual: nat)
    requires Stored(was, start, end) && start < actual <= end
  {
    && (forall k {:trigger now[k]} {:trigger k in now} :: start < k < actual ==> k in now && now[k] == was[k])
    && (forall k :: actual <= k < end ==> k in now && now[k] == was[k + 1])
  }

  /** The values from key `i` on have moved up by one key, those below have not yet. */
  ghost predicate Shifting<T>(was: map<nat, T>, now: map<nat, T>, start: nat, end: nat, i: nat)
    requires Stored(was, start, end)
  {
    && (forall k {:trigger now[k]} {:trigger k in now} :: start < k <= end && k <= i ==> k in now && now[k] == was[k])
    && (forall k {:trigger now[k]} {:trigger k in now} :: start < k - 1 && i < k <= end + 1 ==>
        k in now && now[k] == was[k - 1])
  }

  lemma ShiftBegins<T>(was: map<nat, T>, start: nat, end: nat)
    requires Stored(was, start, end)
    ensures Shifting(was, was, start, end, end + 2)
  {
  }

  lemma ShiftStep<T>(was: map<nat, T>, now: map<nat, T>, start: nat, end: nat, i: nat)
    requires Stored(was, start, end) && start + 1 < i && Shifting(was, now, start, end, i)
    ensures Shifting(was, if i - 1 in now then now[i := now[i - 1]] else now, start, end, i - 1)
  {
    var next := if i - 1 in now then now[i := now[i - 1]] else now;
    forall k | start < k <= end && k <= i - 1
      ensures k in next && next[k] == was[k]
    {
      assert k in now;
    }
    forall k | start < k - 1 && i - 1 < k <= end + 1
      ensures k in next && next[k] == was[k - 1]
    {
      assert i - 1 <= end ==> i - 1 in now;
      assert k != i ==> k in now;
    }
  }

  lemma ShiftEnds<T>(was: map<nat, T>, now: map<nat, T>, start: nat, end: nat, actual: nat)
    requires Stored(was, start, end) && start < actual <= end + 1 && Shifting(was, now, start, end, actual)
    ensures ShiftedUp(was, now, start, end, actual)
  {
    forall k | start < k < actual
      ensures k in now && now[k] == was[k]
    {
      assert k <= end;
      assert k in now;
    }
    forall k | actual < k <= end + 1
      ensures k in now && now[k] == was[k - 1]
    {
      assert k in now;
    }
  }

  /** The values after `actual` up to key `i - 1` have moved down by one key, those from `i` on have not
      yet. */
  ghost predicate Sinking<T>(was: map<nat, T>, now: map<nat, T>, start: nat, end: nat, actual: nat, i: nat)
    requires Stored(was, start, end) && start < actual
  {
    && (forall k {:trigger now[k]} {:trigger k in now} :: start < k < actual && k <= end ==>
        k in now && now[k] == was[k])
    && (forall k {:trigger now[k]} {:trigger k in now} :: actual <= k < i - 1 && k < end ==>
        k in now && now[k] == was[k + 1])
    && (forall k {:trigger now[k]} {:trigger k in now} :: i <= k <= end && actual < k ==> k in now && now[k] == was[k])
  }

  lemma SinkBegins<T>(was: map<nat, T>, start: nat, end: nat, actual: nat)
    requires Stored(was, start, end) && start < actual <= end
    ensures Sinking(was, was - {actual}, start, end, actual, actual + 1)
  {
  }

  lemma SinkStep<T>(was: map<nat, T>, now: map<nat, T>, start: nat, end: nat, actual: nat, i: nat)
    requires Stored(was, start, end) && start < actual < i <= end && Sinking(was, now, start, end, actual, i)
    ensures Sinking(was, if i in now then now[i - 1 := now[i]] else now, start, end, actual, i + 1)
  {
    assert i in now;
    var next := now[i - 1 := now[i]];
    forall k | start < k < actual && k <= end
      ensures k in next && next[k] == was[k]
    {
      assert k in now;
    }
    forall k | actual <= k < i && k < end
      ensures k in next && next[k] == was[k + 1]
    {
      assert k != i - 1 ==> k in now;
    }
    forall k | i + 1 <= k <= end && actual < k
      ensures k in next && next[k] == was[k]
    {
      assert k in now;
    }
  }

  lemma SinkEnds<T>(was: map<nat, T>, now: map<nat, T>, start: nat, end: nat, actual: nat)
    requires Stored(was, start, end) && start < actual <= end && Sinking(was, now, start, end, actual, end + 1)
    ensures ShiftedDown(was, now, start, end, actual)
  {
    forall k | start < k < actual
      ensures k in now && now[k] == was[k]
    {
      assert k in now;
    }
    forall k | actual <= k < end
      ensures k in now && now[k] == was[k + 1]
    {
      assert k in now;
    }
  }

  /** Storing a value in the gap of an upward shift inserts it into the window. */
  lemma WindowInserted<T>(was: map<nat, T>, shifted: map<nat, T>, start: nat, end: nat, actual: nat, value: T)
    requires Stored(was, start, end) && start < actual <= end + 1
    requires ShiftedUp(was, shifted, start, end, actual)
    ensures var now := shifted[actual := value];
            var s := Window(was, start, end);
            var i := actual - start - 1;
            Stored(now, start, end + 1) && Window(now, start, end + 1) == s[..i] + [value] + s[i..]
  {
    hide Window;
    var now := shifted[actual := value];
    var w := Window(was, start, end);
    var at := actual - start - 1;
    var s := w[..at] + [value] + w[at..];
    forall i | 0 <= i < |s|
      ensures s[i] == now[start + 1 + i]
    {
      if i < at {
        WindowAt(was, start, end, i);
      } else if i > at {
        WindowAt(was, start, end, i - 1);
      }
    }
    WindowIs(now, start, end + 1, s);
  }

  /** A downward shift removes the value at `actual` from the window. */
  lemma WindowRemoved<T>(was: map<nat, T>, now: map<nat, T>, start: nat, end: nat, actual: nat)
    requires Stored(was, start, end) && start < actual <= end
    requires ShiftedDown(was, now, start, end, actual)
    ensures var s := Window(was, start, end);
            var i := actual - start - 1;
            && s[i] == was[actual]
            && Stored(now, start, end - 1)
            && Window(now, start, end - 1) == s[..i] + s[i + 1..]
  {
    hide Window;
    var w := Window(was, start, end);
    var at := actual - start - 1;
    var s := w[..at] + w[at + 1..];
    WindowAt(was, start, end, at);
    forall i | 0 <= i < |s|
      ensures s[i] == now[start + 1 + i]
    {
      WindowAt(was, start, end, if i < at then i else i + 1);
    }
    WindowIs(now, start, end - 1, s);
  }

  class QueueMap<T> {
    var elements: map<nat, T>
    var start: nat
    var end: nat

    /** Every key of the window (start, end] is stored. Keys beyond `end` may hold leftovers. */
    ghost predicate Valid()
      reads this
    {
      Stored(elements, start, end)
    }

    ghost function Contents(): (s: seq<T>)
      reads this
      requires Valid()
      ensures |s| == end - start
    {
      Window(elements, start, end)
    }

    constructor ()
      ensures Valid() && Contents() == []
    {
      elements, start, end := map[], 0, 0;
    }

    method Len() returns (n: nat)
      requires Valid()
      ensures n == |Contents()|
    {
      n := end - start;
    }

    method PushBack(value: T)
      requires Valid()
      modifies this
      ensures Valid() && Contents() == old(Contents()) + [value]
    {
      hide Window, Stored;
      WindowPushed(elements, start, end, value);
      end := end + 1;
      elements := elements[end := value];
    }

    method PopFront() returns (value: Option<T>)
      requires Valid()
      modifies this
      ensures Valid()
      ensures old(Contents()) == [] ==> value == None && Contents() == []
      ensures old(Contents()) != [] ==> value == Some(old(Contents())[0]) && Contents() == old(Contents())[1..]
    {
      hide Window;
      if start == end {
        return None;
      }
      WindowPopped(elements, start, end);
      start := start + 1;
      value := Some(elements[start]);
      elements := elements - {start};
    }

    /** Moves the values stored from `actual` on up by one key, from the last one down. */
    method ShiftUp(actual: nat)
      requires Valid() && start < actual <= end + 1
      modifies this`elements
      ensures ShiftedUp(old(elements), elements, start, end, actual)
    {
      hide Shifting, ShiftedUp;
      ghost var was := elements;
      ShiftBegins(was, start, end);
      var i := end + 2;
      while i > actual
        invariant actual <= i <= end + 2
        invariant Shifting(was, elements, start, end, i)
      {
        ShiftStep(was, elements, start, end, i);
        i := i - 1;
        if i in elements {
          elements := elements[i + 1 := elements[i]];
        }
      }
      ShiftEnds(was, elements, start, end, actual);
    }

    /** Makes room for the value and stores it. A position beyond the end is refused. */
    method InsertAt(index: nat, value: T) returns (ok: bool)
      requires Valid()
      modifies this
      ensures Valid() && ok == (index <= |old(Contents())|)
      ensures !ok ==> Contents() == old(Contents())
      ensures ok ==> Contents() == old(Contents())[..index] + [value] + old(Contents())[index..]
    {
      hide Window, ShiftedUp, Stored;
      if index > end - start {
        return false;
      }
      ghost var was := elements;
      var actual := start + index + 1;
      ShiftUp(actual);
      WindowInserted(was, elements, start, end, actual, value);
      elements := elements[actual := value];
      end := end + 1;
      ok := true;
    }

    /** Moves the values stored after `actual` down by one key; the last key keeps its value. */
    method ShiftDown(actual: nat)
      requires Valid() && start < actual <= end
      modifies this`elements
      ensures ShiftedDown(old(elements), elements, start, end, actual)
    {
      hide Sinking, ShiftedDown;
      ghost var was := elements;
      SinkBegins(was, start, end, actual);
      elements := elements - {actual};
      var i := actual + 1;
      while i < end + 1
        invariant actual < i <= end + 1
        invariant Sinking(was, elements, start, end, actual, i)
      {
        SinkStep(was, elements, start, end, actual, i);
        if i in elements {
          elements := elements[i - 1 := elements[i]];
        }
        i := i + 1;
      }
      SinkEnds(was, elements, start, end, actual);
    }

    /** Removes one element and closes the gap. The first element is popped instead; a position
        beyond the end is refused. */
    method RemoveAt(index: nat) returns (value: Option<T>)
      requires Valid()
      modifies this
      ensures Valid() && value.Some? == (index < |old(Contents())|)
      ensures value.None? ==> Contents() == old(Contents())
      ensures value.Some? ==> value.value == old(Contents())[index]
      ensures value.Some? ==> Contents() == old(Contents())[..index] + old(Contents())[index + 1..]
    {
      hide Window, ShiftedDown;
      if index >= end - start {
        return None;
      }
      if index == 0 {
        value := PopFront();
        return;
      }
      ghost var was := elements;
      var actual := start + index + 1;
      value := Some(elements[actual]);
      ShiftDown(actual);
      WindowRemoved(was, elements, start, end, actual);
      end := end - 1;
    }
  }
}
