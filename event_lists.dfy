/**
 * The event-subscription lists and the filter applied before anything is
 * emitted to the host. A list is a Java `ArrayList<String>`: `add` appends,
 * `remove(Object)` drops the first equal element, and `Utils.contains` is
 * list membership.
 */
module EventLists {
  import opened Entities

  /** List membership, as `Utils.contains` is used by the filter. */
  function Contains(list: seq<string>, x: string): (r: bool)
    ensures r <==> x in list
  {
    |list| > 0 && (list[0] == x || Contains(list[1..], x))
  }

  /** The position of the first element equal to `x`, or -1 when there is none. */
  function IndexOf(list: seq<string>, x: string): (i: int)
    ensures -1 <= i < |list|
    ensures i == -1 <==> x !in list
    ensures 0 <= i ==> list[i] == x && x !in list[..i]
  {
    if |list| == 0 then -1
    else if list[0] == x then 0
    else
      var j := IndexOf(list[1..], x);
      if j < 0 then -1
      else
        assert list[..j + 1] == [list[0]] + list[1..][..j];
        j + 1
  }

  /** `ArrayList.remove(Object)`: drops the first occurrence of `x`, if any. */
  function RemoveFirst(list: seq<string>, x: string): (r: seq<string>)
    ensures x !in list ==> r == list
    ensures x in list ==> var i := IndexOf(list, x); r == list[..i] + list[i + 1..]
    ensures multiset(r) == multiset(list) - multiset{x}
  {
    var i := IndexOf(list, x);
    if i < 0 then list
    else
      assert list == list[..i] + [list[i]] + list[i + 1..];
      list[..i] + list[i + 1..]
  }

  /** The removal loop of `removeNativeEvents`: one `remove` per name, in order. */
  function RemoveEach(list: seq<string>, names: seq<string>): (r: seq<string>)
    ensures multiset(r) == multiset(list) - multiset(names)
    decreases names
  {
    if names == [] then list
    else
      var r := RemoveEach(RemoveFirst(list, names[0]), names[1..]);
      assert names == [names[0]] + names[1..];
      MultisetDifferenceTwice(multiset(list), multiset{names[0]}, multiset(names[1..]));
      r
  }

  /** Removing `b` then `c` from a multiset is removing `b + c`. */
  lemma MultisetDifferenceTwice(a: multiset<string>, b: multiset<string>, c: multiset<string>)
    ensures (a - b) - c == a - (b + c)
  {
    forall y ensures ((a - b) - c)[y] == (a - (b + c))[y] {
    }
  }

  /** Removing one more name after a batch is one more `remove` at the end of the loop. */
  lemma {:induction false} RemoveEachSnoc(list: seq<string>, names: seq<string>, x: string)
    ensures RemoveEach(list, names + [x]) == RemoveFirst(RemoveEach(list, names), x)
    decreases names
  {
    if names == [] {
      assert names + [x] == [x];
    } else {
      assert (names + [x])[1..] == names[1..] + [x];
      RemoveEachSnoc(RemoveFirst(list, names[0]), names[1..], x);
    }
  }

  /** One step of the removal loop: after `i` names, removing name `i` is the batch of `i + 1` names. */
  lemma RemoveOneMore(list: seq<string>, names: seq<string>, i: nat)
    requires i < |names|
    ensures RemoveEach(list, names[..i + 1]) == RemoveFirst(RemoveEach(list, names[..i]), names[i])
  {
    assert names[..i + 1] == names[..i] + [names[i]];
    RemoveEachSnoc(list, names[..i], names[i]);
  }

  /**
   * Subscribing a batch of names and then unsubscribing the same batch
   * restores the subscription list up to order.
   */
  lemma AddThenRemoveRestoresMultiset(list: seq<string>, names: seq<string>)
    ensures multiset(RemoveEach(list + names, names)) == multiset(list)
  {
    var m, n := multiset(list), multiset(names);
    assert multiset(list + names) == m + n;
    forall y ensures ((m + n) - n)[y] == m[y] {
    }
    assert (m + n) - n == m;
  }

  /**
   * When none of the names was subscribed before, unsubscribing them
   * removes exactly what was appended, whatever follows.
   */
  lemma {:induction false} AddThenRemoveRestoresList(list: seq<string>, names: seq<string>, rest: seq<string>)
    requires forall j :: 0 <= j < |names| ==> names[j] !in list
    ensures RemoveEach(list + names + rest, names) == list + rest
    decreases names
  {
    if names != [] {
      var whole := list + names + rest;
      var x := names[0];
      assert whole[|list|] == x;
      var i := IndexOf(whole, x);
      assert whole[..|list|] == list;
      assert x in whole[..|list| + 1];
      assert i == |list|;
      assert RemoveFirst(whole, x) == list + names[1..] + rest;
      AddThenRemoveRestoresList(list, names[1..], rest);
    } else {
      assert list + names + rest == list + rest;
    }
  }

  /**
   * The filter of `sendEventMap` / `sendEventWithString`: an event goes
   * out iff its full name is in either subscription list.
   */
  function ShouldEmit(jsEvents: seq<string>, componentEvents: seq<string>, eventName: string): (r: bool)
    ensures r <==> eventName in jsEvents || eventName in componentEvents
  {
    Contains(jsEvents, eventName) || Contains(componentEvents, eventName)
  }

  /** What one send appends to the effect log: the event if it passes the filter, nothing otherwise. */
  function Delivery(jsEvents: seq<string>, componentEvents: seq<string>, eventName: string, payload: Payload): (out: seq<Effect>)
    ensures |out| <= 1
    ensures out != [] <==> eventName in jsEvents || eventName in componentEvents
    ensures out != [] ==> out[0] == Emitted(eventName, payload)
  {
    if ShouldEmit(jsEvents, componentEvents, eventName) then [Emitted(eventName, payload)] else []
  }

  /**
   * One `remove` does not unsubscribe a name that was added twice: the
   * event still passes the filter iff another copy is left in either list.
   */
  lemma RemoveOnceKeepsDuplicate(jsEvents: seq<string>, componentEvents: seq<string>, eventName: string)
    ensures ShouldEmit(RemoveFirst(jsEvents, eventName), componentEvents, eventName)
        <==> multiset(jsEvents)[eventName] >= 2 || eventName in componentEvents
  {
    var r := RemoveFirst(jsEvents, eventName);
    assert multiset(r)[eventName] == if multiset(jsEvents)[eventName] >= 1 then multiset(jsEvents)[eventName] - 1 else 0;
  }
}
