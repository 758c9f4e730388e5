/** The chat slice of the application store: the number of chat messages
    that arrived while the chat panel was closed. */
module ChatStore {
  datatype Action = AddCount | ClearCount

  /** One reducer step on the count. */
  function Reduce(count: nat, a: Action): (c: nat)
    ensures a == AddCount ==> c == count + 1
    ensures a == ClearCount ==> c == 0
  {
    match a
    case AddCount => count + 1
    case ClearCount => 0
  }

  /** The count after dispatching `actions`, in order, from the initial state. */
  function Replay(actions: seq<Action>): nat
    decreases |actions|
  {
    if |actions| == 0 then 0 else Reduce(Replay(actions[..|actions| - 1]), actions[|actions| - 1])
  }

  predicate NoClear(actions: seq<Action>)
  {
    forall i :: 0 <= i < |actions| ==> actions[i] == AddCount
  }

  /** Without a clear, every dispatch adds one. */
  lemma {:induction false} ReplayCountsAdds(actions: seq<Action>)
    requires NoClear(actions)
    ensures Replay(actions) == |actions|
    decreases |actions|
  {
    if |actions| > 0 {
      ReplayCountsAdds(actions[..|actions| - 1]);
    }
  }

  /** After the last clear, the count is the number of adds dispatched since. */
  lemma {:induction false} CountIsAddsSinceLastClear(before: seq<Action>, since: seq<Action>)
    requires NoClear(since)
    ensures Replay(before + [ClearCount] + since) == |since|
    decreases |since|
  {
    var all := before + [ClearCount] + since;
    if |since| == 0 {
      assert all[..|all| - 1] == before;
    } else {
      var init := since[..|since| - 1];
      CountIsAddsSinceLastClear(before, init);
      assert all[..|all| - 1] == before + [ClearCount] + init;
    }
  }

  /** A clear after a clear changes nothing, from any count. */
  lemma ClearIsIdempotent(count: nat)
    ensures Reduce(Reduce(count, ClearCount), ClearCount) == Reduce(count, ClearCount) == 0
  {
  }

  class ChatSlice {
    var count: nat
    ghost var history: seq<Action>

    /** The count is what the dispatched actions add up to. */
    ghost predicate Valid()
      reads this
    {
      count == Replay(history)
    }

    /** The initial state. */
    constructor ()
      ensures Valid() && count == 0 && history == []
    {
      count := 0;
      history := [];
    }

    method AddCount()
      requires Valid()
      modifies this
      ensures Valid()
      ensures count == old(count) + 1 && history == old(history) + [Action.AddCount]
    {
      count := count + 1;
      history := history + [Action.AddCount];
      assert history[..|history| - 1] == old(history);
    }

    method ClearCount()
      requires Valid()
      modifies this
      ensures Valid()
      ensures count == 0 && history == old(history) + [Action.ClearCount]
    {
      count := 0;
      history := history + [Action.ClearCount];
    }
  }
}
