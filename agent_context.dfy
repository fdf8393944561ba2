/**
 * The assistant's own working memory (agents/agent_context.py): context
 * items and notifications, each an insertion-ordered dictionary from id to
 * text. Both kinds of item draw their ids from the one class-wide counter of
 * `ContextItem`, which `Notification` inherits.
 */
module AgentContexts {
  import opened Strings
  import opened OrderedMaps
  import opened Counters

  /** `ContextItem.__str__` */
  function ContextLine(id: nat, content: string): string {
    "CONTEXT #" + NatToString(id) + ": " + content
  }

  /** `Notification.__str__` */
  function NotificationLine(id: nat, content: string): string {
    "NOTIFICATION #" + NatToString(id) + ": " + content
  }

  /** The rendered items, in insertion order. */
  function Lines(items: seq<(nat, string)>, render: (nat, string) -> string): (r: seq<string>)
    ensures |r| == |items| && forall i :: 0 <= i < |items| ==> r[i] == render(items[i].0, items[i].1)
  {
    seq(|items|, i requires 0 <= i < |items| => render(items[i].0, items[i].1))
  }

  /** `"\n".join(str(item) for item in items.values())` */
  function Render(items: seq<(nat, string)>, render: (nat, string) -> string): string {
    Join("\n", Lines(items, render))
  }

  /** Ids strictly increase along the dictionary and are all below `bound`. */
  predicate Increasing(items: seq<(nat, string)>, bound: nat) {
    && (forall i, j :: 0 <= i < j < |items| ==> items[i].0 < items[j].0)
    && (forall i :: 0 <= i < |items| ==> items[i].0 < bound)
  }

  /** Dropping pairs keeps the ids increasing, and no id left is below the
      first one. */
  lemma {:induction false} RemoveIncreasing(items: seq<(nat, string)>, bound: nat, k: nat)
    requires Increasing(items, bound)
    ensures Increasing(Remove(items, k), bound)
    ensures |items| > 0 ==> forall i :: 0 <= i < |Remove(items, k)| ==> items[0].0 <= Remove(items, k)[i].0
    decreases |items|
  {
    if |items| > 0 {
      var tail := items[1..];
      RemoveIncreasing(tail, bound, k);
      var r := Remove(tail, k);
      assert |tail| == 0 ==> r == [];
      assert |tail| > 0 ==> items[0].0 < tail[0].0;
      if items[0].0 != k {
        var out := [items[0]] + r;
        assert Remove(items, k) == out;
        assert forall j :: 0 < j < |out| ==> out[j] == r[j - 1];
      } else {
        assert Remove(items, k) == r;
      }
    }
  }

  /** When no text holds a line break, splitting the rendering on line
      breaks gives back one rendered line per item, in order. */
  lemma RenderSplit(items: seq<(nat, string)>, render: (nat, string) -> string)
    requires |items| >= 1
    requires forall i :: 0 <= i < |items| ==> '\n' !in render(items[i].0, items[i].1)
    ensures Split(Render(items, render), '\n') == Lines(items, render)
  {
    SplitJoin(Lines(items, render), '\n');
  }

  /** The rendered lines carry no line break of their own when the content
      has none. */
  lemma LineNoBreak(id: nat, content: string)
    requires '\n' !in content
    ensures '\n' !in ContextLine(id, content) && '\n' !in NotificationLine(id, content)
  {
    var digits := NatToString(id);
    assert forall c :: c in digits ==> IsDigit(c);
  }

  class AgentContext {
    /** `ContextItem.NEXT_ID`, shared with every other store and with
        notifications. */
    const ids: IdCounter
    var contextItems: seq<(nat, string)>
    var notifications: seq<(nat, string)>

    /** Every id handed out so far is below the counter, and each dictionary
        holds its ids in increasing (insertion) order. */
    ghost predicate Valid()
      reads this, ids
    {
      Increasing(contextItems, ids.next) && Increasing(notifications, ids.next)
    }

    constructor (ids: IdCounter)
      ensures this.ids == ids && contextItems == [] && notifications == [] && Valid()
    {
      this.ids := ids;
      contextItems := [];
      notifications := [];
    }

    /** `add_context`: a fresh id, above every id in either dictionary, keys
        one new entry at the end; notifications are untouched. */
    method AddContext(content: string)
      requires Valid()
      modifies this, ids
      ensures Valid() && ids.next == old(ids.next) + 1
      ensures contextItems == old(contextItems) + [(old(ids.next), content)]
      ensures notifications == old(notifications)
      ensures forall p :: p in old(contextItems) + old(notifications) ==> p.0 < old(ids.next)
    {
      var id := ids.Take();
      contextItems := contextItems + [(id, content)];
    }

    /** `add_notification`, the same on the notifications. */
    method AddNotification(content: string)
      requires Valid()
      modifies this, ids
      ensures Valid() && ids.next == old(ids.next) + 1
      ensures notifications == old(notifications) + [(old(ids.next), content)]
      ensures contextItems == old(contextItems)
      ensures forall p :: p in old(contextItems) + old(notifications) ==> p.0 < old(ids.next)
    {
      var id := ids.Take();
      notifications := notifications + [(id, content)];
    }

    /** `remove_context`: drops the entry if present, else does nothing. */
    method RemoveContext(id: nat)
      requires Valid()
      modifies this
      ensures Valid() && contextItems == Remove(old(contextItems), id)
      ensures notifications == old(notifications)
      ensures !HasKey(old(contextItems), id) ==> contextItems == old(contextItems)
    {
      RemoveIncreasing(contextItems, ids.next, id);
      if !HasKey(contextItems, id) {
        RemoveAbsent(contextItems, id);
      }
      contextItems := Remove(contextItems, id);
    }

    /** `remove_notification`: drops the entry if present, else does nothing. */
    method RemoveNotification(id: nat)
      requires Valid()
      modifies this
      ensures Valid() && notifications == Remove(old(notifications), id)
      ensures contextItems == old(contextItems)
      ensures !HasKey(old(notifications), id) ==> notifications == old(notifications)
    {
      RemoveIncreasing(notifications, ids.next, id);
      if !HasKey(notifications, id) {
        RemoveAbsent(notifications, id);
      }
      notifications := Remove(notifications, id);
    }

    /** `get_context` */
    function GetContext(): (r: string)
      reads this
      ensures r == "" <==> contextItems == []
    {
      Render(contextItems, ContextLine)
    }

    /** `get_notifications` */
    function GetNotifications(): (r: string)
      reads this
      ensures r == "" <==> notifications == []
    {
      Render(notifications, NotificationLine)
    }

    /** `clear_context`: only the context items go. */
    method ClearContext()
      requires Valid()
      modifies this
      ensures Valid() && contextItems == [] && notifications == old(notifications)
    {
      contextItems := [];
    }

    /** `clear_notifications`: only the notifications go. */
    method ClearNotifications()
      requires Valid()
      modifies this
      ensures Valid() && notifications == [] && contextItems == old(contextItems)
    {
      notifications := [];
    }
  }
}
