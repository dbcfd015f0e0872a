/** The `ShoppingList` component of `app/components/ShoppingList.tsx`: a list of
    shopping items changed by add, toggle and remove, the text box that adds an
    item, and the rule that adds items from stored fridge checks when the
    component mounts. */
module ShoppingList {
  import Seqs
  import opened Wrappers
  import opened Text

  datatype Reason = Expired | RunningLow | Needed
  datatype Urgency = High | MediumUrgency | Low

  /** `addedDate` is a time in milliseconds. */
  datatype ShoppingItem = ShoppingItem(
    id: string, item: string, reason: Reason, urgency: Urgency, addedDate: int, completed: bool)

  /** One item of a stored session; `daysRemaining` is `None` when absent. */
  datatype SessionItem = SessionItem(item: string, freshness: int, daysRemaining: Option<int>)

  /** A stored session; `items` is `None` when the session has none. */
  datatype Session = Session(kind: string, items: Option<seq<SessionItem>>)

  /** A local-storage entry whose value parsed as a session. */
  datatype StoredEntry = StoredEntry(key: string, session: Session)

  /** `addItem`: a new, open item in front of the others. */
  function WithItemAdded(items: seq<ShoppingItem>, name: string, reason: Reason, urgency: Urgency,
                         id: string, now: int): (r: seq<ShoppingItem>)
    ensures |r| == |items| + 1 && r[1..] == items
    ensures r[0] == ShoppingItem(id, name, reason, urgency, now, false)
  {
    [ShoppingItem(id, name, reason, urgency, now, false)] + items
  }

  function Flip(x: ShoppingItem, id: string): ShoppingItem {
    if x.id == id then x.(completed := !x.completed) else x
  }

  /** `toggleComplete`: every item with the id changes its `completed` flag and
      nothing else. */
  function Toggled(items: seq<ShoppingItem>, id: string): (r: seq<ShoppingItem>)
    ensures |r| == |items|
    ensures forall i :: 0 <= i < |r| ==>
              r[i] == (if items[i].id == id then items[i].(completed := !items[i].completed) else items[i])
  {
    seq(|items|, i requires 0 <= i < |items| => Flip(items[i], id))
  }

  /** Toggling twice restores the list. */
  lemma ToggledTwice(items: seq<ShoppingItem>, id: string)
    ensures Toggled(Toggled(items, id), id) == items
  {
  }

  /** `removeItem`: the items with another id, in their order. */
  function Removed(items: seq<ShoppingItem>, id: string): (r: seq<ShoppingItem>)
    ensures forall x :: x in r ==> x in items && x.id != id
    ensures forall x :: x in items && x.id != id ==> x in r
    ensures |r| <= |items|
  {
    if items == [] then []
    else (if items[0].id == id then [] else [items[0]]) + Removed(items[1..], id)
  }

  /** Removing works piece by piece: the items left from a joined list are those
      left from each part, in the same order. With `RemovedSingle` this pins down
      the result, order included. */
  lemma {:induction false} RemovedConcat(a: seq<ShoppingItem>, b: seq<ShoppingItem>, id: string)
    ensures Removed(a + b, id) == Removed(a, id) + Removed(b, id)
  {
    if a == [] {
      assert a + b == b;
    } else {
      assert (a + b)[0] == a[0] && (a + b)[1..] == a[1..] + b;
      RemovedConcat(a[1..], b, id);
      var head := if a[0].id == id then [] else [a[0]];
      Seqs.ConcatAssociative(head, Removed(a[1..], id), Removed(b, id));
    }
  }

  /** A single item is kept exactly when its id is another. */
  lemma RemovedSingle(x: ShoppingItem, id: string)
    ensures Removed([x], id) == if x.id != id then [x] else []
  {
    assert [x][1..] == [];
  }

  /** Removing keeps every other item as often as it was there, and drops every item
      with the id. */
  lemma {:induction false} RemovedCounts(items: seq<ShoppingItem>, id: string, x: ShoppingItem)
    ensures multiset(Removed(items, id))[x] == if x.id == id then 0 else multiset(items)[x]
  {
    if items != [] {
      RemovedCounts(items[1..], id, x);
      var head := if items[0].id == id then [] else [items[0]];
      assert Removed(items, id) == head + Removed(items[1..], id);
      assert items == [items[0]] + items[1..];
      assert multiset(items) == multiset([items[0]]) + multiset(items[1..]);
      assert multiset(Removed(items, id)) == multiset(head) + multiset(Removed(items[1..], id));
    }
  }

  /** `completedItems` and `pendingItems`. */
  function WithCompleted(items: seq<ShoppingItem>, completed: bool): (r: seq<ShoppingItem>)
    ensures forall x :: x in r <==> x in items && x.completed == completed
  {
    if items == [] then []
    else (if items[0].completed == completed then [items[0]] else []) + WithCompleted(items[1..], completed)
  }

  /** Completed and pending items split the list: together they hold every item
      exactly as often as the list does. */
  lemma {:induction false} CompletedPendingPartition(items: seq<ShoppingItem>)
    ensures multiset(WithCompleted(items, true)) + multiset(WithCompleted(items, false)) == multiset(items)
    ensures |WithCompleted(items, true)| + |WithCompleted(items, false)| == |items|
  {
    if items != [] {
      CompletedPendingPartition(items[1..]);
      assert items == [items[0]] + items[1..];
    }
  }

  predicate Listed(items: seq<ShoppingItem>, name: string) {
    exists x :: x in items && x.item == name
  }

  /** What the auto-add rule does with one fridge-check item, given the list it
      checks against: a spoiled item is re-bought urgently, one about to run out
      soon; an item already on that list is skipped. */
  function Decision(x: SessionItem, against: seq<ShoppingItem>): (r: Option<(Reason, Urgency)>)
    ensures Listed(against, x.item) ==> r.None?
    ensures !Listed(against, x.item) && x.freshness < 30 ==> r == Some((Expired, High))
    ensures !Listed(against, x.item) && x.freshness >= 30 ==>
              (r == Some((RunningLow, MediumUrgency)) <==>
                 x.daysRemaining.Some? && x.daysRemaining.value != 0 && x.daysRemaining.value <= 2)
    ensures r.None? || r == Some((Expired, High)) || r == Some((RunningLow, MediumUrgency))
  {
    if x.freshness < 30 && !Listed(against, x.item) then Some((Expired, High))
    else if x.daysRemaining.Some? && x.daysRemaining.value != 0 && x.daysRemaining.value <= 2
            && !Listed(against, x.item) then Some((RunningLow, MediumUrgency))
    else None
  }

  /** The items of the stored fridge checks, in storage order: entries whose key
      starts with `session-`, whose type is `fridge-check` and that have items. */
  function FridgeItems(entries: seq<StoredEntry>): (r: seq<SessionItem>)
    ensures entries == [] ==> r == []
  {
    if entries == [] then []
    else
      var e := entries[0];
      (if StartsWith(e.key, "session-") && e.session.kind == "fridge-check" && e.session.items.Some?
       then e.session.items.value else [])
      + FridgeItems(entries[1..])
  }

  /** Storage read in two parts: the fridge items of the first part, then those of
      the second. */
  lemma {:induction false} FridgeItemsConcat(a: seq<StoredEntry>, b: seq<StoredEntry>)
    ensures FridgeItems(a + b) == FridgeItems(a) + FridgeItems(b)
  {
    if a == [] {
      assert a + b == b;
    } else {
      assert (a + b)[0] == a[0] && (a + b)[1..] == a[1..] + b;
      FridgeItemsConcat(a[1..], b);
      var e := a[0];
      var head := if StartsWith(e.key, "session-") && e.session.kind == "fridge-check" && e.session.items.Some?
                  then e.session.items.value else [];
      Seqs.ConcatAssociative(head, FridgeItems(a[1..]), FridgeItems(b));
    }
  }

  /** One entry contributes its items exactly when it is a fridge check that has some. */
  lemma FridgeItemsSingle(e: StoredEntry)
    ensures FridgeItems([e]) == if StartsWith(e.key, "session-") && e.session.kind == "fridge-check"
                                   && e.session.items.Some? then e.session.items.value else []
  {
    assert [e][1..] == [];
  }

  /** An item is seen exactly when some stored fridge check with items holds it. */
  lemma {:induction false} InFridgeItems(entries: seq<StoredEntry>, x: SessionItem)
    ensures x in FridgeItems(entries) <==>
              exists k :: 0 <= k < |entries| && StartsWith(entries[k].key, "session-")
                          && entries[k].session.kind == "fridge-check" && entries[k].session.items.Some?
                          && x in entries[k].session.items.value
  {
    if entries != [] {
      var rest := entries[1..];
      InFridgeItems(rest, x);
      if x in FridgeItems(rest) {
        var j :| 0 <= j < |rest| && StartsWith(rest[j].key, "session-") && rest[j].session.kind == "fridge-check"
                 && rest[j].session.items.Some? && x in rest[j].session.items.value;
        assert entries[j + 1] == rest[j];
      }
      if exists k :: 0 <= k < |entries| && StartsWith(entries[k].key, "session-")
                     && entries[k].session.kind == "fridge-check" && entries[k].session.items.Some?
                     && x in entries[k].session.items.value {
        var j :| 0 <= j < |entries| && StartsWith(entries[j].key, "session-")
                 && entries[j].session.kind == "fridge-check" && entries[j].session.items.Some?
                 && x in entries[j].session.items.value;
        if j > 0 {
          assert rest[j - 1] == entries[j];
        }
      }
    }
  }

  /** The list after the auto-add rule as written has seen `found`: every decision
      is taken against `snapshot`, the list as it was when the rule was set up.
      The `k`-th fridge item gets the id `ids(k)`. */
  function AutoAddedAgainst(found: seq<SessionItem>, snapshot: seq<ShoppingItem>, base: seq<ShoppingItem>,
                            ids: nat -> string, now: int): (r: seq<ShoppingItem>)
    ensures |base| <= |r| <= |base| + |found|
    decreases |found|
  {
    if found == [] then base
    else
      var k := |found| - 1;
      var prev := AutoAddedAgainst(found[..k], snapshot, base, ids, now);
      match Decision(found[k], snapshot)
      case Some((reason, urgency)) => WithItemAdded(prev, found[k].item, reason, urgency, ids(k), now)
      case None => prev
  }

  /** The rule as evidently intended: each decision is taken against the current
      list, including what the rule itself has just added. */
  function AutoAdded(found: seq<SessionItem>, base: seq<ShoppingItem>, ids: nat -> string, now: int)
    : (r: seq<ShoppingItem>)
    ensures |base| <= |r| <= |base| + |found|
    decreases |found|
  {
    if found == [] then base
    else
      var k := |found| - 1;
      var prev := AutoAdded(found[..k], base, ids, now);
      match Decision(found[k], prev)
      case Some((reason, urgency)) => WithItemAdded(prev, found[k].item, reason, urgency, ids(k), now)
      case None => prev
  }

  /** Checking one more fridge item against the snapshot adds it at the front
      exactly when the snapshot rule decides so. */
  lemma AutoAddedAgainstStep(found: seq<SessionItem>, snapshot: seq<ShoppingItem>, base: seq<ShoppingItem>,
                             ids: nat -> string, now: int, k: nat)
    requires k < |found|
    ensures var prev := AutoAddedAgainst(found[..k], snapshot, base, ids, now);
      var d := Decision(found[k], snapshot);
      AutoAddedAgainst(found[..k + 1], snapshot, base, ids, now)
        == if d.Some? then WithItemAdded(prev, found[k].item, d.value.0, d.value.1, ids(k), now) else prev
  {
    assert found[..k + 1][..k] == found[..k];
  }

  /** Checking one more fridge item against the current list adds it at the
      front exactly when the rule decides so. */
  lemma AutoAddedStep(found: seq<SessionItem>, base: seq<ShoppingItem>, ids: nat -> string, now: int, k: nat)
    requires k < |found|
    ensures var prev := AutoAdded(found[..k], base, ids, now);
      var d := Decision(found[k], prev);
      AutoAdded(found[..k + 1], base, ids, now)
        == if d.Some? then WithItemAdded(prev, found[k].item, d.value.0, d.value.1, ids(k), now) else prev
  {
    assert found[..k + 1][..k] == found[..k];
  }

  predicate DistinctNames(items: seq<ShoppingItem>) {
    forall i, j :: 0 <= i < j < |items| ==> items[i].item != items[j].item
  }

  /** The intended rule never lists a name twice. */
  lemma {:induction false} AutoAddedKeepsNamesDistinct(found: seq<SessionItem>, base: seq<ShoppingItem>,
                                                       ids: nat -> string, now: int)
    requires DistinctNames(base)
    ensures DistinctNames(AutoAdded(found, base, ids, now))
    decreases |found|
  {
    if found != [] {
      var k := |found| - 1;
      var prev := AutoAdded(found[..k], base, ids, now);
      AutoAddedKeepsNamesDistinct(found[..k], base, ids, now);
      match Decision(found[k], prev)
      case Some(_) =>
        var r := AutoAdded(found, base, ids, now);
        assert r[1..] == prev;
        forall i, j | 0 <= i < j < |r| ensures r[i].item != r[j].item {
          if i == 0 {
            assert r[j] in prev;
          } else {
            assert r[i] == prev[i - 1] && r[j] == prev[j - 1];
          }
        }
      case None =>
    }
  }

  /** As written, the rule checks against the list captured when the component
      mounted, which is still empty: an item already on the list is added again. */
  lemma AutoAddAsWrittenDuplicates(ids: nat -> string, now: int)
    ensures var base := [ShoppingItem("1", "Milk", Needed, MediumUrgency, 0, false)];
            var found := [SessionItem("Milk", 10, None)];
            AutoAddedAgainst(found, [], base, ids, now)
              == [ShoppingItem(ids(0), "Milk", Expired, High, now, false)] + base
            && !DistinctNames(AutoAddedAgainst(found, [], base, ids, now))
            && AutoAdded(found, base, ids, now) == base
  {
    var base := [ShoppingItem("1", "Milk", Needed, MediumUrgency, 0, false)];
    var found := [SessionItem("Milk", 10, None)];
    assert found[..0] == [];
    assert base[0] in base;
    assert Listed(base, "Milk");
  }

  class ShoppingListState {
    /** `items` state. */
    var items: seq<ShoppingItem>
    /** `newItem` state: the text box. */
    var newItem: string

    constructor ()
      ensures items == [] && newItem == ""
    {
      items := [];
      newItem := "";
    }

    /** The load effect: a saved list replaces the initial empty one. */
    method Load(saved: Option<seq<ShoppingItem>>)
      modifies this
      ensures items == (if saved.Some? then saved.value else old(items)) && newItem == old(newItem)
    {
      if saved.Some? {
        items := saved.value;
      }
    }

    method AddItem(name: string, reason: Reason, urgency: Urgency, id: string, now: int)
      modifies this
      ensures items == WithItemAdded(old(items), name, reason, urgency, id, now) && newItem == old(newItem)
    {
      items := [ShoppingItem(id, name, reason, urgency, now, false)] + items;
    }

    method ToggleComplete(id: string)
      modifies this
      ensures items == Toggled(old(items), id) && newItem == old(newItem)
    {
      items := Toggled(items, id);
    }

    method RemoveItem(id: string)
      modifies this
      ensures items == Removed(old(items), id) && newItem == old(newItem)
    {
      items := Removed(items, id);
    }

    method SetNewItem(text: string)
      modifies this
      ensures newItem == text && items == old(items)
    {
      newItem := text;
    }

    /** `handleAddItem`: non-blank text is added trimmed, as a needed item of
        medium urgency, and the box is cleared; blank text changes nothing. */
    method HandleAddItem(id: string, now: int)
      modifies this
      ensures Trim(old(newItem)) != "" ==>
                items == WithItemAdded(old(items), Trim(old(newItem)), Needed, MediumUrgency, id, now)
                && newItem == ""
      ensures Trim(old(newItem)) == "" ==> items == old(items) && newItem == old(newItem)
    {
      var text := Trim(newItem);
      if text != "" {
        AddItem(text, Needed, MediumUrgency, id, now);
        newItem := "";
      }
    }

    /** `checkForAutoAdd` as written: `snapshot` is the list the rule was set up
        with, empty on mount. */
    method CheckForAutoAddAsWritten(entries: seq<StoredEntry>, snapshot: seq<ShoppingItem>,
                                    ids: nat -> string, now: int)
      modifies this
      ensures items == AutoAddedAgainst(FridgeItems(entries), snapshot, old(items), ids, now)
      ensures newItem == old(newItem)
    {
      var found := FridgeItems(entries);
      var k := 0;
      while k < |found|
        invariant k <= |found| && newItem == old(newItem)
        invariant items == AutoAddedAgainst(found[..k], snapshot, old(items), ids, now)
      {
        AutoAddedAgainstStep(found, snapshot, old(items), ids, now, k);
        var decision := Decision(found[k], snapshot);
        if decision.Some? {
          AddItem(found[k].item, decision.value.0, decision.value.1, ids(k), now);
        }
        k := k + 1;
      }
      assert found[..k] == found;
    }

    /** The corrected rule: each fridge item is checked against the current list. */
    method CheckForAutoAdd(entries: seq<StoredEntry>, ids: nat -> string, now: int)
      modifies this
      ensures items == AutoAdded(FridgeItems(entries), old(items), ids, now)
      ensures DistinctNames(old(items)) ==> DistinctNames(items)
      ensures newItem == old(newItem)
    {
      var found := FridgeItems(entries);
      var k := 0;
      while k < |found|
        invariant k <= |found| && newItem == old(newItem)
        invariant items == AutoAdded(found[..k], old(items), ids, now)
      {
        AutoAddedStep(found, old(items), ids, now, k);
        var decision := Decision(found[k], items);
        if decision.Some? {
          AddItem(found[k].item, decision.value.0, decision.value.1, ids(k), now);
        }
        k := k + 1;
      }
      assert found[..k] == found;
      if DistinctNames(old(items)) {
        AutoAddedKeepsNamesDistinct(found, old(items), ids, now);
      }
    }
  }
}
