/** `app/lib/storage.ts`: the analysis history and the shopping list kept in the
    browser's local storage. */
module Storage {
  import Seqs
  import opened Wrappers
  import opened AnalysisTypes

  /** An entry of the analysis history. */
  datatype AnalysisHistory = AnalysisHistory(
    id: string, item: string, freshness: int, recommendation: Recommendation,
    details: string, confidence: int, characteristics: Characteristics,
    timestamp: string, image: Option<string>)

  datatype ShoppingListItem = ShoppingListItem(
    id: string, item: string, quantity: int, notes: Option<string>,
    addedAt: string, checked: bool)

  /** The most entries the history keeps. */
  const HistoryLimit := 50

  /** The history after `unshift(analysis)` and one `pop()` on overflow. */
  function Prepended(history: seq<AnalysisHistory>, analysis: AnalysisHistory): seq<AnalysisHistory> {
    var h := [analysis] + history;
    if |h| > HistoryLimit then h[..|h| - 1] else h
  }

  /** The new entry comes first, the previous entries follow in order, and only the
      oldest one is dropped, only when the limit is exceeded. */
  lemma PrependedNewestFirst(history: seq<AnalysisHistory>, analysis: AnalysisHistory)
    ensures var r := Prepended(history, analysis);
            |r| >= 1 && r[0] == analysis
            && r[1..] == history[..|r| - 1]
            && (|history| < HistoryLimit ==> |r| == |history| + 1)
            && (|history| >= HistoryLimit ==> |r| == |history|)
  {
  }

  /** A history within the limit stays within it. */
  lemma PrependedBounded(history: seq<AnalysisHistory>, analysis: AnalysisHistory)
    requires |history| <= HistoryLimit
    ensures |Prepended(history, analysis)| <= HistoryLimit
  {
  }

  /** The index of the first item with the id, as `list.find` visits them. */
  function FirstWithId(list: seq<ShoppingListItem>, id: string): (r: Option<nat>)
    ensures r.Some? ==> r.value < |list| && list[r.value].id == id
                        && forall j :: 0 <= j < r.value ==> list[j].id != id
    ensures r.None? ==> forall j :: 0 <= j < |list| ==> list[j].id != id
  {
    if list == [] then None
    else if list[0].id == id then Some(0)
    else match FirstWithId(list[1..], id)
      case None => None
      case Some(i) => Some(i + 1)
  }

  /** The list with `checked` flipped on the first item with the id. */
  function Toggled(list: seq<ShoppingListItem>, id: string): seq<ShoppingListItem> {
    match FirstWithId(list, id)
    case None => list
    case Some(i) => list[i := list[i].(checked := !list[i].checked)]
  }

  /** Only the first item with the id changes, and only its `checked` flag. */
  lemma ToggledChangesFirstOnly(list: seq<ShoppingListItem>, id: string)
    ensures |Toggled(list, id)| == |list|
    ensures forall j :: 0 <= j < |list| ==>
              (Toggled(list, id)[j] == list[j] <==> FirstWithId(list, id) != Some(j))
    ensures forall j :: 0 <= j < |list| ==>
              Toggled(list, id)[j] == list[j].(checked := Toggled(list, id)[j].checked)
  {
  }

  /** Toggling the same id twice restores the list. */
  lemma ToggledTwice(list: seq<ShoppingListItem>, id: string)
    ensures Toggled(Toggled(list, id), id) == list
  {
    match FirstWithId(list, id)
    case None =>
    case Some(i) =>
      var t := Toggled(list, id);
      assert forall j :: 0 <= j < |t| ==> t[j].id == list[j].id;
      assert FirstWithId(t, id) == Some(i) by {
        FirstWithIdSameIds(list, t, id);
      }
  }

  lemma {:induction false} FirstWithIdSameIds(a: seq<ShoppingListItem>, b: seq<ShoppingListItem>, id: string)
    requires |a| == |b| && forall j :: 0 <= j < |a| ==> a[j].id == b[j].id
    ensures FirstWithId(a, id) == FirstWithId(b, id)
  {
    if a != [] {
      FirstWithIdSameIds(a[1..], b[1..], id);
    }
  }

  /** `list.filter(item => item.id !== id)`. */
  function WithoutId(list: seq<ShoppingListItem>, id: string): (r: seq<ShoppingListItem>)
    ensures |r| <= |list|
    ensures forall x :: x in r <==> x in list && x.id != id
  {
    if list == [] then []
    else (if list[0].id != id then [list[0]] else []) + WithoutId(list[1..], id)
  }

  /** Removing an id works piece by piece: the items left from a joined list are
      those left from each part, in the same order. With `WithoutIdSingle` this
      pins down the result, order included. */
  lemma {:induction false} WithoutIdConcat(a: seq<ShoppingListItem>, b: seq<ShoppingListItem>, id: string)
    ensures WithoutId(a + b, id) == WithoutId(a, id) + WithoutId(b, id)
  {
    if a == [] {
      assert a + b == b;
    } else {
      assert (a + b)[0] == a[0] && (a + b)[1..] == a[1..] + b;
      WithoutIdConcat(a[1..], b, id);
      var head := if a[0].id != id then [a[0]] else [];
      Seqs.ConcatAssociative(head, WithoutId(a[1..], id), WithoutId(b, id));
    }
  }

  /** A single item is kept exactly when its id is another. */
  lemma WithoutIdSingle(x: ShoppingListItem, id: string)
    ensures WithoutId([x], id) == if x.id != id then [x] else []
  {
    assert [x][1..] == [];
  }

  /** Removing an id keeps every item with another id as often as it was there. */
  lemma {:induction false} WithoutIdKeepsOthers(list: seq<ShoppingListItem>, id: string, x: ShoppingListItem)
    requires x.id != id
    ensures multiset(WithoutId(list, id))[x] == multiset(list)[x]
  {
    if list != [] {
      WithoutIdKeepsOthers(list[1..], id, x);
      var head := if list[0].id != id then [list[0]] else [];
      assert WithoutId(list, id) == head + WithoutId(list[1..], id);
      assert list == [list[0]] + list[1..];
      assert multiset(list) == multiset([list[0]]) + multiset(list[1..]);
      assert multiset(WithoutId(list, id)) == multiset(head) + multiset(WithoutId(list[1..], id));
    }
  }

  /** Removing an id that is not present changes nothing. */
  lemma {:induction false} WithoutAbsentId(list: seq<ShoppingListItem>, id: string)
    requires forall j :: 0 <= j < |list| ==> list[j].id != id
    ensures WithoutId(list, id) == list
  {
    if list != [] {
      WithoutAbsentId(list[1..], id);
      assert list == [list[0]] + list[1..];
    }
  }

  /** The `storage` object over the two local-storage entries it owns. */
  class LocalStore {
    /** Whether `window` exists: false during server-side rendering. */
    const inBrowser: bool
    /** The parsed `fruitai_analysis_history` entry, `None` when absent. */
    var history: Option<seq<AnalysisHistory>>
    /** The parsed `fruitai_shopping_list` entry, `None` when absent. */
    var shoppingList: Option<seq<ShoppingListItem>>

    constructor(inBrowser: bool, history: Option<seq<AnalysisHistory>>,
                shoppingList: Option<seq<ShoppingListItem>>)
      ensures this.inBrowser == inBrowser
      ensures this.history == history && this.shoppingList == shoppingList
    {
      this.inBrowser := inBrowser;
      this.history := history;
      this.shoppingList := shoppingList;
    }

    /** `getHistory`: the stored history, or [] server-side or when nothing is stored. */
    function GetHistory(): (r: seq<AnalysisHistory>)
      reads this
      ensures !inBrowser || history.None? ==> r == []
      ensures inBrowser && history.Some? ==> r == history.value
    {
      if !inBrowser then [] else history.GetOr([])
    }

    /** `getShoppingList`: the stored list, or [] server-side or when nothing is stored. */
    function GetShoppingList(): (r: seq<ShoppingListItem>)
      reads this
      ensures !inBrowser || shoppingList.None? ==> r == []
      ensures inBrowser && shoppingList.Some? ==> r == shoppingList.value
    {
      if !inBrowser then [] else shoppingList.GetOr([])
    }

    /** `addToHistory`: writing needs the browser's local storage. */
    method AddToHistory(analysis: AnalysisHistory)
      requires inBrowser
      modifies this
      ensures GetHistory() == Prepended(old(GetHistory()), analysis)
      ensures |old(GetHistory())| <= HistoryLimit ==> |GetHistory()| <= HistoryLimit
      ensures shoppingList == old(shoppingList)
    {
      var h := GetHistory();
      h := [analysis] + h;
      if |h| > HistoryLimit {
        h := h[..|h| - 1];
      }
      history := Some(h);
    }

    method ClearHistory()
      requires inBrowser
      modifies this
      ensures history == None && GetHistory() == []
      ensures shoppingList == old(shoppingList)
    {
      history := None;
    }

    /** `addToShoppingList`: the new item, with the generated `id` and `addedAt`
        passed in, is appended unchecked. */
    method AddToShoppingList(item: string, quantity: int, notes: Option<string>, id: string, addedAt: string)
      returns (newItem: ShoppingListItem)
      requires inBrowser
      modifies this
      ensures newItem == ShoppingListItem(id, item, quantity, notes, addedAt, false)
      ensures GetShoppingList() == old(GetShoppingList()) + [newItem]
      ensures history == old(history)
    {
      var list := GetShoppingList();
      newItem := ShoppingListItem(id, item, quantity, notes, addedAt, false);
      list := list + [newItem];
      shoppingList := Some(list);
    }

    /** `toggleShoppingItem`: flips the first item with the id; when there is none,
        nothing is written. */
    method ToggleShoppingItem(id: string)
      requires inBrowser
      modifies this
      ensures GetShoppingList() == Toggled(old(GetShoppingList()), id)
      ensures FirstWithId(old(GetShoppingList()), id).None? ==> shoppingList == old(shoppingList)
      ensures history == old(history)
    {
      var list := GetShoppingList();
      var found := FirstWithId(list, id);
      if found.Some? {
        var i := found.value;
        list := list[i := list[i].(checked := !list[i].checked)];
        shoppingList := Some(list);
      }
    }

    /** `removeFromShoppingList`: keeps the items with other ids, in order. */
    method RemoveFromShoppingList(id: string)
      requires inBrowser
      modifies this
      ensures GetShoppingList() == WithoutId(old(GetShoppingList()), id)
      ensures history == old(history)
    {
      var list := WithoutId(GetShoppingList(), id);
      shoppingList := Some(list);
    }

    method ClearShoppingList()
      requires inBrowser
      modifies this
      ensures shoppingList == None && GetShoppingList() == []
      ensures history == old(history)
    {
      shoppingList := None;
    }
  }
}
