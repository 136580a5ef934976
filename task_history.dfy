/**
 * The browser-side task history: a most-recent-first list of submitted intents, capped at
 * fifty entries and kept in local storage under one key.
 *
 * Local storage is the `slot` field; whether a browser window exists is `hasWindow`.
 * The clock (`Date.now()`) is read twice by a save, once for the id and once for the
 * timestamp; both readings are parameters. Whether a write to storage succeeds is a
 * parameter too, since the source swallows a failed write.
 */
module TaskHistory {
  import opened Wrappers
  import opened Json
  import opened Text

  /** The largest number of entries kept. */
  const MaxHistoryItems: nat := 50

  /** The optional budget of a stored intent. */
  datatype Budget = Budget(maxUsd: Option<real>)

  /** The optional SLA of a stored intent. */
  datatype Sla = Sla(deadlineMs: Option<int>)

  /** One history entry. */
  datatype Item = Item(
    id: string,
    timestamp: int,
    goal: string,
    inputs: seq<(string, Json)>,
    budget: Option<Budget>,
    sla: Option<Sla>,
    result: Option<Json>)

  /** The fields an update supplies; an absent field keeps the entry's value. */
  datatype Patch = Patch(
    id: Option<string>,
    timestamp: Option<int>,
    goal: Option<string>,
    inputs: Option<seq<(string, Json)>>,
    budget: Option<Budget>,
    sla: Option<Sla>,
    result: Option<Json>)

  /** What local storage holds under the history key: nothing, a parseable list, or unparseable text. */
  datatype Slot = Empty | Items(items: seq<Item>) | Corrupt

  /** `{...item, ...patch}`: every field the patch supplies wins. */
  function Merge(item: Item, patch: Patch): (r: Item)
    ensures patch.id.Some? ==> r.id == patch.id.value
    ensures patch.id.None? ==> r.id == item.id
    ensures r.timestamp == if patch.timestamp.Some? then patch.timestamp.value else item.timestamp
    ensures r.goal == if patch.goal.Some? then patch.goal.value else item.goal
    ensures r.inputs == if patch.inputs.Some? then patch.inputs.value else item.inputs
    ensures r.budget == if patch.budget.Some? then patch.budget else item.budget
    ensures r.sla == if patch.sla.Some? then patch.sla else item.sla
    ensures r.result == if patch.result.Some? then patch.result else item.result
    ensures patch == Patch(None, None, None, None, None, None, None) ==> r == item
  {
    Item(
      patch.id.GetOr(item.id),
      patch.timestamp.GetOr(item.timestamp),
      patch.goal.GetOr(item.goal),
      patch.inputs.GetOr(item.inputs),
      if patch.budget.Some? then patch.budget else item.budget,
      if patch.sla.Some? then patch.sla else item.sla,
      if patch.result.Some? then patch.result else item.result)
  }

  /** `unshift` then `slice(0, 50)`: the new entry first, then the older ones, at most fifty in all. */
  function Pushed(history: seq<Item>, item: Item): (r: seq<Item>)
    ensures |r| == if |history| + 1 < MaxHistoryItems then |history| + 1 else MaxHistoryItems
    ensures r[0] == item
    ensures r[1..] == history[..|r| - 1]
  {
    var all := [item] + history;
    assert all[1..] == history;
    if |all| <= MaxHistoryItems then all else all[..MaxHistoryItems]
  }

  /** `history.filter(item => item.id !== id)`. */
  function Without(history: seq<Item>, id: string): (r: seq<Item>)
    ensures |r| <= |history|
    ensures forall x :: x in r <==> x in history && x.id != id
  {
    if history == [] then []
    else
      var rest := Without(history[1..], id);
      assert forall x :: x in history <==> x == history[0] || x in history[1..];
      if history[0].id != id then [history[0]] + rest else rest
  }

  /** Filtering distributes over concatenation, so the kept entries stay in their original order. */
  lemma {:induction false} WithoutAppend(a: seq<Item>, b: seq<Item>, id: string)
    ensures Without(a + b, id) == Without(a, id) + Without(b, id)
  {
    if a == [] {
      assert a + b == b;
    } else {
      assert (a + b)[1..] == a[1..] + b;
      WithoutAppend(a[1..], b, id);
    }
  }

  /** Deleting an id nothing has leaves the list as it was. */
  lemma {:induction false} WithoutAbsent(history: seq<Item>, id: string)
    requires forall x :: x in history ==> x.id != id
    ensures Without(history, id) == history
  {
    if history != [] {
      WithoutAbsent(history[1..], id);
    }
  }

  /** `findIndex(item => item.id === id)`, with `None` for -1. */
  function FindIndex(history: seq<Item>, id: string): (r: Option<nat>)
    ensures r.Some? ==> r.value < |history| && history[r.value].id == id
    ensures r.Some? ==> forall j :: 0 <= j < r.value ==> history[j].id != id
    ensures r.None? ==> forall j :: 0 <= j < |history| ==> history[j].id != id
  {
    if history == [] then None
    else if history[0].id == id then Some(0)
    else
      var r := FindIndex(history[1..], id);
      assert forall j :: 1 <= j < |history| ==> history[1..][j - 1] == history[j];
      if r.None? then None else Some(r.value + 1)
  }

  /** The list after an update: only the first entry with the id changes, merged with the patch. */
  function UpdatedFirst(history: seq<Item>, id: string, patch: Patch): (r: seq<Item>)
    ensures |r| == |history|
    ensures FindIndex(history, id).None? ==> r == history
    ensures FindIndex(history, id).Some? ==>
      var k := FindIndex(history, id).value;
      r[k] == Merge(history[k], patch) && forall j :: 0 <= j < |r| && j != k ==> r[j] == history[j]
  {
    match FindIndex(history, id)
    case None => history
    case Some(k) => history[k := Merge(history[k], patch)]
  }

  /** An update reaches only the first matching entry: later entries with the same id are untouched. */
  lemma UpdateTouchesOnlyFirst(history: seq<Item>, id: string, patch: Patch, j: nat)
    requires j < |history| && history[j].id == id
    requires exists i :: 0 <= i < j && history[i].id == id
    ensures UpdatedFirst(history, id, patch)[j] == history[j]
  {
  }

  /** The history kept in local storage. */
  class HistoryStore {
    var hasWindow: bool
    var slot: Slot

    constructor (hasWindow: bool, slot: Slot)
      ensures this.hasWindow == hasWindow && this.slot == slot
    {
      this.hasWindow := hasWindow;
      this.slot := slot;
    }

    /** `getTaskHistory`: the stored list, or [] without a window, with nothing stored, or on a parse failure. */
    function Get(): (r: seq<Item>)
      reads this
      ensures !hasWindow ==> r == []
      ensures slot.Empty? || slot.Corrupt? ==> r == []
      ensures hasWindow && slot.Items? ==> r == slot.items
    {
      if !hasWindow then []
      else match slot
        case Items(items) => items
        case _ => []
    }

    /**
     * `saveTaskHistory`: put a new entry first and keep at most fifty. The id is the first
     * clock reading in decimal, the timestamp the second.
     */
    method Save(goal: string, inputs: seq<(string, Json)>, budget: Option<Budget>, sla: Option<Sla>,
                idClock: nat, stampClock: nat, writeSucceeds: bool)
      returns (id: string)
      modifies this
      ensures hasWindow == old(hasWindow)
      ensures !hasWindow ==> id == "" && slot == old(slot)
      ensures hasWindow ==> id == NatToString(idClock)
      ensures hasWindow && writeSucceeds ==>
        slot == Items(Pushed(old(Get()), Item(id, stampClock, goal, inputs, budget, sla, None)))
      ensures hasWindow && !writeSucceeds ==> slot == old(slot)
    {
      if !hasWindow {
        return "";
      }
      var history := Get();
      var newItem := Item(NatToString(idClock), stampClock, goal, inputs, budget, sla, None);
      history := [newItem] + history;
      var trimmed := if |history| <= MaxHistoryItems then history else history[..MaxHistoryItems];
      if writeSucceeds {
        slot := Items(trimmed);
      }
      id := newItem.id;
    }

    /** `deleteTaskHistoryItem`: store the list without any entry carrying this id. */
    method Delete(id: string, writeSucceeds: bool)
      modifies this
      ensures hasWindow == old(hasWindow)
      ensures old(hasWindow) && writeSucceeds ==> slot == Items(Without(old(Get()), id))
      ensures !old(hasWindow) || !writeSucceeds ==> slot == old(slot)
    {
      if !hasWindow {
        return;
      }
      var history := Get();
      var filtered := Without(history, id);
      if writeSucceeds {
        slot := Items(filtered);
      }
    }

    /** `clearTaskHistory`: remove the key. */
    method Clear()
      modifies this
      ensures hasWindow == old(hasWindow)
      ensures hasWindow ==> slot == Empty && Get() == []
      ensures !hasWindow ==> slot == old(slot)
    {
      if !hasWindow {
        return;
      }
      slot := Empty;
    }

    /** `updateTaskHistoryItem`: merge the patch into the first entry with this id, if any. */
    method Update(id: string, patch: Patch, writeSucceeds: bool)
      modifies this
      ensures hasWindow == old(hasWindow)
      ensures old(hasWindow) && writeSucceeds && FindIndex(old(Get()), id).Some? ==>
        slot == Items(UpdatedFirst(old(Get()), id, patch))
      ensures !old(hasWindow) || !writeSucceeds || FindIndex(old(Get()), id).None? ==> slot == old(slot)
    {
      if !hasWindow {
        return;
      }
      var history := Get();
      var index := FindIndex(history, id);
      if index.Some? {
        history := history[index.value := Merge(history[index.value], patch)];
        if writeSucceeds {
          slot := Items(history);
        }
      }
    }
  }

  /** Saving into a full history drops exactly the oldest entry. */
  lemma FullHistoryDropsOldest(history: seq<Item>, item: Item)
    requires |history| == MaxHistoryItems
    ensures Pushed(history, item) == [item] + history[..MaxHistoryItems - 1]
  {
  }

  /** After `n` saves into an empty history, the list holds the last min(n, 50) entries, newest first. */
  function SaveAll(items: seq<Item>): (r: seq<Item>)
    ensures |r| == if |items| < MaxHistoryItems then |items| else MaxHistoryItems
  {
    if items == [] then [] else Pushed(SaveAll(items[..|items| - 1]), items[|items| - 1])
  }

  lemma {:induction false} SaveAllKeepsNewest(items: seq<Item>, i: nat)
    requires i < |SaveAll(items)|
    ensures SaveAll(items)[i] == items[|items| - 1 - i]
  {
    var prev := SaveAll(items[..|items| - 1]);
    if i > 0 {
      SaveAllKeepsNewest(items[..|items| - 1], i - 1);
      assert SaveAll(items)[1..] == prev[..|SaveAll(items)| - 1];
      assert SaveAll(items)[i] == SaveAll(items)[1..][i - 1];
    }
  }
}
