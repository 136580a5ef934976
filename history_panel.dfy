/**
 * The task-history side panel: it shows the stored history with a coarse "time ago"
 * label, and lets the user load, delete or clear entries.
 */
module HistoryPanel {
  import opened Text
  import opened TaskHistory

  /** The unit a "time ago" label is counted in. */
  datatype Unit = Minute | Hour | Day

  function UnitWord(u: Unit): string {
    match u
    case Minute => "minute"
    case Hour => "hour"
    case Day => "day"
  }

  /** Seconds in one unit. */
  function UnitSeconds(u: Unit): nat {
    match u
    case Minute => 60
    case Hour => 3600
    case Day => 86400
  }

  /** Whole seconds elapsed, rounded down (`Math.floor` of a division by 1000). */
  function ElapsedSeconds(nowMs: int, thenMs: int): int {
    (nowMs - thenMs) / 1000
  }

  /** The floor-division cascade: minutes below an hour, hours below a day, days otherwise. */
  function Band(seconds: int): (r: (nat, Unit))
    requires seconds >= 60
    ensures r.0 >= 1
    ensures r.0 * UnitSeconds(r.1) <= seconds < (r.0 + 1) * UnitSeconds(r.1)
    ensures r.1 == Minute ==> r.0 < 60
    ensures r.1 == Hour ==> r.0 < 24
    ensures r.1 == Minute <==> seconds < 3600
    ensures r.1 == Day <==> seconds >= 86400
  {
    var minutes := seconds / 60;
    if minutes < 60 then (minutes, Minute)
    else
      var hours := minutes / 60;
      assert hours == seconds / 3600;
      if hours < 24 then (hours, Hour)
      else
        var days := hours / 24;
        assert days == seconds / 86400;
        (days, Day)
  }

  /** `${n} unit` with an `s` exactly when the count exceeds one. */
  function CountPhrase(n: nat, u: Unit): string {
    NatToString(n) + " " + UnitWord(u) + (if n > 1 then "s" else "")
  }

  /**
   * `formatDistanceToNow`: "just now" below a minute, which includes times in the future;
   * otherwise the count of whole minutes, hours or days, with " ago" when asked for.
   */
  function FormatDistanceToNow(nowMs: int, thenMs: int, addSuffix: bool): (r: string)
    ensures ElapsedSeconds(nowMs, thenMs) < 60 <==> r == "just now"
  {
    var seconds := ElapsedSeconds(nowMs, thenMs);
    if seconds < 60 then "just now"
    else
      var b := Band(seconds);
      var str := CountPhrase(b.0, b.1);
      assert str[0] != 'j' by {
        assert str[0] == NatToString(b.0)[0];
      }
      if addSuffix then str + " ago" else str
  }

  /**
   * Past the first minute the label starts with the count and its unit word, ends in " ago"
   * exactly when the suffix is requested, and has a plural `s` exactly when the count exceeds one.
   */
  lemma LabelShape(nowMs: int, thenMs: int, addSuffix: bool)
    requires ElapsedSeconds(nowMs, thenMs) >= 60
    ensures var b := Band(ElapsedSeconds(nowMs, thenMs));
      var r := FormatDistanceToNow(nowMs, thenMs, addSuffix);
      StartsWith(r, NatToString(b.0) + " " + UnitWord(b.1)) &&
      (EndsWith(r, " ago") <==> addSuffix) &&
      (b.0 > 1 <==> EndsWith(r, if addSuffix then "s ago" else "s"))
  {
    var b := Band(ElapsedSeconds(nowMs, thenMs));
    var u := UnitWord(b.1);
    var w := NatToString(b.0) + " " + u;
    assert u[|u| - 1] == 'e' || u[|u| - 1] == 'r' || u[|u| - 1] == 'y';
    assert w[|w| - 1] == u[|u| - 1];
    SuffixShape(w, b.0 > 1, addSuffix);
  }

  /** A word not ending in `s` or `o`, with an optional plural `s` and an optional " ago". */
  lemma SuffixShape(w: string, plural: bool, addSuffix: bool)
    requires w != [] && w[|w| - 1] != 's' && w[|w| - 1] != 'o'
    ensures var str := w + (if plural then "s" else ""); var r := if addSuffix then str + " ago" else str;
      StartsWith(r, w) && (EndsWith(r, " ago") <==> addSuffix) &&
      (plural <==> EndsWith(r, if addSuffix then "s ago" else "s"))
  {
    var str := w + (if plural then "s" else "");
    assert str[..|w|] == w;
    assert str[|str| - 1] == if plural then 's' else w[|w| - 1];
    if addSuffix {
      var r := str + " ago";
      assert r[..|w|] == w;
      assert r[|r| - 4..] == " ago";
      assert r[|r| - 5] == str[|str| - 1];
      if plural {
        assert r[|r| - 5..] == "s ago";
      }
    } else {
      assert str[|str| - 1] != 'o';
      if plural {
        assert str[|str| - 1..] == "s";
      }
    }
  }

  /** The panel's state: the list it shows and whether it is open. */
  class Panel {
    var history: seq<Item>
    var isOpen: bool
    var loaded: seq<Item>
    const store: HistoryStore

    constructor (store: HistoryStore)
      ensures this.store == store && history == [] && !isOpen && loaded == []
    {
      this.store := store;
      history := [];
      isOpen := false;
      loaded := [];
    }

    /** `loadHistory`: refresh the shown list from the store. */
    method LoadHistory()
      modifies this
      ensures history == store.Get() && isOpen == old(isOpen) && loaded == old(loaded)
    {
      history := store.Get();
    }

    /** `handleLoad`: hand the entry to the page and close the panel. */
    method HandleLoad(item: Item)
      modifies this
      ensures loaded == old(loaded) + [item] && !isOpen && history == old(history)
    {
      loaded := loaded + [item];
      isOpen := false;
    }

    /** `handleDelete`: delete from the store, then show what the store now holds. */
    method HandleDelete(id: string, writeSucceeds: bool)
      modifies this, store
      ensures store.hasWindow == old(store.hasWindow)
      ensures old(store.hasWindow) && writeSucceeds ==> history == Without(old(store.Get()), id)
      ensures history == store.Get()
      ensures isOpen == old(isOpen) && loaded == old(loaded)
    {
      store.Delete(id, writeSucceeds);
      LoadHistory();
    }

    /** `handleClear`: only after the user confirms, clear the store and reload. */
    method HandleClear(confirmed: bool)
      modifies this, store
      ensures store.hasWindow == old(store.hasWindow)
      ensures !confirmed ==> history == old(history) && store.slot == old(store.slot)
      ensures confirmed ==> history == store.Get() && (store.hasWindow ==> history == [])
      ensures isOpen == old(isOpen) && loaded == old(loaded)
    {
      if confirmed {
        store.Clear();
        LoadHistory();
      }
    }
  }
}
