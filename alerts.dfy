/** The rate-alert panel of `components/AlertsPanel.jsx`: a per-pair alert
    (direction, threshold, auto-check flag) kept in local storage, and the
    stateless predicate that says whether the current rate meets it.
    The threshold text of the input box is represented by its value under
    JavaScript's `Number()`, `None` when that is not finite; the empty text is 0. */
module Alerts {
  import opened Types

  /** `keyFor`: the local-storage key of a pair's alert. */
  function AlertKey(from: string, to: string): (k: string)
    ensures |k| == 6 + |PairKey(from, to)|
    ensures k[..6] == "alert:" && k[6..] == PairKey(from, to)
  {
    "alert:" + from + "->" + to
  }

  /** Different pairs of dash-free codes have different alert keys, so an alert
      saved or removed for one pair never touches another pair's alert. */
  lemma AlertKeyInjective(f1: string, t1: string, f2: string, t2: string)
    requires NoDash(f1) && NoDash(f2)
    requires AlertKey(f1, t1) == AlertKey(f2, t2)
    ensures f1 == f2 && t1 == t2
  {
    assert PairKey(f1, t1) == AlertKey(f1, t1)[6..] == AlertKey(f2, t2)[6..] == PairKey(f2, t2);
    PairKeyInjective(f1, t1, f2, t2);
  }

  /** `triggered`: an enabled alert with a finite threshold fires when the known rate
      is at or above it (`dir == "above"`) or at or below it (any other `dir`). */
  predicate Triggered(enabled: bool, dir: string, threshold: Option<real>, rate: Option<real>): (b: bool)
    ensures b ==> enabled && threshold.Some? && rate.Some?
  {
    if !enabled || threshold.None? || rate.None? then false
    else if dir == "above" then rate.value >= threshold.value
    else rate.value <= threshold.value
  }

  /** An "above" alert fires exactly when the rate is at least the threshold. */
  lemma TriggeredAbove(threshold: real, rate: real)
    ensures Triggered(true, "above", Some(threshold), Some(rate)) <==> rate >= threshold
  {
  }

  /** A "below" alert fires exactly when the rate is at most the threshold. */
  lemma TriggeredBelow(threshold: real, rate: real)
    ensures Triggered(true, "below", Some(threshold), Some(rate)) <==> rate <= threshold
  {
  }

  /** Both comparisons are inclusive: a rate equal to the threshold fires either way. */
  lemma TriggeredAtThreshold(dir: string, threshold: real)
    ensures Triggered(true, dir, Some(threshold), Some(threshold))
  {
  }

  /** Moving the rate further past the threshold keeps a fired alert fired. */
  lemma TriggeredMonotone(dir: string, threshold: real, rate: real, further: real)
    requires Triggered(true, dir, Some(threshold), Some(rate))
    requires if dir == "above" then further >= rate else further <= rate
    ensures Triggered(true, dir, Some(threshold), Some(further))
  {
  }

  /** `{ dir, threshold, autocheck }` as stored; `autocheck` may be absent in old records. */
  datatype AlertRecord = AlertRecord(dir: string, threshold: real, autocheck: Option<bool>)

  /** A stored value: a parsed record, or text that `JSON.parse` rejects. */
  datatype StoredAlert = Saved(record: AlertRecord) | Unparsable

  /** The panel's React state. */
  datatype Panel = Panel(enabled: bool, dir: string, threshold: Option<real>, autocheck: bool)

  /** The state with no alert: disabled, "above", empty threshold text, auto-check on. */
  const Defaults := Panel(false, "above", Some(0.0), true)

  /** `localStorage.getItem(key)`, `None` for a missing key. */
  function Lookup(store: map<string, StoredAlert>, key: string): (r: Option<StoredAlert>)
    ensures r.Some? <==> key in store
    ensures r.Some? ==> r.value == store[key]
  {
    if key in store then Some(store[key]) else None
  }

  /** The load effect run for a pair, given what is stored under its key. */
  function LoadPanel(prev: Panel, stored: Option<StoredAlert>): (r: Panel)
    ensures r.enabled <==> stored.Some? && stored.value.Saved?
    ensures stored.None? ==> r == Defaults
    ensures stored == Some(Unparsable) ==> r == prev.(enabled := false)
    ensures stored.Some? && stored.value.Saved? ==>
      && r.dir == stored.value.record.dir
      && r.threshold == Some(stored.value.record.threshold)
      && (r.autocheck <==> stored.value.record.autocheck != Some(false))
  {
    match stored
    case None => Defaults
    case Some(Unparsable) => prev.(enabled := false)
    case Some(Saved(r)) =>
      Panel(true, r.dir, Some(r.threshold), if r.autocheck.Some? then r.autocheck.value else true)
  }

  /** An outcome of `save` or `remove`: the store and the panel afterwards. */
  datatype Effect = Effect(store: map<string, StoredAlert>, panel: Panel)

  /** `save`: a non-finite threshold does nothing; otherwise the alert is written under
      the pair's key and the panel is enabled. */
  function SaveAlert(store: map<string, StoredAlert>, p: Panel, from: string, to: string): (r: Effect)
    ensures p.threshold.None? ==> r == Effect(store, p)
    ensures p.threshold.Some? ==> r.panel.enabled && AlertKey(from, to) in r.store
    ensures forall k :: k != AlertKey(from, to) ==> Lookup(r.store, k) == Lookup(store, k)
  {
    if p.threshold.None? then Effect(store, p)
    else
      Effect(store[AlertKey(from, to) := Saved(AlertRecord(p.dir, p.threshold.value, Some(p.autocheck)))],
             p.(enabled := true))
  }

  /** `remove`: the pair's key is deleted and the panel disabled. */
  function RemoveAlert(store: map<string, StoredAlert>, p: Panel, from: string, to: string): (r: Effect)
    ensures AlertKey(from, to) !in r.store && !r.panel.enabled
    ensures r.panel == p.(enabled := false)
    ensures forall k :: k != AlertKey(from, to) ==> Lookup(r.store, k) == Lookup(store, k)
  {
    Effect(store - {AlertKey(from, to)}, p.(enabled := false))
  }

  /** Saving with a non-finite threshold changes neither the store nor the panel. */
  lemma SaveInvalidThreshold(store: map<string, StoredAlert>, p: Panel, from: string, to: string)
    requires p.threshold.None?
    ensures SaveAlert(store, p, from, to) == Effect(store, p)
  {
  }

  /** Saving a finite threshold and then loading the same pair gives back the saved
      direction, threshold and auto-check flag, enabled, whatever the panel showed. */
  lemma SaveThenLoad(store: map<string, StoredAlert>, p: Panel, from: string, to: string, shown: Panel)
    requires p.threshold.Some?
    ensures var after := SaveAlert(store, p, from, to);
      && after.panel == p.(enabled := true)
      && LoadPanel(shown, Lookup(after.store, AlertKey(from, to))) == after.panel
  {
  }

  /** After removing a pair's alert, loading it gives the defaults and no alert fires. */
  lemma RemoveThenLoad(store: map<string, StoredAlert>, p: Panel, from: string, to: string, shown: Panel, rate: Option<real>)
    ensures var after := RemoveAlert(store, p, from, to);
      && !after.panel.enabled
      && LoadPanel(shown, Lookup(after.store, AlertKey(from, to))) == Defaults
      && !Triggered(Defaults.enabled, Defaults.dir, Defaults.threshold, rate)
  {
  }

  /** Saving or removing one pair's alert leaves every other pair's stored alert alone. */
  lemma OtherPairsUntouched(store: map<string, StoredAlert>, p: Panel, from: string, to: string,
                            other: string, otherTo: string)
    requires NoDash(from) && NoDash(other) && (other, otherTo) != (from, to)
    ensures Lookup(SaveAlert(store, p, from, to).store, AlertKey(other, otherTo)) == Lookup(store, AlertKey(other, otherTo))
    ensures Lookup(RemoveAlert(store, p, from, to).store, AlertKey(other, otherTo)) == Lookup(store, AlertKey(other, otherTo))
  {
    if AlertKey(other, otherTo) == AlertKey(from, to) {
      AlertKeyInjective(other, otherTo, from, to);
    }
  }

  /** The panel: its React state and the local-storage entries it reads and writes. */
  class AlertsPanel {
    var enabled: bool
    var dir: string
    var threshold: Option<real>
    var autocheck: bool
    var store: map<string, StoredAlert>

    /** The panel's state as a value. */
    function State(): Panel
      reads this
    {
      Panel(enabled, dir, threshold, autocheck)
    }

    /** First render: the `useState` defaults, over the given storage. */
    constructor (stored: map<string, StoredAlert>)
      ensures State() == Defaults && store == stored
    {
      enabled, dir, threshold, autocheck := false, "above", Some(0.0), true;
      store := stored;
    }

    /** The effect run when the pair changes: read the pair's alert, if any. */
    method Load(from: string, to: string)
      modifies this`enabled, this`dir, this`threshold, this`autocheck
      ensures State() == LoadPanel(old(State()), Lookup(store, AlertKey(from, to)))
    {
      var key := AlertKey(from, to);
      if key !in store {
        enabled, dir, threshold, autocheck := false, "above", Some(0.0), true;
      } else {
        match store[key] {
          case Unparsable =>
            enabled := false;
          case Saved(r) =>
            enabled, dir, threshold := true, r.dir, Some(r.threshold);
            autocheck := if r.autocheck.Some? then r.autocheck.value else true;
        }
      }
    }

    /** The direction select. */
    method SetDir(d: string)
      modifies this`dir
      ensures State() == old(State()).(dir := d)
    {
      dir := d;
    }

    /** The threshold input; `parsed` is `Number()` of the new text. */
    method SetThreshold(parsed: Option<real>)
      modifies this`threshold
      ensures State() == old(State()).(threshold := parsed)
    {
      threshold := parsed;
    }

    /** The auto-check checkbox. */
    method SetAutocheck(b: bool)
      modifies this`autocheck
      ensures State() == old(State()).(autocheck := b)
    {
      autocheck := b;
    }

    /** The "Save alert" button. */
    method Save(from: string, to: string)
      modifies this`store, this`enabled
      ensures Effect(store, State()) == SaveAlert(old(store), old(State()), from, to)
    {
      if threshold.None? {
        return;
      }
      store := store[AlertKey(from, to) := Saved(AlertRecord(dir, threshold.value, Some(autocheck)))];
      enabled := true;
    }

    /** The "Remove" button. */
    method Remove(from: string, to: string)
      modifies this`store, this`enabled
      ensures Effect(store, State()) == RemoveAlert(old(store), old(State()), from, to)
    {
      store := store - {AlertKey(from, to)};
      enabled := false;
    }
  }
}
