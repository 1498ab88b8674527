/** The tracker half of a tick: every non-null tracker is ticked, and the
    candidate upgrades of each tracker that fires are offered to the armour in
    list order. What a tracker counts and when it fires is not modelled; it is
    given as hooks. */
module Ticking {
  import opened Base
  import opened LivingArmour

  /** What one tick of a tracker reports: whether it fired, and its new dirty
      flag and counters. */
  datatype TickOutcome = TickOutcome(fired: bool, dirty: bool, payload: seq<int>)

  /** The tracker behaviour the bookkeeping calls into. */
  datatype TrackerHooks = TrackerHooks(
    tick: Tracker -> TickOutcome,
    upgradesOf: Tracker -> seq<Upgrade>)

  /** The tracker after one tick; its identifier does not change. */
  function Ticked(t: Tracker, hooks: TrackerHooks): Tracker {
    var o := hooks.tick(t);
    t.(dirty := o.dirty, payload := o.payload)
  }

  /** Every offered upgrade finds a dereferenceable entry (or none) under its key. */
  predicate OffersSafe(a: Armour, us: seq<Upgrade>) {
    forall i :: 0 <= i < |us| ==> SlotUsable(a, us[i].key)
  }

  /** Offers each upgrade of `us` in turn, each to the armour the previous offer left. */
  function OfferAll(a: Armour, us: seq<Upgrade>): (r: Armour)
    requires OffersSafe(a, us)
    ensures r.trackers == a.trackers
    ensures r.maxPoints == a.maxPoints && r.totalPoints == a.totalPoints
    // no entry is removed, and no stored level goes down
    ensures forall k :: k in a.upgrades ==> k in r.upgrades
    ensures forall k :: k in a.upgrades && a.upgrades[k].Some? ==>
      r.upgrades[k].Some? && r.upgrades[k].value.level >= a.upgrades[k].value.level
    // every entry that changed now holds one of the offered upgrades, under that upgrade's key
    ensures forall k :: k in r.upgrades && !(k in a.upgrades && r.upgrades[k] == a.upgrades[k]) ==>
      exists i :: 0 <= i < |us| && us[i].key == k && r.upgrades[k] == Some(us[i])
    decreases |us|
  {
    if |us| == 0 then a
    else
      var step := UpgradeArmour(a, us[0]);
      var r := OfferAll(step.armour, us[1..]);
      assert forall k :: k in r.upgrades && !(k in step.armour.upgrades && r.upgrades[k] == step.armour.upgrades[k]) ==>
        exists i :: 0 <= i < |us| && us[i].key == k && r.upgrades[k] == Some(us[i]) by {
        forall k | k in r.upgrades && !(k in step.armour.upgrades && r.upgrades[k] == step.armour.upgrades[k])
          ensures exists i :: 0 <= i < |us| && us[i].key == k && r.upgrades[k] == Some(us[i])
        {
          var i :| 0 <= i < |us[1..]| && us[1..][i].key == k && r.upgrades[k] == Some(us[1..][i]);
          assert us[i + 1] == us[1..][i];
        }
      }
      r
  }

  /** Offers that are safe one after the other are safe together, and the
      second run starts where the first ended. */
  lemma {:induction false} OfferAllAppend(a: Armour, xs: seq<Upgrade>, ys: seq<Upgrade>)
    requires OffersSafe(a, xs + ys)
    ensures OffersSafe(a, xs)
    ensures OffersSafe(OfferAll(a, xs), ys)
    ensures OfferAll(a, xs + ys) == OfferAll(OfferAll(a, xs), ys)
    decreases |xs|
  {
    assert forall i :: 0 <= i < |xs| ==> (xs + ys)[i] == xs[i];
    assert forall i :: 0 <= i < |ys| ==> (xs + ys)[|xs| + i] == ys[i];
    if |xs| == 0 {
      assert xs + ys == ys;
    } else {
      var step := UpgradeArmour(a, xs[0]);
      assert (xs + ys)[1..] == xs[1..] + ys;
      OfferAllAppend(step.armour, xs[1..], ys);
    }
  }

  /** The trackers play no part in admission. */
  lemma {:induction false} OfferAllIgnoresTrackers(a: Armour, ts: map<string, Option<Tracker>>, us: seq<Upgrade>)
    requires OffersSafe(a, us)
    ensures OffersSafe(a.(trackers := ts), us)
    ensures OfferAll(a.(trackers := ts), us) == OfferAll(a, us).(trackers := ts)
    decreases |us|
  {
    if |us| > 0 {
      var step := UpgradeArmour(a, us[0]);
      assert UpgradeArmour(a.(trackers := ts), us[0]).armour == step.armour.(trackers := ts);
      OfferAllIgnoresTrackers(step.armour, ts, us[1..]);
    }
  }

  /** The upgrades the trackers of `order` will propose, in the order they are
      offered: for each non-null tracker that fires, its candidate list, read
      from the tracker after its tick. */
  function Candidates(trackers: map<string, Option<Tracker>>, order: seq<string>, hooks: TrackerHooks): seq<Upgrade>
    requires Covers(trackers, order)
    decreases |order|
  {
    if |order| == 0 then []
    else
      var rest := Candidates(trackers, order[1..], hooks);
      match trackers[order[0]]
      case None => rest
      case Some(t) =>
        if hooks.tick(t).fired then hooks.upgradesOf(Ticked(t, hooks)) + rest else rest
  }

  /** Candidates only depend on the trackers listed in `order`. */
  lemma {:induction false} CandidatesFrame(t1: map<string, Option<Tracker>>, t2: map<string, Option<Tracker>>,
                                          order: seq<string>, hooks: TrackerHooks)
    requires Covers(t1, order) && Covers(t2, order)
    requires forall i :: 0 <= i < |order| ==> t1[order[i]] == t2[order[i]]
    ensures Candidates(t1, order, hooks) == Candidates(t2, order, hooks)
    decreases |order|
  {
    if |order| > 0 {
      CandidatesFrame(t1, t2, order[1..], hooks);
    }
  }

  /** The armour after ticking the non-null tracker `t` under `id`: the
      ticked tracker is stored back, and when it fired its candidates are
      offered. */
  function TickOne(a: Armour, id: string, t: Tracker, hooks: TrackerHooks): Armour
    requires OffersSafe(a, if hooks.tick(t).fired then hooks.upgradesOf(Ticked(t, hooks)) else [])
  {
    var t' := Ticked(t, hooks);
    var a1 := a.(trackers := a.trackers[id := Some(t')]);
    if hooks.tick(t).fired then
      OfferAllIgnoresTrackers(a, a1.trackers, hooks.upgradesOf(t'));
      OfferAll(a1, hooks.upgradesOf(t'))
    else a1
  }

  /** One step of the tick loop keeps the rest of the loop safe to run, and
      offering the remaining candidates after it admits what offering all of
      them before it would. */
  lemma TickOneSafe(a: Armour, rest: seq<string>, hooks: TrackerHooks)
    requires |rest| > 0 && Covers(a.trackers, rest) && Distinct(rest) && a.trackers[rest[0]].Some?
    requires OffersSafe(a, Candidates(a.trackers, rest, hooks))
    ensures var t := a.trackers[rest[0]].value;
      OffersSafe(a, if hooks.tick(t).fired then hooks.upgradesOf(Ticked(t, hooks)) else [])
      && var next := TickOne(a, rest[0], t, hooks);
      next.trackers == a.trackers[rest[0] := Some(Ticked(t, hooks))]
      && next.maxPoints == a.maxPoints && next.totalPoints == a.totalPoints
      && OffersSafe(next, Candidates(next.trackers, rest[1..], hooks))
      && OfferAll(next, Candidates(next.trackers, rest[1..], hooks)).upgrades
         == OfferAll(a, Candidates(a.trackers, rest, hooks)).upgrades
  {
    var id := rest[0];
    var t := a.trackers[id].value;
    var t' := Ticked(t, hooks);
    var a1 := a.(trackers := a.trackers[id := Some(t')]);
    var later := Candidates(a.trackers, rest[1..], hooks);
    assert forall i :: 0 <= i < |rest[1..]| ==> rest[1..][i] == rest[i + 1] && rest[i + 1] != id;
    CandidatesFrame(a.trackers, a1.trackers, rest[1..], hooks);
    if hooks.tick(t).fired {
      var offered := hooks.upgradesOf(t');
      OfferAllAppend(a, offered, later);
      OfferAllIgnoresTrackers(a, a1.trackers, offered);
      OfferAllIgnoresTrackers(OfferAll(a, offered), a1.trackers, later);
    } else {
      OfferAllIgnoresTrackers(a, a1.trackers, later);
    }
  }

  /** Ticks the trackers listed in `rest`, in that order. A null tracker is
      skipped; a tracker is stored back after its tick; when it fires, its
      candidates are offered one by one. */
  function TickFrom(a: Armour, rest: seq<string>, hooks: TrackerHooks): (r: Armour)
    requires Covers(a.trackers, rest) && Distinct(rest)
    requires OffersSafe(a, Candidates(a.trackers, rest, hooks))
    ensures r.maxPoints == a.maxPoints && r.totalPoints == a.totalPoints
    ensures r.trackers.Keys == a.trackers.Keys
    // listed non-null trackers are ticked; null and unlisted entries are left alone
    ensures forall k :: k in a.trackers ==>
      r.trackers[k] == (if k in rest && a.trackers[k].Some? then Some(Ticked(a.trackers[k].value, hooks)) else a.trackers[k])
    decreases |rest|
  {
    if |rest| == 0 then a
    else
      var id := rest[0];
      assert forall i :: 0 <= i < |rest[1..]| ==> rest[1..][i] == rest[i + 1] && rest[i + 1] != id;
      match a.trackers[id]
      case None =>
        TickFrom(a, rest[1..], hooks)
      case Some(t) =>
        TickOneSafe(a, rest, hooks);
        TickFrom(TickOne(a, id, t, hooks), rest[1..], hooks)
  }

  /** The tracker loop of a tick, over the tracker map in its iteration order. */
  function OnTick(a: Armour, order: seq<string>, hooks: TrackerHooks): (r: Armour)
    requires Enumerates(order, a.trackers.Keys)
    requires OffersSafe(a, Candidates(a.trackers, order, hooks))
    ensures r.maxPoints == a.maxPoints && r.totalPoints == a.totalPoints
    ensures r.trackers.Keys == a.trackers.Keys
    ensures forall k :: k in a.trackers && a.trackers[k].None? ==> r.trackers[k].None?
    ensures forall k :: k in a.trackers && a.trackers[k].Some? ==> r.trackers[k] == Some(Ticked(a.trackers[k].value, hooks))
    ensures TrackersKeyedById(a.trackers) ==> TrackersKeyedById(r.trackers)
  {
    TickFrom(a, order, hooks)
  }

  /** A tick leaves the upgrades exactly as offering the concatenated
      candidates of the firing trackers, in iteration order, would. */
  lemma {:induction false} TickOffersCandidatesInOrder(a: Armour, rest: seq<string>, hooks: TrackerHooks)
    requires Covers(a.trackers, rest) && Distinct(rest)
    requires OffersSafe(a, Candidates(a.trackers, rest, hooks))
    ensures TickFrom(a, rest, hooks).upgrades == OfferAll(a, Candidates(a.trackers, rest, hooks)).upgrades
    decreases |rest|
  {
    if |rest| > 0 {
      var id := rest[0];
      assert forall i :: 0 <= i < |rest[1..]| ==> rest[1..][i] == rest[i + 1] && rest[i + 1] != id;
      match a.trackers[id]
      case None =>
        TickOffersCandidatesInOrder(a, rest[1..], hooks);
      case Some(t) =>
        TickOneSafe(a, rest, hooks);
        TickOffersCandidatesInOrder(TickOne(a, id, t, hooks), rest[1..], hooks);
    }
  }

  /** A tick in which no tracker fires leaves the upgrades alone. */
  lemma {:induction false} QuietTickChangesNoUpgrade(a: Armour, order: seq<string>, hooks: TrackerHooks)
    requires Enumerates(order, a.trackers.Keys)
    requires forall k :: k in a.trackers && a.trackers[k].Some? ==> !hooks.tick(a.trackers[k].value).fired
    ensures OffersSafe(a, Candidates(a.trackers, order, hooks))
    ensures OnTick(a, order, hooks).upgrades == a.upgrades
  {
    QuietCandidates(a.trackers, order, hooks);
    TickOffersCandidatesInOrder(a, order, hooks);
  }

  /** Trackers that do not fire propose no candidates. */
  lemma {:induction false} QuietCandidates(trackers: map<string, Option<Tracker>>, order: seq<string>, hooks: TrackerHooks)
    requires Covers(trackers, order)
    requires forall k :: k in trackers && trackers[k].Some? ==> !hooks.tick(trackers[k].value).fired
    ensures Candidates(trackers, order, hooks) == []
    decreases |order|
  {
    if |order| > 0 {
      QuietCandidates(trackers, order[1..], hooks);
    }
  }
}
