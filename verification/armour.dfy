/** The per-player upgrade bookkeeping of the Living Armour: the equipped
    upgrades keyed by identifier, the stat trackers keyed by identifier, and
    the point budget an upgrade is admitted against. */
module LivingArmour {
  import opened Base

  /** An attribute modifier as the modifier multimap compares it: the name of
      the attribute it applies to and the modifier's identity. */
  datatype Modifier = Modifier(attribute: string, modifierId: nat)

  /** An upgrade as the bookkeeping sees it; what the upgrade does in play is
      not part of this model. */
  datatype Upgrade = Upgrade(key: string, level: int, cost: int, mods: set<Modifier>)

  /** A stat tracker: its class-determined identifier, whether its persisted
      state is stale, and its counters, which are opaque here. */
  datatype Tracker = Tracker(id: string, dirty: bool, payload: seq<int>)

  /** The armour's state. Map values may be null (`None`). `totalPoints` is the
      budget already spent as far as admission is concerned; it is set when the
      armour is loaded and is not changed when an upgrade is admitted. */
  datatype Armour = Armour(
    trackers: map<string, Option<Tracker>>,
    upgrades: map<string, Option<Upgrade>>,
    maxPoints: int,
    totalPoints: int)

  /** The budget every new armour starts with. */
  const DefaultMaxPoints: int := 100

  /** A newly constructed armour: nothing equipped, nothing spent. */
  function Fresh(): Armour {
    Armour(map[], map[], DefaultMaxPoints, 0)
  }

  /** The stored upgrade under `key`, if there is an entry, is not null. */
  predicate SlotUsable(a: Armour, key: string) {
    key in a.upgrades ==> a.upgrades[key].Some?
  }

  /** No upgrade entry is null. */
  predicate NoNullUpgrades(a: Armour) {
    forall k :: k in a.upgrades ==> a.upgrades[k].Some?
  }

  /** Every non-null tracker is stored under its own identifier. */
  predicate TrackersKeyedById(trackers: map<string, Option<Tracker>>) {
    forall k :: k in trackers && trackers[k].Some? ==> trackers[k].value.id == k
  }

  /** The outcome of offering an upgrade: whether it was admitted, and the armour after. */
  datatype Admission = Admission(accepted: bool, armour: Armour)

  /** Offers `u` to the armour. A new key is admitted when its cost fits in
      what remains of the budget; an existing key is replaced only by a
      strictly higher level whose extra cost is non-negative and fits. */
  function UpgradeArmour(a: Armour, u: Upgrade): (r: Admission)
    requires SlotUsable(a, u.key)
    // the budget, the spent points and the trackers never change
    ensures r.armour.trackers == a.trackers
    ensures r.armour.maxPoints == a.maxPoints && r.armour.totalPoints == a.totalPoints
    // a rejection changes nothing; an admission changes only the entry for the key
    ensures !r.accepted ==> r.armour == a
    ensures r.accepted ==> r.armour.upgrades == a.upgrades[u.key := Some(u)]
    // a new key: admitted exactly when it fits the budget
    ensures u.key !in a.upgrades ==> (r.accepted <==> a.totalPoints + u.cost <= a.maxPoints)
    // an existing key at or below the stored level: always rejected
    ensures u.key in a.upgrades && u.level <= a.upgrades[u.key].value.level ==> !r.accepted
    // an existing key above the stored level: admitted exactly when the extra cost is non-negative and fits
    ensures u.key in a.upgrades && u.level > a.upgrades[u.key].value.level ==>
      (r.accepted <==>
        var extra := u.cost - a.upgrades[u.key].value.cost;
        extra >= 0 && a.totalPoints + extra <= a.maxPoints)
  {
    if u.key in a.upgrades then
      var current := a.upgrades[u.key].value;
      if u.level > current.level then
        var difference := u.cost - current.cost;
        if difference >= 0 && a.totalPoints + difference <= a.maxPoints then
          Admission(true, a.(upgrades := a.upgrades[u.key := Some(u)]))
        else
          Admission(false, a)
      else
        Admission(false, a)
    else if a.totalPoints + u.cost <= a.maxPoints then
      Admission(true, a.(upgrades := a.upgrades[u.key := Some(u)]))
    else
      Admission(false, a)
  }

  /** Offering the same upgrade a second time is rejected and changes nothing,
      whatever happened to the first offer. */
  lemma ReofferRejected(a: Armour, u: Upgrade)
    requires SlotUsable(a, u.key)
    ensures var first := UpgradeArmour(a, u);
            !first.accepted ==> UpgradeArmour(first.armour, u) == first
    ensures var first := UpgradeArmour(a, u);
            first.accepted ==> UpgradeArmour(first.armour, u) == Admission(false, first.armour)
  {
  }

  /** The union of the modifiers of every non-null upgrade: the multimap the
      armour hands to the player's attributes, as a set of pairs. */
  function ModifiersOf(upgrades: map<string, Option<Upgrade>>): set<Modifier> {
    set k, m | k in upgrades && upgrades[k].Some? && m in upgrades[k].value.mods :: m
  }

  /** Collects the modifiers entry by entry, in the map's iteration order,
      skipping null entries. */
  method GetAttributeModifiers(a: Armour, order: seq<string>) returns (r: set<Modifier>)
    requires Enumerates(order, a.upgrades.Keys)
    ensures r == ModifiersOf(a.upgrades)
  {
    r := {};
    var i := 0;
    while i < |order|
      invariant 0 <= i <= |order|
      invariant forall m :: m in r <==>
        exists j :: 0 <= j < i && a.upgrades[order[j]].Some? && m in a.upgrades[order[j]].value.mods
    {
      var slot := a.upgrades[order[i]];
      if slot.Some? {
        r := r + slot.value.mods;
      }
      i := i + 1;
    }
    forall m | m in ModifiersOf(a.upgrades) ensures m in r {
      var k :| k in a.upgrades && a.upgrades[k].Some? && m in a.upgrades[k].value.mods;
      var j :| 0 <= j < |order| && order[j] == k;
    }
  }

  /** How an offer moves the modifier union: a rejection leaves it alone, an
      admission always brings the new upgrade's modifiers in and can only drop
      modifiers of the upgrade it replaced. */
  lemma {:induction false} AdmissionModifiers(a: Armour, u: Upgrade)
    requires SlotUsable(a, u.key)
    ensures var r := UpgradeArmour(a, u);
            !r.accepted ==> ModifiersOf(r.armour.upgrades) == ModifiersOf(a.upgrades)
    ensures var r := UpgradeArmour(a, u);
            r.accepted ==> u.mods <= ModifiersOf(r.armour.upgrades) <= ModifiersOf(a.upgrades) + u.mods
    ensures var r := UpgradeArmour(a, u);
            r.accepted && u.key !in a.upgrades ==> ModifiersOf(r.armour.upgrades) == ModifiersOf(a.upgrades) + u.mods
  {
    var r := UpgradeArmour(a, u);
    if r.accepted {
      var after := r.armour.upgrades;
      assert after[u.key] == Some(u);
      forall m | m in u.mods ensures m in ModifiersOf(after) {
        assert u.key in after && after[u.key].Some? && m in after[u.key].value.mods;
      }
      forall m | m in ModifiersOf(after) ensures m in ModifiersOf(a.upgrades) + u.mods {
        var k :| k in after && after[k].Some? && m in after[k].value.mods;
        if k != u.key {
          assert k in a.upgrades && a.upgrades[k] == after[k];
        }
      }
      if u.key !in a.upgrades {
        forall m | m in ModifiersOf(a.upgrades) ensures m in ModifiersOf(after) {
          var k :| k in a.upgrades && a.upgrades[k].Some? && m in a.upgrades[k].value.mods;
          assert k != u.key && after[k] == a.upgrades[k];
        }
      }
    }
  }

  /** The admission rule checks the budget against the spent points as they
      were loaded, not against the running sum of admitted costs: from a fresh
      armour, A at level 1 (cost 40), A at level 2 (cost 70) and B at level 1
      (cost 40) are all admitted, and the equipped costs add up to 110 against
      a budget of 100. */
  lemma BudgetCheckedAgainstLoadedTotal()
    ensures var r1 := UpgradeArmour(Fresh(), Upgrade("A", 1, 40, {}));
            var r2 := UpgradeArmour(r1.armour, Upgrade("A", 2, 70, {}));
            var r3 := UpgradeArmour(r2.armour, Upgrade("B", 1, 40, {}));
            && r1.accepted && r2.accepted && r3.accepted
            && r3.armour.totalPoints == 0
            && r3.armour.upgrades["A"].value.cost + r3.armour.upgrades["B"].value.cost > r3.armour.maxPoints
  {
  }
}
