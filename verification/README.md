# Living Armour upgrade bookkeeping, in Dafny

This project models the bookkeeping of BloodMagic's Living Armour
(`LivingArmour.java`). The armour keeps a map from identifier to equipped
upgrade, a map from identifier to stat tracker, a point budget
(`maxUpgradePoints`, 100) and the points already spent (`totalUpgradePoints`).
It models four parts of that class:

- **Admission** (`upgradeArmour`): an offered upgrade is inserted under a new
  key, replaces a lower-level entry under an existing key, or is rejected,
  depending on its level and the point budget.
- **Modifier aggregation** (`getAttributeModifiers`): the union of the
  attribute modifiers of every non-null upgrade.
- **Tick dispatch** (`onTick`): each non-null tracker is ticked. The candidate
  upgrades of each tracker that fires are offered in list order.
- **Persistence** (`readFromNBT`, `writeToNBT`): which upgrade records and
  trackers are read from and written to the engine's tag tree, and how the
  spent points are rebuilt on load.

Everything is functional. The armour is an immutable `Armour` value.
`UpgradeArmour` returns whether the upgrade was admitted together with the new
armour. Loading and saving are folds over sequences. Hash-map iteration order
is unspecified in the source, so it is a parameter: a sequence that enumerates
the map's keys exactly once (`Base.Enumerates`). A null map value is `None`.

Behaviour that lives outside the class is a parameter:
- `Ticking.TrackerHooks` stands for a tracker's `onTick` and `getUpgrades`.
- `Persistence.Codec` stands for `generateUpgradeFromKey`, the upgrade and
  tracker payload readers and writers, and the list of registered tracker
  classes. A class whose construction fails is `None` in that list, and a
  tracker whose own `readFromNBT` fails reads back `None`.

Files:
- `base.dfy`: `Option`, plus enumerations of a key set.
- `nbt.dfy`: the tag tree. Its getters return the engine's defaults (`""`,
  `0`, an empty compound) for a missing or wrongly typed entry.
- `armour.dfy`: the state, admission and the modifier union.
- `ticking.dfy`: tick dispatch.
- `persistence.dfy`: loading, saving and the upgrade round trip.

The model follows the code, including these behaviours a reader might not expect:

- **Spent points are never updated.** `upgradeArmour` never changes
  `totalUpgradePoints`. Every admission is checked against the value set when
  the armour was loaded, not against a running sum. So the invariant "spent
  points equal the sum of equipped costs and stay within the budget" does not
  hold. With budget 100, offering A (level 1, cost 40), then A (level 2,
  cost 70), then B (level 1, cost 40) admits all three, and the equipped
  costs reach 110 (`LivingArmour.BudgetCheckedAgainstLoadedTotal`).
- **Duplicate modifiers collapse.** The modifier union is a `HashMultimap`, so
  duplicate (attribute, modifier) pairs merge. It is modelled as a set.
- **Both write modes clear dirty flags.** Every tracker that is written has
  its dirty flag cleared, in both modes, not only in the full-write mode.
- **Loading adds costs to the current spent points.** It does not reset them.
  With several records under one key, the last record's upgrade is kept but
  every record's cost is added.

## Model

| member | source | states |
|---|---|---|
| `LivingArmour.UpgradeArmour` | src/main/java/WayofTime/bloodmagic/livingArmour/LivingArmour.java:45-76 | A new key is admitted exactly when spent points plus its cost fit the budget. An existing key at or below the stored level is always rejected. Above it, the upgrade is admitted exactly when the cost difference is non-negative and fits. A rejection leaves the armour unchanged. An admission changes only the entry for the upgrade's key. Budget, spent points and trackers never change. |
| `LivingArmour.ReofferRejected` | src/main/java/WayofTime/bloodmagic/livingArmour/LivingArmour.java:48-63 | Offering the same upgrade twice: the second offer is always rejected and changes nothing. |
| `LivingArmour.GetAttributeModifiers` | src/main/java/WayofTime/bloodmagic/livingArmour/LivingArmour.java:28-43 | Walking the entries in any iteration order and skipping null entries yields exactly the set of modifiers carried by some non-null upgrade. |
| `LivingArmour.AdmissionModifiers` | src/main/java/WayofTime/bloodmagic/livingArmour/LivingArmour.java:28-76 | A rejected offer leaves the modifier union unchanged. An admitted one brings in all of its modifiers and adds no others; an admission under a new key adds exactly its modifiers. |
| `LivingArmour.BudgetCheckedAgainstLoadedTotal` | src/main/java/WayofTime/bloodmagic/livingArmour/LivingArmour.java:25-76 | From a fresh armour, three admissions leave equipped costs of 110 against a budget of 100 while spent points stay 0. |
| `Ticking.OfferAll` | src/main/java/WayofTime/bloodmagic/livingArmour/LivingArmour.java:117-120 | Offering a candidate list in order never removes an entry and never lowers a stored level. Every changed entry holds one of the offered upgrades under its own key. Trackers, budget and spent points are untouched. |
| `Ticking.OfferAllAppend` | src/main/java/WayofTime/bloodmagic/livingArmour/LivingArmour.java:117-120 | Offering `xs + ys` is the same as offering `xs`, then `ys` to the result. |
| `Ticking.OfferAllIgnoresTrackers` | src/main/java/WayofTime/bloodmagic/livingArmour/LivingArmour.java:45-76 | The tracker map plays no part in which upgrades are admitted. |
| `Ticking.TickFrom` | src/main/java/WayofTime/bloodmagic/livingArmour/LivingArmour.java:104-122 | Every listed non-null tracker is replaced by its ticked self. Null and unlisted trackers are left alone. The key set, budget and spent points do not change. |
| `Ticking.OnTick` | src/main/java/WayofTime/bloodmagic/livingArmour/LivingArmour.java:104-122 | Over a whole iteration order, every null tracker stays null and every non-null tracker is ticked. Trackers stay filed under their own identifiers. Budget and spent points do not change. |
| `Ticking.TickOffersCandidatesInOrder` | src/main/java/WayofTime/bloodmagic/livingArmour/LivingArmour.java:104-122 | The upgrades after a tick equal those from offering, in one sequence, the candidate lists of the firing trackers in iteration order, each in list order. |
| `Ticking.QuietTickChangesNoUpgrade` | src/main/java/WayofTime/bloodmagic/livingArmour/LivingArmour.java:113-121 | When no tracker fires, a tick leaves the upgrades unchanged. |
| `Persistence.LoadUpgrades` | src/main/java/WayofTime/bloodmagic/livingArmour/LivingArmour.java:127-143 | Each record that rebuilds into an upgrade adds its cost to the spent points, so repeated keys are all paid for. Under each key the last such record's upgrade is kept. Records that rebuild to null are skipped. Other entries are untouched. |
| `Persistence.LoadTrackers` | src/main/java/WayofTime/bloodmagic/livingArmour/LivingArmour.java:145-167 | Each constructed tracker is filed under its identifier. Its persisted state is read only when the tag's compound under that identifier is non-empty. A tracker whose read fails is not filed, so the entry under that identifier keeps its earlier value or stays absent. Upgrades and points are untouched. |
| `Persistence.ConstructedTrackersRegistered` | src/main/java/WayofTime/bloodmagic/livingArmour/LivingArmour.java:145-162 | Every tracker class that constructs and whose persisted state reads without failing ends up with a tracker after loading. |
| `Persistence.FailedReadNotRegistered` | src/main/java/WayofTime/bloodmagic/livingArmour/LivingArmour.java:157-166 | When every class with a given identifier fails to construct or to read its state, loading files no tracker under that identifier. |
| `Persistence.ReadFromNBT` | src/main/java/WayofTime/bloodmagic/livingArmour/LivingArmour.java:125-168 | Loading combines the upgrade and tracker rules above. The budget is unchanged. Every registered tracker that constructs and reads its state is present; one whose read fails leaves its entry as it was. Trackers stay filed under their own identifiers. |
| `Persistence.WriteTrackers` | src/main/java/WayofTime/bloodmagic/livingArmour/LivingArmour.java:191-211 | Exactly the walked trackers that are written (force flag or dirty) lose their dirty flag. Null trackers are skipped. Upgrades and points are untouched. |
| `Persistence.WriteTrackersTag` | src/main/java/WayofTime/bloodmagic/livingArmour/LivingArmour.java:191-211 | The tag gains exactly the identifiers of the written trackers and keeps every other entry. |
| `Persistence.WriteTrackersPayloads` | src/main/java/WayofTime/bloodmagic/livingArmour/LivingArmour.java:200-209 | When trackers are filed under their own identifiers, each written tracker's payload ends up under its identifier. |
| `Persistence.UpgradeListOnePerEntry` | src/main/java/WayofTime/bloodmagic/livingArmour/LivingArmour.java:172-189 | The saved upgrade list has one record per upgrade entry. Every entry's record is in it, and every record in it belongs to an entry. |
| `Persistence.WriteToNBT` | src/main/java/WayofTime/bloodmagic/livingArmour/LivingArmour.java:170-212 | The tag gains `"upgrades"` plus the identifiers of the trackers selected by `forceWrite` or their dirty flag, and keeps everything else. The upgrade list is there unless a written tracker has that name. Selected trackers are cleaned and the rest are unchanged. Upgrades and points are untouched. |
| `Persistence.WriteDirtyToNBT` | src/main/java/WayofTime/bloodmagic/livingArmour/LivingArmour.java:220-223 | Equals a write with `forceWrite` false. Afterwards no tracker is dirty, and trackers that were clean are unchanged. |
| `Persistence.WriteAllToNBT` | src/main/java/WayofTime/bloodmagic/livingArmour/LivingArmour.java:225-228 | Equals a write with `forceWrite` true. Every non-null tracker is written and left clean. |
| `Persistence.CleanDirtyWrite` | src/main/java/WayofTime/bloodmagic/livingArmour/LivingArmour.java:170-212 | A dirty-only write over clean trackers only rewrites the upgrade list. |
| `Persistence.DirtyWriteSettles` | src/main/java/WayofTime/bloodmagic/livingArmour/LivingArmour.java:202-210 | After a dirty-only write, a second one writes no tracker and changes no tracker. |
| `Persistence.UpgradeListLoadsBack` | src/main/java/WayofTime/bloodmagic/livingArmour/LivingArmour.java:127-143 | Loading a saved upgrade list into an armour with no upgrades gives back exactly the saved map, when each upgrade is filed under its own key and the codec rebuilds it. The spent points grow by the sum of the saved costs. |
| `Persistence.UpgradesRoundTrip` | src/main/java/WayofTime/bloodmagic/livingArmour/LivingArmour.java:125-212 | Save, then load into a fresh armour, and you get back the same upgrade map, provided each upgrade is filed under its own key, the codec rebuilds it from its record, and no written tracker is named `"upgrades"`. The spent points become the sum of the equipped costs. |

## Left out

- The first loop of `onTick`, which calls each upgrade's own `onTick` (`LivingArmour.java:92-102`). What an upgrade does in play is outside the bookkeeping, so it has no effect in the model.
- A tracker's `onTick` receives the armour itself and could change it. The model only lets it report whether it fired, its dirty flag and its counters. It cannot change its identifier, which is fixed by its class in the source.
- `notifyPlayerOfUpgrade` is only a console print.
- Reflective construction of tracker classes, including the swallowed exceptions. It is a given list of fresh trackers, with `None` where construction fails. An exception from a tracker's own `readFromNBT` is modelled only as that tracker not being filed; the stack trace printed by the catch block is left out.
- A tracker's `readFromNBT` is assumed to leave its dirty flag alone. The model only lets it replace the tracker's counters.
- NBT encoding internals. `getTagList("upgrades", 10)` checks the list's element type. The model keeps the list only if every element is a compound, which agrees for the engine's homogeneous lists. `getInteger` reads only integer tags.
- Java 32-bit `int` arithmetic. Levels, costs and point sums are unbounded, so overflow in the budget sums is not modelled.
- The round trip for trackers is not stated, because it depends entirely on each tracker's own payload format.
- `LivingArmour.UpgradeArmour` requires the stored entry under the offered key to be non-null. The source dereferences that entry and would throw there.
- `Ticking.OfferAll`, `Ticking.TickFrom`, `Ticking.OnTick` and `Ticking.TickOffersCandidatesInOrder` require the same of every offered key. The source throws at the first null it meets; the model does not say how far it gets.
- `Persistence.WriteToNBT`, `Persistence.WriteDirtyToNBT` and `Persistence.WriteAllToNBT` require every stored upgrade to be non-null. The source dereferences each one while writing and would throw.
- `compat/guideapi/book/CategoryDemon.java` builds guide-book pages over a third-party UI library and holds no bookkeeping. It is not part of this model.
