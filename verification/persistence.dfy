/** Saving and loading the armour through the engine's tag tree. The saved
    layout is a list of upgrade records under "upgrades" and one compound per
    tracker under the tracker's identifier. How an upgrade or a tracker encodes
    its own state is not modelled; it is given as a codec. */
module Persistence {
  import opened Base
  import opened Nbt
  import opened LivingArmour

  /** The collaborators the armour calls while saving and loading. */
  datatype Codec = Codec(
    // rebuilds an upgrade from its key, level and payload; None when the key is unknown
    generateUpgradeFromKey: (string, int, Fields) -> Option<Upgrade>,
    // an upgrade's own payload
    writeUpgrade: Upgrade -> Fields,
    // one fresh tracker per registered tracker class, None where construction fails
    trackerFactories: seq<Option<Tracker>>,
    // a tracker's counters after reading its persisted payload; None where reading fails
    readTracker: (Tracker, Fields) -> Option<seq<int>>,
    // a tracker's own payload
    writeTracker: Tracker -> Fields)

  const UpgradesKey: string := "upgrades"

  /** The key a saved upgrade record is filed under when it is loaded. */
  function RecordKey(item: Tag): string {
    GetString(AsCompound(item), "key")
  }

  /** The upgrade a saved record rebuilds into, if any. */
  function Reconstruct(item: Tag, codec: Codec): Option<Upgrade> {
    var record := AsCompound(item);
    codec.generateUpgradeFromKey(GetString(record, "key"), GetInteger(record, "level"), GetCompound(record, "upgrade"))
  }

  /** The summed cost of every record that rebuilds into an upgrade. */
  function LoadedCost(items: seq<Tag>, codec: Codec): int
    decreases |items|
  {
    if |items| == 0 then 0
    else
      (match Reconstruct(items[0], codec) case Some(u) => u.cost case None => 0)
      + LoadedCost(items[1..], codec)
  }

  lemma {:induction false} LoadedCostSnoc(items: seq<Tag>, item: Tag, codec: Codec)
    ensures LoadedCost(items + [item], codec) ==
      LoadedCost(items, codec) + (match Reconstruct(item, codec) case Some(u) => u.cost case None => 0)
    decreases |items|
  {
    if |items| == 0 {
      assert items + [item] == [item];
      assert [item][1..] == [];
    } else {
      assert (items + [item])[1..] == items[1..] + [item];
      LoadedCostSnoc(items[1..], item, codec);
    }
  }

  /** The upgrade rebuilt from the last record filed under `key` that rebuilds at all. */
  function LastLoaded(items: seq<Tag>, codec: Codec, key: string): Option<Upgrade>
    decreases |items|
  {
    if |items| == 0 then None
    else
      var last := items[|items| - 1];
      if RecordKey(last) == key && Reconstruct(last, codec).Some? then Reconstruct(last, codec)
      else LastLoaded(items[..|items| - 1], codec, key)
  }

  /** Loads the upgrade records in list order: each record that rebuilds is
      put under its record key and its cost is added to the spent points. */
  function LoadUpgrades(a: Armour, items: seq<Tag>, codec: Codec): (r: Armour)
    ensures r.trackers == a.trackers && r.maxPoints == a.maxPoints
    // every rebuilt record is paid for, also when a later record with the same key replaces it
    ensures r.totalPoints == a.totalPoints + LoadedCost(items, codec)
    // the last rebuilt record under a key wins; other entries are untouched
    ensures forall k :: k in r.upgrades <==> k in a.upgrades || LastLoaded(items, codec, k).Some?
    ensures forall k :: k in r.upgrades ==>
      r.upgrades[k] == (if LastLoaded(items, codec, k).Some? then LastLoaded(items, codec, k) else a.upgrades[k])
    decreases |items|
  {
    if |items| == 0 then a
    else
      var prefix := items[..|items| - 1];
      var item := items[|items| - 1];
      assert items == prefix + [item];
      LoadedCostSnoc(prefix, item, codec);
      var prior := LoadUpgrades(a, prefix, codec);
      match Reconstruct(item, codec)
      case None => prior
      case Some(u) =>
        prior.(upgrades := prior.upgrades[RecordKey(item) := Some(u)], totalPoints := prior.totalPoints + u.cost)
  }

  /** A fresh tracker with its persisted state read in, when the tag holds a
      non-empty compound under its identifier; None when reading that state fails. */
  function Restore(t: Tracker, tag: Fields, codec: Codec): Option<Tracker> {
    var saved := GetCompound(tag, t.id);
    if |saved| == 0 then Some(t)
    else match codec.readTracker(t, saved)
         case Some(payload) => Some(t.(payload := payload))
         case None => None
  }

  /** The restored tracker of the last factory in `factories` that constructs
      a tracker with identifier `id` whose persisted state reads successfully. */
  function LastRestored(factories: seq<Option<Tracker>>, tag: Fields, codec: Codec, id: string): Option<Tracker>
    decreases |factories|
  {
    if |factories| == 0 then None
    else
      var last := factories[|factories| - 1];
      if last.Some? && last.value.id == id && Restore(last.value, tag, codec).Some? then Restore(last.value, tag, codec)
      else LastRestored(factories[..|factories| - 1], tag, codec, id)
  }

  /** Registers one tracker per constructed factory, in factory order, under
      the tracker's identifier; a tracker whose persisted state fails to read
      is dropped, as the source's catch block drops it. */
  function LoadTrackers(a: Armour, factories: seq<Option<Tracker>>, tag: Fields, codec: Codec): (r: Armour)
    ensures r.upgrades == a.upgrades && r.maxPoints == a.maxPoints && r.totalPoints == a.totalPoints
    ensures forall k :: k in r.trackers <==> k in a.trackers || LastRestored(factories, tag, codec, k).Some?
    ensures forall k :: k in r.trackers ==>
      r.trackers[k] == (if LastRestored(factories, tag, codec, k).Some? then LastRestored(factories, tag, codec, k)
                        else a.trackers[k])
    decreases |factories|
  {
    if |factories| == 0 then a
    else
      var prior := LoadTrackers(a, factories[..|factories| - 1], tag, codec);
      match factories[|factories| - 1]
      case None => prior
      case Some(t) =>
        match Restore(t, tag, codec)
        case None => prior
        case Some(restored) => prior.(trackers := prior.trackers[t.id := Some(restored)])
  }

  /** Every tracker class that constructs and whose persisted state reads has
      a tracker after loading. */
  lemma {:induction false} ConstructedTrackersRegistered(factories: seq<Option<Tracker>>, tag: Fields, codec: Codec, i: int)
    requires 0 <= i < |factories| && factories[i].Some? && Restore(factories[i].value, tag, codec).Some?
    ensures LastRestored(factories, tag, codec, factories[i].value.id).Some?
    decreases |factories|
  {
    var last := factories[|factories| - 1];
    if i < |factories| - 1 &&
       !(last.Some? && last.value.id == factories[i].value.id && Restore(last.value, tag, codec).Some?) {
      ConstructedTrackersRegistered(factories[..|factories| - 1], tag, codec, i);
    }
  }

  /** A tracker whose persisted state fails to read gets no entry from its
      own class: the entry under its identifier is whatever was there, or
      what another class with the same identifier loaded. */
  lemma {:induction false} FailedReadNotRegistered(factories: seq<Option<Tracker>>, tag: Fields, codec: Codec, id: string)
    requires forall i :: 0 <= i < |factories| && factories[i].Some? && factories[i].value.id == id ==>
      Restore(factories[i].value, tag, codec).None?
    ensures LastRestored(factories, tag, codec, id).None?
    decreases |factories|
  {
    if |factories| > 0 {
      FailedReadNotRegistered(factories[..|factories| - 1], tag, codec, id);
    }
  }

  /** Loads an armour from a tag: the upgrade records first, then every
      registered tracker. */
  function ReadFromNBT(a: Armour, tag: Fields, codec: Codec): (r: Armour)
    ensures r.maxPoints == a.maxPoints
    ensures r.totalPoints == a.totalPoints + LoadedCost(GetCompoundList(tag, UpgradesKey), codec)
    ensures forall k :: k in r.upgrades <==> k in a.upgrades || LastLoaded(GetCompoundList(tag, UpgradesKey), codec, k).Some?
    ensures forall k :: k in r.upgrades ==>
      var last := LastLoaded(GetCompoundList(tag, UpgradesKey), codec, k);
      r.upgrades[k] == (if last.Some? then last else a.upgrades[k])
    ensures forall i :: 0 <= i < |codec.trackerFactories| && codec.trackerFactories[i].Some?
                        && Restore(codec.trackerFactories[i].value, tag, codec).Some? ==>
      codec.trackerFactories[i].value.id in r.trackers
    ensures forall k :: k in r.trackers <==> k in a.trackers || LastRestored(codec.trackerFactories, tag, codec, k).Some?
    ensures forall k :: k in r.trackers ==>
      var last := LastRestored(codec.trackerFactories, tag, codec, k);
      r.trackers[k] == (if last.Some? then last else a.trackers[k])
    ensures TrackersKeyedById(a.trackers) ==> TrackersKeyedById(r.trackers)
  {
    forall i | 0 <= i < |codec.trackerFactories| && codec.trackerFactories[i].Some?
                && Restore(codec.trackerFactories[i].value, tag, codec).Some?
      ensures LastRestored(codec.trackerFactories, tag, codec, codec.trackerFactories[i].value.id).Some?
    {
      ConstructedTrackersRegistered(codec.trackerFactories, tag, codec, i);
    }
    LastRestoredHasId(codec.trackerFactories, tag, codec);
    LoadTrackers(LoadUpgrades(a, GetCompoundList(tag, UpgradesKey), codec), codec.trackerFactories, tag, codec)
  }

  lemma {:induction false} LastRestoredHasId(factories: seq<Option<Tracker>>, tag: Fields, codec: Codec)
    ensures forall k :: LastRestored(factories, tag, codec, k).Some? ==> LastRestored(factories, tag, codec, k).value.id == k
    decreases |factories|
  {
    if |factories| > 0 {
      LastRestoredHasId(factories[..|factories| - 1], tag, codec);
    }
  }

  // ---------------------------------------------------------------------------
  // Saving

  /** The record an upgrade is saved as. */
  function UpgradeRecord(u: Upgrade, codec: Codec): Tag {
    Compound(map["key" := Str(u.key), "level" := Int(u.level), "upgrade" := Compound(codec.writeUpgrade(u))])
  }

  /** The saved upgrade list: one record per entry, in iteration order. */
  function UpgradeList(upgrades: map<string, Option<Upgrade>>, order: seq<string>, codec: Codec): seq<Tag>
    requires forall i :: 0 <= i < |order| ==> order[i] in upgrades && upgrades[order[i]].Some?
  {
    seq(|order|, i requires 0 <= i < |order| => UpgradeRecord(upgrades[order[i]].value, codec))
  }

  /** Whether a tracker is saved by a write with the given force flag. */
  predicate Saves(t: Tracker, force: bool) {
    force || t.dirty
  }

  /** A tracker entry after a write: a saved tracker is no longer dirty. */
  function Cleaned(slot: Option<Tracker>, force: bool): Option<Tracker> {
    match slot
    case None => None
    case Some(t) => Some(if Saves(t, force) then t.(dirty := false) else t)
  }

  /** The identifiers the trackers of `order` are saved under. */
  function SavedIds(trackers: map<string, Option<Tracker>>, order: seq<string>, force: bool): set<string>
    requires Covers(trackers, order)
    decreases |order|
  {
    if |order| == 0 then {}
    else
      var rest := SavedIds(trackers, order[1..], force);
      match trackers[order[0]]
      case Some(t) => if Saves(t, force) then {t.id} + rest else rest
      case None => rest
  }

  /** An identifier is saved exactly when some listed non-null tracker that is
      saved carries it. */
  lemma {:induction false} SavedIdsMembers(trackers: map<string, Option<Tracker>>, order: seq<string>, force: bool)
    requires Covers(trackers, order)
    ensures forall id :: id in SavedIds(trackers, order, force) <==>
      exists i :: 0 <= i < |order| && trackers[order[i]].Some? && Saves(trackers[order[i]].value, force)
                  && trackers[order[i]].value.id == id
    decreases |order|
  {
    if |order| > 0 {
      SavedIdsMembers(trackers, order[1..], force);
      assert forall i :: 0 <= i < |order| - 1 ==> order[1..][i] == order[i + 1];
      forall id | exists i :: 0 <= i < |order| && trackers[order[i]].Some? && Saves(trackers[order[i]].value, force)
                              && trackers[order[i]].value.id == id
        ensures id in SavedIds(trackers, order, force)
      {
        var i :| 0 <= i < |order| && trackers[order[i]].Some? && Saves(trackers[order[i]].value, force)
                 && trackers[order[i]].value.id == id;
        if i > 0 {
          assert order[1..][i - 1] == order[i];
        }
      }
    }
  }

  /** The identifiers the non-null trackers a write selects are filed under. */
  function SavedIdsOf(trackers: map<string, Option<Tracker>>, force: bool): set<string> {
    set k | k in trackers && trackers[k].Some? && Saves(trackers[k].value, force) :: trackers[k].value.id
  }

  /** Walking the whole tracker map saves the identifiers of exactly the selected trackers. */
  lemma SavedIdsEnumerated(trackers: map<string, Option<Tracker>>, order: seq<string>, force: bool)
    requires Enumerates(order, trackers.Keys)
    ensures SavedIds(trackers, order, force) == SavedIdsOf(trackers, force)
  {
    SavedIdsMembers(trackers, order, force);
    forall id | id in SavedIdsOf(trackers, force) ensures id in SavedIds(trackers, order, force) {
      var k :| k in trackers && trackers[k].Some? && Saves(trackers[k].value, force) && trackers[k].value.id == id;
      var i :| 0 <= i < |order| && order[i] == k;
    }
  }

  /** What a write produces: the tag written into, and the armour after. */
  datatype Saved = Saved(tag: Fields, armour: Armour)

  /** Writes the trackers of `rest` in that order: a non-null tracker that is
      saved is written under its identifier and its dirty flag is cleared. */
  function WriteTrackers(tag: Fields, a: Armour, rest: seq<string>, force: bool, codec: Codec): (r: Saved)
    requires Covers(a.trackers, rest) && Distinct(rest)
    ensures r.armour.upgrades == a.upgrades
    ensures r.armour.maxPoints == a.maxPoints && r.armour.totalPoints == a.totalPoints
    ensures r.armour.trackers.Keys == a.trackers.Keys
    ensures forall k :: k in a.trackers ==>
      r.armour.trackers[k] == (if k in rest then Cleaned(a.trackers[k], force) else a.trackers[k])
    decreases |rest|
  {
    if |rest| == 0 then Saved(tag, a)
    else
      var id := rest[0];
      assert forall i :: 0 <= i < |rest| - 1 ==> rest[1..][i] == rest[i + 1] && rest[i + 1] != id;
      match a.trackers[id]
      case None =>
        WriteTrackers(tag, a, rest[1..], force, codec)
      case Some(t) =>
        if Saves(t, force) then
          WriteTrackers(tag[t.id := Compound(codec.writeTracker(t))],
                        a.(trackers := a.trackers[id := Some(t.(dirty := false))]), rest[1..], force, codec)
        else
          WriteTrackers(tag, a, rest[1..], force, codec)
  }

  /** What writing the trackers of `rest` does to the tag: it gains the saved
      identifiers and keeps everything else. */
  lemma {:induction false} WriteTrackersTag(tag: Fields, a: Armour, rest: seq<string>, force: bool, codec: Codec)
    requires Covers(a.trackers, rest) && Distinct(rest)
    ensures var r := WriteTrackers(tag, a, rest, force, codec);
            && r.tag.Keys == tag.Keys + SavedIds(a.trackers, rest, force)
            && forall k :: k in tag && k !in SavedIds(a.trackers, rest, force) ==> r.tag[k] == tag[k]
    decreases |rest|
  {
    if |rest| > 0 {
      var id := rest[0];
      assert forall i :: 0 <= i < |rest| - 1 ==> rest[1..][i] == rest[i + 1] && rest[i + 1] != id;
      match a.trackers[id]
      case None =>
        WriteTrackersTag(tag, a, rest[1..], force, codec);
      case Some(t) =>
        if Saves(t, force) {
          var a1 := a.(trackers := a.trackers[id := Some(t.(dirty := false))]);
          SavedIdsFrame(a.trackers, a1.trackers, rest[1..], force);
          WriteTrackersTag(tag[t.id := Compound(codec.writeTracker(t))], a1, rest[1..], force, codec);
        } else {
          WriteTrackersTag(tag, a, rest[1..], force, codec);
        }
    }
  }

  /** With trackers filed under their own identifiers, each saved tracker's
      payload ends up under its key. */
  lemma {:induction false} WriteTrackersPayloads(tag: Fields, a: Armour, rest: seq<string>, force: bool, codec: Codec)
    requires Covers(a.trackers, rest) && Distinct(rest)
    requires TrackersKeyedById(a.trackers)
    ensures var r := WriteTrackers(tag, a, rest, force, codec);
            forall i :: 0 <= i < |rest| && a.trackers[rest[i]].Some? && Saves(a.trackers[rest[i]].value, force) ==>
              rest[i] in r.tag && r.tag[rest[i]] == Compound(codec.writeTracker(a.trackers[rest[i]].value))
    decreases |rest|, 1
  {
    if |rest| > 0 {
      var id := rest[0];
      if a.trackers[id].Some? && Saves(a.trackers[id].value, force) {
        SavedPayloadStep(tag, a, rest, force, codec);
      } else {
        assert forall i :: 0 <= i < |rest| - 1 ==> rest[1..][i] == rest[i + 1] && rest[i + 1] != id;
        WriteTrackersPayloads(tag, a, rest[1..], force, codec);
      }
    }
  }

  /** The step of `WriteTrackersPayloads` where the first listed tracker is
      saved: its payload survives the rest of the walk, which never saves
      its identifier again. */
  lemma {:induction false} SavedPayloadStep(tag: Fields, a: Armour, rest: seq<string>, force: bool, codec: Codec)
    requires Covers(a.trackers, rest) && Distinct(rest)
    requires TrackersKeyedById(a.trackers)
    requires |rest| > 0 && a.trackers[rest[0]].Some? && Saves(a.trackers[rest[0]].value, force)
    ensures var r := WriteTrackers(tag, a, rest, force, codec);
            forall i :: 0 <= i < |rest| && a.trackers[rest[i]].Some? && Saves(a.trackers[rest[i]].value, force) ==>
              rest[i] in r.tag && r.tag[rest[i]] == Compound(codec.writeTracker(a.trackers[rest[i]].value))
    decreases |rest|, 0
  {
    var id := rest[0];
    var t := a.trackers[id].value;
    var tail := rest[1..];
    var tag1 := tag[t.id := Compound(codec.writeTracker(t))];
    var a1 := a.(trackers := a.trackers[id := Some(t.(dirty := false))]);
    assert TrackersKeyedById(a1.trackers);
    var r1 := WriteTrackers(tag1, a1, tail, force, codec);
    assert WriteTrackers(tag, a, rest, force, codec) == r1;
    WriteTrackersPayloads(tag1, a1, tail, force, codec);
    WriteTrackersTag(tag1, a1, tail, force, codec);
    assert id !in tail;
    SavedIdsListed(a1.trackers, tail, force, id);
    assert forall i :: 1 <= i < |rest| ==> tail[i - 1] == rest[i] && a1.trackers[rest[i]] == a.trackers[rest[i]];
  }

  /** With trackers filed under their own identifiers, only identifiers
      listed in `order` can be saved. */
  lemma {:induction false} SavedIdsListed(trackers: map<string, Option<Tracker>>, order: seq<string>, force: bool, id: string)
    requires Covers(trackers, order) && TrackersKeyedById(trackers) && id !in order
    ensures id !in SavedIds(trackers, order, force)
    decreases |order|
  {
    if |order| > 0 {
      SavedIdsListed(trackers, order[1..], force, id);
    }
  }

  /** Saved identifiers only depend on the trackers listed in `order`. */
  lemma {:induction false} SavedIdsFrame(t1: map<string, Option<Tracker>>, t2: map<string, Option<Tracker>>,
                                        order: seq<string>, force: bool)
    requires Covers(t1, order) && Covers(t2, order)
    requires forall i :: 0 <= i < |order| ==> t1[order[i]] == t2[order[i]]
    ensures SavedIds(t1, order, force) == SavedIds(t2, order, force)
    decreases |order|
  {
    if |order| > 0 {
      SavedIdsFrame(t1, t2, order[1..], force);
    }
  }

  /** The saved upgrade list holds exactly one record per upgrade entry. */
  lemma UpgradeListOnePerEntry(upgrades: map<string, Option<Upgrade>>, order: seq<string>, codec: Codec)
    requires forall k :: k in upgrades ==> upgrades[k].Some?
    requires Enumerates(order, upgrades.Keys)
    ensures |UpgradeList(upgrades, order, codec)| == |upgrades|
    ensures forall k :: k in upgrades ==> UpgradeRecord(upgrades[k].value, codec) in UpgradeList(upgrades, order, codec)
    ensures forall t :: t in UpgradeList(upgrades, order, codec) ==>
      exists k :: k in upgrades && t == UpgradeRecord(upgrades[k].value, codec)
  {
    EnumerationLength(order, upgrades.Keys);
    var list := UpgradeList(upgrades, order, codec);
    forall k | k in upgrades ensures UpgradeRecord(upgrades[k].value, codec) in list {
      var i :| 0 <= i < |order| && order[i] == k;
      assert list[i] == UpgradeRecord(upgrades[k].value, codec);
    }
    forall t | t in list ensures exists k :: k in upgrades && t == UpgradeRecord(upgrades[k].value, codec) {
      var i :| 0 <= i < |list| && list[i] == t;
      assert order[i] in upgrades;
    }
  }

  /** Saves the armour into `tag`: the upgrade list, then the trackers the
      force flag or their dirty flag select, in the maps' iteration orders. */
  function WriteToNBT(tag: Fields, a: Armour, upgradeOrder: seq<string>, trackerOrder: seq<string>,
                      forceWrite: bool, codec: Codec): (r: Saved)
    requires NoNullUpgrades(a) && Enumerates(upgradeOrder, a.upgrades.Keys)
    requires Enumerates(trackerOrder, a.trackers.Keys)
    // the upgrades and the points are untouched; exactly the saved trackers are cleaned
    ensures r.armour.upgrades == a.upgrades
    ensures r.armour.maxPoints == a.maxPoints && r.armour.totalPoints == a.totalPoints
    ensures r.armour.trackers.Keys == a.trackers.Keys
    ensures forall k :: k in a.trackers ==> r.armour.trackers[k] == Cleaned(a.trackers[k], forceWrite)
    // the tag gains the upgrade list and the saved trackers' identifiers, and keeps everything else
    ensures r.tag.Keys == tag.Keys + {UpgradesKey} + SavedIdsOf(a.trackers, forceWrite)
    ensures forall k :: k in tag && k != UpgradesKey && k !in SavedIdsOf(a.trackers, forceWrite) ==>
      r.tag[k] == tag[k]
    // unless a saved tracker is filed under the same name, the upgrade list is there
    ensures UpgradesKey !in SavedIdsOf(a.trackers, forceWrite) ==>
      r.tag[UpgradesKey] == TagList(UpgradeList(a.upgrades, upgradeOrder, codec))
    // with trackers filed under their own identifiers, each saved tracker's payload is under its key
    ensures TrackersKeyedById(a.trackers) ==>
      forall k :: k in a.trackers && a.trackers[k].Some? && Saves(a.trackers[k].value, forceWrite) ==>
        k in r.tag && r.tag[k] == Compound(codec.writeTracker(a.trackers[k].value))
  {
    var tag1 := tag[UpgradesKey := TagList(UpgradeList(a.upgrades, upgradeOrder, codec))];
    WriteTrackersTag(tag1, a, trackerOrder, forceWrite, codec);
    SavedIdsEnumerated(a.trackers, trackerOrder, forceWrite);
    var r := WriteTrackers(tag1, a, trackerOrder, forceWrite, codec);
    assert TrackersKeyedById(a.trackers) ==>
      forall k :: k in a.trackers && a.trackers[k].Some? && Saves(a.trackers[k].value, forceWrite) ==>
        k in r.tag && r.tag[k] == Compound(codec.writeTracker(a.trackers[k].value)) by {
      if TrackersKeyedById(a.trackers) {
        WriteTrackersPayloads(tag1, a, trackerOrder, forceWrite, codec);
        forall k | k in a.trackers && a.trackers[k].Some? && Saves(a.trackers[k].value, forceWrite)
          ensures k in r.tag && r.tag[k] == Compound(codec.writeTracker(a.trackers[k].value))
        {
          var i :| 0 <= i < |trackerOrder| && trackerOrder[i] == k;
        }
      }
    }
    r
  }

  /** Saves only the trackers that are dirty. */
  function WriteDirtyToNBT(tag: Fields, a: Armour, upgradeOrder: seq<string>, trackerOrder: seq<string>,
                           codec: Codec): (r: Saved)
    requires NoNullUpgrades(a) && Enumerates(upgradeOrder, a.upgrades.Keys)
    requires Enumerates(trackerOrder, a.trackers.Keys)
    ensures r == WriteToNBT(tag, a, upgradeOrder, trackerOrder, false, codec)
    // afterwards no tracker is dirty, and the clean ones were left as they were
    ensures forall k :: k in r.armour.trackers && r.armour.trackers[k].Some? ==> !r.armour.trackers[k].value.dirty
    ensures forall k :: k in a.trackers && a.trackers[k].Some? && !a.trackers[k].value.dirty ==>
      r.armour.trackers[k] == a.trackers[k]
  {
    WriteToNBT(tag, a, upgradeOrder, trackerOrder, false, codec)
  }

  /** Saves every tracker. */
  function WriteAllToNBT(tag: Fields, a: Armour, upgradeOrder: seq<string>, trackerOrder: seq<string>,
                         codec: Codec): (r: Saved)
    requires NoNullUpgrades(a) && Enumerates(upgradeOrder, a.upgrades.Keys)
    requires Enumerates(trackerOrder, a.trackers.Keys)
    ensures r == WriteToNBT(tag, a, upgradeOrder, trackerOrder, true, codec)
    // every non-null tracker is written and left clean
    ensures forall k :: k in a.trackers && a.trackers[k].Some? ==>
      a.trackers[k].value.id in r.tag && r.armour.trackers[k] == Some(a.trackers[k].value.(dirty := false))
  {
    var r := WriteToNBT(tag, a, upgradeOrder, trackerOrder, true, codec);
    forall k | k in a.trackers && a.trackers[k].Some? ensures a.trackers[k].value.id in r.tag {
      var i :| 0 <= i < |trackerOrder| && trackerOrder[i] == k;
    }
    r
  }

  /** With no dirty tracker, a dirty write saves nothing. */
  lemma {:induction false} CleanTrackersSaveNothing(trackers: map<string, Option<Tracker>>, order: seq<string>)
    requires Covers(trackers, order)
    requires forall k :: k in trackers && trackers[k].Some? ==> !trackers[k].value.dirty
    ensures SavedIds(trackers, order, false) == {}
    decreases |order|
  {
    if |order| > 0 {
      CleanTrackersSaveNothing(trackers, order[1..]);
    }
  }

  /** A dirty write over clean trackers only rewrites the upgrade list. */
  lemma CleanDirtyWrite(tag: Fields, a: Armour, upgradeOrder: seq<string>, trackerOrder: seq<string>, codec: Codec)
    requires NoNullUpgrades(a) && Enumerates(upgradeOrder, a.upgrades.Keys)
    requires Enumerates(trackerOrder, a.trackers.Keys)
    requires forall k :: k in a.trackers && a.trackers[k].Some? ==> !a.trackers[k].value.dirty
    ensures WriteToNBT(tag, a, upgradeOrder, trackerOrder, false, codec) ==
            Saved(tag[UpgradesKey := TagList(UpgradeList(a.upgrades, upgradeOrder, codec))], a)
  {
    CleanTrackersSaveNothing(a.trackers, trackerOrder);
    SavedIdsEnumerated(a.trackers, trackerOrder, false);
    var r := WriteToNBT(tag, a, upgradeOrder, trackerOrder, false, codec);
    assert r.armour.trackers == a.trackers;
    var expected := tag[UpgradesKey := TagList(UpgradeList(a.upgrades, upgradeOrder, codec))];
    assert r.tag.Keys == expected.Keys;
  }

  /** A second dirty write saves no tracker and changes no tracker: it only
      rewrites the upgrade list. */
  lemma DirtyWriteSettles(tag: Fields, a: Armour, upgradeOrder: seq<string>, trackerOrder: seq<string>, codec: Codec)
    requires NoNullUpgrades(a) && Enumerates(upgradeOrder, a.upgrades.Keys)
    requires Enumerates(trackerOrder, a.trackers.Keys)
    ensures var first := WriteDirtyToNBT(tag, a, upgradeOrder, trackerOrder, codec);
            && SavedIdsOf(first.armour.trackers, false) == {}
            && WriteDirtyToNBT(first.tag, first.armour, upgradeOrder, trackerOrder, codec) ==
               Saved(first.tag[UpgradesKey := TagList(UpgradeList(a.upgrades, upgradeOrder, codec))], first.armour)
  {
    var first := WriteDirtyToNBT(tag, a, upgradeOrder, trackerOrder, codec);
    CleanTrackersSaveNothing(first.armour.trackers, trackerOrder);
    SavedIdsEnumerated(first.armour.trackers, trackerOrder, false);
    CleanDirtyWrite(first.tag, first.armour, upgradeOrder, trackerOrder, codec);
  }

  // ---------------------------------------------------------------------------
  // Round trip

  /** The summed cost of the upgrades under the keys of `order`. */
  function CostOf(upgrades: map<string, Option<Upgrade>>, order: seq<string>): int
    requires forall i :: 0 <= i < |order| ==> order[i] in upgrades && upgrades[order[i]].Some?
    decreases |order|
  {
    if |order| == 0 then 0 else upgrades[order[0]].value.cost + CostOf(upgrades, order[1..])
  }

  /** Every stored upgrade is filed under its own key and the codec rebuilds it from its record. */
  predicate RebuildsFaithfully(upgrades: map<string, Option<Upgrade>>, codec: Codec) {
    forall k :: k in upgrades && upgrades[k].Some? ==>
      && upgrades[k].value.key == k
      && codec.generateUpgradeFromKey(k, upgrades[k].value.level, codec.writeUpgrade(upgrades[k].value)) == upgrades[k]
  }

  lemma {:induction false} LastLoadedOfList(upgrades: map<string, Option<Upgrade>>, order: seq<string>, codec: Codec, k: string)
    requires forall i :: 0 <= i < |order| ==> order[i] in upgrades && upgrades[order[i]].Some?
    requires RebuildsFaithfully(upgrades, codec)
    ensures LastLoaded(UpgradeList(upgrades, order, codec), codec, k) == (if k in order then upgrades[k] else None)
    decreases |order|
  {
    if |order| > 0 {
      var list := UpgradeList(upgrades, order, codec);
      var prefix := order[..|order| - 1];
      var id := order[|order| - 1];
      assert list[..|list| - 1] == UpgradeList(upgrades, prefix, codec);
      assert RecordKey(list[|list| - 1]) == id;
      assert Reconstruct(list[|list| - 1], codec) == upgrades[id];
      LastLoadedOfList(upgrades, prefix, codec, k);
      assert k in order <==> k in prefix || k == id;
    }
  }

  lemma {:induction false} LoadedCostOfList(upgrades: map<string, Option<Upgrade>>, order: seq<string>, codec: Codec)
    requires forall i :: 0 <= i < |order| ==> order[i] in upgrades && upgrades[order[i]].Some?
    requires RebuildsFaithfully(upgrades, codec)
    ensures LoadedCost(UpgradeList(upgrades, order, codec), codec) == CostOf(upgrades, order)
    decreases |order|
  {
    if |order| > 0 {
      var list := UpgradeList(upgrades, order, codec);
      assert list[1..] == UpgradeList(upgrades, order[1..], codec);
      assert Reconstruct(list[0], codec) == upgrades[order[0]];
      LoadedCostOfList(upgrades, order[1..], codec);
    }
  }

  /** Loading a saved upgrade list into an armour without upgrades gives back
      the saved upgrades, and adds their summed cost to the spent points. */
  lemma UpgradeListLoadsBack(a: Armour, upgrades: map<string, Option<Upgrade>>, order: seq<string>, codec: Codec)
    requires a.upgrades == map[]
    requires (forall k :: k in upgrades ==> upgrades[k].Some?) && Enumerates(order, upgrades.Keys)
    requires RebuildsFaithfully(upgrades, codec)
    ensures LoadUpgrades(a, UpgradeList(upgrades, order, codec), codec).upgrades == upgrades
    ensures LoadUpgrades(a, UpgradeList(upgrades, order, codec), codec).totalPoints == a.totalPoints + CostOf(upgrades, order)
  {
    var list := UpgradeList(upgrades, order, codec);
    LoadedCostOfList(upgrades, order, codec);
    forall k ensures LastLoaded(list, codec, k) == (if k in order then upgrades[k] else None) {
      LastLoadedOfList(upgrades, order, codec, k);
    }
    var b := LoadUpgrades(a, list, codec);
    assert b.upgrades.Keys == upgrades.Keys;
  }

  /** Saving an armour and loading the tag into a fresh armour gives back the
      same upgrades, and the spent points become the sum of their costs. */
  lemma {:induction false} UpgradesRoundTrip(a: Armour, upgradeOrder: seq<string>, trackerOrder: seq<string>,
                                            forceWrite: bool, codec: Codec)
    requires NoNullUpgrades(a) && Enumerates(upgradeOrder, a.upgrades.Keys)
    requires Enumerates(trackerOrder, a.trackers.Keys)
    requires RebuildsFaithfully(a.upgrades, codec)
    requires UpgradesKey !in SavedIdsOf(a.trackers, forceWrite)
    ensures var b := ReadFromNBT(Fresh(), WriteToNBT(map[], a, upgradeOrder, trackerOrder, forceWrite, codec).tag, codec);
            && b.upgrades == a.upgrades
            && b.totalPoints == CostOf(a.upgrades, upgradeOrder)
  {
    var saved := WriteToNBT(map[], a, upgradeOrder, trackerOrder, forceWrite, codec);
    var list := UpgradeList(a.upgrades, upgradeOrder, codec);
    assert GetCompoundList(saved.tag, UpgradesKey) == list;
    UpgradeListLoadsBack(Fresh(), a.upgrades, upgradeOrder, codec);
  }
}
