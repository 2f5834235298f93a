/**
 * Progress and settings bookkeeping. The browser's key-value store is a set of optional
 * records held by the object (None: the key is missing or holds nothing); JSON encoding is
 * not modelled, and `Date.now()` is a parameter.
 */
module StorageManager {
  import opened Wrappers
  import opened Utils

  // ------------------------------------------------------------------ settings

  /** A settings value. */
  datatype Value = Num(n: real) | Bool(b: bool) | Text(s: string)

  type Settings = map<string, Value>

  const DefaultSettings: Settings := map[
    "sfxVolume" := Num(80.0), "bgmVolume" := Num(60.0), "particleCount" := Text("medium"),
    "enableAnimations" := Bool(true), "turnTime" := Num(30.0), "showHints" := Bool(true)]

  /** `{ ...base, ...over }`: every key of over takes its value from over, every other key of base keeps its own. */
  function Merge(base: Settings, over: Settings): (r: Settings)
    ensures r.Keys == base.Keys + over.Keys
    ensures forall k :: k in over ==> r[k] == over[k]
    ensures forall k :: k in base && k !in over ==> r[k] == base[k]
  {
    base + over
  }

  /** `settings[key] || d` for a number: a missing, non-numeric or zero value gives d. */
  function NumberOr(settings: Settings, key: string, d: real): real
  {
    if key in settings && settings[key].Num? && settings[key].n != 0.0 then settings[key].n else d
  }

  /** `Number.isFinite(settings[key]) ? settings[key] : d`: a number, 0 included, is kept. */
  function FiniteOr(settings: Settings, key: string, d: real): real
  {
    if key in settings && settings[key].Num? then settings[key].n else d
  }

  // ------------------------------------------------------------------ progress

  /** A completed level's best record; an achievement of None stands for the NaN an omitted argument leaves. */
  datatype Completion = Completion(stars: int, achievement: Option<real>, completedAt: int)

  datatype Progress = Progress(currentLevel: int, unlockedLevels: seq<int>, completedLevels: map<int, Completion>,
                               totalStars: int, titles: seq<string>)

  const DefaultProgress: Progress := Progress(1, [1], map[], 0, [])

  /** `list.includes(id) ? list : [...list, id]`. */
  function WithUnlocked(list: seq<int>, id: int): (r: seq<int>)
    ensures id in r
    ensures forall x :: x in r <==> x in list || x == id
    ensures id in list ==> r == list
    ensures |r| <= |list| + 1
  {
    if id in list then list else list + [id]
  }

  /** Unlocking twice is unlocking once, and a list without duplicates keeps none. */
  lemma UnlockIdempotent(list: seq<int>, id: int)
    ensures WithUnlocked(WithUnlocked(list, id), id) == WithUnlocked(list, id)
    ensures NoDuplicates(list) ==> NoDuplicates(WithUnlocked(list, id))
  {
  }

  predicate NoDuplicates(list: seq<int>)
  {
    forall i, j :: 0 <= i < j < |list| ==> list[i] != list[j]
  }

  /** `record?.stars || 0`. */
  function ExistingStars(completed: map<int, Completion>, id: int): int
  {
    if id in completed then completed[id].stars else 0
  }

  /** `Math.max(achievement, record?.achievement || 0)` with NaN as None: an omitted achievement stays NaN. */
  function BestAchievement(achievement: Option<real>, completed: map<int, Completion>, id: int): Option<real>
  {
    var before := if id in completed && completed[id].achievement.Some? then completed[id].achievement.value else 0.0;
    if achievement.None? then None
    else Some(if achievement.value > before then achievement.value else before)
  }

  /**
   * `completeLevel(levelId, stars, achievement)` on the progress record: the record keeps the
   * better star count, the total rises by the improvement, and the next id is unlocked.
   */
  function Completed(p: Progress, id: int, stars: int, achievement: Option<real>, now: int): (r: Progress)
    ensures r.completedLevels.Keys == p.completedLevels.Keys + {id}
    ensures r.completedLevels[id].stars == Max(stars, ExistingStars(p.completedLevels, id))
    ensures r.totalStars == p.totalStars + Max(0, stars - ExistingStars(p.completedLevels, id))
    ensures forall k :: k in p.completedLevels && k != id ==> r.completedLevels[k] == p.completedLevels[k]
    ensures r.unlockedLevels == WithUnlocked(p.unlockedLevels, id + 1)
    ensures r.currentLevel == p.currentLevel && r.titles == p.titles
  {
    var existing := ExistingStars(p.completedLevels, id);
    var total := if stars > existing then p.totalStars + (stars - existing) else p.totalStars;
    var record := Completion(Max(stars, existing), BestAchievement(achievement, p.completedLevels, id), now);
    p.(totalStars := total, completedLevels := p.completedLevels[id := record],
       unlockedLevels := WithUnlocked(p.unlockedLevels, id + 1))
  }

  function Max(a: int, b: int): int { if a > b then a else b }

  lemma NonEmptyHasMember(keys: set<int>)
    requires keys != {}
    ensures exists k :: k in keys
  {
    if forall k :: k !in keys {
      assert false;
    }
  }

  /** The sum of the best star counts of the completed levels whose ids are in keys. */
  ghost function StarSumOver(completed: map<int, Completion>, keys: set<int>): int
    requires keys <= completed.Keys
    decreases keys
  {
    if keys == {} then 0
    else
      NonEmptyHasMember(keys);
      var k :| k in keys;
      completed[k].stars + StarSumOver(completed, keys - {k})
  }

  /** The sum of the best star counts of all completed levels. */
  ghost function StarSum(completed: map<int, Completion>): int
  {
    StarSumOver(completed, completed.Keys)
  }

  /** Any key can be taken out of the sum first. */
  lemma {:induction false} StarSumRemove(completed: map<int, Completion>, keys: set<int>, k: int)
    requires keys <= completed.Keys && k in keys
    ensures StarSumOver(completed, keys) == completed[k].stars + StarSumOver(completed, keys - {k})
    decreases keys
  {
    var j :| j in keys && StarSumOver(completed, keys) == completed[j].stars + StarSumOver(completed, keys - {j});
    if j != k {
      StarSumRemove(completed, keys - {j}, k);
      StarSumRemove(completed, keys - {k}, j);
      assert keys - {j} - {k} == keys - {k} - {j};
    }
  }

  /** The sum over keys only reads the entries of those keys. */
  lemma {:induction false} StarSumFrame(m1: map<int, Completion>, m2: map<int, Completion>, keys: set<int>)
    requires keys <= m1.Keys && keys <= m2.Keys
    requires forall k :: k in keys ==> m1[k] == m2[k]
    ensures StarSumOver(m1, keys) == StarSumOver(m2, keys)
    decreases keys
  {
    if keys != {} {
      NonEmptyHasMember(keys);
      var j :| j in keys && StarSumOver(m1, keys) == m1[j].stars + StarSumOver(m1, keys - {j});
      StarSumRemove(m2, keys, j);
      StarSumFrame(m1, m2, keys - {j});
    }
  }

  /** What a new record for id does to the sum. */
  lemma StarSumUpdate(completed: map<int, Completion>, k: int, record: Completion)
    ensures StarSum(completed[k := record]) == StarSum(completed) - ExistingStars(completed, k) + record.stars
  {
    var updated := completed[k := record];
    StarSumRemove(updated, updated.Keys, k);
    var rest := completed.Keys - {k};
    assert updated.Keys - {k} == rest;
    StarSumFrame(updated, completed, rest);
    if k in completed {
      StarSumRemove(completed, completed.Keys, k);
    } else {
      assert rest == completed.Keys;
    }
  }

  /** The total is the sum of the per-level best stars, and no record has negative stars. */
  ghost predicate StarsConsistent(p: Progress)
  {
    && p.totalStars == StarSum(p.completedLevels)
    && forall k :: k in p.completedLevels ==> p.completedLevels[k].stars >= 0
  }

  /** completeLevel keeps the total equal to the sum of the best stars, whatever star count it is given. */
  lemma CompletedKeepsStarTotal(p: Progress, id: int, stars: int, achievement: Option<real>, now: int)
    requires StarsConsistent(p)
    ensures StarsConsistent(Completed(p, id, stars, achievement, now))
  {
    var r := Completed(p, id, stars, achievement, now);
    StarSumUpdate(p.completedLevels, id, r.completedLevels[id]);
    assert r.completedLevels == p.completedLevels[id := r.completedLevels[id]];
  }

  /** The best star count of a level never decreases, and the total never decreases. */
  lemma CompletedMonotone(p: Progress, id: int, stars: int, achievement: Option<real>, now: int, k: int)
    requires k in p.completedLevels
    ensures var r := Completed(p, id, stars, achievement, now);
      k in r.completedLevels && p.completedLevels[k].stars <= r.completedLevels[k].stars && p.totalStars <= r.totalStars
  {
  }

  /** The defaults are consistent. */
  lemma DefaultConsistent()
    ensures StarsConsistent(DefaultProgress)
  {
  }

  datatype LevelStatus = LevelStatus(unlocked: bool, completed: Option<Completion>)

  /** `getLevelStatus` on a progress record. */
  function StatusOf(p: Progress, id: int): (s: LevelStatus)
    ensures s.unlocked <==> id in p.unlockedLevels
    ensures s.completed.Some? <==> id in p.completedLevels
    ensures s.completed.Some? ==> s.completed.value == p.completedLevels[id]
  {
    LevelStatus(id in p.unlockedLevels, if id in p.completedLevels then Some(p.completedLevels[id]) else None)
  }

  /** `getTotalProgress`: completed levels as a percentage of an assumed 100. */
  function TotalProgress(p: Progress): (r: int)
    ensures |p.completedLevels| <= 100 ==> 0 <= r <= 100
    ensures |p.completedLevels| == 0 ==> r == 0
  {
    Percentage(|p.completedLevels| as real, 100.0)
  }

  /** A collection entry; `{ levelId }` plus the unlock time and a view count. */
  datatype CollectionEntry = CollectionEntry(reactionId: int, unlockedAt: int, viewCount: int)

  // ------------------------------------------------------------------ the object

  /** The store: the records of the settings, progress and collection keys. */
  class StorageManager {
    var storedSettings: Option<Settings>
    var storedProgress: Option<Progress>
    var storedCollection: Option<map<int, CollectionEntry>>

    /** `init`: every missing key gets its default. */
    constructor(settings: Option<Settings>, progress: Option<Progress>, collection: Option<map<int, CollectionEntry>>)
      ensures storedSettings == Some(settings.GetOr(DefaultSettings))
      ensures storedProgress == Some(progress.GetOr(DefaultProgress))
      ensures storedCollection == Some(collection.GetOr(map[]))
    {
      storedSettings := Some(settings.GetOr(DefaultSettings));
      storedProgress := Some(progress.GetOr(DefaultProgress));
      storedCollection := Some(collection.GetOr(map[]));
    }

    /** `getSettings`: the defaults overridden by the stored keys. */
    function GetSettings(): (s: Settings)
      reads this
      ensures forall k :: k in DefaultSettings ==> k in s
      ensures storedSettings.None? ==> s == DefaultSettings
    {
      Merge(DefaultSettings, storedSettings.GetOr(map[]))
    }

    /** `saveSettings(patch)`: the patch merged over the current settings. */
    method SaveSettings(patch: Settings)
      modifies this
      ensures storedSettings == Some(Merge(old(GetSettings()), patch))
      ensures GetSettings() == Merge(old(GetSettings()), patch)
      ensures storedProgress == old(storedProgress) && storedCollection == old(storedCollection)
    {
      var current := GetSettings();
      storedSettings := Some(Merge(current, patch));
      assert Merge(DefaultSettings, Merge(current, patch)) == Merge(current, patch);
    }

    /** `getProgress`: the stored record, or the defaults. */
    function GetProgress(): Progress
      reads this
    {
      storedProgress.GetOr(DefaultProgress)
    }

    /** `unlockLevel(id)`: add the id unless it is already unlocked. */
    method UnlockLevel(id: int)
      modifies this
      ensures GetProgress() == old(GetProgress()).(unlockedLevels := WithUnlocked(old(GetProgress()).unlockedLevels, id))
      ensures id in old(GetProgress()).unlockedLevels ==> storedProgress == old(storedProgress)
      ensures storedSettings == old(storedSettings) && storedCollection == old(storedCollection)
    {
      var progress := GetProgress();
      if id !in progress.unlockedLevels {
        progress := progress.(unlockedLevels := progress.unlockedLevels + [id]);
        storedProgress := Some(progress);
      }
    }

    /** `completeLevel(id, stars, achievement)` at time now. */
    method CompleteLevel(id: int, stars: int, achievement: Option<real>, now: int)
      modifies this
      ensures storedProgress == Some(Completed(old(GetProgress()), id, stars, achievement, now))
      ensures storedSettings == old(storedSettings) && storedCollection == old(storedCollection)
    {
      var progress := GetProgress();
      var existing := ExistingStars(progress.completedLevels, id);
      if stars > existing {
        progress := progress.(totalStars := progress.totalStars + (stars - existing));
      }
      var record := Completion(Max(stars, existing), BestAchievement(achievement, progress.completedLevels, id), now);
      progress := progress.(completedLevels := progress.completedLevels[id := record]);
      if id + 1 !in progress.unlockedLevels {
        progress := progress.(unlockedLevels := progress.unlockedLevels + [id + 1]);
      }
      storedProgress := Some(progress);
    }

    /** `getLevelStatus(id)`. */
    function GetLevelStatus(id: int): LevelStatus
      reads this
    {
      StatusOf(GetProgress(), id)
    }

    /** `getTotalStars`. */
    function GetTotalStars(): int
      reads this
    {
      GetProgress().totalStars
    }

    /** `addToCollection(id, ...)`, as `unlockEquation` calls it: a new entry only if none exists. */
    method UnlockEquation(id: int, now: int)
      modifies this
      ensures var before := old(storedCollection).GetOr(map[]);
        storedCollection == if id in before then old(storedCollection) else Some(before[id := CollectionEntry(id, now, 0)])
      ensures storedSettings == old(storedSettings) && storedProgress == old(storedProgress)
    {
      var collection := storedCollection.GetOr(map[]);
      if id !in collection {
        storedCollection := Some(collection[id := CollectionEntry(id, now, 0)]);
      }
    }

    /** `isInCollection(id)`. */
    predicate IsInCollection(id: int)
      reads this
    {
      id in storedCollection.GetOr(map[])
    }

    /** `resetProgress` (the later definition): default progress and an empty collection. */
    method ResetProgress() returns (ok: bool)
      modifies this
      ensures ok && storedProgress == Some(DefaultProgress) && storedCollection == Some(map[])
      ensures storedSettings == old(storedSettings)
    {
      storedProgress := Some(DefaultProgress);
      storedCollection := Some(map[]);
      return true;
    }
  }
}
