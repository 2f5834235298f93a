/**
 * The computations inside the screen controller: slider values to conditions, the balance
 * indicator's geometry, the star-reward progress, the export file name, the conversion of a
 * workshop level into a game level, and the workshop card's difficulty label. The DOM writes
 * around them are not modelled.
 */
module UiManager {
  import opened Wrappers
  import opened Strings
  import opened Reaction
  import opened Utils

  /** `onTemperatureChange`: slider 0..100 to 200..500 K. */
  function TemperatureOfSlider(v: real): (t: real)
    ensures 0.0 <= v <= 100.0 ==> 200.0 <= t <= 500.0
    ensures v == 0.0 ==> t == 200.0
    ensures v == 100.0 ==> t == 500.0
  {
    200.0 + (v / 100.0) * 300.0
  }

  /** `onPressureChange`: slider 0..100 to 10..500 kPa. */
  function PressureOfSlider(v: real): (p: real)
    ensures 0.0 <= v <= 100.0 ==> 10.0 <= p <= 500.0
    ensures v == 0.0 ==> p == 10.0
    ensures v == 100.0 ==> p == 500.0
  {
    10.0 + (v / 100.0) * 490.0
  }

  /** Moving a slider further right never lowers the temperature or the pressure it sets. */
  lemma SlidersMonotone(v: real, w: real)
    requires v <= w
    ensures TemperatureOfSlider(v) <= TemperatureOfSlider(w)
    ensures PressureOfSlider(v) <= PressureOfSlider(w)
  {
    MulMonotone(3.0, v, w);
    MulMonotone(4.9, v, w);
    assert (v / 100.0) * 300.0 == 3.0 * v && (w / 100.0) * 300.0 == 3.0 * w;
    assert (v / 100.0) * 490.0 == 4.9 * v && (w / 100.0) * 490.0 == 4.9 * w;
  }

  /** Indicator position and the widths, in percent, of the left and right fills. */
  datatype Indicator = Indicator(position: real, left: real, right: real)

  /** `updateBalanceIndicator(balance)`. */
  function BalanceIndicator(balance: real): (d: Indicator)
    ensures d.position == (balance + 1.0) / 2.0 * 100.0
    ensures -1.0 <= balance <= 1.0 ==> 0.0 <= d.position <= 100.0 && 0.0 <= d.left <= 50.0 && 0.0 <= d.right <= 50.0
    ensures d.left == 0.0 || d.right == 0.0
    ensures balance < 0.0 ==> d.left == -balance * 50.0 && d.right == 0.0
    ensures balance >= 0.0 ==> d.left == 0.0 && d.right == balance * 50.0
  {
    var position := (balance + 1.0) / 2.0 * 100.0;
    if balance < 0.0 then Indicator(position, -balance * 50.0, 0.0)
    else Indicator(position, 0.0, balance * 50.0)
  }

  /** A star reward: its threshold and the skin it names. */
  datatype Reward = Reward(stars: int, name: string)

  /** The thresholds of `updateStarProgress`, in order. */
  const Rewards: seq<Reward> := [Reward(3, "绿色粒子"), Reward(20, "铜色粒子"), Reward(50, "银色粒子"), Reward(90, "金色粒子")]

  lemma RewardsAscending()
    ensures forall i, j :: 0 <= i < j < |Rewards| ==> Rewards[i].stars < Rewards[j].stars
  {
  }

  /** The index of the first reward whose threshold is above total, if any. */
  function FirstAbove(rewards: seq<Reward>, total: int): (k: Option<nat>)
    ensures k.Some? ==> (k.value < |rewards| && total < rewards[k.value].stars
                         && forall i :: 0 <= i < k.value ==> rewards[i].stars <= total)
    ensures k.None? ==> forall i :: 0 <= i < |rewards| ==> rewards[i].stars <= total
  {
    if rewards == [] then None
    else if total < rewards[0].stars then Some(0)
    else match FirstAbove(rewards[1..], total)
      case None => None
      case Some(k) => Some(k + 1)
  }

  /** What the progress line shows: the next reward with the stars missing and the filled percent, or that all are earned. */
  datatype Progress = Next(reward: Reward, starsNeeded: int, percent: int) | AllAchieved

  /** The filled fraction between the previous threshold and the next one. */
  function ProgressRatio(total: int, prev: int, next: int): (r: real)
    ensures 0.0 <= r <= 1.0
  {
    var span := Max(1, next - prev);
    var current := Max(0, total - prev);
    Clamp(current as real / span as real, 0.0, 1.0)
  }

  function Max(a: int, b: int): int { if a >= b then a else b }

  /**
   * `updateStarProgress`'s first loop: the first reward above the total, with the stars it
   * still needs (always positive) and how far the total is from the previous threshold to
   * it; at or above the last threshold, every reward is earned.
   */
  method StarProgress(totalStars: int) returns (p: Progress)
    ensures p.AllAchieved? <==> FirstAbove(Rewards, totalStars).None?
    ensures p.AllAchieved? <==> totalStars >= 90
    ensures p.Next? ==> var k := FirstAbove(Rewards, totalStars).value;
      && p.reward == Rewards[k]
      && p.starsNeeded == Rewards[k].stars - totalStars > 0
      && p.percent == Round(ProgressRatio(totalStars, if k == 0 then 0 else Rewards[k - 1].stars, Rewards[k].stars) * 100.0)
      && 0 <= p.percent <= 100
  {
    var prevThreshold := 0;
    var i := 0;
    while i < |Rewards| && Rewards[i].stars <= totalStars
      invariant 0 <= i <= |Rewards|
      invariant forall j :: 0 <= j < i ==> Rewards[j].stars <= totalStars
      invariant prevThreshold == (if i == 0 then 0 else Rewards[i - 1].stars)
    {
      prevThreshold := Rewards[i].stars;
      i := i + 1;
    }
    if i == |Rewards| {
      FirstAboveNone(Rewards, totalStars);
      return AllAchieved;
    }
    FirstAboveIs(Rewards, totalStars, i);
    var reward := Rewards[i];
    var ratio := ProgressRatio(totalStars, prevThreshold, reward.stars);
    p := Next(reward, reward.stars - totalStars, Round(ratio * 100.0));
  }

  /** FirstAbove is the index a scan from the left stops at. */
  lemma {:induction false} FirstAboveIs(rewards: seq<Reward>, total: int, k: nat)
    requires k < |rewards| && total < rewards[k].stars
    requires forall i :: 0 <= i < k ==> rewards[i].stars <= total
    ensures FirstAbove(rewards, total) == Some(k)
  {
    if k > 0 {
      FirstAboveIs(rewards[1..], total, k - 1);
    }
  }

  lemma {:induction false} FirstAboveNone(rewards: seq<Reward>, total: int)
    requires forall i :: 0 <= i < |rewards| ==> rewards[i].stars <= total
    ensures FirstAbove(rewards, total).None?
  {
    if rewards != [] {
      FirstAboveNone(rewards[1..], total);
    }
  }

  /** `reward-<stars>`. */
  function RewardId(r: Reward): string
  {
    "reward-" + IntToString(r.stars)
  }

  /** `updateStarProgress`'s second loop: some reward is reached but not yet claimed. */
  method HasClaimable(totalStars: int, claimed: seq<string>) returns (b: bool)
    ensures b <==> exists i :: 0 <= i < |Rewards| && Rewards[i].stars <= totalStars && RewardId(Rewards[i]) !in claimed
  {
    var i := 0;
    while i < |Rewards| && !(totalStars >= Rewards[i].stars && RewardId(Rewards[i]) !in claimed)
      invariant 0 <= i <= |Rewards|
      invariant forall j :: 0 <= j < i ==> !(Rewards[j].stars <= totalStars && RewardId(Rewards[j]) !in claimed)
    {
      i := i + 1;
    }
    b := i < |Rewards|;
  }

  /** The characters a file name may not hold: `\ / : * ? " < > |`. */
  predicate Forbidden(c: char)
  {
    c == '\\' || c == '/' || c == ':' || c == '*' || c == '?' || c == '"' || c == '<' || c == '>' || c == '|'
  }

  predicate Clean(s: string)
  {
    forall i :: 0 <= i < |s| ==> !Forbidden(s[i])
  }

  /** s without its leading run of forbidden characters. */
  function SkipRun(s: string): (r: string)
    ensures |r| <= |s| && (s != [] && Forbidden(s[0]) ==> |r| < |s|)
    ensures r == [] || !Forbidden(r[0])
    ensures exists k :: 0 <= k <= |s| && r == s[k..] && forall i :: 0 <= i < k ==> Forbidden(s[i])
  {
    if s != [] && Forbidden(s[0]) then
      var r := SkipRun(s[1..]);
      var k :| 0 <= k <= |s[1..]| && r == s[1..][k..] && forall i :: 0 <= i < k ==> Forbidden(s[1..][i]);
      assert r == s[k + 1..];
      r
    else
      assert s == s[0..];
      s
  }

  /** `replace(/[\\/:*?"<>|]+/g, '_')`: each run of forbidden characters becomes one '_'. */
  function ReplaceRuns(s: string): (r: string)
    ensures Clean(r) && |r| <= |s|
    decreases |s|
  {
    if s == [] then []
    else if Forbidden(s[0]) then "_" + ReplaceRuns(SkipRun(s))
    else [s[0]] + ReplaceRuns(s[1..])
  }

  /** A clean name passes unchanged. */
  lemma {:induction false} ReplaceRunsClean(s: string)
    requires Clean(s)
    ensures ReplaceRuns(s) == s
  {
    if s != [] {
      ReplaceRunsClean(s[1..]);
    }
  }

  /** A whole run, however long, leaves a single '_'. */
  lemma ReplaceRunsRun(run: string, t: string)
    requires run != [] && forall i :: 0 <= i < |run| ==> Forbidden(run[i])
    requires t == [] || !Forbidden(t[0])
    ensures ReplaceRuns(run + t) == "_" + ReplaceRuns(t)
  {
    SkipWholeRun(run, t);
  }

  lemma {:induction false} SkipWholeRun(run: string, t: string)
    requires forall i :: 0 <= i < |run| ==> Forbidden(run[i])
    requires t == [] || !Forbidden(t[0])
    ensures SkipRun(run + t) == t
  {
    if run == [] {
      assert run + t == t;
    } else {
      assert (run + t)[1..] == run[1..] + t;
      SkipWholeRun(run[1..], t);
    }
  }

  /** `.slice(0, 80)`. */
  function Prefix(s: string, n: nat): (r: string)
    ensures |r| <= n && |r| <= |s| && r == s[..|r|]
    ensures |s| <= n ==> r == s
  {
    if |s| <= n then s else s[..n]
  }

  /** `(name || levelId || 'level')`, sanitised and cut to 80 characters. */
  function SafeName(name: Option<string>, levelId: string): (r: string)
    ensures Clean(r) && |r| <= 80
    ensures var source := if name.Some? && name.value != "" then name.value else if levelId != "" then levelId else "level";
      r == Prefix(ReplaceRuns(source), 80)
  {
    var source := if name.Some? && name.value != "" then name.value else if levelId != "" then levelId else "level";
    Prefix(ReplaceRuns(source), 80)
  }

  /** A short clean name is kept as it is. */
  lemma SafeNameKeepsCleanNames(name: string, levelId: string)
    requires name != "" && Clean(name) && |name| <= 80
    ensures SafeName(Some(name), levelId) == name
  {
    ReplaceRunsClean(name);
  }

  /** The `.ccb` file as read: every field may be missing (a missing section leaves all its fields missing). */
  datatype Ccb = Ccb(
    id: Option<string>,
    name: Option<string>,
    description: Option<string>,
    displayEquation: Option<string>,
    reactants: Option<seq<Species>>,
    products: Option<seq<Species>>,
    coefficients: Option<map<Species, int>>,
    initialConcentrations: Option<map<Species, real>>,
    equilibriumConstant: Option<real>,
    deltaH: Option<real>,
    initialTemp: Option<real>,
    initialTemperature: Option<real>,
    initialPressure: Option<real>,
    hasGas: Option<bool>,
    containerType: Option<string>,
    maxRounds: Option<int>,
    aiLevel: Option<real>)

  /** The game level a workshop level is played as. */
  datatype CustomLevel = CustomLevel(
    id: Option<string>,
    category: string,
    name: string,
    description: string,
    equation: string,
    displayEquation: string,
    reactants: seq<Species>,
    products: seq<Species>,
    coefficients: map<Species, int>,
    initialConcentrations: map<Species, real>,
    equilibriumConstant: real,
    deltaH: real,
    initialTemp: real,
    initialPressure: real,
    hasGas: bool,
    containerType: string,
    maxRounds: Option<int>)

  /** `x || d` on a string: a missing or empty string gives d. */
  function TextOr(x: Option<string>, d: string): (r: string)
    ensures r == (if x.Some? && x.value != "" then x.value else d)
  {
    if x.Some? && x.value != "" then x.value else d
  }

  /** `x ?? d`. */
  function Coalesce<T>(x: Option<T>, d: T): (r: T)
    ensures x.Some? ==> r == x.value
    ensures x.None? ==> r == d
  {
    if x.Some? then x.value else d
  }

  /** The 'play' action's conversion of a workshop level. */
  function Converted(c: Ccb): (l: CustomLevel)
    ensures l.category == "custom"
    ensures l.name == TextOr(c.name, "自定义关卡") && l.description == TextOr(c.description, "")
    ensures l.equation == l.displayEquation == TextOr(c.displayEquation, "")
    ensures l.equilibriumConstant == Coalesce(c.equilibriumConstant, 1.0)
    ensures l.deltaH == Coalesce(c.deltaH, 0.0)
    ensures l.initialTemp == (if c.initialTemp.Some? then c.initialTemp.value else if c.initialTemperature.Some? then c.initialTemperature.value else 298.0)
    ensures l.initialPressure == Coalesce(c.initialPressure, 101.325)
    ensures l.hasGas == (c.hasGas == Some(true))
    ensures l.containerType == TextOr(c.containerType, "rigid")
    ensures l.reactants == Coalesce(c.reactants, []) && l.products == Coalesce(c.products, [])
    ensures l.coefficients == Coalesce(c.coefficients, map[]) && l.initialConcentrations == Coalesce(c.initialConcentrations, map[])
    ensures l.id == c.id && l.maxRounds == c.maxRounds
  {
    CustomLevel(
      c.id, "custom", TextOr(c.name, "自定义关卡"), TextOr(c.description, ""),
      TextOr(c.displayEquation, ""), TextOr(c.displayEquation, ""),
      Coalesce(c.reactants, []), Coalesce(c.products, []),
      Coalesce(c.coefficients, map[]), Coalesce(c.initialConcentrations, map[]),
      Coalesce(c.equilibriumConstant, 1.0), Coalesce(c.deltaH, 0.0),
      Coalesce(c.initialTemp, Coalesce(c.initialTemperature, 298.0)),
      Coalesce(c.initialPressure, 101.325), c.hasGas == Some(true),
      TextOr(c.containerType, "rigid"), c.maxRounds)
  }

  /** `??` keeps a stated zero: a workshop level may ask for K = 0 or ΔH = 0, while an empty name is replaced. */
  lemma ConvertedKeepsZeros(c: Ccb)
    requires c.equilibriumConstant == Some(0.0) && c.name == Some("")
    ensures Converted(c).equilibriumConstant == 0.0
    ensures Converted(c).name != ""
  {
  }

  /** The four difficulty names. */
  const DifficultyNames: seq<string> := ["简单", "普通", "困难", "C·C"]

  /** `createWorkshopLevelCard`'s label: `aiLevel` (default 2) picks one of four names by its position, anything else is '未知'. */
  function DifficultyLabel(aiLevel: Option<real>): (shown: string)
    ensures var a := Coalesce(aiLevel, 2.0);
      if a.Floor as real == a && 1 <= a.Floor <= 4 then shown == DifficultyNames[a.Floor - 1] else shown == "未知"
    ensures aiLevel.None? ==> shown == "普通"
  {
    var a := Coalesce(aiLevel, 2.0);
    if a == 1.0 then DifficultyNames[0]
    else if a == 2.0 then DifficultyNames[1]
    else if a == 3.0 then DifficultyNames[2]
    else if a == 4.0 then DifficultyNames[3]
    else "未知"
  }
}
