/**
 * The opponent: how it scores a shift, the difficulty table, the one-step simulation of an
 * action, the realtime choice of the best action, and the analysis helpers the card
 * evaluation and the older strategies use. Every `Math.random` draw is an argument.
 */
module AISystem {
  import opened Wrappers
  import opened MathFns
  import opened Reaction
  import opened Chemistry
  import opened Utils
  import opened GameState
  import opened GameActions
  import opened StableSort

  function Abs(x: real): (r: real)
    ensures 0.0 <= r && (r == x || r == -x)
  {
    if x < 0.0 then -x else x
  }

  function Min(x: real, y: real): real { if x < y then x else y }
  function Max(x: real, y: real): real { if x > y then x else y }

  // ------------------------------------------------------------------ scoring

  /** The shift moves the way the goal wants: positive for forward, negative for reverse. */
  predicate Toward(shift: real, goal: Goal)
  {
    (shift > 0.0 && goal == Forward) || (shift < 0.0 && goal == Reverse)
  }

  /**
   * `calculateRoundScore(shift, goal)`: 0 without a goal, 5 at equilibrium, 10 plus up to
   * 20 when the shift points the goal's way, and at most 5 (never below 0) against it.
   */
  function RoundScore(shift: real, goal: Option<Goal>): (score: real)
    ensures goal.None? ==> score == 0.0
    ensures goal.Some? && shift == 0.0 ==> score == 5.0
    ensures goal.Some? && Toward(shift, goal.value) ==> 10.0 <= score <= 30.0
    ensures goal.Some? && shift != 0.0 && !Toward(shift, goal.value) ==> 0.0 <= score <= 5.0
  {
    if goal.None? then 0.0
    else if shift == 0.0 then 5.0
    else if (if shift > 0.0 then Forward else Reverse) == goal.value then 10.0 + Min(Abs(shift) * 10.0, 20.0)
    else Max(0.0, 5.0 - Abs(shift) * 5.0)
  }

  /** A shift of 0.6 scores 16 for forward and 2 for reverse. */
  lemma RoundScoreExample()
    ensures RoundScore(0.6, Some(Forward)) == 16.0
    ensures RoundScore(0.6, Some(Reverse)) == 2.0
  {
  }

  /** A larger shift the goal's way never scores less; a larger one against it never scores more. */
  lemma RoundScoreMonotone(s1: real, s2: real, goal: Goal)
    requires Abs(s1) <= Abs(s2)
    ensures Toward(s1, goal) && Toward(s2, goal) ==> RoundScore(s1, Some(goal)) <= RoundScore(s2, Some(goal))
    ensures s1 != 0.0 && !Toward(s1, goal) && !Toward(s2, goal) ==> RoundScore(s2, Some(goal)) <= RoundScore(s1, Some(goal))
  {
  }

  // ------------------------------------------------------------------ difficulty

  datatype Profile = Profile(randomness: real, topK: int, actChance: real,
                             allowConcentration: bool, allowTemperature: bool, allowPressure: bool)

  /** `clamp(difficulty || 2, 1, 4)`. */
  function Tier(difficulty: int): (t: int)
    ensures 1 <= t <= 4
    ensures difficulty == 0 ==> t == 2
    ensures 1 <= difficulty <= 4 ==> t == difficulty
  {
    var d := if difficulty != 0 then difficulty else 2;
    if d < 1 then 1 else if d > 4 then 4 else d
  }

  /** `getDifficultyProfile`: the row of the tier; tier 4 is also the default row. */
  function DifficultyProfile(difficulty: int): (p: Profile)
    ensures 1 <= p.topK && 0.0 <= p.randomness <= 1.0 && 0.0 <= p.actChance <= 1.0
    ensures p.allowConcentration
    ensures p.allowTemperature <==> Tier(difficulty) >= 2
    ensures p.allowPressure <==> Tier(difficulty) >= 3
  {
    match Tier(difficulty)
    case 1 => Profile(0.85, 5, 0.2, true, false, false)
    case 2 => Profile(0.4, 3, 0.55, true, true, false)
    case 3 => Profile(0.1, 2, 0.95, true, true, true)
    case _ => Profile(0.02, 1, 1.0, true, true, true)
  }

  /** A higher tier is never more random, never acts less often and never draws from a larger pool. */
  lemma ProfileMonotone(d1: int, d2: int)
    requires Tier(d1) <= Tier(d2)
    ensures DifficultyProfile(d2).randomness <= DifficultyProfile(d1).randomness
    ensures DifficultyProfile(d1).actChance <= DifficultyProfile(d2).actChance
    ensures DifficultyProfile(d2).topK <= DifficultyProfile(d1).topK
  {
  }

  // ------------------------------------------------------------------ simulation

  datatype Action = AddSpecies(species: Species) | Heat | Cool | Pressurize | Depressurize

  /** The cooldown id the action would be blocked by. */
  function CooldownId(a: Action): string
  {
    match a
    case AddSpecies(s) => ConcentrationId(s)
    case Heat => "heat"
    case Cool => "cool"
    case Pressurize => "pressurize"
    case Depressurize => "depressurize"
  }

  /** The copy `next` the simulation changes. */
  datatype Sketch = Sketch(temperature: real, pressure: real, concentrations: map<Species, real>)

  /** `base[s] ?? level.initialConcentrations[s] ?? 1`, with the level passed in. */
  function SimulatedBase(s: State, level: Level, species: Species): real
  {
    if species in s.baseConcentrations then s.baseConcentrations[species]
    else if species in level.initialConcentrations then level.initialConcentrations[species]
    else 1.0
  }

  /** `(T || 298)`. */
  function SimulatedStart(t: real): real
  {
    if t != 0.0 then t else 298.0
  }

  /** The gas rescaling of a pressure change from oldP to newP, on the copy. */
  function SimulatedGas(level: Level, conc: map<Species, real>, oldP: real, newP: real): map<Species, real>
    requires oldP != 0.0
  {
    if level.hasGas && level.gasSpecies.Some? && oldP > 0.0 then UpdateEach(conc, level.gasSpecies.value, Scale(newP / oldP))
    else conc
  }

  /** What the action does to the copy: like the real action, except that adding has no 0.5 fallback. */
  function Sketched(s: State, level: Level, a: Action): Sketch
  {
    var next := Sketch(s.temperature, s.pressure, s.concentrations);
    match a
    case AddSpecies(sp) =>
      if sp == "" then next
      else
        var base := SimulatedBase(s, level, sp);
        var delta := if base * 0.05 < 0.0 then 0.0 else base * 0.05;
        next.(concentrations := s.concentrations[sp := LookupOr(s.concentrations, sp, 0.0) + delta])
    case Heat => next.(temperature := Heated(SimulatedStart(s.temperature)))
    case Cool => next.(temperature := Cooled(SimulatedStart(s.temperature)))
    case Pressurize =>
      var oldP := StartPressure(s.pressure);
      next.(pressure := Pressurized(oldP), concentrations := SimulatedGas(level, s.concentrations, oldP, Pressurized(oldP)))
    case Depressurize =>
      var oldP := StartPressure(s.pressure);
      next.(pressure := Depressurized(oldP), concentrations := SimulatedGas(level, s.concentrations, oldP, Depressurized(oldP)))
  }

  datatype Simulation = Simulation(k: real, q: real, shift: real)

  /** `simulateAction`: K, Q and the shift of the changed copy; the state itself is a value and stays as it was. */
  function SimulateAction(f: Fns, s: State, level: Level, a: Action): (sim: Simulation)
    ensures MinK <= sim.k <= MaxK
    ensures sim.shift == Shift(f, sim.k, sim.q)
  {
    var next := Sketched(s, level, a);
    var k := CalculateK(f, level, next.temperature);
    var q := Quotient(level, next.concentrations);
    Simulation(k, q, Shift(f, k, q))
  }

  /**
   * For heat, cool and the pressure actions, and for adding a species whose base is positive,
   * the simulation predicts exactly the K and Q that the real action leaves on a state whose
   * level is the one simulated and whose temperature is not 0.
   */
  lemma SimulationMatchesAction(f: Fns, s: State, level: Level, a: Action)
    requires s.levelData == Some(level) && s.temperature != 0.0
    requires a.AddSpecies? ==> a.species != "" && SimulatedBase(s, level, a.species) > 0.0
    ensures var r := Acted(s, a); var sim := SimulateAction(f, s, level, a);
      UpdateState(f, r).equilibriumConstant == sim.k && UpdateState(f, r).reactionQuotient == sim.q
  {
  }

  /** The record the real action (off cooldown) hands to updateState. */
  function Acted(s: State, a: Action): State
  {
    match a
    case AddSpecies(sp) => s.(concentrations := s.concentrations[sp := AddedConcentration(s, sp)])
    case Heat => s.(temperature := Heated(s.temperature))
    case Cool => s.(temperature := Cooled(s.temperature))
    case Pressurize =>
      var oldP := StartPressure(s.pressure);
      s.(pressure := Pressurized(oldP), concentrations := PressureConcentrations(s, oldP, Pressurized(oldP)))
    case Depressurize =>
      var oldP := StartPressure(s.pressure);
      s.(pressure := Depressurized(oldP), concentrations := PressureConcentrations(s, oldP, Depressurized(oldP)))
  }

  /** Where the simulation differs: a species without a positive base gains 0.5 for real but nothing in the simulation. */
  lemma SimulationOmitsFallback(s: State, level: Level, sp: Species)
    requires sp != "" && SimulatedBase(s, level, sp) <= 0.0 && sp in s.concentrations
    ensures Sketched(s, level, AddSpecies(sp)).concentrations[sp] == s.concentrations[sp]
    ensures s.levelData == Some(level) ==> AddedConcentration(s, sp) == s.concentrations[sp] + ConcentrationDelta
  {
  }

  // ------------------------------------------------------------------ candidates

  /** The species a goal adds: reactants to push forward, products to push back. */
  function Preferred(level: Level, goal: Goal): seq<Species>
  {
    if goal == Forward then level.reactants else level.products
  }

  function AddAll(species: seq<Species>): (r: seq<Action>)
    ensures |r| == |species|
    ensures forall i :: 0 <= i < |species| ==> r[i] == AddSpecies(species[i])
  {
    seq(|species|, i requires 0 <= i < |species| => AddSpecies(species[i]))
  }

  /** Pressure actions are offered only on a gas reaction with a non-empty gas list. */
  predicate OffersPressure(level: Level, p: Profile)
  {
    p.allowPressure && level.hasGas && |GasList(level)| > 0
  }

  /** The candidate list, in push order. */
  function Candidates(level: Level, goal: Goal, p: Profile): seq<Action>
  {
    (if p.allowConcentration then AddAll(Preferred(level, goal)) else [])
    + (if p.allowTemperature then [Heat, Cool] else [])
    + (if OffersPressure(level, p) then [Pressurize, Depressurize] else [])
  }

  /** Exactly which actions are candidates. */
  lemma CandidatesAre(level: Level, goal: Goal, p: Profile, a: Action)
    ensures a in Candidates(level, goal, p) <==>
      || (a.AddSpecies? && p.allowConcentration && a.species in Preferred(level, goal))
      || ((a == Heat || a == Cool) && p.allowTemperature)
      || ((a == Pressurize || a == Depressurize) && OffersPressure(level, p))
  {
    var adds := if p.allowConcentration then AddAll(Preferred(level, goal)) else [];
    if a.AddSpecies? && p.allowConcentration && a.species in Preferred(level, goal) {
      var i :| 0 <= i < |Preferred(level, goal)| && Preferred(level, goal)[i] == a.species;
      assert adds[i] == a;
    }
  }

  /** Survives the filter: not an add without a species, and not on the AI's cooldown. */
  predicate Eligible(a: Action, aiCooldowns: map<string, Cooldown>, now: int)
  {
    !(a.AddSpecies? && a.species == "") && !OnCooldown(aiCooldowns, CooldownId(a), now)
  }

  datatype Scored = Scored(action: Action, aiScore: real, shiftAbs: real)

  function ScoreKey(x: Scored): Key
  {
    Key(x.aiScore, x.shiftAbs)
  }

  /** The entry `scored.push` makes for one action. */
  function ScoreOf(f: Fns, s: State, level: Level, goal: Goal, a: Action): Scored
  {
    var sim := SimulateAction(f, s, level, a);
    Scored(a, RoundScore(sim.shift, Some(goal)), Abs(sim.shift))
  }

  /** The scoring loop: every eligible candidate, in order, with its score. */
  function ScoreAll(f: Fns, s: State, level: Level, goal: Goal, cands: seq<Action>, aiCooldowns: map<string, Cooldown>, now: int): (r: seq<Scored>)
    ensures |r| <= |cands|
    ensures forall x :: x in r ==> x.action in cands && Eligible(x.action, aiCooldowns, now) && x == ScoreOf(f, s, level, goal, x.action)
    ensures forall a :: a in cands && Eligible(a, aiCooldowns, now) ==> ScoreOf(f, s, level, goal, a) in r
    decreases |cands|
  {
    if cands == [] then []
    else
      var init := cands[..|cands| - 1];
      var a := cands[|cands| - 1];
      assert cands == init + [a];
      var prev := ScoreAll(f, s, level, goal, init, aiCooldowns, now);
      if Eligible(a, aiCooldowns, now) then prev + [ScoreOf(f, s, level, goal, a)] else prev
  }

  /** One more candidate adds its entry, if eligible, after the entries of the earlier ones. */
  lemma ScoreAllSnoc(f: Fns, s: State, level: Level, goal: Goal, cands: seq<Action>, j: nat,
                     aiCooldowns: map<string, Cooldown>, now: int)
    requires j < |cands|
    ensures ScoreAll(f, s, level, goal, cands[..j + 1], aiCooldowns, now)
         == ScoreAll(f, s, level, goal, cands[..j], aiCooldowns, now)
            + (if Eligible(cands[j], aiCooldowns, now) then [ScoreOf(f, s, level, goal, cands[j])] else [])
  {
    assert cands[..j + 1][..j] == cands[..j];
  }

  /** The candidate pushes of selectBestAction. */
  method CandidateActions(level: Level, goal: Goal, profile: Profile) returns (candidates: seq<Action>)
    ensures candidates == Candidates(level, goal, profile)
  {
    candidates := [];
    if profile.allowConcentration {
      var preferred := Preferred(level, goal);
      var i := 0;
      while i < |preferred|
        invariant 0 <= i <= |preferred|
        invariant candidates == AddAll(preferred[..i])
      {
        assert AddAll(preferred[..i + 1]) == AddAll(preferred[..i]) + [AddSpecies(preferred[i])];
        candidates := candidates + [AddSpecies(preferred[i])];
        i := i + 1;
      }
      assert preferred[..i] == preferred;
    }
    if profile.allowTemperature {
      candidates := candidates + [Heat, Cool];
    }
    if OffersPressure(level, profile) {
      candidates := candidates + [Pressurize, Depressurize];
    }
  }

  /** The scoring loop of selectBestAction: skip what is filtered out, simulate and score the rest. */
  method ScoreCandidates(f: Fns, s: State, level: Level, goal: Goal, candidates: seq<Action>,
                         aiCooldowns: map<string, Cooldown>, now: int) returns (scored: seq<Scored>)
    ensures scored == ScoreAll(f, s, level, goal, candidates, aiCooldowns, now)
  {
    scored := [];
    var j := 0;
    while j < |candidates|
      invariant 0 <= j <= |candidates|
      invariant scored == ScoreAll(f, s, level, goal, candidates[..j], aiCooldowns, now)
    {
      ScoreAllSnoc(f, s, level, goal, candidates, j, aiCooldowns, now);
      var a := candidates[j];
      if Eligible(a, aiCooldowns, now) {
        var sim := SimulateAction(f, s, level, a);
        scored := scored + [Scored(a, RoundScore(sim.shift, Some(goal)), Abs(sim.shift))];
      }
      j := j + 1;
    }
    assert candidates[..j] == candidates;
  }

  // ------------------------------------------------------------------ selection

  /** The sorted candidates of one poll, best first. */
  function Ranked(f: Fns, s: State, level: Level, p: Profile, aiCooldowns: map<string, Cooldown>, now: int): seq<Scored>
  {
    Sort(ScoreAll(f, s, level, s.aiGoal, Candidates(level, s.aiGoal, p), aiCooldowns, now), ScoreKey)
  }

  /** `max(1, min(topK, n))`. */
  function PoolSize(p: Profile, n: nat): (k: nat)
    requires n > 0
    ensures 1 <= k <= n
    ensures p.topK <= 1 ==> k == 1
  {
    var m := if p.topK < n then p.topK else n;
    if m < 1 then 1 else m
  }

  /** The difficulty's random branch is taken. */
  predicate RandomPick(p: Profile, randDraw: real)
  {
    p.randomness > 0.0 && randDraw < p.randomness
  }

  /**
   * `selectBestAction` for the draws: nothing without a level or when the act draw exceeds
   * the act chance, nothing when no candidate survives, else a random member of the top pool
   * or the best entry.
   */
  function Selection(f: Fns, s: State, level: Option<Level>, difficulty: int, aiCooldowns: map<string, Cooldown>,
                     now: int, actDraw: real, randDraw: real, pickDraw: real): Option<Action>
    requires 0.0 <= pickDraw < 1.0
  {
    if level.None? then None
    else
      var p := DifficultyProfile(difficulty);
      if actDraw > p.actChance then None
      else
        PickRanked(p, Ranked(f, s, level.value, p, aiCooldowns, now), randDraw, pickDraw)
  }

  /** The pick from the ranking: nothing from an empty one, else a random member of the top pool or the best entry. */
  function PickRanked(p: Profile, ranked: seq<Scored>, randDraw: real, pickDraw: real): Option<Action>
    requires 0.0 <= pickDraw < 1.0
  {
    if ranked == [] then None
    else if RandomPick(p, randDraw) then Some(ranked[DrawIndex(pickDraw, PoolSize(p, |ranked|))].action)
    else Some(ranked[0].action)
  }

  /** The body of selectBestAction once the level and difficulty are cached. */
  method Choose(f: Fns, s: State, level: Option<Level>, difficulty: int, aiCooldowns: map<string, Cooldown>,
                now: int, actDraw: real, randDraw: real, pickDraw: real) returns (action: Option<Action>)
    requires 0.0 <= pickDraw < 1.0
    ensures action == Selection(f, s, level, difficulty, aiCooldowns, now, actDraw, randDraw, pickDraw)
  {
    if level.None? { return None; }
    var lv := level.value;
    var goal := s.aiGoal;
    var profile := DifficultyProfile(difficulty);
    if actDraw > profile.actChance { return None; }
    var candidates := CandidateActions(lv, goal, profile);
    var scored := ScoreCandidates(f, s, lv, goal, candidates, aiCooldowns, now);
    if scored == [] { return None; }
    var ranked := Sort(scored, ScoreKey);
    var topK := PoolSize(profile, |ranked|);
    if RandomPick(profile, randDraw) {
      return Some(ranked[DrawIndex(pickDraw, topK)].action);
    }
    return Some(ranked[0].action);
  }

  /** No action exactly when there is no level, the act draw fails, or nothing survives the filter. */
  lemma SelectionNone(f: Fns, s: State, level: Option<Level>, difficulty: int, aiCooldowns: map<string, Cooldown>,
                      now: int, actDraw: real, randDraw: real, pickDraw: real)
    requires 0.0 <= pickDraw < 1.0
    ensures Selection(f, s, level, difficulty, aiCooldowns, now, actDraw, randDraw, pickDraw).None? <==>
      || level.None?
      || actDraw > DifficultyProfile(difficulty).actChance
      || ScoreAll(f, s, level.value, s.aiGoal, Candidates(level.value, s.aiGoal, DifficultyProfile(difficulty)), aiCooldowns, now) == []
  {
  }

  /**
   * A chosen action is a candidate that was off the AI's cooldown, and sits in the first
   * PoolSize entries of the ranking; without the random branch, or with a pool of one, it is
   * the first, which no candidate beats.
   */
  lemma SelectionIsRanked(f: Fns, s: State, level: Level, difficulty: int, aiCooldowns: map<string, Cooldown>,
                          now: int, actDraw: real, randDraw: real, pickDraw: real)
    requires 0.0 <= pickDraw < 1.0
    requires Selection(f, s, Some(level), difficulty, aiCooldowns, now, actDraw, randDraw, pickDraw).Some?
    ensures var p := DifficultyProfile(difficulty);
      var ranked := Ranked(f, s, level, p, aiCooldowns, now);
      var a := Selection(f, s, Some(level), difficulty, aiCooldowns, now, actDraw, randDraw, pickDraw).value;
      && |ranked| > 0
      && a in Candidates(level, s.aiGoal, p) && Eligible(a, aiCooldowns, now)
      && (exists i :: 0 <= i < PoolSize(p, |ranked|) && ranked[i].action == a)
      && (!RandomPick(p, randDraw) || p.topK <= 1 ==> a == ranked[0].action)
      && (forall x :: x in ScoreAll(f, s, level, s.aiGoal, Candidates(level, s.aiGoal, p), aiCooldowns, now) ==> !Above(ScoreKey(x), ScoreKey(ranked[0])))
  {
    var p := DifficultyProfile(difficulty);
    var scored := ScoreAll(f, s, level, s.aiGoal, Candidates(level, s.aiGoal, p), aiCooldowns, now);
    var ranked := Ranked(f, s, level, p, aiCooldowns, now);
    var a := Selection(f, s, Some(level), difficulty, aiCooldowns, now, actDraw, randDraw, pickDraw).value;
    var i := if RandomPick(p, randDraw) then DrawIndex(pickDraw, PoolSize(p, |ranked|)) else 0;
    assert ranked[i].action == a;
    SortElements(scored, ScoreKey, ranked[i]);
    forall x | x in scored ensures !Above(ScoreKey(x), ScoreKey(ranked[0])) {
      SortFirstIsMaximal(scored, ScoreKey, x);
    }
  }

  // ------------------------------------------------------------------ analysis

  datatype Effect = Effect(direction: int, magnitude: real)

  /** `analyzeTemperatureEffect`: raising T helps forward iff ΔH > 0; the weight is |ΔH| / 100. */
  function TemperatureEffect(reaction: Option<Level>): (e: Effect)
    ensures reaction.None? ==> e == Effect(0, 0.0)
    ensures reaction.Some? ==> (e.direction == 1 <==> DeltaH(reaction.value) > 0.0) && (e.direction == -1 <==> DeltaH(reaction.value) <= 0.0)
    ensures 0.0 <= e.magnitude
  {
    if reaction.None? then Effect(0, 0.0)
    else
      var dH := DeltaH(reaction.value);
      Effect(if dH > 0.0 then 1 else -1, Abs(dH) / 100.0)
  }

  /** Σ over the gas list of `coefficients[s] || 1`, for the gas species on one side. */
  function GasCoefficients(gas: seq<Species>, side: seq<Species>, coefs: map<Species, int>): int
    decreases |gas|
  {
    if gas == [] then 0
    else
      var g := gas[|gas| - 1];
      GasCoefficients(gas[..|gas| - 1], side, coefs) + (if g in side then QCoef(coefs, g) else 0)
  }

  function Sign(x: int): (d: int)
    ensures d == 1 <==> x > 0
    ensures d == -1 <==> x < 0
    ensures d == 0 <==> x == 0
  {
    if x > 0 then 1 else if x < 0 then -1 else 0
  }

  /** `analyzePressureEffect`: the sign of (reactant gas coefficients − product gas coefficients), weight |diff| / 4. */
  function PressureEffect(reaction: Option<Level>): Effect
  {
    if reaction.None? || !reaction.value.hasGas then Effect(0, 0.0)
    else
      var level := reaction.value;
      var diff := GasCoefficients(GasList(level), level.reactants, level.coefficients)
                - GasCoefficients(GasList(level), level.products, level.coefficients);
      Effect(Sign(diff), Abs(diff as real) / 4.0)
  }

  /** Swapping the two sides flips the pressure direction and keeps its weight. */
  lemma PressureEffectSwap(level: Level)
    ensures var swapped := level.(reactants := level.products, products := level.reactants);
      && PressureEffect(Some(swapped)).direction == -PressureEffect(Some(level)).direction
      && PressureEffect(Some(swapped)).magnitude == PressureEffect(Some(level)).magnitude
  {
  }

  /** The loop of analyzePressureEffect. */
  method AnalyzePressureEffect(reaction: Option<Level>) returns (e: Effect)
    ensures e == PressureEffect(reaction)
  {
    if reaction.None? || !reaction.value.hasGas {
      return Effect(0, 0.0);
    }
    var level := reaction.value;
    var gas := GasList(level);
    var reactantGasCoef, productGasCoef := 0, 0;
    var i := 0;
    while i < |gas|
      invariant 0 <= i <= |gas|
      invariant reactantGasCoef == GasCoefficients(gas[..i], level.reactants, level.coefficients)
      invariant productGasCoef == GasCoefficients(gas[..i], level.products, level.coefficients)
    {
      assert gas[..i + 1][..i] == gas[..i];
      var species := gas[i];
      if species in level.reactants {
        reactantGasCoef := reactantGasCoef + QCoef(level.coefficients, species);
      }
      if species in level.products {
        productGasCoef := productGasCoef + QCoef(level.coefficients, species);
      }
      i := i + 1;
    }
    assert gas[..i] == gas;
    var diff := reactantGasCoef - productGasCoef;
    e := Effect(Sign(diff), Abs(diff as real) / 4.0);
  }

  datatype ConcentrationEffect = ConcentrationEffect(species: Species, direction: int, isReactant: bool)

  /** `analyzeConcentrationEffect`: every reactant helps forward (+1), every product reverse (−1). */
  function ConcentrationEffects(reaction: Option<Level>): (r: seq<ConcentrationEffect>)
    ensures reaction.None? ==> r == []
    ensures reaction.Some? ==> |r| == |reaction.value.reactants| + |reaction.value.products|
    ensures forall i :: 0 <= i < |r| ==> (r[i].direction == 1 <==> r[i].isReactant) && (r[i].direction == 1 || r[i].direction == -1)
  {
    if reaction.None? then []
    else
      var level := reaction.value;
      seq(|level.reactants|, i requires 0 <= i < |level.reactants| => ConcentrationEffect(level.reactants[i], 1, true))
      + seq(|level.products|, i requires 0 <= i < |level.products| => ConcentrationEffect(level.products[i], -1, false))
  }

  /** The two push loops of analyzeConcentrationEffect. */
  method AnalyzeConcentrationEffect(reaction: Option<Level>) returns (effects: seq<ConcentrationEffect>)
    ensures effects == ConcentrationEffects(reaction)
  {
    if reaction.None? {
      return [];
    }
    var level := reaction.value;
    effects := [];
    var i := 0;
    while i < |level.reactants|
      invariant 0 <= i <= |level.reactants|
      invariant effects == seq(i, k requires 0 <= k < i => ConcentrationEffect(level.reactants[k], 1, true))
    {
      effects := effects + [ConcentrationEffect(level.reactants[i], 1, true)];
      i := i + 1;
    }
    ghost var reactantPart := effects;
    var j := 0;
    while j < |level.products|
      invariant 0 <= j <= |level.products|
      invariant effects == reactantPart + seq(j, k requires 0 <= k < j => ConcentrationEffect(level.products[k], -1, false))
    {
      effects := effects + [ConcentrationEffect(level.products[j], -1, false)];
      j := j + 1;
    }
  }

  datatype Analysis = Analysis(balance: real, isWinning: bool, distanceToGoal: real,
                               tempEffect: Effect, pressureEffect: Effect,
                               concentrationEffect: seq<ConcentrationEffect>)

  /** `analyzeState`, for the engine's state and the AI's goal: nothing without an engine state (`{}`). */
  function AnalyzeState(engineState: Option<EngineState>, goal: Goal, reaction: Option<Level>): (a: Option<Analysis>)
    ensures a.Some? <==> engineState.Some?
    ensures a.Some? ==> a.value.balance == engineState.value.balance
  {
    if engineState.None? then None
    else
      var b := engineState.value.balance;
      Some(Analysis(b,
                    (goal == Forward && b > 0.0) || (goal == Reverse && b < 0.0),
                    if goal == Forward then 1.0 - b else b + 1.0,
                    TemperatureEffect(reaction), PressureEffect(reaction), ConcentrationEffects(reaction)))
  }

  /** Winning is being less than 1 away from the goal; a balance in [-1, 1] is at most 2 away. */
  lemma WinningIsNearGoal(engineState: EngineState, goal: Goal, reaction: Option<Level>)
    ensures var a := AnalyzeState(Some(engineState), goal, reaction).value;
      && (a.isWinning <==> a.distanceToGoal < 1.0)
      && (-1.0 <= a.balance <= 1.0 ==> 0.0 <= a.distanceToGoal <= 2.0)
  {
  }

  /**
   * `evaluateCardBenefit(cardId, ...)` on the analysis. None stands for NaN: the catalyst's
   * 0.8 · distance when the analysis is empty.
   */
  function EvaluateCardBenefit(cardId: string, analysis: Option<Analysis>): (v: Option<real>)
    ensures v.None? <==> cardId == "catalyst" && analysis.None?
    ensures cardId == "buffer" ==> v == Some(if analysis.Some? && analysis.value.isWinning then 0.6 else 0.1)
    ensures cardId == "quantum" && v == Some(0.9) ==> analysis.Some? && !analysis.value.isWinning && analysis.value.distanceToGoal > 0.7
  {
    match cardId
    case "catalyst" => if analysis.None? then None else Some(analysis.value.distanceToGoal * 0.8)
    case "buffer" => Some(if analysis.Some? && analysis.value.isWinning then 0.6 else 0.1)
    case "heatexchange" =>
      var mag := if analysis.Some? then analysis.value.tempEffect.magnitude else 0.0;
      Some(if mag > 0.3 then 0.7 else 0.2)
    case "quantum" => Some(if analysis.Some? && !analysis.value.isWinning && analysis.value.distanceToGoal > 0.7 then 0.9 else 0.05)
    case _ => Some(0.3)
  }

  /** For a balance in [-1, 1] every card's benefit lies in [0, 1.6]; unknown cards get 0.3. */
  lemma CardBenefitRange(cardId: string, analysis: Option<Analysis>)
    requires analysis.Some? ==> -1.0 <= analysis.value.balance <= 1.0 && analysis.value.distanceToGoal <= 2.0 && 0.0 <= analysis.value.distanceToGoal
    requires !(cardId == "catalyst" && analysis.None?)
    ensures 0.0 <= EvaluateCardBenefit(cardId, analysis).value <= 1.6
    ensures cardId !in {"catalyst", "buffer", "heatexchange", "quantum"} ==> EvaluateCardBenefit(cardId, analysis) == Some(0.3)
  {
  }

  // ------------------------------------------------------------------ ranking of the older strategies

  datatype ChoiceKind = TemperatureChoice | PressureChoice | ConcentrationChoice
  datatype Choice = Choice(kind: ChoiceKind, species: Species, direction: int, score: real)

  function ChoiceKey(c: Choice): Key
  {
    Key(c.score, 0.0)
  }

  /** The goal's view of a direction: as is for forward, flipped for reverse. */
  function ForGoal(goal: Goal, direction: int): int
  {
    if goal == Forward then direction else -direction
  }

  /** One option per concentration effect, each scored 0.5 · 0.4. */
  function ConcentrationChoices(effects: seq<ConcentrationEffect>, goal: Goal): (r: seq<Choice>)
    ensures |r| == |effects|
  {
    seq(|effects|, i requires 0 <= i < |effects| => Choice(ConcentrationChoice, effects[i].species, ForGoal(goal, effects[i].direction), 0.5 * 0.4))
  }

  /** The options before sorting: temperature (0.3 · magnitude), pressure (0.3 · magnitude), then the species. */
  function Options(analysis: Option<Analysis>, goal: Goal): seq<Choice>
  {
    if analysis.None? then []
    else
      var a := analysis.value;
      (if a.tempEffect.magnitude > 0.0 then [Choice(TemperatureChoice, "", ForGoal(goal, a.tempEffect.direction), a.tempEffect.magnitude * 0.3)] else [])
      + (if a.pressureEffect.magnitude > 0.0 then [Choice(PressureChoice, "", ForGoal(goal, a.pressureEffect.direction), a.pressureEffect.magnitude * 0.3)] else [])
      + ConcentrationChoices(a.concentrationEffect, goal)
  }

  /** The loop over the concentration effects in rankOptions. */
  method ConcentrationOptions(effects: seq<ConcentrationEffect>, goal: Goal) returns (options: seq<Choice>)
    ensures options == ConcentrationChoices(effects, goal)
  {
    options := [];
    var i := 0;
    while i < |effects|
      invariant 0 <= i <= |effects|
      invariant options == ConcentrationChoices(effects[..i], goal)
    {
      var effect := effects[i];
      assert ConcentrationChoices(effects[..i + 1], goal)
          == ConcentrationChoices(effects[..i], goal) + [Choice(ConcentrationChoice, effect.species, ForGoal(goal, effect.direction), 0.5 * 0.4)];
      options := options + [Choice(ConcentrationChoice, effect.species, ForGoal(goal, effect.direction), 0.5 * 0.4)];
      i := i + 1;
    }
    assert effects[..i] == effects;
  }

  /** `rankOptions`: the options of the analysis, best score first. */
  method RankOptions(analysis: Option<Analysis>, goal: Goal) returns (options: seq<Choice>)
    ensures options == Sort(Options(analysis, goal), ChoiceKey)
  {
    if analysis.None? {
      return [];
    }
    var a := analysis.value;
    var temperature: seq<Choice> := [];
    if a.tempEffect.magnitude > 0.0 {
      temperature := [Choice(TemperatureChoice, "", ForGoal(goal, a.tempEffect.direction), a.tempEffect.magnitude * 0.3)];
    }
    var pressure: seq<Choice> := [];
    if a.pressureEffect.magnitude > 0.0 {
      pressure := [Choice(PressureChoice, "", ForGoal(goal, a.pressureEffect.direction), a.pressureEffect.magnitude * 0.3)];
    }
    var species := ConcentrationOptions(a.concentrationEffect, goal);
    assert Options(analysis, goal) == temperature + pressure + species;
    options := Sort(temperature + pressure + species, ChoiceKey);
  }

  /** Flipping the goal flips the direction of every option and keeps every score. */
  lemma OptionsFlip(analysis: Option<Analysis>, i: nat)
    requires i < |Options(analysis, Forward)|
    ensures |Options(analysis, Reverse)| == |Options(analysis, Forward)|
    ensures Options(analysis, Reverse)[i].direction == -Options(analysis, Forward)[i].direction
    ensures Options(analysis, Reverse)[i].score == Options(analysis, Forward)[i].score
  {
  }

  // ------------------------------------------------------------------ the object

  /** The singleton's fields: its goal, its cached level and its difficulty. */
  class AISystem {
    const fns: Fns
    var goal: Goal
    var currentLevel: Option<Level>
    var currentDifficulty: int

    constructor(f: Fns)
      ensures fns == f && goal == Reverse && currentLevel == None && currentDifficulty == 1
    {
      fns := f;
      goal, currentLevel, currentDifficulty := Reverse, None, 1;
    }

    /** `init(level, difficulty)`. */
    method Init(level: Level, difficulty: int)
      modifies this
      ensures currentLevel == Some(level) && currentDifficulty == difficulty && goal == old(goal)
    {
      currentLevel, currentDifficulty := Some(level), difficulty;
    }

    /** `setDifficulty`: clamped to [1, 4]. */
    method SetDifficulty(d: int)
      modifies this
      ensures 1 <= currentDifficulty <= 4
      ensures 1 <= d <= 4 ==> currentDifficulty == d
      ensures goal == old(goal) && currentLevel == old(currentLevel)
    {
      currentDifficulty := if d < 1 then 1 else if d > 4 then 4 else d;
    }

    method SetGoal(g: Goal)
      modifies this
      ensures goal == g && currentLevel == old(currentLevel) && currentDifficulty == old(currentDifficulty)
    {
      goal := g;
    }

    /**
     * `selectBestAction(gameState, level, difficulty)`: the candidate loop, the scoring loop
     * over the candidates off the AI's cooldown, the sort, and the top-pool pick. The goal is
     * the snapshot's (`gameState.goal`, the AI's goal), so the object's own goal is not read.
     */
    method SelectBestAction(s: State, level: Option<Level>, difficulty: int, aiCooldowns: map<string, Cooldown>,
                            now: int, actDraw: real, randDraw: real, pickDraw: real) returns (action: Option<Action>)
      requires 0.0 <= pickDraw < 1.0
      modifies this
      ensures action == Selection(fns, s, level, difficulty, aiCooldowns, now, actDraw, randDraw, pickDraw)
      ensures currentLevel == (if level.Some? then level else old(currentLevel))
      ensures currentDifficulty == (if difficulty != 0 then difficulty else old(currentDifficulty))
      ensures goal == old(goal)
    {
      if level.Some? { currentLevel := level; }
      if difficulty != 0 { currentDifficulty := difficulty; }
      action := Choose(fns, s, level, difficulty, aiCooldowns, now, actDraw, randDraw, pickDraw);
    }
  }
}
