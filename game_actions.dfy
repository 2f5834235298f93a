/**
 * The action economy: the five interventions a side can make during a round, each gated
 * by a per-side cooldown table keyed by action id. Time is the `now` argument (ms); a
 * cooldown started at t0 for d ms blocks its action exactly while now - t0 < d.
 */
module GameActions {
  import opened Wrappers
  import opened MathFns
  import opened Reaction
  import opened Strings
  import opened GameState

  /** Base cooldowns in ms: 3 s for adding a species, 5 s for the other actions. */
  const ConcentrationCooldown: int := 3000
  const HeatCooldown: int := 5000
  const CoolCooldown: int := 5000
  const PressurizeCooldown: int := 5000
  const DepressurizeCooldown: int := 5000

  const ConcentrationDelta: real := 0.5
  const TemperatureDelta: real := 20.0
  const PressureDelta: real := 50.0

  datatype Cooldown = Cooldown(startTime: int, duration: int)

  /** `settings.difficulty || 2`. */
  function Difficulty(setting: Option<int>): (d: int)
    ensures setting.Some? && setting.value != 0 ==> d == setting.value
    ensures setting.None? || setting.value == 0 ==> d == 2
  {
    if setting.Some? && setting.value != 0 then setting.value else 2
  }

  /** The AI's cooldown multiplier: Expert 0.5, Hard 1, Medium 3, anything else 5. */
  function CooldownFactor(difficulty: int): (f: real)
    ensures 0.5 <= f <= 5.0
  {
    if difficulty >= 4 then 0.5
    else if difficulty == 3 then 1.0
    else if difficulty == 2 then 3.0
    else 5.0
  }

  /** A higher difficulty never gives a longer multiplier. */
  lemma CooldownFactorAntitone(d1: int, d2: int)
    requires d1 <= d2
    ensures CooldownFactor(d2) <= CooldownFactor(d1)
  {
  }

  /** The player keeps the base duration; the AI's is max(250, floor(base · factor)). */
  function EffectiveDuration(duration: int, isAI: bool, difficulty: int): (d: int)
    ensures !isAI ==> d == duration
    ensures isAI ==> 250 <= d && (d == 250 || d == (duration as real * CooldownFactor(difficulty)).Floor)
  {
    if isAI then
      var scaled := (duration as real * CooldownFactor(difficulty)).Floor;
      if scaled < 250 then 250 else scaled
    else duration
  }

  /** `isOnCooldown` on one bucket: false with no entry, else whether the window is still open. */
  predicate OnCooldown(bucket: map<string, Cooldown>, id: string, now: int)
  {
    id in bucket && now - bucket[id].startTime < bucket[id].duration
  }

  /** A cooldown started at t0 for d ms blocks its id from t0 on exactly until t0 + d. */
  lemma StartedBlocksWindow(bucket: map<string, Cooldown>, id: string, t0: int, d: int, now: int)
    requires t0 <= now
    ensures OnCooldown(bucket[id := Cooldown(t0, d)], id, now) <==> now < t0 + d
  {
  }

  /** Starting one id's cooldown leaves every other id as it was. */
  lemma StartedLeavesOthers(bucket: map<string, Cooldown>, id: string, c: Cooldown, other: string, now: int)
    requires other != id
    ensures OnCooldown(bucket[id := c], other, now) == OnCooldown(bucket, other, now)
  {
  }

  /** The cooldown id of adding a species. */
  function ConcentrationId(species: Species): string
  {
    "concentration_" + species
  }

  /** `getButtonId`: `btn-species-<s>` for a species id, else `btn-<id>`. */
  function ButtonId(actionId: string): (b: string)
    ensures StartsWith(actionId, "concentration_") ==> b == "btn-species-" + actionId[|"concentration_"|..]
    ensures !StartsWith(actionId, "concentration_") ==> b == "btn-" + actionId
  {
    if StartsWith(actionId, "concentration_") then "btn-species-" + actionId[|"concentration_"|..]
    else "btn-" + actionId
  }

  lemma ButtonIdOfSpecies(species: Species)
    ensures ButtonId(ConcentrationId(species)) == "btn-species-" + species
  {
    var id := ConcentrationId(species);
    assert id[..|"concentration_"|] == "concentration_";
    assert id[|"concentration_"|..] == species;
  }

  // ------------------------------------------------------------------ the new values

  /** The base amount addSpecies scales: `base[s] ?? level.initialConcentrations[s] ?? 1`. */
  function SpeciesBase(s: State, species: Species): real
  {
    if species in s.baseConcentrations then s.baseConcentrations[species]
    else if s.levelData.Some? && species in s.levelData.value.initialConcentrations then s.levelData.value.initialConcentrations[species]
    else 1.0
  }

  /** The increment: `max(0, 0.05 · base) || 0.5`, always positive. */
  function SpeciesIncrement(base: real): (d: real)
    ensures 0.0 < d
    ensures 0.0 < base ==> d == base * 0.05
    ensures base <= 0.0 ==> d == ConcentrationDelta
  {
    var delta := if base * 0.05 < 0.0 then 0.0 else base * 0.05;
    if delta != 0.0 then delta else ConcentrationDelta
  }

  /** `(c[s] || 0) + increment`: the new amount is strictly larger than the old one. */
  function AddedConcentration(s: State, species: Species): (c: real)
    ensures c == LookupOr(s.concentrations, species, 0.0) + SpeciesIncrement(SpeciesBase(s, species))
    ensures c > LookupOr(s.concentrations, species, 0.0)
  {
    LookupOr(s.concentrations, species, 0.0) + SpeciesIncrement(SpeciesBase(s, species))
  }

  /** `min(T + 20, 500)`: above 480 K it gives 500, so from above 500 K heating cools. */
  function Heated(t: real): (r: real)
    ensures r <= 500.0
    ensures t <= 480.0 ==> r == t + TemperatureDelta
    ensures t > 480.0 ==> r == 500.0
    ensures t > 500.0 ==> r < t
  {
    if t + TemperatureDelta < 500.0 then t + TemperatureDelta else 500.0
  }

  /** `max(T - 20, 200)`. */
  function Cooled(t: real): (r: real)
    ensures 200.0 <= r
    ensures t >= 220.0 ==> r == t - TemperatureDelta
    ensures t < 220.0 ==> r == 200.0
  {
    if t - TemperatureDelta > 200.0 then t - TemperatureDelta else 200.0
  }

  /** `state.pressure || 101.325`, the pressure both pressure actions start from. */
  function StartPressure(p: real): (r: real)
    ensures r != 0.0
  {
    if p != 0.0 then p else 101.325
  }

  /** `min(P + 50, 500)`. */
  function Pressurized(p: real): (r: real)
    ensures r <= 500.0
    ensures p <= 450.0 ==> r == p + PressureDelta
  {
    if p + PressureDelta < 500.0 then p + PressureDelta else 500.0
  }

  /** `max(P - 50, 10)`. */
  function Depressurized(p: real): (r: real)
    ensures 10.0 <= r
    ensures p >= 60.0 ==> r == p - PressureDelta
  {
    if p - PressureDelta > 10.0 then p - PressureDelta else 10.0
  }

  /** Whether the gas loop runs: a gas reaction with a gas list and a positive start pressure. */
  predicate ScalesGas(s: State, oldP: real)
  {
    s.levelData.Some? && s.levelData.value.hasGas && s.levelData.value.gasSpecies.Some? && oldP > 0.0
  }

  /** The loop `for (s of gasSpecies) if (s in c) c[s] *= ratio`. */
  method ScaleEach(m: map<Species, real>, keys: seq<Species>, ratio: real) returns (r: map<Species, real>)
    ensures r == UpdateEach(m, keys, Scale(ratio))
  {
    r := m;
    var i := 0;
    while i < |keys|
      invariant 0 <= i <= |keys|
      invariant r == UpdateEach(m, keys[..i], Scale(ratio))
    {
      assert keys[..i + 1][..i] == keys[..i];
      var s := keys[i];
      if s in r {
        r := r[s := Apply(Scale(ratio), r[s])];
      }
      i := i + 1;
    }
    assert keys[..i] == keys;
  }

  /** The concentrations after a pressure change from oldP to newP. */
  function PressureConcentrations(s: State, oldP: real, newP: real): map<Species, real>
    requires oldP != 0.0
  {
    if ScalesGas(s, oldP) then UpdateEach(s.concentrations, s.levelData.value.gasSpecies.value, Scale(newP / oldP))
    else s.concentrations
  }

  /**
   * A pressure change scales every present gas species (listed once) by newP / oldP and
   * leaves every other species alone; a reaction without gas keeps all its concentrations.
   */
  lemma PressureConcentrationsAt(s: State, oldP: real, newP: real, species: Species)
    requires oldP != 0.0 && species in s.concentrations
    requires s.levelData.Some? ==> Distinct(GasList(s.levelData.value))
    ensures species in PressureConcentrations(s, oldP, newP)
    ensures ScalesGas(s, oldP) && species in GasList(s.levelData.value) ==>
      PressureConcentrations(s, oldP, newP)[species] == s.concentrations[species] * (newP / oldP)
    ensures !(ScalesGas(s, oldP) && species in GasList(s.levelData.value)) ==>
      PressureConcentrations(s, oldP, newP)[species] == s.concentrations[species]
  {
    if ScalesGas(s, oldP) {
      var gas := s.levelData.value.gasSpecies.value;
      if species in gas {
        UpdateEachInside(s.concentrations, gas, Scale(newP / oldP), species);
      } else {
        UpdateEachOutside(s.concentrations, gas, Scale(newP / oldP), species);
      }
    }
  }

  // ------------------------------------------------------------------ the object

  /**
   * The singleton: one cooldown table per side. Every action takes the game's state record
   * and returns the record it leaves (after `updateState`), with a success flag.
   */
  class GameActions {
    const fns: Fns
    var player: map<string, Cooldown>
    var ai: map<string, Cooldown>

    constructor(f: Fns)
      ensures fns == f && player == map[] && ai == map[]
    {
      fns := f;
      player, ai := map[], map[];
    }

    /** `init`: both tables empty. */
    method Init()
      modifies this
      ensures player == map[] && ai == map[]
    {
      player, ai := map[], map[];
    }

    function Bucket(isAI: bool): map<string, Cooldown>
      reads this
    {
      if isAI then ai else player
    }

    /** `isOnCooldown(id, isAI)` at time now. */
    predicate IsOnCooldown(id: string, isAI: bool, now: int)
      reads this
    {
      OnCooldown(Bucket(isAI), id, now)
    }

    /** `startCooldown`: only the chosen side's table gains the entry (now, effective duration). */
    method StartCooldown(id: string, duration: int, isAI: bool, now: int, setting: Option<int>)
      modifies this
      ensures Bucket(isAI) == old(Bucket(isAI))[id := Cooldown(now, EffectiveDuration(duration, isAI, Difficulty(setting)))]
      ensures Bucket(!isAI) == old(Bucket(!isAI))
    {
      var c := Cooldown(now, EffectiveDuration(duration, isAI, Difficulty(setting)));
      if isAI {
        ai := ai[id := c];
      } else {
        player := player[id := c];
      }
    }

    /** `resetCooldowns(isAI)`: the chosen side's table is emptied, the other one kept. */
    method ResetCooldowns(isAI: bool)
      modifies this
      ensures Bucket(isAI) == map[]
      ensures Bucket(!isAI) == old(Bucket(!isAI))
    {
      if isAI {
        ai := map[];
      } else {
        player := map[];
      }
    }

    /** `addSpecies(species, isAI)`: raise one species by its increment, then start a 3 s cooldown. */
    method AddSpecies(s: State, species: Species, isAI: bool, now: int, setting: Option<int>) returns (success: bool, r: State)
      modifies this
      ensures success == !old(IsOnCooldown(ConcentrationId(species), isAI, now))
      ensures !success ==> r == s && player == old(player) && ai == old(ai)
      ensures success ==> r == UpdateState(fns, s.(concentrations := s.concentrations[species := AddedConcentration(s, species)]))
      ensures success ==> Bucket(isAI) == old(Bucket(isAI))[ConcentrationId(species) := Cooldown(now, EffectiveDuration(ConcentrationCooldown, isAI, Difficulty(setting)))]
      ensures Bucket(!isAI) == old(Bucket(!isAI))
    {
      if IsOnCooldown(ConcentrationId(species), isAI, now) {
        return false, s;
      }
      var next := s.(concentrations := s.concentrations[species := AddedConcentration(s, species)]);
      StartCooldown(ConcentrationId(species), ConcentrationCooldown, isAI, now, setting);
      success, r := true, UpdateState(fns, next);
    }

    /** `heat(isAI)`: T := min(T + 20, 500), then a 5 s cooldown. */
    method Heat(s: State, isAI: bool, now: int, setting: Option<int>) returns (success: bool, r: State)
      modifies this
      ensures success == !old(IsOnCooldown("heat", isAI, now))
      ensures !success ==> r == s && player == old(player) && ai == old(ai)
      ensures success ==> r == UpdateState(fns, s.(temperature := Heated(s.temperature)))
      ensures success ==> Bucket(isAI) == old(Bucket(isAI))["heat" := Cooldown(now, EffectiveDuration(HeatCooldown, isAI, Difficulty(setting)))]
      ensures Bucket(!isAI) == old(Bucket(!isAI))
    {
      if IsOnCooldown("heat", isAI, now) {
        return false, s;
      }
      var next := s.(temperature := Heated(s.temperature));
      StartCooldown("heat", HeatCooldown, isAI, now, setting);
      success, r := true, UpdateState(fns, next);
    }

    /** `cool(isAI)`: T := max(T - 20, 200), then a 5 s cooldown. */
    method Cool(s: State, isAI: bool, now: int, setting: Option<int>) returns (success: bool, r: State)
      modifies this
      ensures success == !old(IsOnCooldown("cool", isAI, now))
      ensures !success ==> r == s && player == old(player) && ai == old(ai)
      ensures success ==> r == UpdateState(fns, s.(temperature := Cooled(s.temperature)))
      ensures success ==> Bucket(isAI) == old(Bucket(isAI))["cool" := Cooldown(now, EffectiveDuration(CoolCooldown, isAI, Difficulty(setting)))]
      ensures Bucket(!isAI) == old(Bucket(!isAI))
    {
      if IsOnCooldown("cool", isAI, now) {
        return false, s;
      }
      var next := s.(temperature := Cooled(s.temperature));
      StartCooldown("cool", CoolCooldown, isAI, now, setting);
      success, r := true, UpdateState(fns, next);
    }

    /** `pressurize(isAI)`: P := min(P + 50, 500), the gas species rescaled, then a 5 s cooldown. */
    method Pressurize(s: State, isAI: bool, now: int, setting: Option<int>) returns (success: bool, r: State)
      modifies this
      ensures success == !old(IsOnCooldown("pressurize", isAI, now))
      ensures !success ==> r == s && player == old(player) && ai == old(ai)
      ensures success ==> r == UpdateState(fns, s.(pressure := Pressurized(StartPressure(s.pressure)),
                                                  concentrations := PressureConcentrations(s, StartPressure(s.pressure), Pressurized(StartPressure(s.pressure)))))
      ensures success ==> Bucket(isAI) == old(Bucket(isAI))["pressurize" := Cooldown(now, EffectiveDuration(PressurizeCooldown, isAI, Difficulty(setting)))]
      ensures Bucket(!isAI) == old(Bucket(!isAI))
    {
      if IsOnCooldown("pressurize", isAI, now) {
        return false, s;
      }
      var oldP := StartPressure(s.pressure);
      var newP := Pressurized(oldP);
      var conc := s.concentrations;
      if ScalesGas(s, oldP) {
        conc := ScaleEach(conc, s.levelData.value.gasSpecies.value, newP / oldP);
      }
      StartCooldown("pressurize", PressurizeCooldown, isAI, now, setting);
      success, r := true, UpdateState(fns, s.(pressure := newP, concentrations := conc));
    }

    /** `depressurize(isAI)`: P := max(P - 50, 10), the gas species rescaled, then a 5 s cooldown. */
    method Depressurize(s: State, isAI: bool, now: int, setting: Option<int>) returns (success: bool, r: State)
      modifies this
      ensures success == !old(IsOnCooldown("depressurize", isAI, now))
      ensures !success ==> r == s && player == old(player) && ai == old(ai)
      ensures success ==> r == UpdateState(fns, s.(pressure := Depressurized(StartPressure(s.pressure)),
                                                  concentrations := PressureConcentrations(s, StartPressure(s.pressure), Depressurized(StartPressure(s.pressure)))))
      ensures success ==> Bucket(isAI) == old(Bucket(isAI))["depressurize" := Cooldown(now, EffectiveDuration(DepressurizeCooldown, isAI, Difficulty(setting)))]
      ensures Bucket(!isAI) == old(Bucket(!isAI))
    {
      if IsOnCooldown("depressurize", isAI, now) {
        return false, s;
      }
      var oldP := StartPressure(s.pressure);
      var newP := Depressurized(oldP);
      var conc := s.concentrations;
      if ScalesGas(s, oldP) {
        conc := ScaleEach(conc, s.levelData.value.gasSpecies.value, newP / oldP);
      }
      StartCooldown("depressurize", DepressurizeCooldown, isAI, now, setting);
      success, r := true, UpdateState(fns, s.(pressure := newP, concentrations := conc));
    }
  }
}
