/**
 * The special-ability cards: the four-card catalogue, each side's card registers with their
 * round-based cooldowns, the active buffer effects, and the card effects applied through the
 * chemistry engine. The `Math.random` draws of the quantum card are arguments.
 */
module CardSystem {
  import opened Wrappers
  import opened MathFns
  import opened Reaction
  import opened Chemistry
  import opened Utils

  // ------------------------------------------------------------------ catalogue

  datatype CardEffect = Accelerate | Protect(duration: int) | TemperatureJump(magnitude: real) | RandomJump

  datatype Card = Card(id: string, cooldown: int, effect: CardEffect)

  /** The catalogue's ids, in declaration order. */
  const CardIds: seq<string> := ["catalyst", "buffer", "heatexchange", "quantum"]

  /** The catalogue entry of an id: cooldowns 3, 4, 3 and 5 rounds; the buffer lasts 2 rounds, the heat exchange moves 100 K. */
  function CardOf(id: string): (c: Option<Card>)
    ensures c.Some? <==> id in CardIds
    ensures c.Some? ==> c.value.id == id && 3 <= c.value.cooldown <= 5
  {
    match id
    case "catalyst" => Some(Card("catalyst", 3, Accelerate))
    case "buffer" => Some(Card("buffer", 4, Protect(2)))
    case "heatexchange" => Some(Card("heatexchange", 3, TemperatureJump(100.0)))
    case "quantum" => Some(Card("quantum", 5, RandomJump))
    case _ => None
  }

  // ------------------------------------------------------------------ card registers

  datatype CardState = CardState(available: bool, currentCooldown: int)

  /** A register entry is available exactly when its countdown has reached 0. */
  predicate Settled(c: CardState)
  {
    0 <= c.currentCooldown && (c.available <==> c.currentCooldown == 0)
  }

  /** Every entry of the register belongs to a catalogue card and is settled. */
  predicate WellFormed(m: map<string, CardState>)
  {
    forall id :: id in m ==> id in CardIds && Settled(m[id])
  }

  /** The register `init` builds: every catalogue card, available, with no cooldown. */
  function FreshCards(): (m: map<string, CardState>)
    ensures WellFormed(m)
    ensures forall id :: id in m <==> id in CardIds
  {
    map id | id in CardIds :: CardState(true, 0)
  }

  /** One round of the countdown: a running cooldown drops by one, and at 0 the card is available again. */
  function Tick(c: CardState): (r: CardState)
    ensures Settled(c) ==> Settled(r)
    ensures c.currentCooldown <= 0 ==> r == c
    ensures c.currentCooldown > 0 ==> r.currentCooldown == c.currentCooldown - 1
  {
    if c.currentCooldown > 0 then
      var n := c.currentCooldown - 1;
      CardState(if n == 0 then true else c.available, n)
    else c
  }

  /** Tick applied to every entry of a register. */
  function TickAll(m: map<string, CardState>): (r: map<string, CardState>)
    ensures r.Keys == m.Keys
    ensures WellFormed(m) ==> WellFormed(r)
  {
    map id | id in m :: Tick(m[id])
  }

  /** n rounds of the countdown. */
  function TickTimes(c: CardState, n: nat): CardState
  {
    if n == 0 then c else Tick(TickTimes(c, n - 1))
  }

  /** A card put on a cooldown of d rounds is unavailable for d − 1 countdowns and available after the d-th. */
  lemma {:induction false} CountdownLength(d: int, n: nat)
    requires d > 0
    ensures TickTimes(CardState(false, d), n).available <==> n >= d
    ensures TickTimes(CardState(false, d), n).currentCooldown == (if n >= d then 0 else d - n)
  {
    if n > 0 {
      CountdownLength(d, n - 1);
    }
  }

  /** The countdown loop over one register's entries. */
  method TickCards(m: map<string, CardState>) returns (r: map<string, CardState>)
    ensures r == TickAll(m)
  {
    r := m;
    var todo := m.Keys;
    while todo != {}
      invariant todo <= m.Keys
      invariant r.Keys == m.Keys
      invariant forall id :: id in m ==> r[id] == (if id in todo then m[id] else Tick(m[id]))
      decreases |todo|
    {
      var id :| id in todo;
      r := r[id := Tick(r[id])];
      todo := todo - {id};
    }
  }

  // ------------------------------------------------------------------ active effects

  /** An active effect; the only kind ever pushed is the buffer ('buffer', reduction 0.5). */
  datatype ActiveEffect = ActiveEffect(duration: int, reduction: real)

  /** The filter of the countdown: every duration drops by one and the effects at 0 or below are dropped. */
  function Decay(effects: seq<ActiveEffect>): (r: seq<ActiveEffect>)
    ensures |r| <= |effects|
    ensures forall e :: e in r ==> e.duration > 0
  {
    if effects == [] then []
    else
      var e := effects[0].(duration := effects[0].duration - 1);
      (if e.duration > 0 then [e] else []) + Decay(effects[1..])
  }

  /** Exactly the effects with more than one round left survive, each with one round less. */
  lemma {:induction false} DecayMembers(effects: seq<ActiveEffect>, e: ActiveEffect)
    ensures e in Decay(effects) <==> e.(duration := e.duration + 1) in effects && e.duration > 0
  {
    if effects != [] {
      DecayMembers(effects[1..], e);
      assert effects == [effects[0]] + effects[1..];
    }
  }

  /** A buffer pushed with its 2 rounds is still active after one countdown and gone after the second. */
  lemma BufferLifetime()
    ensures Decay([ActiveEffect(2, 0.5)]) == [ActiveEffect(1, 0.5)]
    ensures Decay(Decay([ActiveEffect(2, 0.5)])) == []
  {
    assert Decay([ActiveEffect(2, 0.5)]) == [ActiveEffect(1, 0.5)] + Decay([]);
    assert Decay([ActiveEffect(1, 0.5)]) == [] + Decay([]);
  }

  /** `getEffectReduction`: the reduction of the first buffer, 0 without one. */
  function EffectReduction(effects: seq<ActiveEffect>): (r: real)
    ensures effects == [] ==> r == 0.0
    ensures effects != [] ==> r == effects[0].reduction
  {
    if effects == [] then 0.0 else effects[0].reduction
  }

  /** `applyBufferEffect` on a decision's magnitude: unchanged without a buffer, else scaled by 1 − reduction. */
  function BufferedMagnitude(magnitude: real, effects: seq<ActiveEffect>): real
  {
    if effects == [] then magnitude else magnitude * (1.0 - EffectReduction(effects))
  }

  /** With buffers of reduction 0.5 the magnitude is halved exactly when a buffer is active. */
  lemma BufferHalves(magnitude: real, effects: seq<ActiveEffect>)
    requires forall e :: e in effects ==> e.reduction == 0.5
    ensures effects != [] ==> BufferedMagnitude(magnitude, effects) == magnitude / 2.0
    ensures effects == [] ==> BufferedMagnitude(magnitude, effects) == magnitude
  {
    if effects != [] {
      assert effects[0] in effects;
    }
  }

  // ------------------------------------------------------------------ card effects

  datatype User = Player | AI

  /** The heat exchange's temperature change: +magnitude when heating helps the goal (ΔH > 0 forward, ΔH ≤ 0 reverse). */
  function HeatChange(goal: Goal, deltaH: real, magnitude: real): (c: real)
    ensures c == magnitude || c == -magnitude
    ensures c == magnitude <==> (goal == Forward) == (deltaH > 0.0) || magnitude == 0.0
  {
    if goal == Forward then (if deltaH > 0.0 then magnitude else -magnitude)
    else (if deltaH > 0.0 then -magnitude else magnitude)
  }

  /**
   * The heat exchange never moves K against the user's goal: K does not fall for a forward
   * goal and does not rise for a reverse one (a larger K pulls the reaction forward).
   */
  lemma HeatExchangeFollowsGoal(f: Fns, level: Level, t: real, goal: Goal)
    requires ExpLaws(f) && 0.0 < Sensitivity(level)
    requires 200.0 <= t <= 500.0
    ensures var t2 := Clamp(t + HeatChange(goal, DeltaH(level), 100.0), 200.0, 500.0);
      && (goal == Forward ==> CalculateK(f, level, t) <= CalculateK(f, level, t2))
      && (goal == Reverse ==> CalculateK(f, level, t2) <= CalculateK(f, level, t))
  {
    var t2 := Clamp(t + HeatChange(goal, DeltaH(level), 100.0), 200.0, 500.0);
    var dH := DeltaH(level);
    if dH == 0.0 {
      KWithoutDeltaH(f, level, t);
      KWithoutDeltaH(f, level, t2);
    } else if dH > 0.0 {
      if goal == Forward { KMonotone(f, level, t, t2); } else { KMonotone(f, level, t2, t); }
    } else {
      if goal == Forward { KAntitone(f, level, t2, t); } else { KAntitone(f, level, t, t2); }
    }
  }

  /** The temperature, pressure and concentrations an engine ends with. */
  datatype Outcome = Outcome(temperature: real, pressure: real, concentrations: map<Species, real>)

  /** The species the quantum card picks for the draw: any reactant or product. */
  function QuantumSpecies(level: Level, speciesDraw: real): Option<Species>
  {
    RandomChoice(level.reactants + level.products, speciesDraw)
  }

  /** The quantum card's temperature: T moved by the ±80 draw, clamped to [200, 500]. */
  function QuantumTemperature(t: real, tempDraw: real): real
  {
    Clamp(t + Random(-80.0, 80.0, tempDraw), 200.0, 500.0)
  }

  /** The quantum card's species change: the picked species moved by the ±0.3 draw (absent counted as 0.1), clamped. */
  function QuantumTouched(level: Level, conc: map<Species, real>, speciesDraw: real, concDraw: real): map<Species, real>
  {
    var species := QuantumSpecies(level, speciesDraw);
    if species.Some? then conc[species.value := Clamp(LookupOr(conc, species.value, 0.1) + Random(-0.3, 0.3, concDraw), 0.001, 10.0)]
    else conc
  }

  /** The quantum card's pressure: on a gas reaction P moved by the ±50 draw, clamped to [10, 500]. */
  function QuantumPressure(level: Level, p: real, pressDraw: real): real
  {
    if level.hasGas then Clamp(p + Random(-50.0, 50.0, pressDraw), 10.0, 500.0) else p
  }

  /** On a gas reaction the gas species are reset from their initial values at the new pressure. */
  function QuantumRescaled(level: Level, conc: map<Species, real>, p: real): map<Species, real>
  {
    if level.hasGas then RescaleFrom(conc, GasList(level), |GasList(level)|, level.initialConcentrations, p / 101.0) else conc
  }

  /** The quantum card for its four draws, in the order the card applies them. */
  function QuantumOutcome(level: Level, t: real, p: real, conc: map<Species, real>,
                          tempDraw: real, speciesDraw: real, concDraw: real, pressDraw: real): Outcome
  {
    var p2 := QuantumPressure(level, p, pressDraw);
    Outcome(QuantumTemperature(t, tempDraw), p2, QuantumRescaled(level, QuantumTouched(level, conc, speciesDraw, concDraw), p2))
  }

  /**
   * The quantum jump stays within the engine's ranges and moves T by less than 80; without a
   * gas the pressure stays and only the one picked species changes.
   */
  lemma QuantumBounds(level: Level, t: real, p: real, conc: map<Species, real>,
                      tempDraw: real, speciesDraw: real, concDraw: real, pressDraw: real)
    requires 0.0 <= tempDraw < 1.0 && 0.0 <= speciesDraw < 1.0 && 0.0 <= concDraw < 1.0 && 0.0 <= pressDraw < 1.0
    requires 200.0 <= t <= 500.0
    ensures var o := QuantumOutcome(level, t, p, conc, tempDraw, speciesDraw, concDraw, pressDraw);
      && 200.0 <= o.temperature <= 500.0
      && t - 80.0 <= o.temperature < t + 80.0
      && (level.hasGas ==> 10.0 <= o.pressure <= 500.0)
      && (!level.hasGas ==> o.pressure == p)
      && (!level.hasGas && |level.reactants + level.products| > 0 ==>
            var sp := QuantumSpecies(level, speciesDraw).value;
            && sp in level.reactants + level.products
            && 0.001 <= o.concentrations[sp] <= 10.0
            && (forall s :: s != sp && s in conc ==> s in o.concentrations && o.concentrations[s] == conc[s]))
  {
  }

  // ------------------------------------------------------------------ the object

  /** The card singleton: each side's register and active effects. */
  class CardSystem {
    var playerCards: map<string, CardState>
    var aiCards: map<string, CardState>
    var playerEffects: seq<ActiveEffect>
    var aiEffects: seq<ActiveEffect>

    /** Registers well formed; every active effect is a buffer with rounds left. */
    predicate Valid()
      reads this
    {
      && WellFormed(playerCards) && WellFormed(aiCards)
      && (forall e :: e in playerEffects ==> e.duration > 0 && e.reduction == 0.5)
      && (forall e :: e in aiEffects ==> e.duration > 0 && e.reduction == 0.5)
    }

    function CardsOf(user: User): map<string, CardState>
      reads this
    {
      if user == Player then playerCards else aiCards
    }

    function EffectsOf(user: User): seq<ActiveEffect>
      reads this
    {
      if user == Player then playerEffects else aiEffects
    }

    /** The object literal: empty registers and no effects. */
    constructor()
      ensures playerCards == map[] && aiCards == map[] && playerEffects == [] && aiEffects == []
      ensures Valid()
    {
      playerCards, aiCards := map[], map[];
      playerEffects, aiEffects := [], [];
    }

    /** `init`, and `reset`, which only calls it: fresh registers for both sides and no effects. */
    method Init()
      modifies this
      ensures playerCards == FreshCards() && aiCards == FreshCards()
      ensures playerEffects == [] && aiEffects == []
      ensures Valid()
    {
      playerCards := FreshCards();
      aiCards := FreshCards();
      playerEffects, aiEffects := [], [];
    }

    /** `isCardAvailable`: the card is in the side's register and available. */
    predicate IsCardAvailable(cardId: string, user: User)
      reads this
    {
      cardId in CardsOf(user) && CardsOf(user)[cardId].available
    }

    /** `getCardStatus`: the register entry, if any. */
    function GetCardStatus(cardId: string, user: User): (c: Option<CardState>)
      reads this
      ensures c.Some? <==> cardId in CardsOf(user)
      ensures Valid() && c.Some? ==> (c.value.available <==> c.value.currentCooldown == 0)
    {
      if cardId in CardsOf(user) then Some(CardsOf(user)[cardId]) else None
    }

    /** `hasBufferEffect`: some buffer is active for the side. */
    predicate HasBufferEffect(target: User)
      reads this
    {
      EffectsOf(target) != []
    }

    /** `getEffectReduction`: 0.5 while a buffer is active, 0 otherwise. */
    function GetEffectReduction(target: User): (r: real)
      reads this
      ensures Valid() ==> (r == 0.5 <==> HasBufferEffect(target)) && (r == 0.0 <==> !HasBufferEffect(target))
    {
      var effects := EffectsOf(target);
      assert effects != [] ==> effects[0] in effects;
      EffectReduction(effects)
    }

    /** `applyBuffer(user, duration)`: push a buffer for the side. */
    method ApplyBuffer(user: User, duration: int)
      modifies this
      ensures EffectsOf(user) == old(EffectsOf(user)) + [ActiveEffect(duration, 0.5)]
      ensures EffectsOf(if user == Player then AI else Player) == old(EffectsOf(if user == Player then AI else Player))
      ensures playerCards == old(playerCards) && aiCards == old(aiCards)
      ensures old(Valid()) && duration > 0 ==> Valid()
    {
      if user == Player {
        playerEffects := playerEffects + [ActiveEffect(duration, 0.5)];
      } else {
        aiEffects := aiEffects + [ActiveEffect(duration, 0.5)];
      }
    }

    /** `applyHeatExchange(user, magnitude)`: nothing without an engine state, else T moves the goal's way. */
    method ApplyHeatExchange(engine: ChemistryEngine, goal: Goal, magnitude: real) returns (applied: bool)
      modifies engine
      requires engine.Valid()
      ensures applied <==> old(engine.reaction).Some?
      ensures engine.reaction == old(engine.reaction) && engine.pressure == old(engine.pressure)
      ensures engine.concentrations == old(engine.concentrations)
      ensures !applied ==> engine.temperature == old(engine.temperature)
      ensures applied ==>
        engine.temperature == Clamp(old(engine.temperature) + HeatChange(goal, DeltaH(engine.reaction.value), magnitude), 200.0, 500.0)
      ensures engine.Valid()
    {
      if engine.GetState().None? { return false; }
      var tempChange := HeatChange(goal, DeltaH(engine.reaction.value), magnitude);
      engine.AdjustTemperature(tempChange);
      return true;
    }

    /** The quantum card's second step: the random change of one species. */
    method QuantumSpeciesStep(engine: ChemistryEngine, level: Level, speciesDraw: real, concDraw: real)
      modifies engine
      requires engine.Valid() && engine.reaction == Some(level)
      ensures engine.reaction == old(engine.reaction) && engine.temperature == old(engine.temperature) && engine.pressure == old(engine.pressure)
      ensures engine.concentrations == QuantumTouched(level, old(engine.concentrations), speciesDraw, concDraw)
      ensures engine.Valid()
    {
      var species := QuantumSpecies(level, speciesDraw);
      if species.Some? {
        engine.AdjustConcentration(species.value, Random(-0.3, 0.3, concDraw));
      }
    }

    /** The quantum card's last step: on a gas reaction, the random pressure change. */
    method QuantumPressureStep(engine: ChemistryEngine, level: Level, pressDraw: real)
      modifies engine
      requires engine.Valid() && engine.reaction == Some(level)
      ensures engine.reaction == old(engine.reaction) && engine.temperature == old(engine.temperature)
      ensures engine.pressure == QuantumPressure(level, old(engine.pressure), pressDraw)
      ensures engine.concentrations == QuantumRescaled(level, old(engine.concentrations), engine.pressure)
      ensures engine.Valid()
    {
      if level.hasGas {
        engine.AdjustPressure(Random(-50.0, 50.0, pressDraw));
      }
    }

    /** `applyQuantumTunnel`: nothing without an engine state, else the three random adjustments. */
    method ApplyQuantumTunnel(engine: ChemistryEngine, tempDraw: real, speciesDraw: real, concDraw: real, pressDraw: real)
      returns (applied: bool)
      modifies engine
      requires engine.Valid()
      ensures applied <==> old(engine.reaction).Some?
      ensures engine.reaction == old(engine.reaction)
      ensures !applied ==>
        engine.temperature == old(engine.temperature) && engine.pressure == old(engine.pressure) && engine.concentrations == old(engine.concentrations)
      ensures applied ==>
        && engine.temperature == QuantumTemperature(old(engine.temperature), tempDraw)
        && engine.pressure == QuantumPressure(engine.reaction.value, old(engine.pressure), pressDraw)
        && engine.concentrations
           == QuantumRescaled(engine.reaction.value, QuantumTouched(engine.reaction.value, old(engine.concentrations), speciesDraw, concDraw), engine.pressure)
      ensures engine.Valid()
    {
      if engine.GetState().None? { return false; }
      var level := engine.reaction.value;
      engine.AdjustTemperature(Random(-80.0, 80.0, tempDraw));
      QuantumSpeciesStep(engine, level, speciesDraw, concDraw);
      QuantumPressureStep(engine, level, pressDraw);
      return true;
    }

    /**
     * `applyCardEffect(card, user)`: the card's effect. The catalyst runs the engine's catalyst,
     * the buffer protects the user, the heat exchange moves T the user's goal's way, and the
     * quantum card makes its three random changes; the cards' registers are not touched.
     */
    method ApplyCardEffect(card: Card, user: User, engine: ChemistryEngine, goal: Goal,
                           tempDraw: real, speciesDraw: real, concDraw: real, pressDraw: real)
      modifies this, engine
      requires Valid() && engine.Valid()
      requires card.effect.Protect? ==> card.effect.duration > 0
      ensures playerCards == old(playerCards) && aiCards == old(aiCards)
      ensures EffectsOf(user) == if card.effect.Protect? then old(EffectsOf(user)) + [ActiveEffect(card.effect.duration, 0.5)] else old(EffectsOf(user))
      ensures EffectsOf(if user == Player then AI else Player) == old(EffectsOf(if user == Player then AI else Player))
      ensures engine.reaction == old(engine.reaction)
      ensures card.effect.Protect? || engine.reaction.None? ==>
        engine.temperature == old(engine.temperature) && engine.pressure == old(engine.pressure) && engine.concentrations == old(engine.concentrations)
      ensures card.effect.Accelerate? && engine.reaction.Some? ==>
        && engine.temperature == old(engine.temperature) && engine.pressure == old(engine.pressure)
        && engine.concentrations == CatalystConcentrations(engine.reaction.value, old(engine.concentrations), old(engine.q), old(engine.k))
      ensures card.effect.TemperatureJump? && engine.reaction.Some? ==>
        && engine.temperature == Clamp(old(engine.temperature) + HeatChange(goal, DeltaH(engine.reaction.value), card.effect.magnitude), 200.0, 500.0)
        && engine.pressure == old(engine.pressure) && engine.concentrations == old(engine.concentrations)
      ensures card.effect.RandomJump? && engine.reaction.Some? ==>
        && engine.temperature == QuantumTemperature(old(engine.temperature), tempDraw)
        && engine.pressure == QuantumPressure(engine.reaction.value, old(engine.pressure), pressDraw)
        && engine.concentrations
           == QuantumRescaled(engine.reaction.value, QuantumTouched(engine.reaction.value, old(engine.concentrations), speciesDraw, concDraw), engine.pressure)
      ensures Valid() && engine.Valid()
    {
      match card.effect {
        case Accelerate =>
          engine.ApplyCatalyst();
        case Protect(duration) =>
          ApplyBuffer(user, duration);
        case TemperatureJump(magnitude) =>
          var _ := ApplyHeatExchange(engine, goal, magnitude);
        case RandomJump =>
          var _ := ApplyQuantumTunnel(engine, tempDraw, speciesDraw, concDraw, pressDraw);
      }
    }

    /**
     * `useCard(cardId, user)`: refused, with nothing changed, unless the side holds the card
     * available; otherwise the card goes on its catalogue cooldown and its effect is applied
     * with the side's goal. The heat exchange and the quantum card need a reaction; without one
     * the card is still spent.
     */
    method UseCard(cardId: string, user: User, engine: ChemistryEngine, playerGoal: Goal, aiGoal: Goal,
                   tempDraw: real, speciesDraw: real, concDraw: real, pressDraw: real) returns (success: bool)
      modifies this, engine
      requires Valid() && engine.Valid()
      ensures success == old(IsCardAvailable(cardId, user))
      ensures !success ==> unchanged(this) && unchanged(engine)
      ensures success ==>
        cardId in CardIds && CardsOf(user) == old(CardsOf(user))[cardId := CardState(false, CardOf(cardId).value.cooldown)]
      ensures CardsOf(if user == Player then AI else Player) == old(CardsOf(if user == Player then AI else Player))
      ensures EffectsOf(user) == if success && cardId == "buffer" then old(EffectsOf(user)) + [ActiveEffect(2, 0.5)] else old(EffectsOf(user))
      ensures EffectsOf(if user == Player then AI else Player) == old(EffectsOf(if user == Player then AI else Player))
      ensures engine.reaction == old(engine.reaction)
      ensures success && cardId == "catalyst" && engine.reaction.Some? ==>
        && engine.temperature == old(engine.temperature) && engine.pressure == old(engine.pressure)
        && engine.concentrations == CatalystConcentrations(engine.reaction.value, old(engine.concentrations), old(engine.q), old(engine.k))
      ensures success && cardId == "heatexchange" && engine.reaction.Some? ==>
        && engine.temperature == Clamp(old(engine.temperature) + HeatChange(if user == Player then playerGoal else aiGoal,
                                                                            DeltaH(engine.reaction.value), 100.0), 200.0, 500.0)
        && engine.pressure == old(engine.pressure) && engine.concentrations == old(engine.concentrations)
      ensures success && cardId == "quantum" && engine.reaction.Some? ==>
        && engine.temperature == QuantumTemperature(old(engine.temperature), tempDraw)
        && engine.pressure == QuantumPressure(engine.reaction.value, old(engine.pressure), pressDraw)
        && engine.concentrations
           == QuantumRescaled(engine.reaction.value, QuantumTouched(engine.reaction.value, old(engine.concentrations), speciesDraw, concDraw), engine.pressure)
      ensures success && engine.reaction.None? ==>
        engine.temperature == old(engine.temperature) && engine.pressure == old(engine.pressure) && engine.concentrations == old(engine.concentrations)
      ensures success && cardId == "buffer" ==>
        engine.temperature == old(engine.temperature) && engine.pressure == old(engine.pressure) && engine.concentrations == old(engine.concentrations)
      ensures Valid() && engine.Valid()
    {
      if !IsCardAvailable(cardId, user) {
        return false;
      }
      var card := CardOf(cardId).value;
      if user == Player {
        playerCards := playerCards[cardId := CardState(false, card.cooldown)];
      } else {
        aiCards := aiCards[cardId := CardState(false, card.cooldown)];
      }
      ApplyCardEffect(card, user, engine, if user == Player then playerGoal else aiGoal, tempDraw, speciesDraw, concDraw, pressDraw);
      return true;
    }

    /** `reduceCooldowns`: one countdown for every card of both sides, and the effects filter. */
    method ReduceCooldowns()
      modifies this
      ensures playerCards == TickAll(old(playerCards)) && aiCards == TickAll(old(aiCards))
      ensures playerEffects == Decay(old(playerEffects)) && aiEffects == Decay(old(aiEffects))
      ensures old(Valid()) ==> Valid()
    {
      playerCards := TickCards(playerCards);
      aiCards := TickCards(aiCards);
      ghost var p, a := playerEffects, aiEffects;
      playerEffects := Decay(playerEffects);
      aiEffects := Decay(aiEffects);
      forall e | e in playerEffects ensures e.duration > 0 && (old(Valid()) ==> e.reduction == 0.5) {
        DecayMembers(p, e);
      }
      forall e | e in aiEffects ensures e.duration > 0 && (old(Valid()) ==> e.reduction == 0.5) {
        DecayMembers(a, e);
      }
    }
  }
}
