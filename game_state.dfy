/**
 * `Game.state`: the record every in-game action reads and writes, and `updateState`,
 * which recomputes K and Q after each change. The record is a value here; the game object
 * owns it in one field, and each action hands back the record it leaves behind.
 */
module GameState {
  import opened Wrappers
  import opened MathFns
  import opened Reaction
  import opened Chemistry

  datatype State = State(
    currentLevel: Option<int>,
    levelData: Option<Level>,
    round: int,
    maxRounds: int,
    isRunning: bool,
    isPaused: bool,
    temperature: real,
    pressure: real,
    concentrations: map<Species, real>,
    baseConcentrations: map<Species, real>,
    equilibriumConstant: real,
    reactionQuotient: real,
    playerGoal: Goal,
    aiGoal: Goal,
    playerTotalScore: real,
    aiTotalScore: real)

  /** The record `Game.reset` installs. */
  const Initial: State := State(None, None, 0, 10, false, false, 298.0, 101.325, map[], map[],
                                1.0, 1.0, Forward, Reverse, 0.0, 0.0)

  /** `level.initialTemperature || level.initialTemp || 298`. */
  function LevelTemperature(level: Level): (t: real)
    ensures level.initialTemperature.Some? && level.initialTemperature.value != 0.0 ==> t == level.initialTemperature.value
    ensures OrElse(level.initialTemperature, 0.0) == 0.0 ==> t == OrElse(level.initialTemp, 298.0)
  {
    OrElse(level.initialTemperature, OrElse(level.initialTemp, 298.0))
  }

  /** `level.initialPressure || 101.325`. */
  function LevelPressure(level: Level): (p: real)
    ensures p != 0.0
    ensures level.initialPressure.Some? && level.initialPressure.value != 0.0 ==> p == level.initialPressure.value
    ensures (level.initialPressure.None? || level.initialPressure.value == 0.0) ==> p == 101.325
  {
    OrElse(level.initialPressure, 101.325)
  }

  /** K and Q belong to the record's temperature and concentrations. */
  predicate Current(f: Fns, s: State)
  {
    s.levelData.Some? ==>
      && s.equilibriumConstant == CalculateK(f, s.levelData.value, s.temperature)
      && s.reactionQuotient == Quotient(s.levelData.value, s.concentrations)
  }

  /**
   * `updateState`: without a level nothing happens; otherwise K is recomputed at the
   * current temperature and Q from the current concentrations, and nothing else changes;
   * a record that is already current is left as it is, so updating twice is updating once.
   */
  function UpdateState(f: Fns, s: State): (r: State)
    ensures Current(f, r)
    ensures r == s.(equilibriumConstant := r.equilibriumConstant, reactionQuotient := r.reactionQuotient)
    ensures s.levelData.None? ==> r == s
    ensures Current(f, s) ==> r == s
    ensures r.levelData.Some? ==> MinK <= r.equilibriumConstant <= MaxK
  {
    match s.levelData
    case None => s
    case Some(level) =>
      s.(equilibriumConstant := CalculateK(f, level, s.temperature),
         reactionQuotient := Quotient(level, s.concentrations))
  }
}
