/**
 * The round and match controller: it starts a level, hands out opposite goals, runs the
 * turn timer and the AI's tick, settles each round by the shift the two sides left behind,
 * advances to the next round from the level's balanced start, and at the end rates the
 * match and records the player's progress. Timers are two flags and an explicit tick; the
 * 2 s pause between a settled round and the next one is the caller's call to NextRound.
 */
module Game {
  import opened Wrappers
  import opened MathFns
  import opened Reaction
  import opened Chemistry
  import opened Levels
  import opened GameState
  import GA = GameActions
  import AI = AISystem
  import CS = CardSystem
  import SM = StorageManager

  // ------------------------------------------------------------------ goals and scoring

  /** `assignGoals` with its draw: below 0.5 the player pushes forward and the AI back, else the reverse. */
  function AssignedGoals(draw: real): (goals: (Goal, Goal))
    ensures goals.0 != goals.1 && goals.1 == goals.0.Opposite()
    ensures goals.0 == Forward <==> draw < 0.5
  {
    if draw < 0.5 then (Forward, Reverse) else (Reverse, Forward)
  }

  /** `Game.calculateRoundScore`: the game's own copy of the score, which never sees a missing goal. */
  function RoundScore(shift: real, goal: Goal): (score: real)
    ensures score == AI.RoundScore(shift, Some(goal))
  {
    if shift == 0.0 then 5.0
    else
      var direction := if shift > 0.0 then Forward else Reverse;
      if direction == goal then 10.0 + AI.Min(AI.Abs(shift) * 10.0, 20.0)
      else AI.Max(0.0, 5.0 - AI.Abs(shift) * 5.0)
  }

  /** Of two opposite goals exactly one collects the 10-point branch of a nonzero shift; at rest both get 5. */
  lemma OppositeGoalsScore(shift: real, goal: Goal)
    ensures shift == 0.0 ==> RoundScore(shift, goal) == 5.0 && RoundScore(shift, goal.Opposite()) == 5.0
    ensures shift != 0.0 ==> (RoundScore(shift, goal) >= 10.0 <==> RoundScore(shift, goal.Opposite()) < 10.0)
    ensures shift != 0.0 ==> (RoundScore(shift, goal) >= 10.0 <==> AI.Toward(shift, goal))
  {
    assert AI.Toward(shift, goal) || AI.Toward(shift, goal.Opposite()) || shift == 0.0;
  }

  /** `calculateStars(victory)`: nothing for a loss, else one star plus one for a lead of 10 and one for a lead of 30. */
  function Stars(victory: bool, playerTotal: real, aiTotal: real): (stars: int)
    ensures !victory ==> stars == 0
    ensures victory ==> 1 <= stars <= 3
    ensures victory ==> (stars >= 2 <==> playerTotal - aiTotal >= 10.0)
    ensures victory ==> (stars == 3 <==> playerTotal - aiTotal >= 30.0)
  {
    if !victory then 0
    else
      var diff := playerTotal - aiTotal;
      var stars := 1 + (if diff >= 10.0 then 1 else 0) + (if diff >= 30.0 then 1 else 0);
      if stars < 3 then stars else 3
  }

  /** A larger lead never earns fewer stars. */
  lemma StarsMonotone(p1: real, a1: real, p2: real, a2: real)
    requires p1 - a1 <= p2 - a2
    ensures Stars(true, p1, a1) <= Stars(true, p2, a2)
  {
  }

  /** The winner's total as a percentage of 30 points a round, capped at 100. */
  function Achievement(total: real, maxRounds: int): (a: real)
    ensures a <= 100.0
    ensures 0.0 <= total ==> 0.0 <= a
    ensures 1 <= maxRounds && total == (30 * maxRounds) as real ==> a == 100.0
  {
    var maxScore := if 1 < 30 * maxRounds then (30 * maxRounds) as real else 1.0;
    var pct := total / maxScore * 100.0;
    if pct < 100.0 then pct else 100.0
  }

  /** The AI tick in ms for a difficulty: 260, 420, 650, or 1200 below Medium. */
  function Interval(difficulty: int): (ms: int)
    ensures 260 <= ms <= 1200
    ensures difficulty >= 4 <==> ms == 260
    ensures difficulty < 2 <==> ms == 1200
  {
    if difficulty >= 4 then 260 else if difficulty == 3 then 420 else if difficulty == 2 then 650 else 1200
  }

  /** A harder setting never ticks more slowly. */
  lemma IntervalAntitone(d1: int, d2: int)
    requires d1 <= d2
    ensures Interval(d2) <= Interval(d1)
  {
  }

  /** `settings.difficulty || 2` decides the tick; without a setting the AI ticks every 650 ms. */
  function AiInterval(setting: Option<int>): (ms: int)
    ensures ms == Interval(GA.Difficulty(setting))
    ensures setting.None? ==> ms == 650
  {
    Interval(GA.Difficulty(setting))
  }

  // ------------------------------------------------------------------ settings read by the game

  /** The `difficulty` setting when it is a whole number. */
  function DifficultySetting(settings: SM.Settings): (d: Option<int>)
    ensures d.Some? ==> "difficulty" in settings && settings["difficulty"] == SM.Num(d.value as real)
    ensures "difficulty" !in settings ==> d.None?
  {
    if "difficulty" in settings && settings["difficulty"].Num? && settings["difficulty"].n.Floor as real == settings["difficulty"].n
    then Some(settings["difficulty"].n.Floor)
    else None
  }

  /** `Number.isFinite(settings.roundsPerLevel) ? settings.roundsPerLevel : 10`, for whole numbers. */
  function RoundsSetting(settings: SM.Settings): (n: int)
    ensures "roundsPerLevel" !in settings ==> n == 10
    ensures "roundsPerLevel" in settings && settings["roundsPerLevel"] == SM.Num(n as real) ==> n as real == SM.FiniteOr(settings, "roundsPerLevel", 10.0)
  {
    if "roundsPerLevel" in settings && settings["roundsPerLevel"].Num? && settings["roundsPerLevel"].n.Floor as real == settings["roundsPerLevel"].n
    then settings["roundsPerLevel"].n.Floor
    else 10
  }

  // ------------------------------------------------------------------ round starts

  /**
   * The level's starting conditions: temperature and pressure from the level, K at that
   * temperature, and a fresh copy of the balanced start concentrations as both base and
   * current concentrations; nothing else in the record changes.
   */
  function Rebalanced(f: Fns, s: State, level: Level): (r: State)
    ensures r.temperature == LevelTemperature(level) && r.pressure == LevelPressure(level)
    ensures r.equilibriumConstant == CalculateK(f, level, r.temperature)
    ensures r.concentrations == r.baseConcentrations == Adjusted(f, level, Some(r.temperature))
    ensures r == s.(temperature := r.temperature, pressure := r.pressure, equilibriumConstant := r.equilibriumConstant,
                    baseConcentrations := r.baseConcentrations, concentrations := r.concentrations)
  {
    var t := LevelTemperature(level);
    var base := Adjusted(f, level, Some(t));
    s.(temperature := t, pressure := LevelPressure(level), equilibriumConstant := CalculateK(f, level, t),
       baseConcentrations := base, concentrations := base)
  }

  /**
   * Every round starts at equilibrium: once the level's start is installed and K and Q are
   * recomputed, Q equals K, so the shift is 0 and an untouched round scores 5 for both sides.
   */
  lemma RoundStartsBalanced(f: Fns, s: State, level: Level)
    requires Pow10Laws(f) && InverseLaws(f) && LnLaws(f) && TanhLaws(f)
    requires Balanceable(level)
    requires forall sp :: sp in level.reactants ==> sp !in level.products
    requires forall sp :: sp in level.coefficients ==> level.coefficients[sp] > 0
    requires s.levelData == Some(level)
    ensures var r := UpdateState(f, Rebalanced(f, s, level));
      && r.reactionQuotient == r.equilibriumConstant
      && Shift(f, r.equilibriumConstant, r.reactionQuotient) == 0.0
      && RoundScore(Shift(f, r.equilibriumConstant, r.reactionQuotient), r.playerGoal) == 5.0
      && RoundScore(Shift(f, r.equilibriumConstant, r.reactionQuotient), r.aiGoal) == 5.0
  {
    var b := Rebalanced(f, s, level);
    var t := b.temperature;
    AdjustedAtEquilibrium(f, level, Some(t));
    assert StartTemperature(level, Some(t)) == t;
    var r := UpdateState(f, b);
    assert r.reactionQuotient == Quotient(level, b.concentrations);
    assert r.reactionQuotient == r.equilibriumConstant;
    ShiftSign(f, r.equilibriumConstant, r.reactionQuotient);
  }

  /** The record `startLevel` leaves before its first turn: round 1, running, fresh totals, drawn goals. */
  function Opening(f: Fns, level: Level, id: int, rounds: int, goalDraw: real): (r: State)
    ensures r.currentLevel == Some(id) && r.levelData == Some(level)
    ensures r.round == 1 && r.isRunning && !r.isPaused
    ensures r.maxRounds == level.maxRounds.GetOr(rounds)
    ensures r.playerTotalScore == 0.0 && r.aiTotalScore == 0.0
    ensures r.aiGoal == r.playerGoal.Opposite()
    ensures Current(f, r)
  {
    var goals := AssignedGoals(goalDraw);
    var s := Initial.(currentLevel := Some(id), levelData := Some(level), maxRounds := level.maxRounds.GetOr(rounds));
    var r := Rebalanced(f, s, level).(playerGoal := goals.0, aiGoal := goals.1, isRunning := true, round := 1);
    UpdateState(f, r)
  }

  /** The record `nextRound` leaves when the match goes on: the next round from the level's start. */
  function NewRound(f: Fns, s: State): (r: State)
    requires s.levelData.Some?
    ensures r.round == s.round + 1
    ensures r == UpdateState(f, Rebalanced(f, s.(round := s.round + 1), s.levelData.value))
    ensures r.playerTotalScore == s.playerTotalScore && r.aiTotalScore == s.aiTotalScore
    ensures r.playerGoal == s.playerGoal && r.aiGoal == s.aiGoal
    ensures r.levelData == s.levelData && r.maxRounds == s.maxRounds && r.isRunning == s.isRunning && r.isPaused == s.isPaused
    ensures Current(f, r)
  {
    UpdateState(f, Rebalanced(f, s.(round := s.round + 1), s.levelData.value))
  }

  /** `settleRound`: both totals grow by the round score of the shift the record's K and Q give. */
  function Settled(f: Fns, s: State): (r: State)
    ensures s.playerTotalScore <= r.playerTotalScore <= s.playerTotalScore + 30.0
    ensures s.aiTotalScore <= r.aiTotalScore <= s.aiTotalScore + 30.0
    ensures r == s.(playerTotalScore := r.playerTotalScore, aiTotalScore := r.aiTotalScore)
    ensures r.playerTotalScore - s.playerTotalScore == AI.RoundScore(Shift(f, s.equilibriumConstant, s.reactionQuotient), Some(s.playerGoal))
    ensures r.aiTotalScore - s.aiTotalScore == AI.RoundScore(Shift(f, s.equilibriumConstant, s.reactionQuotient), Some(s.aiGoal))
  {
    var shift := Shift(f, s.equilibriumConstant, s.reactionQuotient);
    s.(playerTotalScore := s.playerTotalScore + RoundScore(shift, s.playerGoal),
       aiTotalScore := s.aiTotalScore + RoundScore(shift, s.aiGoal))
  }

  /**
   * With opposite goals, a round that ends off equilibrium rewards the side the shift
   * favours strictly more than the other; at equilibrium both gain 5.
   */
  lemma SettleRewardsDirection(f: Fns, s: State)
    requires s.aiGoal == s.playerGoal.Opposite()
    ensures var shift := Shift(f, s.equilibriumConstant, s.reactionQuotient);
      var r := Settled(f, s);
      var dp, da := r.playerTotalScore - s.playerTotalScore, r.aiTotalScore - s.aiTotalScore;
      && (shift == 0.0 ==> dp == 5.0 && da == 5.0)
      && (AI.Toward(shift, s.playerGoal) ==> dp >= 10.0 && da <= 5.0)
      && (AI.Toward(shift, s.aiGoal) ==> da >= 10.0 && dp <= 5.0)
  {
    var shift := Shift(f, s.equilibriumConstant, s.reactionQuotient);
    OppositeGoalsScore(shift, s.playerGoal);
  }

  // ------------------------------------------------------------------ the end of a match

  /** What `endGame` shows: the verdict, the winner's achievement, the rounds, the stars and the totals. */
  datatype GameResult = GameResult(victory: bool, achievement: real, rounds: int, stars: int,
                                   playerScore: real, aiScore: real)

  /** `playerWins ?? (playerTotal >= aiTotal)`: without a verdict a tie goes to the player. */
  function Verdict(s: State, playerWins: Option<bool>): (wins: bool)
    ensures playerWins.Some? ==> wins == playerWins.value
    ensures playerWins.None? ==> (wins <==> s.playerTotalScore >= s.aiTotalScore)
  {
    playerWins.GetOr(s.playerTotalScore >= s.aiTotalScore)
  }

  function Outcome(s: State, wins: bool): (r: GameResult)
    ensures r.victory == wins && r.rounds == s.maxRounds
    ensures r.stars == Stars(wins, s.playerTotalScore, s.aiTotalScore)
    ensures r.achievement == Achievement(if wins then s.playerTotalScore else s.aiTotalScore, s.maxRounds)
    ensures r.playerScore == s.playerTotalScore && r.aiScore == s.aiTotalScore
  {
    GameResult(wins, Achievement(if wins then s.playerTotalScore else s.aiTotalScore, s.maxRounds),
               s.maxRounds, Stars(wins, s.playerTotalScore, s.aiTotalScore), s.playerTotalScore, s.aiTotalScore)
  }

  /** A match that ends level on points is a one-star win for the player. */
  lemma TieIsOneStarWin(s: State)
    requires s.playerTotalScore == s.aiTotalScore
    ensures Outcome(s, Verdict(s, None)).victory && Outcome(s, Verdict(s, None)).stars == 1
  {
  }

  /**
   * The explicit unlock of the next level after a win changes nothing: completing a level
   * has already unlocked the id after it.
   */
  lemma NextUnlockRedundant(p: SM.Progress, id: int, stars: int, now: int)
    ensures var done := SM.Completed(p, id, stars, None, now);
      SM.WithUnlocked(done.unlockedLevels, id + 1) == done.unlockedLevels
  {
  }

  /** `Game.startLevel`'s argument: a level id, or (as the terminal's `play` passes it) the level object. */
  datatype LevelArg = ById(id: int) | ByObject(level: Level)

  /** `getLevelById(arg)`: a level object is never `===` to a level's numeric id, so it finds nothing. */
  function LevelLookup(levels: seq<Level>, arg: LevelArg): (r: Option<Level>)
    ensures arg.ByObject? ==> r.None?
    ensures arg.ById? ==> r == GetLevel(levels, arg.id)
    ensures r.Some? ==> arg.ById? && r.value.id == arg.id
  {
    match arg
    case ById(id) => GetLevel(levels, id)
    case ByObject(_) => None
  }

  // ------------------------------------------------------------------ the controller

  /**
   * `Game` with the singletons it drives. `state` is `Game.state`; the timers are flags, with
   * the interval the AI tick was started at and the seconds left in the turn.
   */
  class Game {
    const fns: Fns
    const levels: seq<Level>
    const actions: GA.GameActions
    const cards: CS.CardSystem
    const ai: AI.AISystem
    const storage: SM.StorageManager
    const engine: ChemistryEngine
    var state: State
    var timerRunning: bool
    var aiTimerRunning: bool
    var aiInterval: int
    var turnTimeLeft: real

    /**
     * The singletons share the transcendentals; the deck and the engine are well formed;
     * K and Q always belong to the record; a running match has a level.
     */
    ghost predicate Valid()
      reads this, cards, engine
    {
      && actions.fns == fns && ai.fns == fns && engine.fns == fns
      && cards.Valid() && engine.Valid()
      && Current(fns, state)
      && (state.isRunning ==> state.levelData.Some? && state.currentLevel.Some?)
    }

    /** The objects at page load, with the store's saved records; `init` then resets. */
    constructor(f: Fns, catalogue: seq<Level>, settings: Option<SM.Settings>, progress: Option<SM.Progress>,
                collection: Option<map<int, SM.CollectionEntry>>)
      ensures fns == f && levels == catalogue
      ensures state == Initial && !timerRunning && !aiTimerRunning && turnTimeLeft == 30.0
      ensures storage.storedProgress == Some(progress.GetOr(SM.DefaultProgress))
      ensures Valid()
    {
      fns := f;
      levels := catalogue;
      actions := new GA.GameActions(f);
      cards := new CS.CardSystem();
      ai := new AI.AISystem(f);
      storage := new SM.StorageManager(settings, progress, collection);
      engine := new ChemistryEngine(f);
      state := Initial;
      timerRunning, aiTimerRunning := false, false;
      aiInterval := 0;
      turnTimeLeft := 30.0;
    }

    /** `stopTimer`. */
    method StopTimer()
      modifies this
      ensures !timerRunning
      ensures state == old(state) && aiTimerRunning == old(aiTimerRunning) && aiInterval == old(aiInterval)
      ensures turnTimeLeft == old(turnTimeLeft)
    {
      timerRunning := false;
    }

    /** `startTimer`: a fresh one-second interval; the seconds left are not reset. */
    method StartTimer()
      modifies this
      ensures timerRunning
      ensures state == old(state) && aiTimerRunning == old(aiTimerRunning) && aiInterval == old(aiInterval)
      ensures turnTimeLeft == old(turnTimeLeft)
    {
      StopTimer();
      timerRunning := true;
    }

    /** `stopAIRealtime`. */
    method StopAIRealtime()
      modifies this
      ensures !aiTimerRunning
      ensures state == old(state) && timerRunning == old(timerRunning) && aiInterval == old(aiInterval)
      ensures turnTimeLeft == old(turnTimeLeft)
    {
      aiTimerRunning := false;
    }

    /** `startAIRealtime`: a fresh AI interval at the tick length of the difficulty setting. */
    method StartAIRealtime()
      modifies this
      ensures aiTimerRunning && aiInterval == AiInterval(DifficultySetting(storage.GetSettings()))
      ensures state == old(state) && timerRunning == old(timerRunning) && turnTimeLeft == old(turnTimeLeft)
    {
      StopAIRealtime();
      aiInterval := AiInterval(DifficultySetting(storage.GetSettings()));
      aiTimerRunning := true;
    }

    /** `reset`: the initial record, and both timers stopped. */
    method Reset()
      requires Valid()
      modifies this
      ensures state == Initial && !timerRunning && !aiTimerRunning
      ensures turnTimeLeft == old(turnTimeLeft)
      ensures Valid()
    {
      state := Initial;
      StopTimer();
      StopAIRealtime();
    }

    /** `startTurn`: only while running, a turn of `settings.turnTime || 30` seconds and both timers. */
    method StartTurn()
      modifies this
      ensures state == old(state)
      ensures !old(state.isRunning) ==> timerRunning == old(timerRunning) && aiTimerRunning == old(aiTimerRunning)
      ensures !old(state.isRunning) ==> turnTimeLeft == old(turnTimeLeft) && aiInterval == old(aiInterval)
      ensures old(state.isRunning) ==> timerRunning && aiTimerRunning
      ensures old(state.isRunning) ==> turnTimeLeft == SM.NumberOr(storage.GetSettings(), "turnTime", 30.0)
      ensures old(state.isRunning) ==> aiInterval == AiInterval(DifficultySetting(storage.GetSettings()))
    {
      if !state.isRunning {
        return;
      }
      turnTimeLeft := SM.NumberOr(storage.GetSettings(), "turnTime", 30.0);
      StartTimer();
      StartAIRealtime();
    }

    /** The part of `startLevel` after the lookup: the opening record, the AI and the deck. */
    method Open(level: Level, id: int, goalDraw: real)
      requires Valid()
      modifies this, ai, cards
      ensures state == Opening(fns, level, id, RoundsSetting(storage.GetSettings()), goalDraw)
      ensures ai.goal == state.aiGoal && ai.currentLevel == Some(level) && ai.currentDifficulty == 2
      ensures cards.playerCards == CS.FreshCards() && cards.aiCards == CS.FreshCards()
      ensures cards.playerEffects == [] && cards.aiEffects == []
      ensures timerRunning == old(timerRunning) && aiTimerRunning == old(aiTimerRunning)
      ensures turnTimeLeft == old(turnTimeLeft) && aiInterval == old(aiInterval)
      ensures Valid()
    {
      state := Opening(fns, level, id, RoundsSetting(storage.GetSettings()), goalDraw);
      ai.SetGoal(state.aiGoal);
      ai.Init(level, 2);
      ai.SetGoal(state.aiGoal);
      cards.Init();
    }

    /**
     * `startLevel(arg)`: reset, look the level up by id, and on success install the
     * opening record, re-initialise the AI (at difficulty 2) and the deck, and start the
     * first turn. An unknown id, or a level object, leaves the reset game and fails.
     */
    method StartLevel(arg: LevelArg, goalDraw: real) returns (ok: bool)
      requires Valid()
      modifies this, ai, cards
      ensures ok == LevelLookup(levels, arg).Some?
      ensures !ok ==> state == Initial && !timerRunning && !aiTimerRunning
      ensures ok ==> state == Opening(fns, LevelLookup(levels, arg).value, arg.id, RoundsSetting(storage.GetSettings()), goalDraw)
      ensures ok ==> timerRunning && aiTimerRunning
      ensures ok ==> turnTimeLeft == SM.NumberOr(storage.GetSettings(), "turnTime", 30.0)
      ensures ok ==> ai.goal == state.aiGoal && cards.playerCards == CS.FreshCards() && cards.aiCards == CS.FreshCards()
      ensures Valid()
    {
      Reset();
      var found := LevelLookup(levels, arg);
      if found.None? {
        return false;
      }
      Open(found.value, arg.id, goalDraw);
      StartTurn();
      ok := true;
    }

    /** `settleRound`: add both round scores; the next round is the caller's NextRound. */
    method SettleRound()
      requires Valid()
      modifies this
      ensures state == Settled(fns, old(state))
      ensures timerRunning == old(timerRunning) && aiTimerRunning == old(aiTimerRunning)
      ensures turnTimeLeft == old(turnTimeLeft) && aiInterval == old(aiInterval)
      ensures Valid()
    {
      var shift := Shift(fns, state.equilibriumConstant, state.reactionQuotient);
      var playerScore := RoundScore(shift, state.playerGoal);
      var aiScore := RoundScore(shift, state.aiGoal);
      state := state.(playerTotalScore := state.playerTotalScore + playerScore,
                      aiTotalScore := state.aiTotalScore + aiScore);
    }

    /** `endRound`: a no-op unless running; otherwise stop both timers and settle. */
    method EndRound()
      requires Valid()
      modifies this
      ensures !old(state.isRunning) ==> state == old(state) && timerRunning == old(timerRunning) && aiTimerRunning == old(aiTimerRunning)
      ensures old(state.isRunning) ==> state == Settled(fns, old(state)) && !timerRunning && !aiTimerRunning
      ensures turnTimeLeft == old(turnTimeLeft)
      ensures Valid()
    {
      if !state.isRunning {
        return;
      }
      StopTimer();
      StopAIRealtime();
      SettleRound();
    }

    /** One second of the turn timer: count down, and end the round when the time is up. */
    method TimerTick()
      requires Valid() && timerRunning
      modifies this
      ensures turnTimeLeft == old(turnTimeLeft) - 1.0
      ensures turnTimeLeft > 0.0 ==> state == old(state) && timerRunning && aiTimerRunning == old(aiTimerRunning)
      ensures turnTimeLeft <= 0.0 && old(state.isRunning) ==> state == Settled(fns, old(state)) && !timerRunning && !aiTimerRunning
      ensures turnTimeLeft <= 0.0 && !old(state.isRunning) ==> state == old(state)
      ensures Valid()
    {
      turnTimeLeft := turnTimeLeft - 1.0;
      if turnTimeLeft <= 0.0 {
        EndRound();
      }
    }

    /** Run the chosen action through the action economy as the AI; a nameless species fires nothing. */
    method Dispatch(a: AI.Action, now: int, setting: Option<int>) returns (success: bool)
      requires Valid()
      modifies this, actions
      ensures success == (!(a.AddSpecies? && a.species == "") && !old(actions.IsOnCooldown(AI.CooldownId(a), true, now)))
      ensures success ==> state == UpdateState(fns, AI.Acted(old(state), a))
      ensures !success ==> state == old(state) && actions.ai == old(actions.ai)
      ensures actions.player == old(actions.player)
      ensures timerRunning == old(timerRunning) && aiTimerRunning == old(aiTimerRunning)
      ensures turnTimeLeft == old(turnTimeLeft) && aiInterval == old(aiInterval)
      ensures Valid()
    {
      var r := state;
      match a {
        case AddSpecies(sp) =>
          if sp == "" {
            return false;
          }
          success, r := actions.AddSpecies(state, sp, true, now, setting);
        case Heat =>
          success, r := actions.Heat(state, true, now, setting);
        case Cool =>
          success, r := actions.Cool(state, true, now, setting);
        case Pressurize =>
          success, r := actions.Pressurize(state, true, now, setting);
        case Depressurize =>
          success, r := actions.Depressurize(state, true, now, setting);
      }
      state := r;
    }

    /**
     * `executeAIAction` at time now with the AI's three draws: sync the AI's goal, let it
     * choose from the record and its own cooldowns at `settings.difficulty || 2`, and
     * dispatch the choice. The chosen action and whether it took effect are returned.
     */
    method ExecuteAIAction(now: int, actDraw: real, randDraw: real, pickDraw: real) returns (action: Option<AI.Action>, success: bool)
      requires Valid() && 0.0 <= pickDraw < 1.0
      modifies this, actions, ai
      ensures action == AI.Selection(fns, old(state), old(state.levelData), GA.Difficulty(DifficultySetting(storage.GetSettings())),
                                     old(actions.ai), now, actDraw, randDraw, pickDraw)
      ensures success <==> action.Some? && !(action.value.AddSpecies? && action.value.species == "")
                           && !old(actions.IsOnCooldown(AI.CooldownId(action.value), true, now))
      ensures success ==> state == UpdateState(fns, AI.Acted(old(state), action.value))
      ensures !success ==> state == old(state)
      ensures actions.player == old(actions.player) && ai.goal == old(state.aiGoal)
      ensures timerRunning == old(timerRunning) && aiTimerRunning == old(aiTimerRunning) && turnTimeLeft == old(turnTimeLeft)
      ensures Valid()
    {
      var setting := DifficultySetting(storage.GetSettings());
      ai.SetGoal(state.aiGoal);
      action := ai.SelectBestAction(state, state.levelData, GA.Difficulty(setting), actions.ai, now, actDraw, randDraw, pickDraw);
      success := false;
      if action.Some? {
        success := Dispatch(action.value, now, setting);
      }
    }

    /** One tick of the AI interval: nothing while stopped or paused, else one AI action. */
    method AiTick(now: int, actDraw: real, randDraw: real, pickDraw: real) returns (acted: bool)
      requires Valid() && aiTimerRunning && 0.0 <= pickDraw < 1.0
      modifies this, actions, ai
      ensures !old(state.isRunning) || old(state.isPaused) ==> !acted && state == old(state) && actions.ai == old(actions.ai)
      ensures acted ==> old(state.isRunning) && !old(state.isPaused)
      ensures old(state.isRunning) && !old(state.isPaused) ==>
        var action := AI.Selection(fns, old(state), old(state.levelData), GA.Difficulty(DifficultySetting(storage.GetSettings())),
                                   old(actions.ai), now, actDraw, randDraw, pickDraw);
        (acted <==> action.Some? && !(action.value.AddSpecies? && action.value.species == "")
                    && !old(actions.IsOnCooldown(AI.CooldownId(action.value), true, now)))
        && (acted ==> state == UpdateState(fns, AI.Acted(old(state), action.value)))
        && (!acted ==> state == old(state))
      ensures actions.player == old(actions.player)
      ensures Valid()
    {
      if !state.isRunning || state.isPaused {
        return false;
      }
      var action;
      action, acted := ExecuteAIAction(now, actDraw, randDraw, pickDraw);
    }

    /**
     * `endGame(playerWins)`: stop the match and both timers, decide the verdict, and for a
     * player win record the level as completed with its stars, add its equation to the
     * collection and unlock the next level if the catalogue has one.
     */
    method EndGame(playerWins: Option<bool>, now: int) returns (result: GameResult)
      requires Valid()
      modifies this, storage
      ensures result == Outcome(old(state), Verdict(old(state), playerWins))
      ensures state == old(state).(isRunning := false) && !timerRunning && !aiTimerRunning
      ensures result.victory && old(state.currentLevel).Some? ==>
        storage.storedProgress == Some(SM.Completed(old(storage.GetProgress()), old(state.currentLevel).value, result.stars, None, now))
        && storage.IsInCollection(old(state.currentLevel).value)
      ensures !(result.victory && old(state.currentLevel).Some?) ==>
        storage.storedProgress == old(storage.storedProgress) && storage.storedCollection == old(storage.storedCollection)
      ensures storage.storedSettings == old(storage.storedSettings)
      ensures Valid()
    {
      state := state.(isRunning := false);
      StopTimer();
      StopAIRealtime();
      var wins := Verdict(state, playerWins);
      var stars := Stars(wins, state.playerTotalScore, state.aiTotalScore);
      if wins && state.currentLevel.Some? {
        RecordWin(state.currentLevel.value, stars, now);
      }
      result := Outcome(state, wins);
    }

    /** The progress writes of a win. */
    method RecordWin(id: int, stars: int, now: int)
      modifies storage
      ensures storage.storedProgress == Some(SM.Completed(old(storage.GetProgress()), id, stars, None, now))
      ensures storage.IsInCollection(id)
      ensures storage.storedSettings == old(storage.storedSettings)
    {
      storage.CompleteLevel(id, stars, None, now);
      ghost var done := storage.storedProgress.value;
      storage.UnlockEquation(id, now);
      if GetLevel(levels, id + 1).Some? {
        NextUnlockRedundant(old(storage.GetProgress()), id, stars, now);
        storage.UnlockLevel(id + 1);
      }
    }

    /** The part of `nextRound` that starts the next round: the level's start, fresh player cooldowns, a card countdown, a turn. */
    method Advance()
      requires Valid() && state.levelData.Some?
      modifies this, actions, cards
      ensures state == NewRound(fns, old(state))
      ensures actions.player == map[] && actions.ai == old(actions.ai)
      ensures cards.playerCards == CS.TickAll(old(cards.playerCards)) && cards.aiCards == CS.TickAll(old(cards.aiCards))
      ensures cards.playerEffects == CS.Decay(old(cards.playerEffects)) && cards.aiEffects == CS.Decay(old(cards.aiEffects))
      ensures old(state.isRunning) ==> timerRunning && aiTimerRunning && turnTimeLeft == SM.NumberOr(storage.GetSettings(), "turnTime", 30.0)
      ensures Valid()
    {
      state := NewRound(fns, state);
      actions.ResetCooldowns(false);
      cards.ReduceCooldowns();
      StartTurn();
    }

    /**
     * `nextRound`: count the round; past the last one the match ends and nothing else
     * happens; otherwise the next round starts from the level's balanced start. Without a
     * level the source stops with a TypeError after the count, which is where this stops.
     */
    method NextRound(now: int) returns (result: Option<GameResult>)
      requires Valid()
      modifies this, actions, cards, storage
      ensures state.round == old(state.round) + 1
      ensures result.Some? <==> old(state.round) + 1 > old(state.maxRounds)
      ensures result.Some? ==>
        && result.value == Outcome(old(state), Verdict(old(state), None))
        && state == old(state).(round := old(state.round) + 1, isRunning := false) && !timerRunning && !aiTimerRunning
        && actions.player == old(actions.player) && actions.ai == old(actions.ai)
        && cards.playerCards == old(cards.playerCards) && cards.aiCards == old(cards.aiCards)
        && cards.playerEffects == old(cards.playerEffects) && cards.aiEffects == old(cards.aiEffects)
      ensures result.Some? && result.value.victory && old(state.currentLevel).Some? ==>
        storage.storedProgress == Some(SM.Completed(old(storage.GetProgress()), old(state.currentLevel).value, result.value.stars, None, now))
        && storage.IsInCollection(old(state.currentLevel).value)
      ensures !(result.Some? && result.value.victory && old(state.currentLevel).Some?) ==>
        storage.storedProgress == old(storage.storedProgress) && storage.storedCollection == old(storage.storedCollection)
      ensures storage.storedSettings == old(storage.storedSettings)
      ensures result.None? && old(state.levelData).Some? ==> state == NewRound(fns, old(state)) && actions.player == map[]
      ensures result.None? && old(state.levelData).Some? ==>
        && actions.ai == old(actions.ai)
        && cards.playerCards == CS.TickAll(old(cards.playerCards)) && cards.aiCards == CS.TickAll(old(cards.aiCards))
        && cards.playerEffects == CS.Decay(old(cards.playerEffects)) && cards.aiEffects == CS.Decay(old(cards.aiEffects))
      ensures result.None? && old(state.levelData).Some? && old(state.isRunning) ==>
        timerRunning && aiTimerRunning && turnTimeLeft == SM.NumberOr(old(storage.GetSettings()), "turnTime", 30.0)
      ensures result.None? && old(state.levelData).None? ==> state == old(state).(round := old(state.round) + 1)
      ensures Valid()
    {
      if state.round + 1 <= state.maxRounds && state.levelData.Some? {
        Advance();
        return None;
      }
      state := state.(round := state.round + 1);
      if state.round > state.maxRounds {
        var r := EndGame(None, now);
        return Some(r);
      }
      result := None;
    }

    /** `togglePause`: a no-op unless running; pausing stops both timers, resuming restarts both with the turn time left. */
    method TogglePause()
      requires Valid()
      modifies this
      ensures !old(state.isRunning) ==> state == old(state) && timerRunning == old(timerRunning) && aiTimerRunning == old(aiTimerRunning)
      ensures old(state.isRunning) ==> state == old(state).(isPaused := !old(state.isPaused))
      ensures old(state.isRunning) && state.isPaused ==> !timerRunning && !aiTimerRunning
      ensures old(state.isRunning) && !state.isPaused ==> timerRunning && aiTimerRunning && aiInterval == AiInterval(DifficultySetting(storage.GetSettings()))
      ensures turnTimeLeft == old(turnTimeLeft)
      ensures Valid()
    {
      if !state.isRunning {
        return;
      }
      state := state.(isPaused := !state.isPaused);
      if state.isPaused {
        StopTimer();
        StopAIRealtime();
      } else {
        StartTimer();
        StartAIRealtime();
      }
    }

    /**
     * `useAbility(cardId)` with the quantum card's draws: only while running and not paused,
     * the player's card is used on the chemistry engine. The source then always runs
     * updateState (the result object is truthy even on failure), which leaves `Game.state`
     * as it was: card effects act on the engine's separate state.
     */
    method UseAbility(cardId: string, tempDraw: real, speciesDraw: real, concDraw: real, pressDraw: real) returns (used: bool)
      requires Valid()
      modifies this, cards, engine
      ensures used <==> old(state.isRunning) && !old(state.isPaused) && old(cards.IsCardAvailable(cardId, CS.Player))
      ensures !used ==> unchanged(cards) && unchanged(engine)
      ensures used ==> cards.playerCards == old(cards.playerCards)[cardId := CS.CardState(false, CS.CardOf(cardId).value.cooldown)]
      ensures cards.aiCards == old(cards.aiCards)
      ensures state == old(state)
      ensures Valid()
    {
      if !state.isRunning || state.isPaused {
        return false;
      }
      used := cards.UseCard(cardId, CS.Player, engine, state.playerGoal, ai.goal, tempDraw, speciesDraw, concDraw, pressDraw);
      state := UpdateState(fns, state);
    }
  }
}
