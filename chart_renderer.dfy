/**
 * The concentration chart's data: a sliding window of at most 50 samples, one series per
 * species, and a 0/1 equilibrium line, plus the y-axis top the renderer scales to.
 * Drawing is not modelled.
 */
module ChartRenderer {
  import opened Reaction

  const MaxDataPoints: nat := 50

  /** `Array.prototype.shift` for its effect on the array: drop the first element, if any. */
  function DropFirst<T>(s: seq<T>): (r: seq<T>)
    ensures s == [] ==> r == []
    ensures s != [] ==> s == [s[0]] + r
  {
    if s == [] then [] else s[1..]
  }

  /** Every series after the push: each species of the sample gains its value, a new species starts its series with it. */
  function Pushed(series: map<Species, seq<real>>, sample: map<Species, real>): (r: map<Species, seq<real>>)
    ensures r.Keys == series.Keys + sample.Keys
    ensures forall s :: s in sample ==> r[s] == (if s in series then series[s] else []) + [sample[s]]
    ensures forall s :: s in series && s !in sample ==> r[s] == series[s]
  {
    map s | s in series.Keys + sample.Keys ::
      (if s in series then series[s] else []) + (if s in sample then [sample[s]] else [])
  }

  /** Every series shifted once. */
  function Dropped(series: map<Species, seq<real>>): (r: map<Species, seq<real>>)
    ensures r.Keys == series.Keys
    ensures forall s :: s in series ==> r[s] == DropFirst(series[s])
  {
    map s | s in series :: DropFirst(series[s])
  }

  /** No series is longer than n. */
  predicate SeriesFit(series: map<Species, seq<real>>, n: nat)
  {
    forall s :: s in series ==> |series[s]| <= n
  }

  /** A push lengthens each series by at most one. */
  lemma PushedFits(series: map<Species, seq<real>>, sample: map<Species, real>, n: nat)
    requires SeriesFit(series, n)
    ensures SeriesFit(Pushed(series, sample), n + 1)
  {
  }

  /** A shift shortens each nonempty series by one. */
  lemma DroppedFits(series: map<Species, seq<real>>, n: nat)
    requires SeriesFit(series, n + 1)
    ensures SeriesFit(Dropped(series), n)
  {
  }

  /** The smallest integer not below x. */
  function Ceil(x: real): (c: int)
    ensures x <= c as real < x + 1.0
  {
    -((-x).Floor)
  }

  /** m is the largest of 1 and every stored value. */
  ghost predicate IsPeak(series: map<Species, seq<real>>, m: real)
  {
    && 1.0 <= m
    && (forall s, i :: s in series && 0 <= i < |series[s]| ==> series[s][i] <= m)
    && (m == 1.0 || exists s, i :: s in series && 0 <= i < |series[s]| && series[s][i] == m)
  }

  /** There is one peak: the bounds of any two candidates meet. */
  lemma PeakUnique(series: map<Species, seq<real>>, m1: real, m2: real)
    requires IsPeak(series, m1) && IsPeak(series, m2)
    ensures m1 == m2
  {
    if m1 != 1.0 {
      var s, i :| s in series && 0 <= i < |series[s]| && series[s][i] == m1;
      assert m1 <= m2;
    }
    if m2 != 1.0 {
      var s, i :| s in series && 0 <= i < |series[s]| && series[s][i] == m2;
      assert m2 <= m1;
    }
  }

  class ChartRenderer {
    var timestamps: seq<int>
    var concentrations: map<Species, seq<real>>
    var equilibriumLine: seq<int>

    /** The window is at most 50 long, the equilibrium line keeps pace, and no series outgrows it. */
    predicate Valid()
      reads this
    {
      && |equilibriumLine| == |timestamps| <= MaxDataPoints
      && SeriesFit(concentrations, |timestamps|)
    }

    /** The object literal's empty data. */
    constructor()
      ensures timestamps == [] && concentrations == map[] && equilibriumLine == []
      ensures Valid()
    {
      timestamps, concentrations, equilibriumLine := [], map[], [];
    }

    /** `reset(species)`: an empty series for exactly the given species, and empty timestamps and line. */
    method Reset(species: seq<Species>)
      modifies this
      ensures timestamps == [] && equilibriumLine == []
      ensures concentrations.Keys == (set s | s in species)
      ensures forall s :: s in concentrations ==> concentrations[s] == []
      ensures Valid()
    {
      timestamps, equilibriumLine := [], [];
      concentrations := map[];
      var i := 0;
      while i < |species|
        invariant 0 <= i <= |species|
        invariant concentrations.Keys == (set j | 0 <= j < i :: species[j])
        invariant forall s :: s in concentrations ==> concentrations[s] == []
        invariant timestamps == [] && equilibriumLine == []
      {
        concentrations := concentrations[species[i] := []];
        i := i + 1;
      }
      assert (set j | 0 <= j < |species| :: species[j]) == (set s | s in species) by {
        forall s | s in species ensures s in (set j | 0 <= j < |species| :: species[j]) {
          var j :| 0 <= j < |species| && species[j] == s;
        }
      }
    }

    /** Push the sample onto every series, one species at a time. */
    method PushSample(sample: map<Species, real>)
      modifies this
      ensures concentrations == Pushed(old(concentrations), sample)
      ensures timestamps == old(timestamps) && equilibriumLine == old(equilibriumLine)
    {
      ghost var start := concentrations;
      var todo := sample.Keys;
      while todo != {}
        invariant todo <= sample.Keys
        invariant concentrations.Keys == start.Keys + (sample.Keys - todo)
        invariant forall s :: s in sample && s !in todo ==> concentrations[s] == (if s in start then start[s] else []) + [sample[s]]
        invariant forall s :: s in start && (s !in sample || s in todo) ==> concentrations[s] == start[s]
        invariant timestamps == old(timestamps) && equilibriumLine == old(equilibriumLine)
        decreases todo
      {
        var s :| s in todo;
        var series := if s in concentrations then concentrations[s] else [];
        concentrations := concentrations[s := series + [sample[s]]];
        todo := todo - {s};
      }
    }

    /** Shift every series once. */
    method ShiftAll()
      modifies this
      ensures concentrations == Dropped(old(concentrations))
      ensures timestamps == old(timestamps) && equilibriumLine == old(equilibriumLine)
    {
      ghost var start := concentrations;
      var todo := concentrations.Keys;
      while todo != {}
        invariant todo <= start.Keys && concentrations.Keys == start.Keys
        invariant forall s :: s in start && s !in todo ==> concentrations[s] == DropFirst(start[s])
        invariant forall s :: s in todo ==> concentrations[s] == start[s]
        invariant timestamps == old(timestamps) && equilibriumLine == old(equilibriumLine)
        decreases todo
      {
        var s :| s in todo;
        concentrations := concentrations[s := DropFirst(concentrations[s])];
        todo := todo - {s};
      }
    }

    /**
     * `addDataPoint(sample, equilibriumReached)`: the next timestamp is the window's length,
     * each sampled species gains its value, the line gains 1 or 0, and a window grown past
     * 50 drops its oldest entry from the timestamps, every series and the line.
     */
    method AddDataPoint(sample: map<Species, real>, equilibriumReached: bool)
      requires Valid()
      modifies this
      ensures var overflow := |old(timestamps)| + 1 > MaxDataPoints;
        && timestamps == (if overflow then DropFirst(old(timestamps) + [|old(timestamps)|]) else old(timestamps) + [|old(timestamps)|])
        && equilibriumLine == (var line := old(equilibriumLine) + [if equilibriumReached then 1 else 0];
                               if overflow then DropFirst(line) else line)
        && concentrations == (if overflow then Dropped(Pushed(old(concentrations), sample)) else Pushed(old(concentrations), sample))
      ensures timestamps[|timestamps| - 1] == |old(timestamps)| && |old(timestamps)| <= MaxDataPoints
      ensures equilibriumLine[|equilibriumLine| - 1] == (if equilibriumReached then 1 else 0)
      ensures Valid()
    {
      var timestamp := |timestamps|;
      PushedFits(concentrations, sample, timestamp);
      timestamps := timestamps + [timestamp];
      PushSample(sample);
      equilibriumLine := equilibriumLine + [if equilibriumReached then 1 else 0];
      if |timestamps| > MaxDataPoints {
        DroppedFits(concentrations, timestamp);
        timestamps := DropFirst(timestamps);
        ShiftAll();
        equilibriumLine := DropFirst(equilibriumLine);
      }
    }

    /**
     * `getMaxConcentration`: the largest of 1 and every stored value, times 1.2, rounded up
     * to a tenth; so never below 1.2 and never below 1.2 times a stored value.
     */
    method GetMaxConcentration() returns (top: real)
      ensures 1.2 <= top
      ensures forall s, i :: s in concentrations && 0 <= i < |concentrations[s]| ==> 1.2 * concentrations[s][i] <= top
      ensures exists m :: IsPeak(concentrations, m) && top == Ceil(m * 1.2 * 10.0) as real / 10.0
    {
      var max := 1.0;
      var todo := concentrations.Keys;
      while todo != {}
        invariant todo <= concentrations.Keys
        invariant 1.0 <= max
        invariant forall s, i :: s in concentrations && s !in todo && 0 <= i < |concentrations[s]| ==> concentrations[s][i] <= max
        invariant max == 1.0 || exists s, i :: s in concentrations && 0 <= i < |concentrations[s]| && concentrations[s][i] == max
        decreases todo
      {
        var s :| s in todo;
        var values := concentrations[s];
        var j := 0;
        while j < |values|
          invariant 0 <= j <= |values|
          invariant 1.0 <= max
          invariant forall t, i :: t in concentrations && t !in todo && 0 <= i < |concentrations[t]| ==> concentrations[t][i] <= max
          invariant forall i :: 0 <= i < j ==> values[i] <= max
          invariant max == 1.0 || exists t, i :: t in concentrations && 0 <= i < |concentrations[t]| && concentrations[t][i] == max
        {
          if values[j] > max {
            max := values[j];
          }
          j := j + 1;
        }
        todo := todo - {s};
      }
      top := Ceil(max * 1.2 * 10.0) as real / 10.0;
      assert IsPeak(concentrations, max);
    }
  }
}
