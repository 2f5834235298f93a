/**
 * The foreground particle system: the capped particle list, particle creation from
 * defaults and options, the per-frame update that moves, ages and removes particles, the
 * balance visualisation, and the skin palettes; plus the background system's colour
 * parser. Drawing is not modelled. `Math.random` values are passed in as draws in [0, 1),
 * and the trigonometric functions come from the `Fns` record.
 */
module ParticleSystem {
  import opened Wrappers
  import opened Strings
  import opened MathFns
  import opened Utils

  /** The three colour lists of a skin. */
  datatype Palette = Palette(reactant: seq<string>, product: seq<string>, neutral: seq<string>)

  predicate Filled(p: Palette)
  {
    p.reactant != [] && p.product != [] && p.neutral != []
  }

  /** `skinColors`. */
  const SkinColors: map<string, Palette> := map[
    "colorful" := Palette(["#00d4ff", "#7b2dff", "#00ff88"], ["#ff00aa", "#ff4466", "#ffaa00"], ["#ffffff", "#aaaaaa"]),
    "green" := Palette(["#00ff66", "#22ff88", "#44ffaa"], ["#00ff66", "#22ff88", "#44ffaa"], ["#88ffcc", "#66ffaa"]),
    "bronze" := Palette(["#cd7f32", "#d4a574", "#b87333"], ["#cd7f32", "#d4a574", "#b87333"], ["#e6a857", "#cc9966"]),
    "silver" := Palette(["#c0c0c0", "#d3d3d3", "#e8e8e8"], ["#c0c0c0", "#d3d3d3", "#e8e8e8"], ["#f0f0f0", "#cccccc"]),
    "gold" := Palette(["#ffd700", "#ffdf00", "#ffea00"], ["#ffd700", "#ffdf00", "#ffea00"], ["#fff8dc", "#ffe55c"])]

  lemma SkinsFilled()
    ensures forall k :: k in SkinColors ==> Filled(SkinColors[k])
  {
  }

  /** A particle; the fields after `glow` exist only on the kinds that set them. */
  datatype Particle = Particle(
    x: real, y: real, vx: real, vy: real, size: real, color: string,
    alpha: real, life: real, maxLife: real, kind: string, glow: bool,
    angle: Option<real>, angularSpeed: Option<real>, radius: Option<real>,
    wobble: Option<real>, gravity: Option<real>)

  /** The options object of `createParticle`: every field may be given. */
  datatype Options = Options(
    x: Option<real>, y: Option<real>, vx: Option<real>, vy: Option<real>, size: Option<real>,
    color: Option<string>, alpha: Option<real>, life: Option<real>, maxLife: Option<real>,
    kind: Option<string>, glow: Option<bool>,
    angle: Option<real>, angularSpeed: Option<real>, radius: Option<real>,
    wobble: Option<real>, gravity: Option<real>)

  const NoOptions := Options(None, None, None, None, None, None, None, None, None, None, None, None, None, None, None, None)

  /** The `Math.random` values one call consumes, each in [0, 1). */
  datatype Draws = Draws(x: real, y: real, vx: real, vy: real, size: real, color: real, alpha: real, life: real)

  predicate Unit(r: real) { 0.0 <= r < 1.0 }

  predicate Fair(d: Draws)
  {
    Unit(d.x) && Unit(d.y) && Unit(d.vx) && Unit(d.vy) && Unit(d.size) && Unit(d.color) && Unit(d.alpha) && Unit(d.life)
  }

  /** The defaults of `createParticle`. */
  function Defaults(width: real, height: real, colors: Palette, d: Draws): (p: Particle)
    requires Filled(colors) && Fair(d)
    ensures 0.0 < width ==> 0.0 <= p.x < width
    ensures 0.0 < height ==> 0.0 <= p.y < height
    ensures -1.0 <= p.vx < 1.0 && -1.0 <= p.vy < 1.0 && 2.0 <= p.size < 6.0
    ensures 0.5 <= p.alpha < 1.0 && 100.0 <= p.life < 300.0 && p.maxLife == 300.0
    ensures p.color in colors.reactant && p.kind == "default" && p.glow
    ensures p.angle.None? && p.angularSpeed.None? && p.radius.None? && p.wobble.None? && p.gravity.None?
  {
    Particle(Random(0.0, width, d.x), Random(0.0, height, d.y), Random(-1.0, 1.0, d.vx), Random(-1.0, 1.0, d.vy),
             Random(2.0, 6.0, d.size), Pick(colors.reactant, d.color), Random(0.5, 1.0, d.alpha),
             Random(100.0, 300.0, d.life), 300.0, "default", true,
             None, None, None, None, None)
  }

  function Or<T>(o: Option<T>, d: T): T
  {
    if o.Some? then o.value else d
  }

  function OrMaybe<T>(o: Option<T>, d: Option<T>): Option<T>
  {
    if o.Some? then o else d
  }

  /** `{ ...defaults, ...options }`. */
  function Merge(defaults: Particle, o: Options): (p: Particle)
  {
    Particle(
      Or(o.x, defaults.x), Or(o.y, defaults.y), Or(o.vx, defaults.vx), Or(o.vy, defaults.vy),
      Or(o.size, defaults.size), Or(o.color, defaults.color), Or(o.alpha, defaults.alpha),
      Or(o.life, defaults.life), Or(o.maxLife, defaults.maxLife), Or(o.kind, defaults.kind),
      Or(o.glow, defaults.glow),
      OrMaybe(o.angle, defaults.angle), OrMaybe(o.angularSpeed, defaults.angularSpeed),
      OrMaybe(o.radius, defaults.radius), OrMaybe(o.wobble, defaults.wobble),
      OrMaybe(o.gravity, defaults.gravity))
  }

  /** Every field given in the options wins; every other field keeps its default. */
  lemma MergeOverrides(defaults: Particle, o: Options)
    ensures var p := Merge(defaults, o);
      && (o.x.Some? ==> p.x == o.x.value) && (o.x.None? ==> p.x == defaults.x)
      && (o.y.Some? ==> p.y == o.y.value) && (o.y.None? ==> p.y == defaults.y)
      && (o.vx.Some? ==> p.vx == o.vx.value) && (o.vx.None? ==> p.vx == defaults.vx)
      && (o.vy.Some? ==> p.vy == o.vy.value) && (o.vy.None? ==> p.vy == defaults.vy)
      && (o.size.Some? ==> p.size == o.size.value) && (o.size.None? ==> p.size == defaults.size)
      && (o.color.Some? ==> p.color == o.color.value) && (o.color.None? ==> p.color == defaults.color)
      && (o.alpha.Some? ==> p.alpha == o.alpha.value) && (o.alpha.None? ==> p.alpha == defaults.alpha)
      && (o.life.Some? ==> p.life == o.life.value) && (o.life.None? ==> p.life == defaults.life)
      && (o.maxLife.Some? ==> p.maxLife == o.maxLife.value) && (o.maxLife.None? ==> p.maxLife == defaults.maxLife)
      && (o.kind.Some? ==> p.kind == o.kind.value) && (o.kind.None? ==> p.kind == defaults.kind)
      && (o.glow.Some? ==> p.glow == o.glow.value) && (o.glow.None? ==> p.glow == defaults.glow)
      && (o.angle.Some? ==> p.angle == o.angle) && (o.gravity.Some? ==> p.gravity == o.gravity)
  {
  }

  /** No options leave the defaults; merging twice with the same options changes nothing more. */
  lemma MergeLaws(defaults: Particle, o: Options)
    ensures Merge(defaults, NoOptions) == defaults
    ensures Merge(Merge(defaults, o), o) == Merge(defaults, o)
  {
  }

  /** `2 * Math.PI` as a double. */
  const TwoPi: real := 6.283185307179586

  /**
   * The options of the i-th particle of `createBalanceParticles(balance)`: it starts on the
   * centre line and flows right, between one and three times the balance, in a product
   * colour when the balance is forward, and left in a reactant colour otherwise.
   */
  function BalanceOptions(balance: real, width: real, height: real, colors: Palette, d: Draws): (o: Options)
    requires Filled(colors) && Fair(d)
    ensures o.kind == Some("balance") && o.x == Some(width / 2.0)
    ensures o.y.Some? && o.vx.Some? && o.vy.Some? && o.size.Some? && o.color.Some?
    ensures balance > 0.0 ==> balance <= o.vx.value < 3.0 * balance && o.color.value in colors.product
    ensures balance <= 0.0 ==> 3.0 * balance <= o.vx.value <= balance && o.color.value in colors.reactant
    ensures 0.0 < height ==> 0.2 * height <= o.y.value < 0.8 * height
    ensures -1.0 <= o.vy.value < 1.0 && 3.0 <= o.size.value < 6.0
  {
    var direction := if balance > 0.0 then 1.0 else -1.0;
    var intensity := if balance < 0.0 then -balance else balance;
    var color := if balance > 0.0 then Pick(colors.product, d.color) else Pick(colors.reactant, d.color);
    var vx := direction * Random(1.0, 3.0, d.vx) * intensity;
    FlowSpeed(Random(1.0, 3.0, d.vx), balance);
    Options(Some(width / 2.0), Some(Random(height * 0.2, height * 0.8, d.y)),
            Some(vx), Some(Random(-1.0, 1.0, d.vy)),
            Some(Random(3.0, 6.0, d.size)), Some(color), None, None, None, Some("balance"), None,
            None, None, None, None, None)
  }

  /**
   * `direction * speed * intensity` for a speed in [1, 3): the balance's sign, and between one
   * and three times its size.
   */
  lemma FlowSpeed(speed: real, b: real)
    requires 1.0 <= speed < 3.0
    ensures var v := (if b > 0.0 then 1.0 else -1.0) * speed * (if b < 0.0 then -b else b);
      && (b > 0.0 ==> b <= v < 3.0 * b)
      && (b <= 0.0 ==> 3.0 * b <= v <= b)
  {
    var v := (if b > 0.0 then 1.0 else -1.0) * speed * (if b < 0.0 then -b else b);
    assert v == speed * b;
    if b > 0.0 {
      assert (speed - 1.0) * b >= 0.0;
      assert (3.0 - speed) * b > 0.0;
    } else {
      assert (speed - 1.0) * b <= 0.0;
      assert (3.0 - speed) * b <= 0.0;
    }
  }

  /** How many particles `createBalanceParticles` asks for: `floor(|balance| * 20)`. */
  function BalanceCount(balance: real): (n: nat)
    ensures -1.0 <= balance <= 1.0 ==> n <= 20
  {
    ((if balance < 0.0 then -balance else balance) * 20.0).Floor
  }

  /** The options of all the particles of `createBalanceParticles(balance)`, the k-th taking the k-th draws. */
  function BalanceBatch(balance: real, width: real, height: real, colors: Palette, draws: nat -> Draws): (os: seq<Options>)
    requires Filled(colors) && forall n :: Fair(draws(n))
    ensures |os| == BalanceCount(balance)
    ensures forall k :: 0 <= k < |os| ==> os[k] == BalanceOptions(balance, width, height, colors, draws(k))
  {
    seq(BalanceCount(balance), k requires 0 <= k => BalanceOptions(balance, width, height, colors, draws(k)))
  }

  /** Ring r, slot i of `createMandalaPattern`: radius 50 + 40r, alternating directions. */
  function MandalaOptions(f: Fns, r: nat, i: nat, width: real, height: real, colors: Palette, d: Draws): (o: Options)
    requires Filled(colors) && Fair(d)
    ensures o.kind == Some("mandala") && o.radius == Some(50.0 + 40.0 * r as real)
    ensures o.angularSpeed == Some(if r % 2 == 0 then 0.01 * (r + 1) as real else -(0.01 * (r + 1) as real))
  {
    var radius := 50.0 + r as real * 40.0;
    var angle := (i as real / 12.0) * TwoPi;
    var speed := 0.01 * (r + 1) as real;
    Options(Some(width / 2.0 + f.cos(angle) * radius), Some(height / 2.0 + f.sin(angle) * radius),
            Some(0.0), Some(0.0), Some(4.0), Some(Pick(colors.reactant + colors.product, d.color)),
            None, None, None, Some("mandala"), None,
            Some(angle), Some(speed * (if r % 2 == 0 then 1.0 else -1.0)), Some(radius), None, None)
  }

  /** The 48 options of the mandala, ring by ring. */
  function MandalaPattern(f: Fns, width: real, height: real, colors: Palette, draws: nat -> Draws): (os: seq<Options>)
    requires Filled(colors) && forall n :: Fair(draws(n))
    ensures |os| == 48 && forall k :: 0 <= k < 48 ==> os[k].kind == Some("mandala")
    ensures forall k :: 0 <= k < 48 ==> os[k] == MandalaOptions(f, k / 12, k % 12, width, height, colors, draws(k))
  {
    var os := seq(48, k requires 0 <= k < 48 => MandalaOptions(f, k / 12, k % 12, width, height, colors, draws(k)));
    assert forall k :: 0 <= k < 48 ==> os[k] == MandalaOptions(f, k / 12, k % 12, width, height, colors, draws(k));
    os
  }

  /** One frame's move of one particle, by kind. */
  function Moved(f: Fns, p: Particle, centerX: real, centerY: real): (q: Particle)
    ensures q.life == p.life && q.maxLife == p.maxLife && q.kind == p.kind && q.color == p.color && q.size == p.size
  {
    if p.kind == "mandala" then
      var angle := Or(p.angle, 0.0) + Or(p.angularSpeed, 0.0);
      p.(angle := Some(angle), x := centerX + f.cos(angle) * Or(p.radius, 0.0), y := centerY + f.sin(angle) * Or(p.radius, 0.0))
    else if p.kind == "bubble" then
      p.(x := p.x + p.vx + f.sin(p.y * 0.1) * Or(p.wobble, 0.0) * 0.5, y := p.y + p.vy)
    else if p.kind == "precipitate" then
      var vy := p.vy + (if p.gravity.Some? && p.gravity.value != 0.0 then p.gravity.value else 0.0);
      p.(vy := vy, x := p.x + p.vx, y := p.y + vy)
    else
      p.(x := p.x + p.vx, y := p.y + p.vy)
  }

  /** One frame of `update` for one particle: move, lose one life, fade with the remaining life. */
  function Stepped(f: Fns, p: Particle, centerX: real, centerY: real): (q: Particle)
    ensures q.life == p.life - 1.0 && q.kind == p.kind
    ensures p.maxLife != 0.0 ==> q.alpha == q.life / p.maxLife * (if p.kind == "mandala" then 1.0 else 0.8)
  {
    var m := Moved(f, p, centerX, centerY);
    var life := m.life - 1.0;
    var alpha := if m.maxLife == 0.0 then 0.0 else life / m.maxLife * (if m.kind == "mandala" then 1.0 else 0.8);
    m.(life := life, alpha := alpha)
  }

  /** A particle `update` keeps: life left and inside the canvas widened by 50 on every side. */
  predicate Alive(p: Particle, width: real, height: real)
  {
    p.life > 0.0 && -50.0 <= p.x <= width + 50.0 && -50.0 <= p.y <= height + 50.0
  }

  /** What one frame leaves of one particle: the stepped particle, or nothing. */
  function Kept(f: Fns, p: Particle, width: real, height: real): (r: seq<Particle>)
    ensures |r| <= 1 && forall k :: 0 <= k < |r| ==> Alive(r[k], width, height)
  {
    var q := Stepped(f, p, width / 2.0, height / 2.0);
    if Alive(q, width, height) then [q] else []
  }

  /** The particles one frame leaves, stepped, in their old order. */
  function Survivors(f: Fns, s: seq<Particle>, width: real, height: real): (r: seq<Particle>)
    ensures |r| <= |s|
    ensures forall k :: 0 <= k < |r| ==> Alive(r[k], width, height)
  {
    if s == [] then [] else Kept(f, s[0], width, height) + Survivors(f, s[1..], width, height)
  }

  /** Survivors works piece by piece, so survivors keep their relative order. */
  lemma {:induction false} SurvivorsAppend(f: Fns, a: seq<Particle>, b: seq<Particle>, width: real, height: real)
    ensures Survivors(f, a + b, width, height) == Survivors(f, a, width, height) + Survivors(f, b, width, height)
  {
    if a != [] {
      assert (a + b)[0] == a[0];
      assert (a + b)[1..] == a[1..] + b;
      SurvivorsAppend(f, a[1..], b, width, height);
    } else {
      assert a + b == b;
    }
  }

  /** A particle with one life left or less is gone after the frame. */
  lemma {:induction false} ExpiredRemoved(f: Fns, s: seq<Particle>, width: real, height: real)
    requires forall k :: 0 <= k < |s| ==> s[k].life <= 1.0
    ensures Survivors(f, s, width, height) == []
  {
    if s != [] {
      ExpiredRemoved(f, s[1..], width, height);
    }
  }

  /** `createParticle(options)`: the options over the defaults. */
  function CreateParticle(width: real, height: real, colors: Palette, o: Options, d: Draws): (p: Particle)
    requires Filled(colors) && Fair(d)
    ensures p == Merge(Defaults(width, height, colors, d), o)
    ensures p.kind == Or(o.kind, "default")
  {
    Merge(Defaults(width, height, colors, d), o)
  }

  /** How many of n requests the cap lets through. */
  function Admitted(n: nat, count: nat, cap: int): (k: nat)
    ensures k <= n && (count >= cap ==> k == 0) && (count < cap ==> count + k <= cap)
    ensures count + n <= cap ==> k == n
  {
    if count >= cap then 0 else if n <= cap - count then n else cap - count
  }

  /**
   * The particles that `addParticle` appends for the option sets os, the j-th with the j-th
   * draws, to a list of count particles under the cap.
   */
  function Batch(width: real, height: real, colors: Palette, cap: int, count: nat, os: seq<Options>, draws: nat -> Draws): (b: seq<Particle>)
    requires Filled(colors) && forall n :: Fair(draws(n))
    ensures |b| == Admitted(|os|, count, cap)
    ensures forall j :: 0 <= j < |b| ==> b[j] == CreateParticle(width, height, colors, os[j], draws(j))
  {
    seq(Admitted(|os|, count, cap), j requires 0 <= j < Admitted(|os|, count, cap) => CreateParticle(width, height, colors, os[j], draws(j)))
  }

  /** A list that starts with start and continues with the batch's particles one by one is start + Batch. */
  lemma BatchAppended(width: real, height: real, colors: Palette, cap: int, start: seq<Particle>, os: seq<Options>,
                      draws: nat -> Draws, s: seq<Particle>)
    requires Filled(colors) && forall n :: Fair(draws(n))
    requires |s| == |start| + Admitted(|os|, |start|, cap) && s[..|start|] == start
    requires forall j :: 0 <= j < |s| - |start| ==> s[|start| + j] == CreateParticle(width, height, colors, os[j], draws(j))
    ensures s == start + Batch(width, height, colors, cap, |start|, os, draws)
  {
    var b := Batch(width, height, colors, cap, |start|, os, draws);
    forall k | 0 <= k < |s|
      ensures s[k] == (start + b)[k]
    {
      if k >= |start| {
        assert s[|start| + (k - |start|)] == CreateParticle(width, height, colors, os[k - |start|], draws(k - |start|));
      }
    }
  }

  /** The mandala particles of a list, in order. */
  function MandalaOnly(s: seq<Particle>): (r: seq<Particle>)
    ensures |r| <= |s| && forall k :: 0 <= k < |r| ==> r[k].kind == "mandala"
  {
    if s == [] then [] else (if s[0].kind == "mandala" then [s[0]] else []) + MandalaOnly(s[1..])
  }

  /** MandalaOnly keeps exactly the mandala particles: each one of them, and nothing else. */
  lemma {:induction false} MandalaOnlyExact(s: seq<Particle>, p: Particle)
    ensures p in MandalaOnly(s) <==> p in s && p.kind == "mandala"
  {
    if s != [] {
      MandalaOnlyExact(s[1..], p);
      assert s == [s[0]] + s[1..];
    }
  }

  class ParticleSystem {
    const fns: Fns
    var particles: seq<Particle>
    var running: bool
    var currentSkin: string
    var colors: Palette
    var maxParticles: int
    var width: real
    var height: real

    predicate Valid()
      reads this
    {
      Filled(colors)
    }

    /** A system on a canvas of the given size: no particles, the colourful skin, at most 200 particles. */
    constructor(f: Fns, canvasWidth: real, canvasHeight: real)
      ensures fns == f && particles == [] && !running && currentSkin == "colorful"
      ensures colors == SkinColors["colorful"] && maxParticles == 200
      ensures width == canvasWidth && height == canvasHeight
      ensures Valid()
    {
      fns := f;
      particles, running, currentSkin := [], false, "colorful";
      colors, maxParticles := SkinColors["colorful"], 200;
      width, height := canvasWidth, canvasHeight;
    }

    /** `setSkin`: only a known skin changes the skin and its colours. */
    method SetSkin(skinId: string)
      requires Valid()
      modifies this
      ensures skinId in SkinColors ==> currentSkin == skinId && colors == SkinColors[skinId]
      ensures skinId !in SkinColors ==> currentSkin == old(currentSkin) && colors == old(colors)
      ensures particles == old(particles) && maxParticles == old(maxParticles) && running == old(running)
      ensures width == old(width) && height == old(height)
      ensures Valid()
    {
      if skinId in SkinColors {
        currentSkin := skinId;
        colors := SkinColors[skinId];
      }
    }

    method SetMaxParticles(count: int)
      modifies this
      ensures maxParticles == count
      ensures particles == old(particles) && colors == old(colors) && currentSkin == old(currentSkin) && running == old(running)
      ensures width == old(width) && height == old(height)
    {
      maxParticles := count;
    }

    /** Everything but the particle list. */
    function Config(): (Palette, string, int, bool, real, real)
      reads this
    {
      (colors, currentSkin, maxParticles, running, width, height)
    }

    /** `addParticle`: one new particle at the end, only while below the cap. */
    method AddParticle(o: Options, d: Draws)
      requires Valid() && Fair(d)
      modifies this
      ensures Config() == old(Config()) && Valid()
      ensures particles == if |old(particles)| < maxParticles then old(particles) + [CreateParticle(width, height, colors, o, d)] else old(particles)
    {
      if |particles| < maxParticles {
        particles := particles + [CreateParticle(width, height, colors, o, d)];
      }
    }

    /**
     * `addParticle` for each options object in turn, the k-th with the k-th draws: the
     * first requests fill the list up to the cap and the rest are dropped.
     */
    method AddEach(os: seq<Options>, draws: nat -> Draws)
      requires Valid() && forall n :: Fair(draws(n))
      modifies this
      ensures Config() == old(Config()) && Valid()
      ensures |particles| == |old(particles)| + Admitted(|os|, |old(particles)|, maxParticles)
      ensures particles[..|old(particles)|] == old(particles)
      ensures forall j :: 0 <= j < |particles| - |old(particles)| ==>
        particles[|old(particles)| + j] == CreateParticle(width, height, colors, os[j], draws(j))
      ensures forall k :: |old(particles)| <= k < |particles| ==> particles[k].kind == Or(os[k - |old(particles)|].kind, "default")
      ensures particles == old(particles) + Batch(width, height, colors, maxParticles, |old(particles)|, os, draws)
    {
      ghost var start := particles;
      var i := 0;
      while i < |os|
        invariant 0 <= i <= |os|
        invariant Config() == old(Config()) && Valid()
        invariant |particles| == |start| + Admitted(i, |start|, maxParticles)
        invariant particles[..|start|] == start
        invariant forall j :: 0 <= j < Admitted(i, |start|, maxParticles) ==>
          particles[|start| + j] == CreateParticle(width, height, colors, os[j], draws(j))
      {
        AddParticle(os[i], draws(i));
        i := i + 1;
      }
      forall k | |start| <= k < |particles|
        ensures particles[k].kind == Or(os[k - |start|].kind, "default")
      {
        assert particles[|start| + (k - |start|)] == CreateParticle(width, height, colors, os[k - |start|], draws(k - |start|));
      }
      BatchAppended(width, height, colors, maxParticles, start, os, draws, particles);
    }

    /** `addParticles(count, options)`: never past the cap, and at most count new particles. */
    method AddParticles(count: nat, o: Options, draws: nat -> Draws)
      requires Valid() && forall n :: Fair(draws(n))
      modifies this
      ensures Config() == old(Config()) && Valid()
      ensures |old(particles)| <= |particles| <= |old(particles)| + count
      ensures |particles| == |old(particles)| + Admitted(count, |old(particles)|, maxParticles)
      ensures |particles| <= maxParticles || particles == old(particles)
      ensures particles[..|old(particles)|] == old(particles)
      ensures forall j :: 0 <= j < |particles| - |old(particles)| ==>
        particles[|old(particles)| + j] == CreateParticle(width, height, colors, o, draws(j))
      ensures particles == old(particles) + Batch(width, height, colors, maxParticles, |old(particles)|, seq(count, _ => o), draws)
    {
      AddEach(seq(count, _ => o), draws);
    }

    /** `createBalanceParticles(balance)`: up to floor(|balance| * 20) particles of kind 'balance'. */
    method CreateBalanceParticles(balance: real, draws: nat -> Draws, optionDraws: nat -> Draws)
      requires Valid() && forall n :: Fair(draws(n)) && Fair(optionDraws(n))
      modifies this
      ensures Config() == old(Config()) && Valid()
      ensures |particles| == |old(particles)| + Admitted(BalanceCount(balance), |old(particles)|, maxParticles)
      ensures particles == old(particles) + Batch(width, height, colors, maxParticles, |old(particles)|,
                                                  BalanceBatch(balance, width, height, colors, optionDraws), draws)
      ensures forall k :: |old(particles)| <= k < |particles| ==> particles[k].kind == "balance"
    {
      var os := BalanceBatch(balance, width, height, colors, optionDraws);
      AddEach(os, draws);
    }

    /** `createMandalaPattern`: 48 particles of kind 'mandala', as many as the cap admits. */
    method CreateMandalaPattern(draws: nat -> Draws, optionDraws: nat -> Draws)
      requires Valid() && forall n :: Fair(draws(n)) && Fair(optionDraws(n))
      modifies this
      ensures Config() == old(Config()) && Valid()
      ensures |particles| == |old(particles)| + Admitted(48, |old(particles)|, maxParticles)
      ensures particles[..|old(particles)|] == old(particles)
      ensures particles == old(particles) + Batch(width, height, colors, maxParticles, |old(particles)|,
                                                  MandalaPattern(fns, width, height, colors, optionDraws), draws)
      ensures forall k :: |old(particles)| <= k < |particles| ==> particles[k].kind == "mandala"
    {
      var os := MandalaPattern(fns, width, height, colors, optionDraws);
      AddEach(os, draws);
    }

    /** One step of `update`'s backward loop, on the survivors of a suffix. */
    lemma SurvivorsStep(start: seq<Particle>, i: nat)
      requires i < |start|
      ensures Survivors(fns, start[i..], width, height) == Kept(fns, start[i], width, height) + Survivors(fns, start[i + 1..], width, height)
    {
      assert start[i..][1..] == start[i + 1..];
    }

    /** The splice at i keeps the loop's picture: a shorter untouched prefix, a longer processed suffix. */
    lemma SpliceStep(start: seq<Particle>, i: nat, before: seq<Particle>)
      requires i < |start|
      requires before == start[..i + 1] + Survivors(fns, start[i + 1..], width, height)
      ensures before[i] == start[i]
      ensures before[..i] + Kept(fns, before[i], width, height) + before[i + 1..] == start[..i] + Survivors(fns, start[i..], width, height)
    {
      SurvivorsStep(start, i);
      assert start[..i + 1] == start[..i] + [start[i]];
      assert before[..i] == start[..i];
      assert before[i + 1..] == Survivors(fns, start[i + 1..], width, height);
    }

    /**
     * `update`: from the last particle to the first, step it and splice it out when it has
     * died or left the widened canvas.
     */
    method Update()
      modifies this
      ensures Config() == old(Config())
      ensures particles == Survivors(fns, old(particles), width, height)
      ensures |particles| <= |old(particles)|
      ensures forall k :: 0 <= k < |particles| ==> Alive(particles[k], width, height)
    {
      ghost var start := particles;
      var i := |particles|;
      while i > 0
        invariant 0 <= i <= |start|
        invariant particles == start[..i] + Survivors(fns, start[i..], width, height)
        invariant Config() == old(Config())
      {
        i := i - 1;
        SpliceStep(start, i, particles);
        particles := particles[..i] + Kept(fns, particles[i], width, height) + particles[i + 1..];
      }
      assert start[0..] == start;
    }

    method Stop()
      modifies this
      ensures !running && particles == old(particles)
      ensures colors == old(colors) && currentSkin == old(currentSkin) && maxParticles == old(maxParticles)
      ensures width == old(width) && height == old(height)
    {
      running := false;
    }

    /** `clear`. */
    method Clear()
      modifies this
      ensures particles == [] && Config() == old(Config())
    {
      particles := [];
    }

    /**
     * `visualizeBalance`: keep only the mandala, add the balance particles when |balance|
     * exceeds 0.1, and rebuild the mandala when fewer than 48 of its particles remain.
     */
    method VisualizeBalance(balance: real, balanceDraws: nat -> Draws, balanceOptionDraws: nat -> Draws,
                            mandalaDraws: nat -> Draws, mandalaOptionDraws: nat -> Draws)
      requires Valid()
      requires forall n :: Fair(balanceDraws(n)) && Fair(balanceOptionDraws(n)) && Fair(mandalaDraws(n)) && Fair(mandalaOptionDraws(n))
      modifies this
      ensures Config() == old(Config()) && Valid()
      ensures var kept := MandalaOnly(old(particles));
        var flow := if balance > 0.1 || balance < -0.1
                    then kept + Batch(width, height, colors, maxParticles, |kept|, BalanceBatch(balance, width, height, colors, balanceOptionDraws), balanceDraws)
                    else kept;
        particles == if |MandalaOnly(flow)| < 48
                     then flow + Batch(width, height, colors, maxParticles, |flow|, MandalaPattern(fns, width, height, colors, mandalaOptionDraws), mandalaDraws)
                     else flow
      ensures |MandalaOnly(old(particles))| <= |particles| && particles[..|MandalaOnly(old(particles))|] == MandalaOnly(old(particles))
      ensures KindsAmong(particles, "balance")
      ensures -0.1 <= balance <= 0.1 ==> KindsAmong(particles, "mandala")
    {
      particles := MandalaOnly(particles);
      ghost var kept := particles;
      if balance > 0.1 || balance < -0.1 {
        CreateBalanceParticles(balance, balanceDraws, balanceOptionDraws);
      }
      ghost var mid := particles;
      assert KindsAmong(mid, "balance") && mid[..|kept|] == kept;
      if |MandalaOnly(particles)| < 48 {
        CreateMandalaPattern(mandalaDraws, mandalaOptionDraws);
        PrefixOfPrefix(kept, mid, particles);
      }
    }

    /** Every particle is of the mandala or of the given kind. */
    predicate KindsAmong(s: seq<Particle>, other: string)
    {
      forall k :: 0 <= k < |s| ==> s[k].kind == "mandala" || s[k].kind == other
    }
  }

  lemma PrefixOfPrefix<T>(a: seq<T>, b: seq<T>, c: seq<T>)
    requires |a| <= |b| <= |c| && b[..|a|] == a && c[..|b|] == b
    ensures c[..|a|] == a
  {
    assert c[..|a|] == c[..|b|][..|a|];
  }

  /** `_hexToRgb`'s fall-back colour. */
  const DefaultRgb := Rgb(0, 212, 255)

  /** `replace('#', '')`: the first '#' removed, wherever it is. */
  function DropFirstHash(s: string): (r: string)
    ensures '#' !in s ==> r == s
    ensures s != [] && s[0] == '#' ==> r == s[1..]
  {
    if s == [] then [] else if s[0] == '#' then s[1..] else [s[0]] + DropFirstHash(s[1..])
  }

  /** Three-digit shorthand doubled: "abc" is "aabbcc". */
  function Expanded(s: string): (r: string)
    ensures |s| == 3 ==> r == [s[0], s[0], s[1], s[1], s[2], s[2]]
    ensures |s| != 3 ==> r == s
  {
    if |s| == 3 then [s[0], s[0], s[1], s[1], s[2], s[2]] else s
  }

  /**
   * The background system's `_hexToRgb(hex)`: trimmed, one '#' removed, shorthand
   * expanded; exactly six hexadecimal digits give their bytes, anything else the fall-back.
   */
  function BackgroundHexToRgb(hex: string): (c: Rgb)
    ensures 0 <= c.r <= 255 && 0 <= c.g <= 255 && 0 <= c.b <= 255
    ensures var v := Expanded(DropFirstHash(Trim(hex)));
      if IsSixHex(v) then c == Rgb(HexByte(v, 0), HexByte(v, 2), HexByte(v, 4)) else c == DefaultRgb
  {
    var v := Expanded(DropFirstHash(Trim(hex)));
    if IsSixHex(v) then Rgb(HexByte(v, 0), HexByte(v, 2), HexByte(v, 4)) else DefaultRgb
  }

  /** A shorthand colour reads as its doubled digits: each byte is a digit times 17. */
  lemma ShorthandDoubles(hex: string)
    requires var v := DropFirstHash(Trim(hex)); |v| == 3 && forall i :: 0 <= i < 3 ==> IsHexDigit(v[i])
    ensures var v := DropFirstHash(Trim(hex));
      BackgroundHexToRgb(hex) == Rgb(HexVal(v[0]) * 17, HexVal(v[1]) * 17, HexVal(v[2]) * 17)
  {
  }

  /** The foreground and background parsers agree on a bare six-digit colour. */
  lemma AgreesWithHexToRgb(hex: string)
    requires IsSixHex(hex)
    ensures HexToRgb(hex) == Some(BackgroundHexToRgb(hex))
  {
    assert !IsWhitespace(hex[0]) && !IsWhitespace(hex[5]);
    assert TrimStart(hex) == hex;
    assert TrimEnd(hex) == hex;
    assert hex[0] != '#';
    assert '#' !in hex by {
      forall i | 0 <= i < 6 ensures hex[i] != '#' {
        assert IsHexDigit(hex[i]);
      }
    }
  }
}
