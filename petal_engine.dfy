/**
 * The falling-petal particle engine. Both pages run the same engine with
 * different tunables, so the engine is written once over a `Config`.
 *
 * Coordinates are `real`; every `Math.random()` value is injected as a
 * `Draws` record of numbers in [0,1); `Math.sin` is a parameter.
 */
module PetalEngine {
  import opened Optional

  /** `Math.PI`. */
  const PI: real := 3.141592653589793
  /** Upper bound on the device-pixel ratio the surface is scaled by. */
  const MAX_SCALE: real := 1.5
  /** Width of the spin range: spin is drawn as (r - 0.5) * SPIN_SPAN. */
  const SPIN_SPAN: real := 0.02

  /** The tunables in which the two presets differ. */
  datatype Config = Config(
    count: nat,        // pool size
    sizeMin: real,     // size = sizeMin + r * sizeSpan
    sizeSpan: real,
    speedYMin: real,   // speedY = speedYMin + r * speedYSpan
    speedYSpan: real,
    speedXSpan: real,  // speedX = (r - 0.5) * speedXSpan
    swaySpan: real)    // sway = (r - 0.5) * swaySpan
  {
    /** Every range is non-empty and sizes and fall speeds are positive. */
    predicate Valid() {
      sizeMin > 0.0 && sizeSpan > 0.0 && speedYMin > 0.0 && speedYSpan > 0.0 &&
      speedXSpan > 0.0 && swaySpan > 0.0
    }
  }

  /** One particle: position, radius, velocity (px/s), rotation, spin (rad/ms), sway amplitude. */
  datatype Petal = Petal(
    x: real, y: real, size: real, speedY: real, speedX: real,
    rotation: real, spin: real, sway: real)

  /** A value `Math.random()` can return. */
  predicate Unit(r: real) { 0.0 <= r < 1.0 }

  /**
   * The random values one (re)initialisation consumes, one per attribute.
   * Recycling draws no `y`, so it ignores that field.
   */
  datatype Draws = Draws(
    x: real, y: real, size: real, speedY: real, speedX: real,
    rotation: real, spin: real, sway: real)
  {
    predicate Valid() {
      Unit(x) && Unit(y) && Unit(size) && Unit(speedY) && Unit(speedX) &&
      Unit(rotation) && Unit(spin) && Unit(sway)
    }
  }

  /** Every draw in `ds` is a possible `Math.random()` result. */
  predicate AllValid(ds: seq<Draws>) {
    forall i :: 0 <= i < |ds| ==> ds[i].Valid()
  }

  /** A stand-in for `Math.sin`: any function bounded by [-1, 1]. */
  ghost predicate BoundedWave(sin: real -> real) {
    forall t :: -1.0 <= sin(t) <= 1.0
  }

  /** The attributes a petal keeps between recycles lie in the preset's half-open ranges. */
  predicate Attributes(cfg: Config, p: Petal) {
    cfg.sizeMin <= p.size < cfg.sizeMin + cfg.sizeSpan &&
    cfg.speedYMin <= p.speedY < cfg.speedYMin + cfg.speedYSpan &&
    -cfg.speedXSpan / 2.0 <= p.speedX < cfg.speedXSpan / 2.0 &&
    -SPIN_SPAN / 2.0 <= p.spin < SPIN_SPAN / 2.0 &&
    -cfg.swaySpan / 2.0 <= p.sway < cfg.swaySpan / 2.0
  }

  /** A freshly drawn petal: its attributes and its rotation lie in their ranges. */
  predicate Drawn(cfg: Config, p: Petal) {
    Attributes(cfg, p) && 0.0 <= p.rotation < PI
  }

  /** The closed region the boundary policy keeps every petal in. */
  predicate InView(width: nat, height: nat, p: Petal) {
    -p.size <= p.x <= width as real + p.size && p.y - p.size <= height as real
  }

  // ---------------------------------------------------------------------
  // Surface scaling

  /**
   * `Math.min(devicePixelRatio || 1, 1.5)`: a missing or zero ratio falls
   * back to 1; the result never exceeds 1.5 nor the ratio itself.
   */
  function Scale(dpr: Option<real>): (s: real)
    ensures s <= MAX_SCALE
    ensures dpr == None || dpr == Some(0.0) ==> s == 1.0
    ensures dpr.Some? && dpr.value != 0.0 ==> s <= dpr.value && (s == dpr.value || s == MAX_SCALE)
    ensures dpr.Some? && dpr.value != 0.0 && dpr.value < MAX_SCALE ==> s == dpr.value
    ensures dpr.None? || dpr.value >= 0.0 ==> 0.0 < s
  {
    var ratio := if dpr.None? || dpr.value == 0.0 then 1.0 else dpr.value;
    if ratio < MAX_SCALE then ratio else MAX_SCALE
  }

  /** `Math.floor(logical * scale)`: the largest integer not above the scaled length. */
  function Backing(logical: nat, scale: real): (b: int)
    ensures b as real <= logical as real * scale < b as real + 1.0
    ensures 0.0 <= scale ==> 0 <= b
    ensures 0.0 <= scale <= MAX_SCALE ==> b as real <= logical as real * MAX_SCALE
  {
    (logical as real * scale).Floor
  }

  // ---------------------------------------------------------------------
  // Particle initialisation and recycling

  /** `min + Math.random() * span`: a uniform draw over [min, min + span). */
  function Spread(min: real, span: real, r: real): (v: real)
    ensures Unit(r) && span >= 0.0 ==> min <= v <= min + span
    ensures Unit(r) && span > 0.0 ==> v < min + span
  {
    UnitTimes(r, span);
    min + r * span
  }

  /** `(Math.random() - 0.5) * span`: a uniform draw over [-span/2, span/2). */
  function Centered(span: real, r: real): (v: real)
    ensures Unit(r) && span > 0.0 ==> -span / 2.0 <= v < span / 2.0
  {
    UnitTimes(r, span);
    (r - 0.5) * span
  }

  lemma UnitTimes(r: real, span: real)
    ensures Unit(r) && span >= 0.0 ==> 0.0 <= r * span <= span
    ensures Unit(r) && span > 0.0 ==> r * span < span
  {
    if Unit(r) && span >= 0.0 {
      assert (1.0 - r) * span >= 0.0;
      if span > 0.0 {
        assert (1.0 - r) * span > 0.0;
      }
    }
  }

  /** `makePetal`: every attribute an affine function of its own draw; y staggered above the top. */
  function MakePetal(cfg: Config, width: nat, height: nat, d: Draws): (p: Petal)
    ensures cfg.Valid() && d.Valid() ==> Drawn(cfg, p)
    ensures d.Valid() ==> 0.0 <= p.x <= width as real && (width > 0 ==> p.x < width as real)
    ensures d.Valid() ==> -(height as real) <= p.y <= 0.0 && (height > 0 ==> p.y < 0.0)
  {
    Petal(
      x := Spread(0.0, width as real, d.x),
      y := Spread(0.0, height as real, d.y) - height as real,
      size := Spread(cfg.sizeMin, cfg.sizeSpan, d.size),
      speedY := Spread(cfg.speedYMin, cfg.speedYSpan, d.speedY),
      speedX := Centered(cfg.speedXSpan, d.speedX),
      rotation := Spread(0.0, PI, d.rotation),
      spin := Centered(SPIN_SPAN, d.spin),
      sway := Centered(cfg.swaySpan, d.sway))
  }

  /**
   * `resetPetal`: the fields are overwritten one after another, and `y` is
   * set from `size` before `size` is redrawn, so the new y is minus the size
   * the petal had before the reset.
   */
  function Recycled(cfg: Config, width: nat, p: Petal, d: Draws): (q: Petal)
    ensures q.y == -p.size
    ensures cfg.Valid() && d.Valid() ==> Drawn(cfg, q)
    ensures d.Valid() ==> 0.0 <= q.x <= width as real && (width > 0 ==> q.x < width as real)
  {
    var p1 := p.(x := Spread(0.0, width as real, d.x));
    var p2 := p1.(y := -p1.size);
    var p3 := p2.(size := Spread(cfg.sizeMin, cfg.sizeSpan, d.size));
    var p4 := p3.(speedY := Spread(cfg.speedYMin, cfg.speedYSpan, d.speedY));
    var p5 := p4.(speedX := Centered(cfg.speedXSpan, d.speedX));
    var p6 := p5.(rotation := Spread(0.0, PI, d.rotation));
    var p7 := p6.(spin := Centered(SPIN_SPAN, d.spin));
    p7.(sway := Centered(cfg.swaySpan, d.sway))
  }

  // ---------------------------------------------------------------------
  // Per-frame update

  /**
   * The motion step of `update`: fall, drift, then sway evaluated at the
   * already-advanced y, then spin.
   */
  function Advance(p: Petal, delta: real, sin: real -> real): (q: Petal)
  {
    var y := p.y + p.speedY * delta / 1000.0;
    var x := p.x + p.speedX * delta / 1000.0;
    p.(y := y, x := x + sin(y * 0.01) * p.sway, rotation := p.rotation + p.spin * delta)
  }

  /**
   * The motion step moves only x, y and rotation: y falls by
   * speedY * delta / 1000, rotation turns by spin * delta, and x drifts by
   * speedX * delta / 1000 plus the sway term sin(y' * 0.01) * sway, where y'
   * is the already-advanced y; so x departs from its linear drift by at
   * most |sway|.
   */
  lemma AdvanceMotion(p: Petal, delta: real, sin: real -> real)
    requires BoundedWave(sin)
    ensures var q := Advance(p, delta, sin);
      q.(x := p.x, y := p.y, rotation := p.rotation) == p &&
      q.y == p.y + p.speedY * delta / 1000.0 &&
      q.rotation == p.rotation + p.spin * delta &&
      q.x == p.x + p.speedX * delta / 1000.0 + sin(q.y * 0.01) * p.sway &&
      -Abs(p.sway) <= q.x - (p.x + p.speedX * delta / 1000.0) <= Abs(p.sway)
  {
    var drift := p.x + p.speedX * delta / 1000.0;
    var q := Advance(p, delta, sin);
    assert q.x == drift + sin(q.y * 0.01) * p.sway;
    SwayBounded(sin(q.y * 0.01), p.sway);
  }

  lemma SwayBounded(s: real, sway: real)
    requires -1.0 <= s <= 1.0
    ensures -Abs(sway) <= s * sway <= Abs(sway)
  {
    if sway >= 0.0 {
      MulBounded(s, sway);
    } else {
      MulBounded(-s, -sway);
      assert (-s) * (-sway) == s * sway;
    }
  }

  /** A falling petal never rises during a frame that takes non-negative time. */
  lemma AdvanceFalls(cfg: Config, p: Petal, delta: real, sin: real -> real)
    requires cfg.Valid() && Attributes(cfg, p) && delta >= 0.0
    ensures Advance(p, delta, sin).y >= p.y
    ensures delta > 0.0 ==> Advance(p, delta, sin).y > p.y
  {
    assert p.speedY > 0.0;
    assert p.speedY * delta >= 0.0;
  }

  function Abs(r: real): (a: real)
    ensures a >= 0.0 && (a == r || a == -r)
  {
    if r < 0.0 then -r else r
  }

  lemma MulBounded(s: real, a: real)
    requires -1.0 <= s <= 1.0 && a >= 0.0
    ensures -a <= s * a <= a
  {
    assert (1.0 - s) * a >= 0.0;
    assert (1.0 + s) * a >= 0.0;
  }

  /**
   * The boundary policy of `update`, in its order: a bottom exit recycles;
   * otherwise a left exit wraps to the right edge; otherwise a right exit
   * wraps to the left edge.
   */
  function Boundary(cfg: Config, width: nat, height: nat, p: Petal, d: Draws): (q: Petal)
  {
    if p.y - p.size > height as real then Recycled(cfg, width, p, d)
    else if p.x < -p.size then p.(x := width as real + p.size)
    else if p.x > width as real + p.size then p.(x := -p.size)
    else p
  }

  /**
   * What the boundary policy does, case by case: a bottom exit recycles
   * whatever x is; a petal still above the bottom changes at most its x,
   * and only when it is outside [-size, width + size], which it is moved
   * back onto the opposite edge of.
   */
  lemma BoundaryOrder(cfg: Config, width: nat, height: nat, p: Petal, d: Draws)
    requires cfg.Valid() && d.Valid() && p.size >= 0.0
    ensures var q := Boundary(cfg, width, height, p, d);
      (p.y - p.size > height as real ==> q.y == -p.size && Drawn(cfg, q) && 0.0 <= q.x <= width as real) &&
      (p.y - p.size <= height as real ==>
        q.(x := p.x) == p &&
        (q == p <==> InView(width, height, p)) &&
        (p.x < -p.size ==> q.x == width as real + p.size) &&
        (p.x > width as real + p.size ==> q.x == -p.size))
  {
  }

  /**
   * The closed invariant: whatever a petal's position was, after the
   * boundary policy it lies in [-size, width + size] horizontally and its
   * top has not passed the bottom edge.
   */
  lemma BoundaryInView(cfg: Config, width: nat, height: nat, p: Petal, d: Draws)
    requires cfg.Valid() && d.Valid() && p.size >= 0.0
    ensures InView(width, height, Boundary(cfg, width, height, p, d))
  {
    var q := Boundary(cfg, width, height, p, d);
    if p.y - p.size > height as real {
      assert q.y - q.size == -p.size - q.size;
      assert q.size > 0.0;
    }
  }

  /** One petal's work in one frame of `update`: motion, then the boundary policy. */
  function Step(cfg: Config, width: nat, height: nat, delta: real, sin: real -> real,
                p: Petal, d: Draws): (q: Petal)
  {
    Boundary(cfg, width, height, Advance(p, delta, sin), d)
  }

  /**
   * A frame keeps a petal's attributes in their ranges (they are either kept
   * or redrawn) and leaves the petal in view, whatever delta and sine are.
   */
  lemma StepKeepsInvariant(cfg: Config, width: nat, height: nat, delta: real, sin: real -> real,
                           p: Petal, d: Draws)
    requires cfg.Valid() && d.Valid() && Attributes(cfg, p)
    ensures var q := Step(cfg, width, height, delta, sin, p, d);
      Attributes(cfg, q) && InView(width, height, q)
  {
    var a := Advance(p, delta, sin);
    assert Attributes(cfg, a);
    BoundaryInView(cfg, width, height, a, d);
  }

  /** Several frames of one petal in a fixed viewport, one delta and one set of draws per frame. */
  function Run(cfg: Config, width: nat, height: nat, deltas: seq<real>, sin: real -> real,
               p: Petal, draws: seq<Draws>): (q: Petal)
    requires |draws| == |deltas|
    decreases |deltas|
  {
    if deltas == [] then p
    else Run(cfg, width, height, deltas[1..], sin,
             Step(cfg, width, height, deltas[0], sin, p, draws[0]), draws[1..])
  }

  /**
   * After any number of frames the attributes are still in range, and after
   * at least one frame the petal is in view: the invariant is closed.
   */
  lemma {:induction false} RunKeepsInvariant(cfg: Config, width: nat, height: nat, deltas: seq<real>,
                                             sin: real -> real, p: Petal, draws: seq<Draws>)
    requires cfg.Valid() && Attributes(cfg, p)
    requires |draws| == |deltas| && AllValid(draws)
    ensures var q := Run(cfg, width, height, deltas, sin, p, draws);
      Attributes(cfg, q) && (|deltas| > 0 || InView(width, height, p) ==> InView(width, height, q))
    decreases |deltas|
  {
    if deltas != [] {
      var p' := Step(cfg, width, height, deltas[0], sin, p, draws[0]);
      StepKeepsInvariant(cfg, width, height, deltas[0], sin, p, draws[0]);
      assert AllValid(draws[1..]) by {
        forall i | 0 <= i < |draws[1..]| ensures draws[1..][i].Valid() {
          assert draws[1..][i] == draws[i + 1];
        }
      }
      RunKeepsInvariant(cfg, width, height, deltas[1..], sin, p', draws[1..]);
    }
  }

  // ---------------------------------------------------------------------
  // The simulator's state

  /**
   * The state `initPetals` keeps in its closure: the viewport, the scale,
   * the backing-surface size, and the fixed pool of petals.
   */
  class PetalField {
    const cfg: Config
    const petals: array<Petal>
    var width: nat
    var height: nat
    var scale: real
    var backingWidth: int
    var backingHeight: int

    /** The pool has the preset's size and every petal's attributes are in range. */
    ghost predicate Valid()
      reads this, petals
    {
      cfg.Valid() && petals.Length == cfg.count &&
      forall i :: 0 <= i < petals.Length ==> Attributes(cfg, petals[i])
    }

    /** Every petal is in view of the current viewport. */
    ghost predicate Settled()
      reads this, petals
    {
      forall i :: 0 <= i < petals.Length ==> InView(width, height, petals[i])
    }

    /**
     * `initPetals` once the canvas is found: start from a 0 x 0 viewport at
     * scale 1, resize, then push `cfg.count` petals made by `makePetal`.
     */
    constructor (cfg: Config, innerWidth: nat, innerHeight: nat, dpr: Option<real>, draws: seq<Draws>)
      requires cfg.Valid() && |draws| == cfg.count && AllValid(draws)
      ensures Valid() && Settled() && fresh(petals)
      ensures this.cfg == cfg && petals.Length == cfg.count
      ensures width == innerWidth && height == innerHeight && scale == Scale(dpr)
      ensures backingWidth == Backing(innerWidth, scale) && backingHeight == Backing(innerHeight, scale)
      ensures forall i :: 0 <= i < petals.Length ==> petals[i] == MakePetal(cfg, innerWidth, innerHeight, draws[i])
    {
      this.cfg := cfg;
      width, height, scale := 0, 0, 1.0;
      backingWidth, backingHeight := 0, 0;
      petals := new Petal[cfg.count];
      new;
      Resize(innerWidth, innerHeight, dpr);
      Populate(draws);
    }

    /** The loop that pushes one `makePetal` result per pool slot. */
    method Populate(draws: seq<Draws>)
      requires cfg.Valid() && petals.Length == cfg.count && |draws| == cfg.count && AllValid(draws)
      modifies petals
      ensures Valid() && Settled()
      ensures forall i :: 0 <= i < petals.Length ==> petals[i] == MakePetal(cfg, width, height, draws[i])
    {
      for i := 0 to petals.Length
        invariant forall j :: 0 <= j < i ==> petals[j] == MakePetal(cfg, width, height, draws[j])
        invariant forall j :: 0 <= j < i ==> Attributes(cfg, petals[j]) && InView(width, height, petals[j])
      {
        petals[i] := MakePetal(cfg, width, height, draws[i]);
        assert draws[i].Valid();
      }
    }

    /**
     * `resize`: take the viewport, clamp the pixel ratio, size the backing
     * surface. The new state depends on the arguments only, so repeating the
     * call with the same arguments changes nothing; the pool is untouched.
     */
    method Resize(innerWidth: nat, innerHeight: nat, dpr: Option<real>)
      modifies this
      ensures width == innerWidth && height == innerHeight && scale == Scale(dpr)
      ensures backingWidth == Backing(innerWidth, scale) && backingHeight == Backing(innerHeight, scale)
      ensures old(Valid()) ==> Valid()
    {
      scale := Scale(dpr);
      width := innerWidth;
      height := innerHeight;
      backingWidth := Backing(width, scale);
      backingHeight := Backing(height, scale);
    }

    /** `resetPetal(petals[i])`, field by field in the source's order. */
    method ResetPetal(i: nat, d: Draws)
      requires Valid() && d.Valid() && i < petals.Length
      modifies petals
      ensures Valid()
      ensures petals[i] == Recycled(cfg, width, old(petals[i]), d)
      ensures forall j :: 0 <= j < petals.Length && j != i ==> petals[j] == old(petals[j])
    {
      petals[i] := petals[i].(x := Spread(0.0, width as real, d.x));
      petals[i] := petals[i].(y := -petals[i].size);
      petals[i] := petals[i].(size := Spread(cfg.sizeMin, cfg.sizeSpan, d.size));
      petals[i] := petals[i].(speedY := Spread(cfg.speedYMin, cfg.speedYSpan, d.speedY));
      petals[i] := petals[i].(speedX := Centered(cfg.speedXSpan, d.speedX));
      petals[i] := petals[i].(rotation := Spread(0.0, PI, d.rotation));
      petals[i] := petals[i].(spin := Centered(SPIN_SPAN, d.spin));
      petals[i] := petals[i].(sway := Centered(cfg.swaySpan, d.sway));
    }

    /**
     * `update(delta)`: every petal of the fixed pool takes one `Step`, each
     * from its own old state and its own draws; afterwards every petal is
     * in view and the attribute invariant still holds.
     */
    method Update(delta: real, sin: real -> real, draws: seq<Draws>)
      requires Valid() && |draws| == petals.Length && AllValid(draws)
      modifies petals
      ensures Valid() && Settled()
      ensures forall i :: 0 <= i < petals.Length ==>
        petals[i] == Step(cfg, width, height, delta, sin, old(petals[i]), draws[i])
    {
      for i := 0 to petals.Length
        invariant forall j :: 0 <= j < i ==>
          petals[j] == Step(cfg, width, height, delta, sin, old(petals[j]), draws[j])
        invariant forall j :: i <= j < petals.Length ==> petals[j] == old(petals[j])
        invariant Valid()
      {
        petals[i] := petals[i].(y := petals[i].y + petals[i].speedY * delta / 1000.0);
        petals[i] := petals[i].(x := petals[i].x + petals[i].speedX * delta / 1000.0);
        petals[i] := petals[i].(x := petals[i].x + sin(petals[i].y * 0.01) * petals[i].sway);
        petals[i] := petals[i].(rotation := petals[i].rotation + petals[i].spin * delta);
        assert petals[i] == Advance(old(petals[i]), delta, sin);
        assert Attributes(cfg, petals[i]);

        if petals[i].y - petals[i].size > height as real {
          ResetPetal(i, draws[i]);
        } else if petals[i].x < -petals[i].size {
          petals[i] := petals[i].(x := width as real + petals[i].size);
        } else if petals[i].x > width as real + petals[i].size {
          petals[i] := petals[i].(x := -petals[i].size);
        }
        StepKeepsInvariant(cfg, width, height, delta, sin, old(petals[i]), draws[i]);
      }
      forall i | 0 <= i < petals.Length
        ensures Attributes(cfg, petals[i]) && InView(width, height, petals[i])
      {
        StepKeepsInvariant(cfg, width, height, delta, sin, old(petals[i]), draws[i]);
      }
    }
  }
}
