/** The petal field of the home page: the engine with the 40-petal preset. */
module HomePetals {
  import opened Optional
  import opened PetalEngine

  /** 40 petals; size 3 + 4r, speedY 22 + 22r, speedX (r - 0.5) * 12, sway (r - 0.5) * 0.3. */
  const HOME: Config := Config(40, 3.0, 4.0, 22.0, 22.0, 12.0, 0.3)

  /**
   * `initPetals` on the home page: no canvas, no field; otherwise a field
   * of exactly 40 petals, scaled for the viewport, every petal in view.
   */
  method InitPetals(canvasPresent: bool, innerWidth: nat, innerHeight: nat, dpr: Option<real>,
                    draws: seq<Draws>) returns (field: Option<PetalField>)
    requires |draws| == HOME.count && AllValid(draws)
    ensures field.Some? <==> canvasPresent
    ensures field.Some? ==> fresh(field.value) && fresh(field.value.petals)
    ensures field.Some? ==> field.value.Valid() && field.value.Settled() && field.value.cfg == HOME
    ensures field.Some? ==> field.value.petals.Length == 40 && field.value.scale == Scale(dpr)
    ensures field.Some? ==> field.value.backingWidth == Backing(innerWidth, field.value.scale) &&
                            field.value.backingHeight == Backing(innerHeight, field.value.scale)
    ensures field.Some? ==> forall i :: 0 <= i < 40 ==>
      field.value.petals[i] == MakePetal(HOME, innerWidth, innerHeight, draws[i])
  {
    if !canvasPresent {
      return None;
    }
    var f := new PetalField(HOME, innerWidth, innerHeight, dpr, draws);
    field := Some(f);
  }

  /** `makePetal` on the home page: every attribute lands in its half-open range. */
  lemma MakePetalRanges(width: nat, height: nat, d: Draws)
    requires d.Valid()
    ensures var p := MakePetal(HOME, width, height, d);
      0.0 <= p.x <= width as real && (width > 0 ==> p.x < width as real) &&
      -(height as real) <= p.y <= 0.0 && (height > 0 ==> p.y < 0.0) &&
      3.0 <= p.size < 7.0 && 22.0 <= p.speedY < 44.0 && -6.0 <= p.speedX < 6.0 &&
      0.0 <= p.rotation < PI && -0.01 <= p.spin < 0.01 && -0.15 <= p.sway < 0.15
  {
    assert Drawn(HOME, MakePetal(HOME, width, height, d));
  }

  /** `resetPetal` on the home page: y is minus the old size, the rest redrawn from the same ranges. */
  lemma ResetPetalRanges(width: nat, p: Petal, d: Draws)
    requires d.Valid()
    ensures var q := Recycled(HOME, width, p, d);
      q.y == -p.size &&
      0.0 <= q.x <= width as real && (width > 0 ==> q.x < width as real) &&
      3.0 <= q.size < 7.0 && 22.0 <= q.speedY < 44.0 && -6.0 <= q.speedX < 6.0 &&
      0.0 <= q.rotation < PI && -0.01 <= q.spin < 0.01 && -0.15 <= q.sway < 0.15
  {
    assert Drawn(HOME, Recycled(HOME, width, p, d));
  }

  /** An 800 x 600 viewport at pixel ratio 3 gets a 1200 x 900 backing surface: the ratio is capped at 1.5. */
  lemma ResizeExample()
    ensures Scale(Some(3.0)) == 1.5
    ensures Backing(800, Scale(Some(3.0))) == 1200 && Backing(600, Scale(Some(3.0))) == 900
    ensures Scale(None) == 1.0 && Backing(800, Scale(None)) == 800
  {
    assert (800.0 * 1.5).Floor == 1200;
    assert (600.0 * 1.5).Floor == 900;
  }

  /** A petal of size 5 at y = -5 falling at 30 px/s, without drift or sway. */
  const FALLING: Petal := Petal(x := 100.0, y := -5.0, size := 5.0, speedY := 30.0, speedX := 0.0,
                                rotation := 0.0, spin := 0.0, sway := 0.0)

  /**
   * Frames of one second in a 200 x 100 viewport: the petal is at y = 25
   * after one frame and at y = 85 after three; in the fourth it reaches
   * y = 115, past height + size = 105, and is recycled to y = -5, minus
   * its size before the reset, whatever new size is drawn.
   */
  lemma FallScenario(sin: real -> real, d: Draws)
    ensures Step(HOME, 200, 100, 1000.0, sin, FALLING, d).y == 25.0
    ensures var p3 := Run(HOME, 200, 100, [1000.0, 1000.0, 1000.0], sin, FALLING, [d, d, d]);
      p3.y == 85.0 && p3.size == 5.0 &&
      Step(HOME, 200, 100, 1000.0, sin, p3, d) == Recycled(HOME, 200, p3, d) &&
      Step(HOME, 200, 100, 1000.0, sin, p3, d).y == -5.0
  {
    var frames, ds := [1000.0, 1000.0, 1000.0], [d, d, d];
    var p1 := FALLING.(y := 25.0);
    var p2 := FALLING.(y := 55.0);
    var p3 := FALLING.(y := 85.0);
    FallOneSecond(FALLING, sin, d);
    FallOneSecond(p1, sin, d);
    FallOneSecond(p2, sin, d);
    assert frames[1..][1..] == [1000.0] && ds[1..][1..] == [d];
    assert Run(HOME, 200, 100, [1000.0], sin, p2, [d]) == p3;
    assert Run(HOME, 200, 100, frames[1..], sin, p1, ds[1..]) == p3;
    assert Advance(p3, 1000.0, sin) == FALLING.(y := 115.0);
  }

  /** While its top stays above the bottom edge, the petal simply falls 30 px in a one-second frame. */
  lemma FallOneSecond(p: Petal, sin: real -> real, d: Draws)
    requires p == FALLING.(y := p.y) && p.y <= 70.0
    ensures Step(HOME, 200, 100, 1000.0, sin, p, d) == p.(y := p.y + 30.0)
  {
    assert Advance(p, 1000.0, sin) == p.(y := p.y + 30.0);
  }

  /**
   * A petal beyond the left edge (x = -6 < -size = -5) in a 200-wide
   * viewport wraps to x = width + size = 205 and keeps every other field.
   */
  lemma WrapScenario(sin: real -> real, d: Draws)
    ensures var p := FALLING.(x := -6.0, y := 50.0);
      Step(HOME, 200, 100, 0.0, sin, p, d) == p.(x := 205.0)
  {
    var p := FALLING.(x := -6.0, y := 50.0);
    assert Advance(p, 0.0, sin) == p;
  }
}
