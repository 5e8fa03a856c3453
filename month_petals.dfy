/** The petal field of a month page: the engine with the 35-petal preset. */
module MonthPetals {
  import opened Optional
  import opened PetalEngine

  /** 35 petals; size 3 + 3.5r, speedY 20 + 20r, speedX (r - 0.5) * 10, sway (r - 0.5) * 0.25. */
  const MONTH: Config := Config(35, 3.0, 3.5, 20.0, 20.0, 10.0, 0.25)

  /**
   * `initPetals` on a month page: no canvas, no field; otherwise a field
   * of exactly 35 petals, scaled for the viewport, every petal in view.
   */
  method InitPetals(canvasPresent: bool, innerWidth: nat, innerHeight: nat, dpr: Option<real>,
                    draws: seq<Draws>) returns (field: Option<PetalField>)
    requires |draws| == MONTH.count && AllValid(draws)
    ensures field.Some? <==> canvasPresent
    ensures field.Some? ==> fresh(field.value) && fresh(field.value.petals)
    ensures field.Some? ==> field.value.Valid() && field.value.Settled() && field.value.cfg == MONTH
    ensures field.Some? ==> field.value.petals.Length == 35 && field.value.scale == Scale(dpr)
    ensures field.Some? ==> field.value.backingWidth == Backing(innerWidth, field.value.scale) &&
                            field.value.backingHeight == Backing(innerHeight, field.value.scale)
    ensures field.Some? ==> forall i :: 0 <= i < 35 ==>
      field.value.petals[i] == MakePetal(MONTH, innerWidth, innerHeight, draws[i])
  {
    if !canvasPresent {
      return None;
    }
    var f := new PetalField(MONTH, innerWidth, innerHeight, dpr, draws);
    field := Some(f);
  }

  /** `makePetal` on a month page: every attribute lands in its half-open range. */
  lemma MakePetalRanges(width: nat, height: nat, d: Draws)
    requires d.Valid()
    ensures var p := MakePetal(MONTH, width, height, d);
      0.0 <= p.x <= width as real && (width > 0 ==> p.x < width as real) &&
      -(height as real) <= p.y <= 0.0 && (height > 0 ==> p.y < 0.0) &&
      3.0 <= p.size < 6.5 && 20.0 <= p.speedY < 40.0 && -5.0 <= p.speedX < 5.0 &&
      0.0 <= p.rotation < PI && -0.01 <= p.spin < 0.01 && -0.125 <= p.sway < 0.125
  {
    assert Drawn(MONTH, MakePetal(MONTH, width, height, d));
  }

  /** `resetPetal` on a month page: y is minus the old size, the rest redrawn from the same ranges. */
  lemma ResetPetalRanges(width: nat, p: Petal, d: Draws)
    requires d.Valid()
    ensures var q := Recycled(MONTH, width, p, d);
      q.y == -p.size &&
      0.0 <= q.x <= width as real && (width > 0 ==> q.x < width as real) &&
      3.0 <= q.size < 6.5 && 20.0 <= q.speedY < 40.0 && -5.0 <= q.speedX < 5.0 &&
      0.0 <= q.rotation < PI && -0.01 <= q.spin < 0.01 && -0.125 <= q.sway < 0.125
  {
    assert Drawn(MONTH, Recycled(MONTH, width, p, d));
  }

  /**
   * The boundary policy of the month page keeps the same closed invariant:
   * a petal drawn from this preset stays in view and in range after any
   * number of frames (at least one) in a fixed viewport.
   */
  lemma FramesKeepInView(width: nat, height: nat, deltas: seq<real>, sin: real -> real,
                         d0: Draws, draws: seq<Draws>)
    requires d0.Valid() && |draws| == |deltas| && AllValid(draws)
    ensures var q := Run(MONTH, width, height, deltas, sin, MakePetal(MONTH, width, height, d0), draws);
      InView(width, height, q) && 3.0 <= q.size < 6.5 && -0.125 <= q.sway < 0.125
  {
    var p := MakePetal(MONTH, width, height, d0);
    assert Drawn(MONTH, p);
    RunKeepsInvariant(MONTH, width, height, deltas, sin, p, draws);
  }
}
