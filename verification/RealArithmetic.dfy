/** Order facts about real products and quotients, one operator at a time. */
module RealArithmetic {

  lemma MulOrder(a: real, x: real, y: real)
    requires a >= 0.0 && x <= y
    ensures a * x <= a * y
  {
  }

  lemma MulOrderStrict(a: real, x: real, y: real)
    requires a > 0.0 && x < y
    ensures a * x < a * y
  {
  }

  lemma MulReflects(w: real, x: real, y: real)
    requires w > 0.0
    ensures w * x <= w * y ==> x <= y
  {
    if x > y {
      assert w * (x - y) > 0.0;
    }
  }

  lemma DivOrder(x: real, y: real, w: real)
    requires w > 0.0 && x <= y
    ensures x / w <= y / w
  {
    assert w * (x / w) == x && w * (y / w) == y;
    MulReflects(w, x / w, y / w);
  }

  lemma DivSelf(w: real)
    requires w != 0.0
    ensures w / w == 1.0 && 0.0 / w == 0.0
  {
  }

  lemma DivBack(x: real, w: real)
    requires w != 0.0
    ensures x * w / w == x
  {
  }

  /** A product by name, so that equal factors give equal products without arithmetic. */
  function Times(x: real, y: real): real {
    x * y
  }

  lemma TimesOrder(f: real, g: real, d: real)
    requires f <= g && d >= 0.0
    ensures Times(f, d) <= Times(g, d)
  {
    assert (g - f) * d >= 0.0;
  }

  lemma TimesEnds(d: real)
    ensures Times(0.0, d) == 0.0 && Times(1.0, d) == d
  {
  }
}
