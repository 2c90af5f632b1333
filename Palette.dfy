// The chart's colour palette. Its initialiser draws random opaque colours
// (`Color.argb(255, r, g, b)` with each channel from `nextInt(256)`) and
// retries every draw whose colour is already in the palette. The random
// generator is an input here: the finite stream of channel triples it yields.

module Palette {
  import opened Sorting

  const TWO_31: int := 0x8000_0000
  const TWO_32: int := 0x1_0000_0000

  /** One draw of three `nextInt(256)` values. */
  datatype Rgb = Rgb(red: int, green: int, blue: int)

  predicate IsChannel(v: int)
  {
    0 <= v < 256
  }

  predicate ValidDraw(d: Rgb)
  {
    IsChannel(d.red) && IsChannel(d.green) && IsChannel(d.blue)
  }

  /** `Color.argb`: the four channels packed into a signed 32-bit `Int`. */
  function Argb(alpha: int, red: int, green: int, blue: int): (c: int)
    requires IsChannel(alpha) && IsChannel(red) && IsChannel(green) && IsChannel(blue)
    ensures -TWO_31 <= c < TWO_31
    ensures (c + TWO_32) % TWO_32 == alpha * 0x100_0000 + red * 0x1_0000 + green * 0x100 + blue
  {
    var v := alpha * 0x100_0000 + red * 0x1_0000 + green * 0x100 + blue;
    if v >= TWO_31 then v - TWO_32 else v
  }

  /** `Color.WHITE`. */
  const WHITE: int := Argb(255, 255, 255, 255)
  /** `Color.BLACK`, the colour of a fresh `Paint`. */
  const BLACK: int := Argb(255, 0, 0, 0)

  /** The colour a draw produces. */
  function Opaque(d: Rgb): int
    requires ValidDraw(d)
  {
    Argb(255, d.red, d.green, d.blue)
  }

  /** An opaque colour is never 0 (the value of a palette slot not yet
      filled), and different draws give different colours. */
  lemma {:induction false} OpaqueInjective(d: Rgb, e: Rgb)
    requires ValidDraw(d) && ValidDraw(e)
    ensures Opaque(d) != 0
    ensures Opaque(d) == Opaque(e) <==> d == e
  {
  }

  predicate AllValid(draws: seq<Rgb>)
  {
    forall j :: 0 <= j < |draws| ==> ValidDraw(draws[j])
  }

  /** The colours the stream yields, each once, in order of first draw. */
  function Fresh(draws: seq<Rgb>): seq<int>
    requires AllValid(draws)
  {
    if draws == [] then []
    else
      var init := draws[..|draws| - 1];
      var c := Opaque(draws[|draws| - 1]);
      var prev := Fresh(init);
      if c in prev then prev else prev + [c]
  }

  /** No colour is accepted twice. */
  lemma {:induction false} FreshDistinct(draws: seq<Rgb>)
    requires AllValid(draws)
    ensures Distinct(Fresh(draws))
  {
    if draws != [] {
      FreshDistinct(draws[..|draws| - 1]);
    }
  }

  /** The accepted colours are exactly the colours drawn. */
  lemma {:induction false} FreshMembers(draws: seq<Rgb>)
    requires AllValid(draws)
    ensures forall c :: c in Fresh(draws) <==> exists j :: 0 <= j < |draws| && Opaque(draws[j]) == c
  {
    if draws != [] {
      var init := draws[..|draws| - 1];
      FreshMembers(init);
      assert forall j :: 0 <= j < |init| ==> init[j] == draws[j];
    }
  }

  /** The colours accepted after `k` draws lead the colours accepted after
      all of them. */
  lemma {:induction false} FreshPrefix(draws: seq<Rgb>, k: nat)
    requires AllValid(draws) && k <= |draws|
    ensures Fresh(draws[..k]) <= Fresh(draws)
  {
    if k < |draws| {
      var init := draws[..|draws| - 1];
      assert draws[..k] == init[..k];
      FreshPrefix(init, k);
    } else {
      assert draws[..k] == draws;
    }
  }

  /** One more draw adds its colour unless the colour is already there. */
  lemma {:induction false} FreshStep(draws: seq<Rgb>, k: nat)
    requires AllValid(draws) && k < |draws|
    ensures var prev, c := Fresh(draws[..k]), Opaque(draws[k]);
      Fresh(draws[..k + 1]) == if c in prev then prev else prev + [c]
  {
    assert draws[..k + 1][..k] == draws[..k];
  }
}
