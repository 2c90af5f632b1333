// The two string operations the aggregation applies to category names:
// Kotlin's `String.lowercase()` (grouping key) and
// `replaceFirstChar { it.uppercase() }` (display name). Case mapping is given
// for the letters A-Z and the basic Cyrillic alphabet (А-Я, а-я); every other
// character maps to itself.

module Text {

  const LATIN_A := 'A'
  const LATIN_Z := 'Z'
  const CYRILLIC_A := '\U{0410}'     // А
  const CYRILLIC_YA := '\U{042F}'    // Я
  const CYRILLIC_IO := '\U{0401}'    // Ё
  const CYRILLIC_SMALL_IO := '\U{0451}'  // ё

  predicate IsUpper(c: char)
  {
    (LATIN_A <= c <= LATIN_Z) || (CYRILLIC_A <= c <= CYRILLIC_YA) || c == CYRILLIC_IO
  }

  predicate IsLower(c: char)
  {
    ('a' <= c <= 'z') || ('\U{0430}' <= c <= '\U{044F}') || c == CYRILLIC_SMALL_IO
  }

  function LowerChar(c: char): (r: char)
    ensures !IsUpper(r)
    ensures IsUpper(c) ==> IsLower(r)
    ensures !IsUpper(c) ==> r == c
  {
    if LATIN_A <= c <= LATIN_Z || CYRILLIC_A <= c <= CYRILLIC_YA then (c as int + 32) as char
    else if c == CYRILLIC_IO then CYRILLIC_SMALL_IO
    else c
  }

  function UpperChar(c: char): (r: char)
    ensures !IsLower(r)
    ensures IsLower(c) ==> IsUpper(r) && LowerChar(r) == c
    ensures !IsLower(c) ==> r == c
  {
    if 'a' <= c <= 'z' || '\U{0430}' <= c <= '\U{044F}' then (c as int - 32) as char
    else if c == CYRILLIC_SMALL_IO then CYRILLIC_IO
    else c
  }

  /** `String.lowercase()`: the grouping key of a category. */
  function Lower(s: string): (r: string)
    ensures |r| == |s|
    ensures forall i :: 0 <= i < |s| ==> r[i] == LowerChar(s[i])
  {
    seq(|s|, i requires 0 <= i < |s| => LowerChar(s[i]))
  }

  /** A string in which no character is an upper-case letter, as `Lower` yields. */
  predicate IsLowered(s: string)
  {
    forall i :: 0 <= i < |s| ==> !IsUpper(s[i])
  }

  /** `replaceFirstChar { it.uppercase() }`: the display name of a category. */
  function Capitalize(s: string): (r: string)
    ensures |r| == |s| && (|s| > 0 ==> r[1..] == s[1..])
  {
    if s == [] then s else [UpperChar(s[0])] + s[1..]
  }

  /** Lowering is idempotent and yields a lowered string. */
  lemma {:induction false} LowerIsLowered(s: string)
    ensures IsLowered(Lower(s)) && Lower(Lower(s)) == Lower(s)
  {
  }

  /** Capitalizing loses nothing on lowered strings: two different grouping
      keys always get two different display names, and lowering the display
      name gives the key back. */
  lemma {:induction false} CapitalizeInjective(a: string, b: string)
    requires IsLowered(a) && IsLowered(b)
    ensures Capitalize(a) == Capitalize(b) <==> a == b
    ensures Lower(Capitalize(a)) == a
  {
    if Capitalize(a) == Capitalize(b) && a != [] {
      assert b != [];
      assert UpperChar(a[0]) == Capitalize(a)[0] == Capitalize(b)[0] == UpperChar(b[0]);
      assert a[0] == b[0];
      assert a == [a[0]] + a[1..] && b == [b[0]] + b[1..];
    }
    var c := Capitalize(a);
    assert forall i :: 0 <= i < |a| ==> LowerChar(c[i]) == a[i] by {
      forall i | 0 <= i < |a| ensures LowerChar(c[i]) == a[i] {
        if i > 0 { assert c[i] == c[1..][i - 1] == a[1..][i - 1]; }
      }
    }
  }
}
