/**
 * The two string operations the search boxes use: `toLowerCase` (on ASCII
 * letters) and `String.prototype.includes`.
 */
module Text {

  function LowerChar(c: char): char {
    if 'A' <= c <= 'Z' then (c as int + 32) as char else c
  }

  /** `s.toLowerCase()` restricted to ASCII letters; every other character is kept. */
  function ToLower(s: string): (r: string)
    ensures |r| == |s|
    ensures forall i :: 0 <= i < |s| ==> r[i] == LowerChar(s[i])
  {
    if s == [] then [] else [LowerChar(s[0])] + ToLower(s[1..])
  }

  /** Lower-casing twice is lower-casing once. */
  lemma ToLowerIdempotent(s: string)
    ensures ToLower(ToLower(s)) == ToLower(s)
  {
    var once := ToLower(s);
    assert forall i :: 0 <= i < |s| ==> LowerChar(once[i]) == once[i];
  }

  /** `needle` occurs in `hay` starting at index `i`. */
  predicate OccursAt(hay: string, needle: string, i: int) {
    0 <= i && i + |needle| <= |hay| && hay[i..i + |needle|] == needle
  }

  /** `hay.includes(needle)`, scanning start positions from the left. */
  function Includes(hay: string, needle: string): (r: bool)
    ensures r <==> exists i :: OccursAt(hay, needle, i)
  {
    if |needle| > |hay| then
      assert forall i :: !OccursAt(hay, needle, i);
      false
    else if hay[..|needle|] == needle then
      assert OccursAt(hay, needle, 0);
      true
    else
      var rest := Includes(hay[1..], needle);
      ShiftOccurrence(hay, needle);
      rest
  }

  /** An occurrence past index 0 is an occurrence in the tail. */
  lemma ShiftOccurrence(hay: string, needle: string)
    requires hay != [] && !OccursAt(hay, needle, 0)
    ensures (exists i :: OccursAt(hay, needle, i)) <==> (exists i :: OccursAt(hay[1..], needle, i))
  {
    forall i | OccursAt(hay, needle, i) ensures OccursAt(hay[1..], needle, i - 1) {
      assert hay[1..][i - 1..i - 1 + |needle|] == hay[i..i + |needle|];
    }
    forall i | OccursAt(hay[1..], needle, i) ensures OccursAt(hay, needle, i + 1) {
      assert hay[1..][i..i + |needle|] == hay[i + 1..i + 1 + |needle|];
    }
  }

  /** Every string includes the empty string, so an empty search keeps everything. */
  lemma IncludesEmpty(hay: string)
    ensures Includes(hay, "")
  {
    assert OccursAt(hay, "", 0);
  }
}
