/**
 * The Python string operations the pipeline uses: `str.find`, `str.rfind`,
 * slicing with non-negative bounds, substring containment, and the
 * concatenation an f-string performs.
 */
module PyStr {

  /** `s.find(c)`: the index of the first `c` in `s`, or -1 when there is none. */
  function Find(s: string, c: char): (r: int)
    ensures -1 <= r < |s|
    ensures r == -1 <==> c !in s
    ensures 0 <= r ==> s[r] == c && c !in s[..r]
  {
    if |s| == 0 then -1
    else if s[0] == c then 0
    else
      var k := Find(s[1..], c);
      if k == -1 then -1
      else
        assert s[..k + 1] == [s[0]] + s[1..][..k];
        k + 1
  }

  /** `s.rfind(c)`: the index of the last `c` in `s`, or -1 when there is none. */
  function RFind(s: string, c: char): (r: int)
    ensures -1 <= r < |s|
    ensures r == -1 <==> c !in s
    ensures 0 <= r ==> s[r] == c && c !in s[r + 1..]
  {
    if |s| == 0 then -1
    else if s[|s| - 1] == c then |s| - 1
    else
      var init := s[..|s| - 1];
      var k := RFind(init, c);
      if k == -1 then
        assert s == init + [s[|s| - 1]];
        -1
      else
        assert s[k + 1..] == init[k + 1..] + [s[|s| - 1]];
        k
  }

  /**
   * `s[i:j]` for non-negative bounds: both bounds are clipped to the length,
   * and a slice whose start is not before its end is empty.
   */
  function Slice(s: string, i: nat, j: nat): (r: string)
    ensures |r| == if i < j && i < |s| then (if j < |s| then j else |s|) - i else 0
    ensures forall k :: 0 <= k < |r| ==> r[k] == s[i + k]
  {
    var hi := if j < |s| then j else |s|;
    if i < hi then s[i..hi] else []
  }

  /** `needle` occurs in `hay` starting at index `k`. */
  predicate OccursAt(hay: string, needle: string, k: nat) {
    k + |needle| <= |hay| && hay[k..k + |needle|] == needle
  }

  /** `needle in hay` for strings: `needle` occurs as a contiguous part of `hay`. */
  ghost predicate Contains(hay: string, needle: string) {
    exists k: nat :: OccursAt(hay, needle, k)
  }

  /** The text made of `parts` one after the other, as an f-string builds it. */
  function Concat(parts: seq<string>): string {
    if parts == [] then [] else parts[0] + Concat(parts[1..])
  }

  /** Every part of a concatenation occurs in it. */
  lemma {:induction false} ConcatContainsPart(parts: seq<string>, i: nat)
    requires i < |parts|
    ensures Contains(Concat(parts), parts[i])
  {
    var whole, n := Concat(parts), parts[i];
    assert whole == parts[0] + Concat(parts[1..]);
    if i == 0 {
      assert OccursAt(whole, n, 0);
    } else {
      ConcatContainsPart(parts[1..], i - 1);
      var rest := Concat(parts[1..]);
      var k: nat :| OccursAt(rest, n, k);
      var m := |parts[0]| + k;
      assert whole[m..m + |n|] == rest[k..k + |n|];
      assert OccursAt(whole, n, m);
    }
  }
}
