/**
 * Image-name normalisation of the coordinates-to-STAR command: drop a fixed
 * number of leading characters, then a fixed number of trailing characters
 * of what is left.
 */
module Names {
  import PySlice

  function Max0(x: int): nat
  {
    if x < 0 then 0 else x
  }

  function Min(a: int, b: int): int
  {
    if a < b then a else b
  }

  /**
   * `change_name(name, prefix_ignore, suffix_ignore)`. Each trim happens only
   * when its count is positive; out-of-range counts give a shorter or empty
   * name, never an error. The result is the contiguous piece of `name` that
   * starts where the prefix ends and is as long as what neither trim removed.
   */
  function ChangeName(name: string, prefixIgnore: int, suffixIgnore: int): (r: string)
    ensures |r| == Max0(|name| - Max0(prefixIgnore) - Max0(suffixIgnore))
    ensures var start := Min(Max0(prefixIgnore), |name|);
            start + |r| <= |name| && r == name[start..start + |r|]
    ensures prefixIgnore <= 0 && suffixIgnore <= 0 ==> r == name
  {
    var name' := if prefixIgnore > 0 then PySlice.From(name, prefixIgnore) else name;
    if suffixIgnore > 0 then PySlice.Upto(name', -suffixIgnore) else name'
  }

  /** When the two counts fit in the name, exactly `p` characters go from the
      front and `s` from the back. */
  lemma ChangeNameWithinBounds(name: string, p: nat, s: nat)
    requires p + s <= |name|
    ensures ChangeName(name, p, s) == name[p..|name| - s]
  {
  }

  /** When the two counts together reach the length of the name, nothing is
      left, and no error is raised. */
  lemma ChangeNameOverflow(name: string, p: int, s: int)
    requires Max0(p) + Max0(s) >= |name|
    ensures ChangeName(name, p, s) == ""
  {
  }
}
