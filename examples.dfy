/**
 * Worked inputs of the coordinates-to-STAR command and what it selects and
 * emits for them.
 */
module Examples {
  import opened Names
  import opened Filtering
  import opened CoordinatesToStar

  /** Options with every metadata column off and the default threshold. */
  function Defaults(prefixIgnore: int, suffixIgnore: int, outputLen: int): Options
  {
    Options(".mrc", -1.0, -1.0, -1.0, -1.0, -1.0, -1.0, -1.0, -1.0,
            NegInfinity, prefixIgnore, suffixIgnore, outputLen)
  }

  /** Dropping two leading and four trailing characters turns
      `mic0001.mrc_img` into `c0001.mrc` (nine characters, not seven) and
      `ABmic0002_img` into `mic0002`. */
  lemma TrimmedExamples()
    ensures ChangeName("mic0001.mrc_img", 2, 4) == "c0001.mrc"
    ensures ChangeName("ABmic0002_img", 2, 4) == "mic0002"
    ensures ChangeName("abcdefgh", 0, 0) == "abcdefgh"
  {
  }

  /** The scored table of two picks, with prefix 2 and suffix 4 trimmed. */
  function TwoPicks(): Table
  {
    Table([Row("mic0001.mrc_img", 10.0, 20.0, 0.9), Row("ABmic0002_img", 5.0, 7.0, 0.1)], true)
  }

  /** With an output length of seven, the first pick fails the length filter
      and the second the score threshold of 0.5: nothing survives. */
  lemma TwoPicksLengthSeven()
    ensures Survivors(TwoPicks(), Defaults(2, 4, 7).(threshold := AtLeast(0.5))) == []
  {
    var table, opts := TwoPicks(), Defaults(2, 4, 7).(threshold := AtLeast(0.5));
    TrimmedExamples();
    assert |TrimmedName(table.rows[0], opts)| == 9;
    assert |TrimmedName(table.rows[1], opts)| == 7;
    assert table.rows[..1] == [table.rows[0]];
    assert Filter(table.rows[..1], LengthMatches(opts)) == [];
    assert Filter(table.rows, LengthMatches(opts)) == [table.rows[1]];
  }

  /** With an output length of nine, only the first pick survives. */
  lemma TwoPicksLengthNine()
    ensures Survivors(TwoPicks(), Defaults(2, 4, 9).(threshold := AtLeast(0.5))) == [TwoPicks().rows[0]]
  {
    var table, opts := TwoPicks(), Defaults(2, 4, 9).(threshold := AtLeast(0.5));
    TrimmedExamples();
    assert |TrimmedName(table.rows[0], opts)| == 9;
    assert |TrimmedName(table.rows[1], opts)| == 7;
    assert table.rows[..1] == [table.rows[0]];
    assert Filter(table.rows[..1], LengthMatches(opts)) == [table.rows[0]];
    assert Filter(table.rows, LengthMatches(opts)) == [table.rows[0]];
  }
}
