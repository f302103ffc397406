/**
 * What the coordinates-to-STAR command promises about its output table:
 * which input rows survive and in what order, where each output cell comes
 * from, and which columns appear, in what order, with what values.
 */
module StarProperties {
  import opened Names
  import opened Filtering
  import opened CoordinatesToStar

  // ---------------------------------------------------------------------
  // Rows

  /**
   * Filtering by length and then by score is one pass over the input with
   * the combined test, and every survivor passes both filters.
   */
  lemma SurvivorsFilterOnce(table: Table, opts: Options)
    ensures Survivors(table, opts) == Filter(table.rows, Keeps(table, opts))
    ensures forall row :: row in Survivors(table, opts) ==>
              |TrimmedName(row, opts)| == opts.outputLen &&
              (table.hasScore ==> Passes(row.score, opts.threshold))
  {
    if table.hasScore {
      FilterFilter(table.rows, LengthMatches(opts), ScorePasses(opts), Keeps(table, opts));
    } else {
      FilterCongruent(table.rows, LengthMatches(opts), Keeps(table, opts));
    }
  }

  /**
   * Survivor `i` is input row `idx[i]`; the positions `idx` increase, so the
   * input order is kept; and an input row survives exactly when its trimmed
   * name has length `output_len` and, with a score column, its score passes.
   */
  lemma SurvivorsCorrespond(table: Table, opts: Options)
    ensures var rows, idx := Survivors(table, opts), KeptIndices(table.rows, Keeps(table, opts));
            |idx| == |rows| &&
            (forall i :: 0 <= i < |idx| ==> idx[i] < |table.rows| && rows[i] == table.rows[idx[i]]) &&
            (forall i, j :: 0 <= i < j < |idx| ==> idx[i] < idx[j]) &&
            (forall j :: 0 <= j < |table.rows| ==>
               (j in idx <==>
                  |TrimmedName(table.rows[j], opts)| == opts.outputLen &&
                  (!table.hasScore || Passes(table.rows[j].score, opts.threshold))))
  {
    SurvivorsFilterOnce(table, opts);
    FilterAtIndices(table.rows, Keeps(table, opts));
    KeptIndicesIncreasing(table.rows, Keeps(table, opts));
    KeptIndicesExact(table.rows, Keeps(table, opts));
  }

  /**
   * The score filter never adds rows and the length filter never adds rows;
   * no row is lost exactly when every row passes; and with no score column,
   * or with the default threshold, only the length filter acts.
   */
  lemma RowCounts(table: Table, opts: Options)
    ensures var byLength := Filter(table.rows, LengthMatches(opts));
            |Survivors(table, opts)| <= |byLength| <= |table.rows|
    ensures |Survivors(table, opts)| == |table.rows| <==>
            forall i :: 0 <= i < |table.rows| ==>
              |TrimmedName(table.rows[i], opts)| == opts.outputLen &&
              (!table.hasScore || Passes(table.rows[i].score, opts.threshold))
    ensures !table.hasScore || opts.threshold == NegInfinity ==>
            Survivors(table, opts) == Filter(table.rows, LengthMatches(opts))
  {
    SurvivorsFilterOnce(table, opts);
    FilterKeepsAll(table.rows, Keeps(table, opts));
    if table.hasScore && opts.threshold == NegInfinity {
      FilterKeepsAll(Filter(table.rows, LengthMatches(opts)), ScorePasses(opts));
    }
  }

  /**
   * The names emitted come from the second trimming pass over the survivors;
   * that pass gives each survivor the name the first pass gave its input
   * row, which has exactly `output_len` characters.
   */
  lemma SecondPassAgrees(table: Table, opts: Options)
    ensures var first, second := TrimmedNames(table.rows, opts), TrimmedNames(Survivors(table, opts), opts);
            var idx := KeptIndices(table.rows, Keeps(table, opts));
            |second| == |idx| &&
            forall i :: 0 <= i < |idx| ==>
              idx[i] < |first| && second[i] == first[idx[i]] && |second[i]| == opts.outputLen
  {
    SurvivorsCorrespond(table, opts);
    SurvivorsFilterOnce(table, opts);
    var rows := Survivors(table, opts);
    assert forall i :: 0 <= i < |rows| ==> rows[i] in rows;
  }

  // ---------------------------------------------------------------------
  // Columns

  /** The headers of a list of settings. */
  function HeadersOf(settings: seq<(string, real)>): seq<string>
  {
    seq(|settings|, i requires 0 <= i < |settings| => settings[i].0)
  }

  /** Adding the optional metadata columns one setting after the other
      appends a constant column for every setting that is on, in order. */
  lemma {:induction false} AddEnabledAppends(columns: seq<Column>, settings: seq<(string, real)>, n: nat)
    ensures AddEnabled(columns, settings, n) == columns + Broadcasts(Filter(settings, IsOn), n)
    decreases settings
  {
    if settings != [] {
      var first, rest := settings[0], settings[1..];
      var opt := Optional(first.0, first.1, n);
      var tail := Broadcasts(Filter(rest, IsOn), n);
      AddEnabledAppends(columns + opt, rest, n);
      FilterCons(settings, IsOn);
      BroadcastsAppend(if IsOn(first) then [first] else [], Filter(rest, IsOn), n);
      assert Broadcasts(if IsOn(first) then [first] else [], n) == opt;
      assert (columns + opt) + tail == columns + (opt + tail);
    }
  }

  lemma BroadcastsAppend(a: seq<(string, real)>, b: seq<(string, real)>, n: nat)
    ensures Broadcasts(a + b, n) == Broadcasts(a, n) + Broadcasts(b, n)
  {
  }

  lemma HeadersAppend(a: seq<Column>, b: seq<Column>)
    ensures Headers(a + b) == Headers(a) + Headers(b)
  {
  }

  lemma BroadcastsHeaders(settings: seq<(string, real)>, n: nat)
    ensures Headers(Broadcasts(settings, n)) == HeadersOf(settings)
  {
  }

  lemma RowColumnsHeaders(rows: seq<Row>, hasScore: bool, opts: Options)
    ensures Headers(RowColumns(rows, hasScore, opts))
         == ["MicrographName", "CoordinateX", "CoordinateY"]
          + (if hasScore then ["ParticleScore"] else [])
  {
  }

  /** The output columns: the row columns, then a constant column for each
      metadata option that is on. */
  lemma StarColumns(table: Table, opts: Options)
    ensures var rows := Survivors(table, opts);
            Star(table, opts).columns
              == RowColumns(rows, table.hasScore, opts)
               + Broadcasts(Filter(MetadataSettings(opts), IsOn), |rows|)
  {
    var rows := Survivors(table, opts);
    AddEnabledAppends(RowColumns(rows, table.hasScore, opts), MetadataSettings(opts), |rows|);
  }

  /**
   * The output columns are `MicrographName`, `CoordinateX`, `CoordinateY`,
   * then `ParticleScore` when the input has a score column, then the headers
   * of the metadata options that are on, in their fixed order.
   */
  lemma ColumnOrder(table: Table, opts: Options)
    ensures Headers(Star(table, opts).columns)
         == ["MicrographName", "CoordinateX", "CoordinateY"]
          + (if table.hasScore then ["ParticleScore"] else [])
          + HeadersOf(Filter(MetadataSettings(opts), IsOn))
  {
    var rows := Survivors(table, opts);
    var base := RowColumns(rows, table.hasScore, opts);
    var meta := Broadcasts(Filter(MetadataSettings(opts), IsOn), |rows|);
    StarColumns(table, opts);
    HeadersAppend(base, meta);
    BroadcastsHeaders(Filter(MetadataSettings(opts), IsOn), |rows|);
    RowColumnsHeaders(rows, table.hasScore, opts);
  }

  /** The metadata headers differ from each other and from the four row
      headers. */
  lemma MetadataHeadersDistinct(opts: Options)
    ensures var s := MetadataSettings(opts);
            (forall i, j :: 0 <= i < j < |s| ==> s[i].0 != s[j].0) &&
            (forall i :: 0 <= i < |s| ==>
               s[i].0 !in ["MicrographName", "CoordinateX", "CoordinateY", "ParticleScore"])
  {
  }

  /** A `ParticleScore` column is emitted exactly when the input has a score
      column. */
  lemma ScoreColumnPresence(table: Table, opts: Options)
    ensures "ParticleScore" in Headers(Star(table, opts).columns) <==> table.hasScore
  {
    ColumnOrder(table, opts);
    MetadataHeadersDistinct(opts);
    var s := MetadataSettings(opts);
    var on := Filter(s, IsOn);
    forall i | 0 <= i < |on|
      ensures HeadersOf(on)[i] != "ParticleScore"
    {
      assert on[i] in s;
    }
  }

  /**
   * In `base` followed by a constant column for each setting that is on,
   * where no header of `base` is a setting header and the setting headers
   * are distinct: setting `k` has a column exactly when it is on, and every
   * column under its header holds its value in each of `n` cells.
   */
  lemma {:induction false} EnabledColumnLookup(base: seq<Column>, settings: seq<(string, real)>, n: nat, k: nat)
    requires k < |settings|
    requires forall i, j :: 0 <= i < j < |settings| ==> settings[i].0 != settings[j].0
    requires forall c :: c in base ==> c.header != settings[k].0
    ensures var cols := base + Broadcasts(Filter(settings, IsOn), n);
            (settings[k].0 in Headers(cols) <==> settings[k].1 >= 0.0) &&
            (forall c :: c in cols && c.header == settings[k].0 ==> c == Broadcast(settings[k].0, settings[k].1, n))
  {
    var on := Filter(settings, IsOn);
    var cols := base + Broadcasts(on, n);
    FilterMembership(settings, IsOn, settings[k]);
    forall c | c in cols && c.header == settings[k].0
      ensures c == Broadcast(settings[k].0, settings[k].1, n)
    {
      var j :| 0 <= j < |cols| && cols[j] == c;
      var m := on[j - |base|];
      assert m in settings;
      var k' :| 0 <= k' < |settings| && settings[k'] == m;
    }
    if settings[k].1 >= 0.0 {
      var i :| 0 <= i < |on| && on[i] == settings[k];
      assert Headers(cols)[|base| + i] == settings[k].0;
    }
    if settings[k].0 in Headers(cols) {
      var j :| 0 <= j < |cols| && Headers(cols)[j] == settings[k].0;
      var m := on[j - |base|];
      assert m in settings && IsOn(m);
      var k' :| 0 <= k' < |settings| && settings[k'] == m;
    }
  }

  /**
   * Metadata option `k` has a column exactly when its value is not below
   * zero, and any column under its header holds that value in every row.
   */
  lemma MetadataColumnPresence(table: Table, opts: Options, k: nat)
    requires k < |MetadataSettings(opts)|
    ensures var (header, value) := MetadataSettings(opts)[k];
            var star := Star(table, opts);
            (header in Headers(star.columns) <==> value >= 0.0) &&
            (forall c :: c in star.columns && c.header == header ==>
               |c.cells| == |Survivors(table, opts)| &&
               forall i :: 0 <= i < |c.cells| ==> c.cells[i] == Num(value))
  {
    var s := MetadataSettings(opts);
    var rows := Survivors(table, opts);
    var base := RowColumns(rows, table.hasScore, opts);
    StarColumns(table, opts);
    MetadataHeadersDistinct(opts);
    EnabledColumnLookup(base, s, |rows|, k);
  }

  /** Every output column has one cell per surviving row. */
  lemma StarRectangular(table: Table, opts: Options)
    ensures forall c :: c in Star(table, opts).columns ==> |c.cells| == |Survivors(table, opts)|
  {
    StarColumns(table, opts);
  }

  /** The row columns of a sequence of rows, cell by cell. */
  lemma RowColumnsCells(rows: seq<Row>, hasScore: bool, opts: Options)
    ensures var cols := RowColumns(rows, hasScore, opts);
            |cols| == (if hasScore then 4 else 3) &&
            (forall c :: c in cols ==> |c.cells| == |rows|) &&
            forall i :: 0 <= i < |rows| ==>
              cols[0].cells[i] == Text(TrimmedName(rows[i], opts) + opts.imageExt) &&
              cols[1].cells[i] == Num(rows[i].x) &&
              cols[2].cells[i] == Num(rows[i].y) &&
              (hasScore ==> cols[3].cells[i] == Num(rows[i].score))
  {
  }

  /**
   * Output row `i` is built from input row `idx[i]`: its `MicrographName` is
   * that row's trimmed name followed by the image extension (so
   * `output_len + |image_ext|` characters), its coordinates and score are
   * that row's, and that score passes the threshold.
   */
  lemma StarRows(table: Table, opts: Options)
    ensures var rows, cols := Survivors(table, opts), Star(table, opts).columns;
            var idx := KeptIndices(table.rows, Keeps(table, opts));
            |cols| >= 3 && |idx| == |rows| &&
            (table.hasScore ==> |cols| >= 4) &&
            forall i :: 0 <= i < |rows| ==>
              idx[i] < |table.rows| &&
              |cols[0].cells| == |cols[1].cells| == |cols[2].cells| == |rows| &&
              cols[0].cells[i]
                == Text(ChangeName(table.rows[idx[i]].imageName, opts.prefixIgnore, opts.suffixIgnore)
                        + opts.imageExt) &&
              |cols[0].cells[i].text| == opts.outputLen + |opts.imageExt| &&
              cols[1].cells[i] == Num(table.rows[idx[i]].x) &&
              cols[2].cells[i] == Num(table.rows[idx[i]].y) &&
              (table.hasScore ==>
                 |cols[3].cells| == |rows| &&
                 cols[3].cells[i] == Num(table.rows[idx[i]].score) &&
                 Passes(table.rows[idx[i]].score, opts.threshold))
  {
    var rows := Survivors(table, opts);
    var base := RowColumns(rows, table.hasScore, opts);
    var cols := Star(table, opts).columns;
    StarColumns(table, opts);
    RowColumnsCells(rows, table.hasScore, opts);
    SurvivorsCorrespond(table, opts);
    SurvivorsFilterOnce(table, opts);
    assert forall j :: 0 <= j < |base| ==> cols[j] == base[j] && base[j] in base;
    assert forall i :: 0 <= i < |rows| ==> rows[i] in rows;
  }
}
