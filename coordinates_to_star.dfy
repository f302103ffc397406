/**
 * The coordinates-to-STAR command: a table of picked particles (one row per
 * particle, with the image it was picked in, its coordinates and optionally a
 * score) becomes a STAR table with a fixed column schema.
 *
 * Rows are kept when their trimmed image name has exactly the required
 * length and, when the table has a score column, when their score reaches
 * the threshold. The survivors become rows of `MicrographName` (trimmed
 * name plus image extension), `CoordinateX`, `CoordinateY`, `ParticleScore`
 * (only with a score column), followed by up to eight constant metadata
 * columns, each present only when its option is non-negative.
 */
module CoordinatesToStar {
  import opened Names
  import opened Filtering

  /** One row of the input coordinate table. `score` is meaningful only when
      the table has a score column. */
  datatype Row = Row(imageName: string, x: real, y: real, score: real)

  /** The input table: its rows in file order, and whether it has a `score`
      column. */
  datatype Table = Table(rows: seq<Row>, hasScore: bool)

  /** The score threshold: the default negative infinity lets every score
      through. */
  datatype Threshold = NegInfinity | AtLeast(bound: real)

  /** The already-parsed command-line options. A metadata value below zero
      means "omit this column". */
  datatype Options = Options(
    imageExt: string,
    voltage: real,
    defocusU: real,
    defocusV: real,
    defocusAngle: real,
    sphericalAberation: real,
    amplitudeContrast: real,
    detectorPixelSize: real,
    magnification: real,
    threshold: Threshold,
    prefixIgnore: int,
    suffixIgnore: int,
    outputLen: int)

  datatype Cell = Text(text: string) | Num(value: real)

  /** A named column of the output table. */
  datatype Column = Column(header: string, cells: seq<Cell>)

  /** The table handed to the STAR writer: its columns, in order. */
  datatype StarTable = StarTable(columns: seq<Column>)

  function Headers(columns: seq<Column>): seq<string>
  {
    seq(|columns|, i requires 0 <= i < |columns| => columns[i].header)
  }

  // ---------------------------------------------------------------------
  // Row selection

  /** `score >= threshold` */
  predicate Passes(score: real, threshold: Threshold)
  {
    match threshold
    case NegInfinity => true
    case AtLeast(bound) => score >= bound
  }

  function TrimmedName(row: Row, opts: Options): string
  {
    ChangeName(row.imageName, opts.prefixIgnore, opts.suffixIgnore)
  }

  function TrimmedNames(rows: seq<Row>, opts: Options): seq<string>
  {
    seq(|rows|, i requires 0 <= i < |rows| => TrimmedName(rows[i], opts))
  }

  /** The length filter: the trimmed name has exactly `output_len` characters. */
  function LengthMatches(opts: Options): Row -> bool
  {
    (row: Row) => |TrimmedName(row, opts)| == opts.outputLen
  }

  /** The score filter. */
  function ScorePasses(opts: Options): Row -> bool
  {
    (row: Row) => Passes(row.score, opts.threshold)
  }

  /** The rows that reach the output: the length filter, then the score
      filter when the table has a score column. */
  function Survivors(table: Table, opts: Options): seq<Row>
  {
    var byLength := Filter(table.rows, LengthMatches(opts));
    if table.hasScore then Filter(byLength, ScorePasses(opts)) else byLength
  }

  /** The whole selection as a single test on an input row. */
  function Keeps(table: Table, opts: Options): Row -> bool
  {
    (row: Row) => |TrimmedName(row, opts)| == opts.outputLen
           && (!table.hasScore || Passes(row.score, opts.threshold))
  }

  // ---------------------------------------------------------------------
  // Column assembly

  /** `[name + image_ext for name in image_name]` */
  function WithExtension(names: seq<string>, ext: string): seq<string>
  {
    seq(|names|, i requires 0 <= i < |names| => names[i] + ext)
  }

  function Texts(ss: seq<string>): seq<Cell>
  {
    seq(|ss|, i requires 0 <= i < |ss| => Text(ss[i]))
  }

  function XCells(rows: seq<Row>): seq<Cell>
  {
    seq(|rows|, i requires 0 <= i < |rows| => Num(rows[i].x))
  }

  function YCells(rows: seq<Row>): seq<Cell>
  {
    seq(|rows|, i requires 0 <= i < |rows| => Num(rows[i].y))
  }

  function ScoreCells(rows: seq<Row>): seq<Cell>
  {
    seq(|rows|, i requires 0 <= i < |rows| => Num(rows[i].score))
  }

  /** A column holding the same value in each of its `n` cells. */
  function Broadcast(header: string, value: real, n: nat): Column
  {
    Column(header, seq(n, _ => Num(value)))
  }

  /** The eight metadata options with their column headers, in column order. */
  function MetadataSettings(opts: Options): seq<(string, real)>
  {
    [ ("Voltage", opts.voltage),
      ("DefocusU", opts.defocusU),
      ("DefocusV", opts.defocusV),
      ("DefocusAngle", opts.defocusAngle),
      ("SphericalAberration", opts.sphericalAberation),
      ("AmplitudeContrast", opts.amplitudeContrast),
      ("DetectorPixelSize", opts.detectorPixelSize),
      ("Magnification", opts.magnification) ]
  }

  /** A metadata option is on when its value is not below zero. */
  predicate IsOn(setting: (string, real))
  {
    setting.1 >= 0.0
  }

  /** `if value >= 0: star_table[header] = value` */
  function Optional(header: string, value: real, n: nat): seq<Column>
  {
    if value >= 0.0 then [Broadcast(header, value, n)] else []
  }

  /** `columns` followed by the optional column of each setting, one setting
      after the other. */
  function AddEnabled(columns: seq<Column>, settings: seq<(string, real)>, n: nat): seq<Column>
    decreases settings
  {
    if settings == [] then columns
    else AddEnabled(columns + Optional(settings[0].0, settings[0].1, n), settings[1..], n)
  }

  /** A constant column for each of the given settings. */
  function Broadcasts(settings: seq<(string, real)>, n: nat): seq<Column>
  {
    seq(|settings|, i requires 0 <= i < |settings| => Broadcast(settings[i].0, settings[i].1, n))
  }

  /** `MicrographName`, `CoordinateX`, `CoordinateY` and, with a score column,
      `ParticleScore`, for the given surviving rows. */
  function RowColumns(rows: seq<Row>, hasScore: bool, opts: Options): seq<Column>
  {
    [ Column("MicrographName", Texts(WithExtension(TrimmedNames(rows, opts), opts.imageExt))),
      Column("CoordinateX", XCells(rows)),
      Column("CoordinateY", YCells(rows)) ]
    + (if hasScore then [Column("ParticleScore", ScoreCells(rows))] else [])
  }

  /** The output table of the command for `table` under `opts`. */
  function Star(table: Table, opts: Options): StarTable
  {
    var rows := Survivors(table, opts);
    StarTable(AddEnabled(RowColumns(rows, table.hasScore, opts), MetadataSettings(opts), |rows|))
  }

  // ---------------------------------------------------------------------
  // The command, step by step

  /** The loop that trims every image name of `rows`. */
  method NormalizeNames(rows: seq<Row>, prefixIgnore: int, suffixIgnore: int)
    returns (names: seq<string>)
    ensures |names| == |rows|
    ensures forall i :: 0 <= i < |rows| ==>
              names[i] == ChangeName(rows[i].imageName, prefixIgnore, suffixIgnore)
  {
    names := [];
    var i := 0;
    while i < |rows|
      invariant 0 <= i <= |rows|
      invariant |names| == i
      invariant forall j :: 0 <= j < i ==>
                  names[j] == ChangeName(rows[j].imageName, prefixIgnore, suffixIgnore)
    {
      names := names + [ChangeName(rows[i].imageName, prefixIgnore, suffixIgnore)];
      i := i + 1;
    }
  }

  /** `rows.loc[mask]` followed by `reset_index(drop=True)`: the rows whose
      mask entry is true, renumbered from zero in their original order. */
  method Select(rows: seq<Row>, mask: seq<bool>) returns (kept: seq<Row>)
    requires |mask| == |rows|
    ensures kept == Masked(rows, mask)
  {
    kept := [];
    var i := 0;
    while i < |rows|
      invariant 0 <= i <= |rows|
      invariant kept == Masked(rows[..i], mask[..i])
    {
      assert rows[..i + 1][..i] == rows[..i] && mask[..i + 1][..i] == mask[..i];
      if mask[i] {
        kept := kept + [rows[i]];
      }
      i := i + 1;
    }
    assert rows[..|rows|] == rows && mask[..|mask|] == mask;
  }

  /** Trim every name, keep the rows of the right length, then, with a score
      column, the rows whose score passes the threshold. */
  method SelectParticles(table: Table, opts: Options) returns (particles: seq<Row>)
    ensures particles == Survivors(table, opts)
  {
    var names := NormalizeNames(table.rows, opts.prefixIgnore, opts.suffixIgnore);
    var keep := seq(|names|, i requires 0 <= i < |names| => |names[i]| == opts.outputLen);
    particles := Select(table.rows, keep);
    MaskedIsFilter(table.rows, keep, LengthMatches(opts));

    if table.hasScore {
      var passing := seq(|particles|, i requires 0 <= i < |particles| =>
                           Passes(particles[i].score, opts.threshold));
      ghost var byLength := particles;
      particles := Select(particles, passing);
      MaskedIsFilter(byLength, passing, ScorePasses(opts));
    }
  }

  /** One guarded metadata assignment: a constant column of `n` cells is
      added after `columns` exactly when `value` is not below zero. pandas
      would overwrite a column that already had `header`; this appends,
      which agrees because every metadata header is new to `columns` (see
      `StarProperties.MetadataHeadersDistinct`). */
  method AddOptionalColumn(columns: seq<Column>, header: string, value: real, n: nat)
    returns (result: seq<Column>)
    ensures value >= 0.0 ==> result == columns + [Broadcast(header, value, n)]
    ensures value < 0.0 ==> result == columns
    ensures result == columns + Optional(header, value, n)
  {
    result := columns;
    if value >= 0.0 {
      result := result + [Broadcast(header, value, n)];
    }
  }

  /** Adding the optional column of the next setting. */
  lemma AddEnabledStep(columns: seq<Column>, settings: seq<(string, real)>, k: nat, n: nat)
    requires k < |settings|
    ensures AddEnabled(columns, settings[k..], n)
         == AddEnabled(columns + Optional(settings[k].0, settings[k].1, n), settings[k + 1..], n)
  {
  }

  /** The eight guarded metadata assignments, in source order. */
  method AddMetadata(columns: seq<Column>, opts: Options, n: nat) returns (result: seq<Column>)
    ensures result == AddEnabled(columns, MetadataSettings(opts), n)
  {
    ghost var s := MetadataSettings(opts);
    assert s[0..] == s;
    result := columns;
    AddEnabledStep(result, s, 0, n);
    result := AddOptionalColumn(result, "Voltage", opts.voltage, n);
    AddEnabledStep(result, s, 1, n);
    result := AddOptionalColumn(result, "DefocusU", opts.defocusU, n);
    AddEnabledStep(result, s, 2, n);
    result := AddOptionalColumn(result, "DefocusV", opts.defocusV, n);
    AddEnabledStep(result, s, 3, n);
    result := AddOptionalColumn(result, "DefocusAngle", opts.defocusAngle, n);
    AddEnabledStep(result, s, 4, n);
    result := AddOptionalColumn(result, "SphericalAberration", opts.sphericalAberation, n);
    AddEnabledStep(result, s, 5, n);
    result := AddOptionalColumn(result, "AmplitudeContrast", opts.amplitudeContrast, n);
    AddEnabledStep(result, s, 6, n);
    result := AddOptionalColumn(result, "DetectorPixelSize", opts.detectorPixelSize, n);
    AddEnabledStep(result, s, 7, n);
    result := AddOptionalColumn(result, "Magnification", opts.magnification, n);
    assert s[8..] == [];
  }

  /** The command: select the rows, trim their names a second time, then
      assemble the output columns in their fixed order. */
  method ConvertToStar(table: Table, opts: Options) returns (star: StarTable)
    ensures star == Star(table, opts)
  {
    var particles := SelectParticles(table, opts);

    var names := NormalizeNames(particles, opts.prefixIgnore, opts.suffixIgnore);
    assert names == TrimmedNames(particles, opts);
    var micrographName := WithExtension(names, opts.imageExt);

    var columns := [Column("MicrographName", Texts(micrographName))];
    columns := columns + [Column("CoordinateX", XCells(particles))];
    columns := columns + [Column("CoordinateY", YCells(particles))];
    if table.hasScore {
      columns := columns + [Column("ParticleScore", ScoreCells(particles))];
    }
    assert columns == RowColumns(particles, table.hasScore, opts);
    columns := AddMetadata(columns, opts, |particles|);
    star := StarTable(columns);
  }
}
