# coordinates_to_star, modelled in Dafny

The topaz `coordinates_to_star` command turns a tab-separated table of
picked particles into a STAR table for cryo-EM tools. Each input row has
an `image_name`, an `x_coord`, a `y_coord` and, optionally, a `score`.
The command:

1. trims every image name with `change_name`: it drops `prefix_ignore`
   leading characters, then `suffix_ignore` trailing characters of what is
   left, each only when its count is positive, using Python's clamping
   slices;
2. keeps the rows whose trimmed name has exactly `output_len` characters;
3. when the table has a `score` column, also keeps only the rows with
   `score >= threshold`;
4. trims the survivors' names a second time and appends the image
   extension to get `MicrographName`;
5. emits `MicrographName`, `CoordinateX` and `CoordinateY`, then
   `ParticleScore` when there is a score column, then a constant column for
   each of Voltage, DefocusU, DefocusV, DefocusAngle, SphericalAberration,
   AmplitudeContrast, DetectorPixelSize and Magnification whose option is
   not below zero, in that order.

Files:

- `py_slice.dfy` (`PySlice`) models Python's `s[i:]` and `s[:j]`.
- `names.dfy` (`Names`) models `change_name`.
- `filtering.dfy` (`Filtering`) holds order-preserving selection: by a
  predicate (`Filter`), by a boolean mask (`Masked`, which is what
  `DataFrame.loc[mask]` with `reset_index` does), and the positions it keeps
  (`KeptIndices`).
- `coordinates_to_star.dfy` (`CoordinatesToStar`) holds the data model and
  a functional specification `Star` of the output table. It also holds the
  command as imperative methods, written step for step after `main`. The
  name-trimming loops, the mask selections and the guarded column
  assignments are all there. `ConvertToStar` is proved to return exactly
  `Star(table, opts)`.
- `star_properties.dfy` (`StarProperties`) holds what the command
  promises. It covers which rows survive and in what order, where each
  output cell comes from, and which columns appear, in what order and with
  what values.
- `examples.dfy` (`Examples`) holds worked inputs.

The table is column-oriented, as the pandas `DataFrame` is: a `StarTable`
is a sequence of `Column`s, and each column has a header and one `Cell`
(text or number) per row. Scores, coordinates and metadata values are
`real`. The threshold is either `NegInfinity` (the default) or
`AtLeast(bound)`. The presence of a `score` column is the flag
`Table.hasScore`.

Where the command's documentation and its code differ, the model follows
the code:

- The help text of `--output_len` speaks of "characters to keep at the end
  of the image name (default: 0)". The code requires the option and uses
  it as an exact-length filter on the trimmed name (line 47).
- A negative `prefix_ignore` or `suffix_ignore` is accepted (the options
  are plain integers) and means "no trim", because of the `> 0` guards.

A worked case: prefix 2 and suffix 4 turn `mic0001.mrc_img` into
`c0001.mrc`, nine characters, so with an output length of seven that row is
dropped (`Examples.TrimmedExamples`, `Examples.TwoPicksLengthSeven`).

## Model

| member | source | states |
|---|---|---|
| `PySlice.From` | topaz/commands/coordinates_to_star.py:33 | `name[p:]` with `0 <= p <= len` is the suffix `name[p..]`, and is empty when `p >= len`; it never fails |
| `PySlice.Upto` | topaz/commands/coordinates_to_star.py:35 | `name[:-s]` with `0 < s <= len` is the prefix without the last `s` characters, and is empty when `s >= len`; it never fails |
| `PySlice.UptoMinusZeroIsEmpty` | topaz/commands/coordinates_to_star.py:34-35 | an unguarded `name[:-0]` would be empty, which is why the suffix trim is guarded by `suffix_ignore > 0` |
| `Names.ChangeName` | topaz/commands/coordinates_to_star.py:31-37 | the result has `max(0, len - max(p,0) - max(s,0))` characters; it is the contiguous piece of `name` starting at `min(max(p,0), len)`; with both counts `<= 0` the name is returned unchanged, so a zero suffix does not empty it |
| `Names.ChangeNameWithinBounds` | topaz/commands/coordinates_to_star.py:32-35 | when `p + s <= len`, exactly `p` characters go from the front and `s` from the back |
| `Names.ChangeNameOverflow` | topaz/commands/coordinates_to_star.py:32-35 | when the counts together reach the length, the result is the empty name, not an error |
| `CoordinatesToStar.NormalizeNames` | topaz/commands/coordinates_to_star.py:43-46 | the append loop yields one name per row, and name `i` is `change_name` of row `i`'s name (the same loop runs again at lines 61-64) |
| `CoordinatesToStar.Select` | topaz/commands/coordinates_to_star.py:48-49 | `loc[mask]` with `reset_index` yields the rows whose mask entry is true, in their original order (the same step runs again at lines 56-57) |
| `Filtering.MaskedIsFilter` | topaz/commands/coordinates_to_star.py:47-48 | selecting with the mask `[len(name) == output_len ...]` equals filtering the rows by that test |
| `CoordinatesToStar.SelectParticles` | topaz/commands/coordinates_to_star.py:42-58 | the rows left after the length filter and, with a score column, after the score filter are `Survivors(table, opts)` |
| `CoordinatesToStar.AddOptionalColumn` | topaz/commands/coordinates_to_star.py:82-83 | a constant column with that value in each of the `n` rows is appended exactly when the value is `>= 0`; otherwise the columns are unchanged |
| `CoordinatesToStar.AddMetadata` | topaz/commands/coordinates_to_star.py:82-104 | the eight guarded assignments append, in source order, the optional column of each metadata option |
| `CoordinatesToStar.ConvertToStar` | topaz/commands/coordinates_to_star.py:40-104 | the imperative command (two trimming passes, mask selections, column assembly) yields exactly the specified table `Star(table, opts)` |
| `StarProperties.SurvivorsFilterOnce` | topaz/commands/coordinates_to_star.py:47-58 | length filter then score filter equals one filter by "trimmed length == output_len and (no score column or score passes)"; every survivor meets both tests |
| `StarProperties.SurvivorsCorrespond` | topaz/commands/coordinates_to_star.py:47-57 | survivor `i` is input row `idx[i]`; `idx` is strictly increasing, so input order is kept; a row survives exactly when it passes both tests |
| `StarProperties.RowCounts` | topaz/commands/coordinates_to_star.py:47-57 | output rows <= length survivors <= input rows; no row is lost exactly when every row passes; without a score column or with the default threshold only the length filter acts |
| `StarProperties.SecondPassAgrees` | topaz/commands/coordinates_to_star.py:60-64 | the second trimming pass gives survivor `i` the same name the first pass gave input row `idx[i]`, and that name has `output_len` characters |
| `StarProperties.StarColumns` | topaz/commands/coordinates_to_star.py:75-104 | the output is the row columns followed by a constant column for each metadata option that is on, in source order |
| `StarProperties.ColumnOrder` | topaz/commands/coordinates_to_star.py:75-104 | the headers are MicrographName, CoordinateX, CoordinateY, then ParticleScore with a score column, then the enabled metadata headers in source order |
| `StarProperties.ScoreColumnPresence` | topaz/commands/coordinates_to_star.py:79-80 | a ParticleScore column appears exactly when the input has a score column |
| `StarProperties.MetadataHeadersDistinct` | topaz/commands/coordinates_to_star.py:82-104 | the eight metadata headers differ from one another and from the four row headers |
| `StarProperties.MetadataColumnPresence` | topaz/commands/coordinates_to_star.py:82-104 | each metadata column appears exactly when its option is `>= 0`, and then holds that constant in every row |
| `StarProperties.StarRectangular` | topaz/commands/coordinates_to_star.py:75-104 | every output column has one cell per surviving row |
| `StarProperties.RowColumnsCells` | topaz/commands/coordinates_to_star.py:71-80 | the MicrographName, CoordinateX, CoordinateY and ParticleScore cells of row `i` come from survivor `i` |
| `StarProperties.StarRows` | topaz/commands/coordinates_to_star.py:60-80 | output row `i` takes MicrographName (trimmed name + extension, `output_len + len(image_ext)` characters), CoordinateX, CoordinateY and ParticleScore from input row `idx[i]`, whose score passes the threshold |
| `Examples.TrimmedExamples` | topaz/commands/coordinates_to_star.py:31-37 | `mic0001.mrc_img` trimmed by 2 and 4 is `c0001.mrc`; `ABmic0002_img` is `mic0002`; `abcdefgh` untrimmed is itself |
| `Examples.TwoPicksLengthSeven` | topaz/commands/coordinates_to_star.py:47-58 | with output length 7 and threshold 0.5, one pick fails the length test and the other the score test, so nothing survives |
| `Examples.TwoPicksLengthNine` | topaz/commands/coordinates_to_star.py:47-58 | with output length 9 and threshold 0.5, only the first pick survives |

## Left out

- Reading the input with `pd.read_csv` (line 41) is not modelled: parsing, the errors for an unreadable file or a missing column, and pandas type inference (an all-digit `image_name` column read as integers). The model starts from already-parsed rows and a `hasScore` flag.
- Writing the table with `star.write` to standard output (line 108) is not modelled. `topaz/utils/star.py` is not part of this model; the model ends at the column-ordered table handed to it.
- `add_arguments` and the `__main__` block (lines 14-29, 113-118) are argument parsing. The options arrive already parsed as an `Options` value.
- Floating point is modelled as `real`: NaN scores (which `>=` drops) and infinities other than the default threshold are not represented. The default `-inf` threshold is the `NegInfinity` case, which lets every score through.
- pandas index alignment when columns are assigned (lines 76-80) is modelled as positional correspondence. Both sides are renumbered from zero by `reset_index`, so the two agree.
