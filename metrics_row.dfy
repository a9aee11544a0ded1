/**
 * The CSV layout of the metrics file: a fixed header naming nine columns, and one row of nine
 * comma-separated fields per sample, in header order.
 */
module MetricsRow {
  import opened Text
  import opened Geometry

  /** The column names, in file order. */
  const Columns: seq<string> :=
    ["timestamp", "fps", "mspt", "frameTime", "playerX", "playerY", "playerZ", "loadedChunks", "visibleEntities"]

  /**
   * The header line `startCollection` writes first (without its line terminator):
   * the column names joined by commas.
   */
  const Header: string := Join(Columns, ',')

  /** Splitting the header on commas gives the nine column names back. */
  lemma HeaderColumns()
    ensures Split(Header, ',') == Columns
    ensures |Columns| == 9
  {
    forall k | 0 <= k < |Columns| ensures Free(Columns[k], ',') {
    }
    SplitJoin(Columns, ',');
  }

  /** What one sample records: the `%d,%.2f,%.2f,%.2f,%.2f,%.2f,%.2f,%d,%d` arguments. */
  datatype Sample = Sample(
    timestampMs: int,
    fps: real,
    mspt: real,
    frameTimeMs: real,
    position: Vec3,
    loadedChunks: int,
    visibleEntities: int)

  /** The nine rendered fields, in header order. */
  function Fields(s: Sample): seq<string> {
    [IntToString(s.timestampMs), Fixed2(s.fps), Fixed2(s.mspt), Fixed2(s.frameTimeMs),
     Fixed2(s.position.x), Fixed2(s.position.y), Fixed2(s.position.z),
     IntToString(s.loadedChunks), IntToString(s.visibleEntities)]
  }

  /**
   * The data line of one sample. Splitting it on commas gives nine fields, one per column:
   * the integer fields read back as the sampled values, the real ones are their `%.2f` forms.
   */
  function Row(s: Sample): (line: string)
    ensures var f := Split(line, ',');
      && |f| == |Columns|
      && IsIntLiteral(f[0]) && ParseInt(f[0]) == s.timestampMs
      && f[1] == Fixed2(s.fps) && f[2] == Fixed2(s.mspt) && f[3] == Fixed2(s.frameTimeMs)
      && f[4] == Fixed2(s.position.x) && f[5] == Fixed2(s.position.y) && f[6] == Fixed2(s.position.z)
      && IsIntLiteral(f[7]) && ParseInt(f[7]) == s.loadedChunks
      && IsIntLiteral(f[8]) && ParseInt(f[8]) == s.visibleEntities
  {
    var fields := Fields(s);
    forall k | 0 <= k < |fields| ensures Free(fields[k], ',') {
    }
    SplitJoin(fields, ',');
    IntToStringRoundTrip(s.timestampMs);
    IntToStringRoundTrip(s.loadedChunks);
    IntToStringRoundTrip(s.visibleEntities);
    Join(fields, ',')
  }

  /** A line of the metrics file: the header, or the row of one sample. */
  datatype Line = HeaderLine | DataLine(sample: Sample)

  /** The characters of a line, without its terminator. */
  function LineText(l: Line): string {
    match l
    case HeaderLine => Header
    case DataLine(s) => Row(s)
  }

  /** Every line of the file, header or row, splits into one field per column. */
  lemma LineFieldCount(l: Line)
    ensures |Split(LineText(l), ',')| == |Columns|
  {
    if l.HeaderLine? {
      HeaderColumns();
    }
  }
}
