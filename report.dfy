/**
 * Choosing the best assembly: the "Total aligned length" values are read
 * from quast's tab-separated report, the first maximum among them is taken,
 * and its index is mapped back to a contig file.
 */
module Report {
  import opened Wrappers
  import opened Paths
  import opened Numerals
  import opened Naming

  /** The report row the selection uses. */
  const AlignedLengthLabel: string := "Total aligned length"

  /** Why choosing an assembly fails (each is a `ValueError` raised by the pipeline). */
  datatype ReportError =
    | NotAnInteger(cell: string)  // `int(cell)` rejected a cell of a matching row
    | NoValues                    // `max` of an empty list

  /** The integers of `cells`, or the first cell that is not one. */
  function ParseCells(cells: seq<string>): Result<seq<int>, ReportError>
  {
    if cells == [] then Ok([])
    else match ParseCells(cells[..|cells| - 1])
      case Err(e) => Err(e)
      case Ok(ns) =>
        var last := cells[|cells| - 1];
        match ParseInt(last)
        case None => Err(NotAnInteger(last))
        case Some(n) => Ok(ns + [n])
  }

  /** What reading one more row does to the values collected so far. */
  function Step(acc: Result<seq<int>, ReportError>, row: seq<string>): Result<seq<int>, ReportError>
  {
    if acc.Err? then acc
    else if AlignedLengthLabel in row then
      match ParseCells(row[1..])
      case Err(e) => Err(e)
      case Ok(ns) => Ok(acc.value + ns)
    else acc
  }

  /**
   * The values collected from `rows`: for every row that has a cell equal to
   * the label (anywhere in the row), the integers of all its cells but the
   * first, in row order; the first unparsable cell is an error.
   */
  function AlignedLengths(rows: seq<seq<string>>): Result<seq<int>, ReportError>
  {
    if rows == [] then Ok([]) else Step(AlignedLengths(rows[..|rows| - 1]), rows[|rows| - 1])
  }

  /** Errors propagate; otherwise the values of consecutive parts are concatenated. */
  function Then(a: Result<seq<int>, ReportError>, b: Result<seq<int>, ReportError>): Result<seq<int>, ReportError>
  {
    if a.Err? then a else if b.Err? then b else Ok(a.value + b.value)
  }

  lemma StepThen(a: Result<seq<int>, ReportError>, b: Result<seq<int>, ReportError>, row: seq<string>)
    ensures Step(Then(a, b), row) == Then(a, Step(b, row))
  {
    if a.Ok? && b.Ok? && AlignedLengthLabel in row && ParseCells(row[1..]).Ok? {
      var ns := ParseCells(row[1..]).value;
      assert a.value + b.value + ns == a.value + (b.value + ns);
    }
  }

  /** The scan of a report split in two is the scan of the first part, then of the second. */
  lemma {:induction false} AlignedLengthsAppend(rows1: seq<seq<string>>, rows2: seq<seq<string>>)
    ensures AlignedLengths(rows1 + rows2) == Then(AlignedLengths(rows1), AlignedLengths(rows2))
    decreases |rows2|
  {
    if rows2 == [] {
      assert rows1 + rows2 == rows1;
      if AlignedLengths(rows1).Ok? {
        assert AlignedLengths(rows1).value + [] == AlignedLengths(rows1).value;
      }
    } else {
      var init, row := rows2[..|rows2| - 1], rows2[|rows2| - 1];
      var all := rows1 + rows2;
      assert all[..|all| - 1] == rows1 + init && all[|all| - 1] == row;
      AlignedLengthsAppend(rows1, init);
      StepThen(AlignedLengths(rows1), AlignedLengths(init), row);
    }
  }

  /** A row without the label contributes nothing. */
  lemma UnlabelledRowIgnored(rows: seq<seq<string>>, row: seq<string>)
    requires AlignedLengthLabel !in row
    ensures AlignedLengths(rows + [row]) == AlignedLengths(rows)
  {
    assert (rows + [row])[..|rows|] == rows;
  }

  /** The label itself is not an integer. */
  lemma LabelIsNotInteger()
    ensures ParseInt(AlignedLengthLabel) == None
  {
    assert !IsDigit(AlignedLengthLabel[0]);
  }

  lemma {:induction false} ParseCellsOk(cells: seq<string>)
    ensures ParseCells(cells).Ok? <==> forall j :: 0 <= j < |cells| ==> ParseInt(cells[j]).Some?
    ensures ParseCells(cells).Ok? ==>
      && |ParseCells(cells).value| == |cells|
      && forall j :: 0 <= j < |cells| ==> ParseCells(cells).value[j] == ParseInt(cells[j]).value
  {
    if cells != [] {
      var init := cells[..|cells| - 1];
      ParseCellsOk(init);
      assert forall j :: 0 <= j < |init| ==> init[j] == cells[j];
    }
  }

  /**
   * Because the match is list membership, a row that carries the label in
   * any column but the first makes the whole selection fail: the label
   * itself is among the cells handed to `int`.
   */
  lemma LabelOffFirstColumnFails(rows: seq<seq<string>>, row: seq<string>, k: nat)
    requires 1 <= k < |row| && row[k] == AlignedLengthLabel
    ensures AlignedLengths(rows + [row]).Err?
  {
    assert (rows + [row])[..|rows|] == rows;
    LabelIsNotInteger();
    ParseCellsOk(row[1..]);
    assert row[1..][k - 1] == AlignedLengthLabel;
  }

  /** The scan succeeds exactly when every cell after the first of every labelled row is an integer. */
  lemma {:induction false} AlignedLengthsOk(rows: seq<seq<string>>)
    ensures AlignedLengths(rows).Ok? <==>
      forall r, j :: 0 <= r < |rows| && AlignedLengthLabel in rows[r] && 1 <= j < |rows[r]| ==>
        ParseInt(rows[r][j]).Some?
  {
    if rows != [] {
      var init, row := rows[..|rows| - 1], rows[|rows| - 1];
      AlignedLengthsOk(init);
      if |row| > 0 {
        ParseCellsOk(row[1..]);
      }
      assert forall r :: 0 <= r < |init| ==> rows[r] == init[r];
      assert forall j :: 1 <= j < |row| ==> row[j] == row[1..][j - 1];
    }
  }

  /** One more row extends the scan as the definition says. */
  lemma AlignedLengthsStep(rows: seq<seq<string>>, k: nat)
    requires k < |rows|
    ensures AlignedLengths(rows[..k + 1]) == Step(AlignedLengths(rows[..k]), rows[k])
  {
    assert rows[..k + 1][..k] == rows[..k];
  }

  /** An error in the rows read so far is the error of the whole report. */
  lemma {:induction false} AlignedLengthsPrefixErr(rows: seq<seq<string>>, n: nat)
    requires n <= |rows| && AlignedLengths(rows[..n]).Err?
    ensures AlignedLengths(rows) == AlignedLengths(rows[..n])
    decreases |rows| - n
  {
    if n < |rows| {
      AlignedLengthsStep(rows, n);
      AlignedLengthsPrefixErr(rows, n + 1);
    } else {
      assert rows[..n] == rows;
    }
  }

  /** An error in a prefix of the cells is the error of all of them. */
  lemma {:induction false} ParseCellsPrefixErr(cells: seq<string>, n: nat)
    requires n <= |cells| && ParseCells(cells[..n]).Err?
    ensures ParseCells(cells) == ParseCells(cells[..n])
    decreases |cells| - n
  {
    if n < |cells| {
      assert cells[..n + 1][..n] == cells[..n];
      ParseCellsPrefixErr(cells, n + 1);
    } else {
      assert cells[..n] == cells;
    }
  }

  /** The inner loop of the scan: append the integer of each cell to `num`, stopping at the first that is not one. */
  method AppendCells(num: seq<int>, cells: seq<string>) returns (res: Result<seq<int>, ReportError>)
    ensures res == Then(Ok(num), ParseCells(cells))
  {
    var acc := num;
    var j := 0;
    while j < |cells|
      invariant 0 <= j <= |cells|
      invariant ParseCells(cells[..j]).Ok?
      invariant acc == num + ParseCells(cells[..j]).value
    {
      var n := ParseInt(cells[j]);
      assert cells[..j + 1][..j] == cells[..j] && cells[..j + 1][j] == cells[j];
      if n.None? {
        ParseCellsPrefixErr(cells, j + 1);
        return Err(NotAnInteger(cells[j]));
      }
      acc := acc + [n.value];
      j := j + 1;
    }
    assert cells[..j] == cells;
    return Ok(acc);
  }

  /** The scan of the report as the pipeline performs it: a loop over the rows appending to `num`. */
  method ParseReport(rows: seq<seq<string>>) returns (res: Result<seq<int>, ReportError>)
    ensures res == AlignedLengths(rows)
  {
    var num: seq<int> := [];
    var k := 0;
    while k < |rows|
      invariant 0 <= k <= |rows|
      invariant AlignedLengths(rows[..k]) == Ok(num)
    {
      var row := rows[k];
      AlignedLengthsStep(rows, k);
      if AlignedLengthLabel in row {
        var r := AppendCells(num, row[1..]);
        if r.Err? {
          AlignedLengthsPrefixErr(rows, k + 1);
          return r;
        }
        num := r.value;
      }
      k := k + 1;
    }
    assert rows[..k] == rows;
    return Ok(num);
  }

  /** `i` is where the first maximum of `s` stands. */
  predicate IsFirstMax(s: seq<int>, i: nat)
  {
    && i < |s|
    && (forall k :: 0 <= k < |s| ==> s[k] <= s[i])
    && (forall k :: 0 <= k < i ==> s[k] < s[i])
  }

  /** Python's `max(s)`. */
  function MaxOf(s: seq<int>): (m: int)
    requires |s| > 0
    ensures m in s
    ensures forall k :: 0 <= k < |s| ==> s[k] <= m
  {
    if |s| == 1 then s[0]
    else
      var rest := MaxOf(s[1..]);
      if s[0] >= rest then s[0] else rest
  }

  /** Python's `s.index(x)`: the first position holding `x`. */
  function IndexOf(s: seq<int>, x: int): (i: nat)
    requires x in s
    ensures i < |s| && s[i] == x
    ensures forall k :: 0 <= k < i ==> s[k] != x
  {
    if s[0] == x then 0 else 1 + IndexOf(s[1..], x)
  }

  /** `num.index(max(num))`, or the error `max` raises on an empty list. */
  function SelectBest(num: seq<int>): (r: Result<nat, ReportError>)
    ensures r.Err? <==> num == []
    ensures r.Err? ==> r.error == NoValues
    ensures r.Ok? ==> IsFirstMax(num, r.value)
  {
    if num == [] then Err(NoValues) else Ok(IndexOf(num, MaxOf(num)))
  }

  /** There is only one first maximum, so the selection is determined by the values. */
  lemma FirstMaxUnique(s: seq<int>, i: nat, j: nat)
    requires IsFirstMax(s, i) && IsFirstMax(s, j)
    ensures i == j
  {
    assert s[j] <= s[i] && s[i] <= s[j];
  }

  /** The contig file of the assembly in column `i`, as the pipeline's if/elif chain maps it. */
  function BestContigPath(outdir: string, i: nat): string
  {
    if i == 0 then Join(outdir + "_spades_default_output", "contigs.fasta")
    else if i == 1 then Join(outdir + "_spades_careful_output", "contigs.fasta")
    else if i == 2 then Join(outdir + "_megahit_default_output", "final.contigs.fa")
    else Join(outdir + "_megahit_mincount3_output", "final.contigs.fa")
  }

  /**
   * The chain maps column i to candidate i for the four columns quast was
   * given, and every later column to the last candidate.
   */
  lemma BestContigPathIsCandidate(outdir: string, i: nat)
    ensures i < |Candidates| ==> BestContigPath(outdir, i) == ContigPath(outdir, Candidates[i])
    ensures i >= |Candidates| - 1 ==> BestContigPath(outdir, i) == ContigPath(outdir, MegahitMincount3)
  {
  }
}
