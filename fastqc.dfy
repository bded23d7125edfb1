/**
 * The quality-report step's own logic: where fastqc's archive and the
 * unpacked summary are looked for, and which summary lines are echoed
 * (those containing "WARN", in file order).
 */
module Fastqc {
  import opened Text
  import opened Paths
  import opened Naming

  const WarnMark: string := "WARN"

  /** The summary lines that are echoed, in file order. */
  function WarnLines(lines: seq<string>): seq<string>
  {
    if lines == [] then []
    else
      var init, line := lines[..|lines| - 1], lines[|lines| - 1];
      WarnLines(init) + (if Occurs(line, WarnMark) then [line] else [])
  }

  /** A line is echoed exactly when it is in the file and contains "WARN". */
  lemma {:induction false} WarnLinesMembers(lines: seq<string>, x: string)
    ensures x in WarnLines(lines) <==> x in lines && Occurs(x, WarnMark)
  {
    if lines != [] {
      var init := lines[..|lines| - 1];
      WarnLinesMembers(init, x);
      assert lines == init + [lines[|lines| - 1]];
    }
  }

  /** Filtering keeps file order: the echo of two consecutive parts is the echo of one, then the other. */
  lemma {:induction false} WarnLinesAppend(lines1: seq<string>, lines2: seq<string>)
    ensures WarnLines(lines1 + lines2) == WarnLines(lines1) + WarnLines(lines2)
    decreases |lines2|
  {
    if lines2 == [] {
      assert lines1 + lines2 == lines1;
    } else {
      var init := lines2[..|lines2| - 1];
      var all := lines1 + lines2;
      assert all[..|all| - 1] == lines1 + init && all[|all| - 1] == lines2[|lines2| - 1];
      WarnLinesAppend(lines1, init);
    }
  }

  /** The archive fastqc is expected to leave for a reads file: `.fastq` replaced by `_fastqc.zip`. */
  function ZipName(readPath: string): string
  {
    ReplaceAll(readPath, ".fastq", "_fastqc.zip")
  }

  /** Where the archive is looked for: inside the report directory. */
  function ZipPath(outdir: string, readPath: string): string
  {
    Join(FastqcResultDir(outdir), ZipName(readPath))
  }

  /** Where the unpacked summary is read from: the archive name without `.zip`, then `summary.txt`. */
  function SummaryPath(readPath: string): string
  {
    Join(ReplaceAll(ZipName(readPath), ".zip", ""), "summary.txt")
  }

  /** Literal facts: the archive name splits at ".zip", and the paired tag splits at its '.'. */
  lemma LiteralSplits()
    ensures "_fastqc.zip" == "_fastqc" + ".zip"
    ensures PairedTag + "fastq" == "_paried" + ".fastq"
    ensures '.' !in "_fastqc" && '.' !in "_paried" && '.' !in "fastq"
  {
    var a := "_fastqc" + ".zip";
    assert |a| == 11;
    assert a[0] == '_' && a[1] == 'f' && a[2] == 'a' && a[3] == 's' && a[4] == 't' && a[5] == 'q' && a[6] == 'c';
    assert a[7] == '.' && a[8] == 'z' && a[9] == 'i' && a[10] == 'p';
    var b, c := PairedTag + "fastq", "_paried" + ".fastq";
    assert |b| == |c| == 13;
    assert b[0] == c[0] && b[1] == c[1] && b[2] == c[2] && b[3] == c[3] && b[4] == c[4] && b[5] == c[5];
    assert b[6] == c[6] && b[7] == c[7] && b[8] == c[8] && b[9] == c[9] && b[10] == c[10] && b[11] == c[11];
    assert b[12] == c[12];
  }

  /**
   * For reads named `stem.fastq` with no other '.', the archive is
   * `stem_fastqc.zip` in the report directory when `stem` is relative, and
   * `stem_fastqc.zip` itself when it is absolute (`join` drops the report
   * directory); the summary is read from `stem_fastqc/summary.txt`.
   */
  lemma FastqLayout(outdir: string, stem: string)
    requires '.' !in stem
    ensures ZipName(stem + ".fastq") == stem + "_fastqc.zip"
    ensures (stem == [] || stem[0] != '/') ==>
      ZipPath(outdir, stem + ".fastq") == FastqcResultDir(outdir) + stem + "_fastqc.zip"
    ensures (stem != [] && stem[0] == '/') ==> ZipPath(outdir, stem + ".fastq") == stem + "_fastqc.zip"
    ensures SummaryPath(stem + ".fastq") == stem + "_fastqc" + "/" + "summary.txt"
  {
    ReplaceTail(stem, ".fastq", "_fastqc.zip");
    LiteralSplits();
    var unzipped := stem + "_fastqc";
    assert stem + "_fastqc.zip" == unzipped + ".zip";
    ReplaceTail(unzipped, ".zip", "");
    assert ReplaceAll(ZipName(stem + ".fastq"), ".zip", "") == unzipped;
    assert unzipped[|unzipped| - 1] == 'c';
    JoinRelative(unzipped, "summary.txt");
    var d := FastqcResultDir(outdir);
    assert d[|d| - 1] == '/';
  }

  /** Substituting the paired tag for the one '.' of `name.fastq`. */
  lemma PairedBasename(name: string)
    requires '.' !in name
    ensures ReplaceAll(name + ".fastq", ".", PairedTag) == name + "_paried" + ".fastq"
  {
    LiteralSplits();
    var b := name + ".fastq";
    assert ".fastq" == ['.'] + "fastq";
    assert b == name + (['.'] + "fastq");
    ReplaceCharIsSubst(b, '.', PairedTag);
    SubstAppend(name, ['.'] + "fastq", '.', PairedTag);
    SubstAppend(['.'], "fastq", '.', PairedTag);
    SubstIdentity(name, '.', PairedTag);
    SubstIdentity("fastq", '.', PairedTag);
    assert Subst(['.'], '.', PairedTag) == PairedTag;
  }

  /**
   * For a reads file whose basename is `name.fastq` (and an `outdir`
   * without '.'), the trimmed paired file is `outdir_name_paried.fastq` and
   * its summary is read from `outdir_name_paried_fastqc/summary.txt`.
   */
  lemma PairedReadsSummary(outdir: string, readPath: string, name: string)
    requires Basename(readPath) == name + ".fastq" && '.' !in name && '.' !in outdir
    ensures TrimmedName(outdir, readPath, PairedTag) == outdir + "_" + name + "_paried" + ".fastq"
    ensures SummaryPath(TrimmedName(outdir, readPath, PairedTag))
         == outdir + "_" + name + "_paried" + "_fastqc" + "/" + "summary.txt"
  {
    PairedBasename(name);
    var stem := outdir + "_" + name + "_paried";
    assert TrimmedName(outdir, readPath, PairedTag) == stem + ".fastq";
    LiteralSplits();
    assert '.' !in stem;
    FastqLayout(outdir, stem);
  }

  /** In `o.zip<inner>.fastq` only the final `.fastq` is replaced. */
  lemma DottedArchive(o: string, inner: string)
    requires '.' !in o && '.' !in inner
    ensures ReplaceAll(o + ".zip" + inner + ".fastq", ".fastq", "_fastqc.zip") == o + ".zip" + inner + "_fastqc.zip"
  {
    assert ".zip"[1..] == "zip";
    ReplacePastDecoy(o, ".zip", inner, ".fastq", "_fastqc.zip");
  }

  /** Removing ".zip" from `o.zip<inner>_fastqc.zip` removes both occurrences. */
  lemma DottedFolder(o: string, inner: string)
    requires '.' !in o && '.' !in inner
    ensures ReplaceAll(o + ".zip" + inner + "_fastqc.zip", ".zip", "") == o + inner + "_fastqc"
  {
    LiteralSplits();
    var x := inner + "_fastqc";
    assert o + ".zip" + inner + "_fastqc.zip" == o + ".zip" + x + ".zip";
    ReplaceTwice(o, x, ".zip", "");
  }

  /** The archive and summary names of a trimmed file `o.zip<inner>.fastq`. */
  lemma DottedSummary(o: string, inner: string)
    requires '.' !in o && '.' !in inner
    ensures ZipName(o + ".zip" + inner + ".fastq") == o + ".zip" + inner + "_fastqc.zip"
    ensures SummaryPath(o + ".zip" + inner + ".fastq") == o + inner + "_fastqc" + "/" + "summary.txt"
  {
    DottedArchive(o, inner);
    DottedFolder(o, inner);
    var dir := o + inner + "_fastqc";
    assert dir[|dir| - 1] == 'c';
    JoinRelative(dir, "summary.txt");
  }

  /** The paired file for reads `name.fastq` under an output directory `o.zip`. */
  lemma ZipOutdirTrimmed(o: string, readPath: string, name: string)
    requires Basename(readPath) == name + ".fastq" && '.' !in name
    ensures TrimmedName(o + ".zip", readPath, PairedTag) == o + ".zip" + ("_" + name + "_paried") + ".fastq"
  {
    PairedBasename(name);
  }

  /**
   * `.replace('.zip', '')` strips every `.zip`, not just the extension: with
   * an output directory `o.zip`, the archive keeps the `.zip` of the
   * directory name but the summary is looked for in a folder without it.
   */
  lemma ZipOutdirSummary(o: string, readPath: string, name: string)
    requires Basename(readPath) == name + ".fastq" && '.' !in name && '.' !in o
    ensures var inner := "_" + name + "_paried";
      && ZipName(TrimmedName(o + ".zip", readPath, PairedTag)) == o + ".zip" + inner + "_fastqc.zip"
      && SummaryPath(TrimmedName(o + ".zip", readPath, PairedTag)) == o + inner + "_fastqc" + "/" + "summary.txt"
  {
    ZipOutdirTrimmed(o, readPath, name);
    LiteralSplits();
    assert '.' !in "_" + name + "_paried";
    DottedSummary(o, "_" + name + "_paried");
  }
}
