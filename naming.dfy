/**
 * Where each stage of the pipeline reads and writes: every location is a
 * sibling of the output directory `outdir`, named `outdir` + "_" + something,
 * so that the final `mv outdir_* outdir/` gathers them all.
 */
module Naming {
  import opened Text
  import opened Paths

  /** The four assemblies the pipeline produces. */
  datatype Candidate = SpadesDefault | SpadesCareful | MegahitDefault | MegahitMincount3

  /**
   * The assemblies in the order they are handed to quast, which is the
   * column order of its report and so the order the selected index refers to.
   */
  const Candidates: seq<Candidate> := [SpadesDefault, SpadesCareful, MegahitDefault, MegahitMincount3]

  /** The label quast is given for each assembly. */
  function Label(c: Candidate): string
  {
    match c
    case SpadesDefault => "Spades_default"
    case SpadesCareful => "Spades_corrected"
    case MegahitDefault => "Megahit_default"
    case MegahitMincount3 => "Megahit_mincount"
  }

  /** The contig file each assembler leaves in its output directory. */
  function ContigFile(c: Candidate): string
  {
    if c.SpadesDefault? || c.SpadesCareful? then "contigs.fasta" else "final.contigs.fa"
  }

  /** The stage output directories derived from `outdir`. */
  datatype Location = Assembly(candidate: Candidate) | FastqcReport | QuastResult | ProkkaResult

  function Suffix(loc: Location): string
  {
    match loc
    case Assembly(SpadesDefault) => "_spades_default_output"
    case Assembly(SpadesCareful) => "_spades_careful_output"
    case Assembly(MegahitDefault) => "_megahit_default_output"
    case Assembly(MegahitMincount3) => "_megahit_mincount3_output"
    case FastqcReport => "_fastqc_report"
    case QuastResult => "_quast_result"
    case ProkkaResult => "_prokka"
  }

  function StageDir(outdir: string, loc: Location): string
  {
    outdir + Suffix(loc)
  }

  /** The directory fastqc writes to, spelled with its trailing '/'. */
  function FastqcResultDir(outdir: string): string
  {
    StageDir(outdir, FastqcReport) + "/"
  }

  function ContigPath(outdir: string, c: Candidate): string
  {
    Join(StageDir(outdir, Assembly(c)), ContigFile(c))
  }

  function QuastReportPath(outdir: string): string
  {
    Join(StageDir(outdir, QuastResult), "report.tsv")
  }

  /** The tags trimmomatic's output names get in place of each '.' (spelled as the pipeline spells them). */
  const PairedTag: string := "_paried."
  const UnpairedTag: string := "_unparied."

  /** A trimmed-read file: `outdir_` followed by the reads' basename with every '.' replaced by `tag`. */
  function TrimmedName(outdir: string, readPath: string, tag: string): string
  {
    outdir + "_" + ReplaceAll(Basename(readPath), ".", tag)
  }

  /**
   * `path` is matched by the shell pattern `outdir_*`: it starts with
   * `outdir_` and the rest is a single path component.
   */
  predicate MatchesGlob(outdir: string, path: string)
  {
    |path| > |outdir| && path[..|outdir| + 1] == outdir + "_" && '/' !in path[|outdir| + 1..]
  }

  /** A stage suffix: '_' followed by a plain name, with no '/' and no '.'. */
  predicate PlainSuffix(x: string)
  {
    && |x| > 1 && x[0] == '_'
    && forall k :: 0 <= k < |x| ==> x[k] != '/' && x[k] != '.'
  }

  /** The assemblers' suffixes are plain. */
  lemma AssemblySuffixShape(c: Candidate)
    ensures PlainSuffix(Suffix(Assembly(c)))
  {
    match c
    case SpadesDefault =>
    case SpadesCareful =>
    case MegahitDefault =>
    case MegahitMincount3 =>
  }

  /** Every suffix is plain. */
  lemma SuffixShape(loc: Location)
    ensures PlainSuffix(Suffix(loc))
  {
    match loc
    case Assembly(c) => AssemblySuffixShape(c);
    case FastqcReport =>
    case QuastResult =>
    case ProkkaResult =>
  }

  /** Each stage directory is gathered by the consolidation pattern. */
  lemma StageDirMatchesGlob(outdir: string, loc: Location)
    ensures MatchesGlob(outdir, StageDir(outdir, loc))
  {
    SuffixShape(loc);
    var p, x := StageDir(outdir, loc), Suffix(loc);
    assert p[..|outdir| + 1] == outdir + [x[0]];
    assert p[|outdir| + 1..] == x[1..];
    assert forall k :: 0 <= k < |x| - 1 ==> x[1..][k] == x[k + 1];
  }

  /** No two stages share an output directory, whatever `outdir` is. */
  lemma {:induction false} StageDirsDistinct(outdir: string, loc1: Location, loc2: Location)
    ensures StageDir(outdir, loc1) == StageDir(outdir, loc2) <==> loc1 == loc2
  {
    if StageDir(outdir, loc1) == StageDir(outdir, loc2) {
      assert Suffix(loc1) == StageDir(outdir, loc1)[|outdir|..];
      assert Suffix(loc2) == StageDir(outdir, loc2)[|outdir|..];
    }
  }

  /** Each contig file sits directly inside its assembler's output directory. */
  lemma ContigPathInAssemblyDir(outdir: string, c: Candidate)
    ensures ContigPath(outdir, c) == StageDir(outdir, Assembly(c)) + "/" + ContigFile(c)
    ensures Basename(ContigPath(outdir, c)) == ContigFile(c)
  {
    var d := StageDir(outdir, Assembly(c));
    assert d[|d| - 1] == 't';
    JoinRelative(d, ContigFile(c));
    BasenameOfJoin(d, ContigFile(c));
  }

  /** The part of a trimmed name after `outdir_` is the reads' basename with each '.' replaced. */
  lemma TrimmedTail(outdir: string, readPath: string, tag: string)
    ensures TrimmedName(outdir, readPath, tag)[|outdir| + 1..] == Subst(Basename(readPath), '.', tag)
  {
    ReplaceCharIsSubst(Basename(readPath), '.', tag);
    var name := TrimmedName(outdir, readPath, tag);
    assert name == (outdir + "_") + Subst(Basename(readPath), '.', tag);
  }

  /** Trimmed-read files are gathered by the consolidation pattern too. */
  lemma TrimmedNameMatchesGlob(outdir: string, readPath: string, tag: string)
    requires tag == PairedTag || tag == UnpairedTag
    ensures MatchesGlob(outdir, TrimmedName(outdir, readPath, tag))
  {
    TrimmedTail(outdir, readPath, tag);
    SubstAvoids(Basename(readPath), '.', tag, '/');
  }

  /** The paired and unpaired file of one read set are distinct exactly when its basename has a '.'. */
  lemma PairedUnpairedDistinct(outdir: string, readPath: string)
    ensures TrimmedName(outdir, readPath, PairedTag) != TrimmedName(outdir, readPath, UnpairedTag)
        <==> '.' in Basename(readPath)
  {
    TrimmedTail(outdir, readPath, PairedTag);
    TrimmedTail(outdir, readPath, UnpairedTag);
    SubstDiffers(Basename(readPath), '.', PairedTag, UnpairedTag);
    var p, u := TrimmedName(outdir, readPath, PairedTag), TrimmedName(outdir, readPath, UnpairedTag);
    assert p == (outdir + "_") + p[|outdir| + 1..];
    assert u == (outdir + "_") + u[|outdir| + 1..];
  }

  /**
   * The forward and reverse trimmed files (with the same tag) coincide
   * exactly when the two read files have the same basename.
   */
  lemma TrimmedNamesCollide(outdir: string, forward: string, reverse: string, tag: string)
    requires tag == PairedTag || tag == UnpairedTag
    ensures TrimmedName(outdir, forward, tag) == TrimmedName(outdir, reverse, tag)
        <==> Basename(forward) == Basename(reverse)
  {
    if TrimmedName(outdir, forward, tag) == TrimmedName(outdir, reverse, tag) {
      TrimmedTail(outdir, forward, tag);
      TrimmedTail(outdir, reverse, tag);
      SubstInjective(Basename(forward), Basename(reverse), '.', tag);
    }
  }

  /** A trimmed file whose reads' basename has a '.' never lands on a stage directory. */
  lemma TrimmedNameNotStageDir(outdir: string, readPath: string, tag: string, loc: Location)
    requires tag == PairedTag || tag == UnpairedTag
    requires '.' in Basename(readPath)
    ensures TrimmedName(outdir, readPath, tag) != StageDir(outdir, loc)
  {
    TrimmedTail(outdir, readPath, tag);
    SubstKeeps(Basename(readPath), '.', tag);
    SuffixShape(loc);
    var d, x := StageDir(outdir, loc), Suffix(loc);
    assert d[|outdir| + 1..] == x[1..];
    assert forall k :: 0 <= k < |x| - 1 ==> x[1..][k] == x[k + 1];
  }
}
