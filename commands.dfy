/**
 * The argument vectors the pipeline hands to each external tool. Each is
 * built as the pipeline builds it, from literals; the lemmas show that the
 * locations in them agree with the naming scheme of module Naming.
 */
module Commands {
  import opened Wrappers
  import opened Paths
  import opened Naming

  /** trimmomatic in paired-end mode with the fixed quality-trimming policy. */
  function TrimmomaticCommand(forwardReads: string, reverseReads: string,
                              forwardPaired: string, forwardUnpaired: string,
                              reversePaired: string, reverseUnpaired: string): seq<string>
  {
    ["trimmomatic", "PE",
     forwardReads, reverseReads,
     forwardPaired, forwardUnpaired,
     reversePaired, reverseUnpaired,
     "LEADING:10", "TRAILING:10", "SLIDINGWINDOW:5:20"]
  }

  function SpadesDefaultCommand(forwardReads: string, reverseReads: string, outdir: string): seq<string>
  {
    ["spades.py", "-1", forwardReads, "-2", reverseReads, "--only-assembler", "-o", outdir + "_spades_default_output"]
  }

  function SpadesCarefulCommand(forwardReads: string, reverseReads: string, outdir: string): seq<string>
  {
    ["spades.py", "-k", "21,33,55,77,99",
     "-1", forwardReads, "-2", reverseReads,
     "--careful", "--only-assembler",
     "-o", outdir + "_spades_careful_output"]
  }

  function MegahitDefaultCommand(forwardReads: string, reverseReads: string, outdir: string): seq<string>
  {
    ["megahit", "-1", forwardReads, "-2", reverseReads, "-o", outdir + "_megahit_default_output"]
  }

  function MegahitMincount3Command(forwardReads: string, reverseReads: string, outdir: string): seq<string>
  {
    ["megahit", "-1", forwardReads, "-2", reverseReads, "-o", outdir + "_megahit_mincount3_output", "--min-count", "3"]
  }

  /** The command that produces candidate `c`. */
  function AssemblyCommand(c: Candidate, forwardReads: string, reverseReads: string, outdir: string): seq<string>
  {
    match c
    case SpadesDefault => SpadesDefaultCommand(forwardReads, reverseReads, outdir)
    case SpadesCareful => SpadesCarefulCommand(forwardReads, reverseReads, outdir)
    case MegahitDefault => MegahitDefaultCommand(forwardReads, reverseReads, outdir)
    case MegahitMincount3 => MegahitMincount3Command(forwardReads, reverseReads, outdir)
  }

  function FastqcCommand(forwardReads: string, reverseReads: string, resultDir: string): seq<string>
  {
    ["fastqc", forwardReads, reverseReads, "-o", resultDir]
  }

  function UnzipCommand(archive: string): seq<string>
  {
    ["unzip", archive]
  }

  /**
   * quast over the four contig files, labelled, against the reference genome
   * and annotation. The label argument is the single text
   * "Spades_default,Spades_corrected,Megahit_default,Megahit_mincount",
   * written here as the concatenation of its pieces.
   */
  function QuastCommand(outdir: string, refGenome: string, refAnno: string): seq<string>
  {
    ["quast", "-o", outdir + "_quast_result", "-R", refGenome,
     "-g", refAnno, "-l", "Spades_default" + "," + "Spades_corrected" + "," + "Megahit_default" + "," + "Megahit_mincount",
     Join(outdir + "_spades_default_output", "contigs.fasta"),
     Join(outdir + "_spades_careful_output", "contigs.fasta"),
     Join(outdir + "_megahit_default_output", "final.contigs.fa"),
     Join(outdir + "_megahit_mincount3_output", "final.contigs.fa")]
  }

  function ProkkaCommand(contigs: string, outdir: string): seq<string>
  {
    ["prokka", "-outdir", outdir + "_prokka", contigs]
  }

  /** The shell line that moves every `outdir_*` sibling into `outdir/`. */
  function ConsolidateCommand(outdir: string): string
  {
    "mv " + outdir + "_*  " + outdir + "/"
  }

  /** An argument a tool reads as a value rather than an option. */
  predicate IsOperand(arg: string)
  {
    arg == [] || arg[0] != '-'
  }

  /** The argument that follows the first occurrence of option `flag`, as a tool reads it. */
  function ArgAfter(argv: seq<string>, flag: string): (r: Option<string>)
  {
    if |argv| < 2 then None
    else if argv[0] == flag then Some(argv[1])
    else ArgAfter(argv[1..], flag)
  }

  /** The first occurrence of `flag` at `i` means ArgAfter reads position `i + 1`. */
  lemma {:induction false} ArgAfterAt(argv: seq<string>, flag: string, i: nat)
    requires i + 1 < |argv| && argv[i] == flag
    requires forall k :: 0 <= k < i ==> argv[k] != flag
    ensures ArgAfter(argv, flag) == Some(argv[i + 1])
  {
    if i > 0 {
      ArgAfterAt(argv[1..], flag, i - 1);
    }
  }

  /** An option that occurs nowhere before the last argument has no value. */
  lemma {:induction false} ArgAfterAbsent(argv: seq<string>, flag: string)
    requires forall k :: 0 <= k < |argv| - 1 ==> argv[k] != flag
    ensures ArgAfter(argv, flag) == None
  {
    if |argv| >= 2 {
      ArgAfterAbsent(argv[1..], flag);
    }
  }

  /** `items` separated by commas. */
  function CommaList(items: seq<string>): string
  {
    if |items| == 0 then ""
    else if |items| == 1 then items[0]
    else items[0] + "," + CommaList(items[1..])
  }

  function Tool(c: Candidate): string
  {
    if c.SpadesDefault? || c.SpadesCareful? then "spades.py" else "megahit"
  }

  /** Each assembler reads the two read files given to it and writes to its own stage directory. */
  lemma SpadesDefaultTargets(f: string, r: string, outdir: string)
    requires IsOperand(f) && IsOperand(r)
    ensures var cmd := SpadesDefaultCommand(f, r, outdir);
      && ArgAfter(cmd, "-1") == Some(f) && ArgAfter(cmd, "-2") == Some(r)
      && ArgAfter(cmd, "-o") == Some(StageDir(outdir, Assembly(SpadesDefault)))
  {
    var cmd := SpadesDefaultCommand(f, r, outdir);
    assert ArgAfter(cmd, "-1") == Some(cmd[2]) by { ArgAfterAt(cmd, "-1", 1); }
    assert ArgAfter(cmd, "-2") == Some(cmd[4]) by { ArgAfterAt(cmd, "-2", 3); }
    assert ArgAfter(cmd, "-o") == Some(cmd[7]) by { ArgAfterAt(cmd, "-o", 6); }
  }

  lemma SpadesCarefulTargets(f: string, r: string, outdir: string)
    requires IsOperand(f) && IsOperand(r)
    ensures var cmd := SpadesCarefulCommand(f, r, outdir);
      && ArgAfter(cmd, "-1") == Some(f) && ArgAfter(cmd, "-2") == Some(r)
      && ArgAfter(cmd, "-o") == Some(StageDir(outdir, Assembly(SpadesCareful)))
  {
    var cmd := SpadesCarefulCommand(f, r, outdir);
    assert ArgAfter(cmd, "-1") == Some(cmd[4]) by { ArgAfterAt(cmd, "-1", 3); }
    assert ArgAfter(cmd, "-2") == Some(cmd[6]) by { ArgAfterAt(cmd, "-2", 5); }
    assert ArgAfter(cmd, "-o") == Some(cmd[10]) by { ArgAfterAt(cmd, "-o", 9); }
  }

  lemma MegahitDefaultTargets(f: string, r: string, outdir: string)
    requires IsOperand(f) && IsOperand(r)
    ensures var cmd := MegahitDefaultCommand(f, r, outdir);
      && ArgAfter(cmd, "-1") == Some(f) && ArgAfter(cmd, "-2") == Some(r)
      && ArgAfter(cmd, "-o") == Some(StageDir(outdir, Assembly(MegahitDefault)))
  {
    var cmd := MegahitDefaultCommand(f, r, outdir);
    assert ArgAfter(cmd, "-1") == Some(cmd[2]) by { ArgAfterAt(cmd, "-1", 1); }
    assert ArgAfter(cmd, "-2") == Some(cmd[4]) by { ArgAfterAt(cmd, "-2", 3); }
    assert ArgAfter(cmd, "-o") == Some(cmd[6]) by { ArgAfterAt(cmd, "-o", 5); }
  }

  lemma MegahitMincount3Targets(f: string, r: string, outdir: string)
    requires IsOperand(f) && IsOperand(r)
    ensures var cmd := MegahitMincount3Command(f, r, outdir);
      && ArgAfter(cmd, "-1") == Some(f) && ArgAfter(cmd, "-2") == Some(r)
      && ArgAfter(cmd, "-o") == Some(StageDir(outdir, Assembly(MegahitMincount3)))
  {
    var cmd := MegahitMincount3Command(f, r, outdir);
    assert ArgAfter(cmd, "-1") == Some(cmd[2]) by { ArgAfterAt(cmd, "-1", 1); }
    assert ArgAfter(cmd, "-2") == Some(cmd[4]) by { ArgAfterAt(cmd, "-2", 3); }
    assert ArgAfter(cmd, "-o") == Some(cmd[6]) by { ArgAfterAt(cmd, "-o", 5); }
  }

  /**
   * Every assembler reads the two read files given to it and writes to the
   * output directory the naming scheme assigns to its candidate.
   */
  lemma AssemblyCommandTargets(c: Candidate, forwardReads: string, reverseReads: string, outdir: string)
    requires IsOperand(forwardReads) && IsOperand(reverseReads)
    ensures var cmd := AssemblyCommand(c, forwardReads, reverseReads, outdir);
      && cmd[0] == Tool(c)
      && ArgAfter(cmd, "-1") == Some(forwardReads)
      && ArgAfter(cmd, "-2") == Some(reverseReads)
      && ArgAfter(cmd, "-o") == Some(StageDir(outdir, Assembly(c)))
  {
    match c
    case SpadesDefault => SpadesDefaultTargets(forwardReads, reverseReads, outdir);
    case SpadesCareful => SpadesCarefulTargets(forwardReads, reverseReads, outdir);
    case MegahitDefault => MegahitDefaultTargets(forwardReads, reverseReads, outdir);
    case MegahitMincount3 => MegahitMincount3Targets(forwardReads, reverseReads, outdir);
  }

  /** The careful SPAdes run asks for exactly the k-mer ladder 21, 33, 55, 77, 99 and turns on mismatch correction. */
  lemma SpadesCarefulMode(f: string, r: string, outdir: string)
    ensures ArgAfter(SpadesCarefulCommand(f, r, outdir), "-k") == Some("21,33,55,77,99")
    ensures "--careful" in SpadesCarefulCommand(f, r, outdir)
  {
    var cmd := SpadesCarefulCommand(f, r, outdir);
    ArgAfterAt(cmd, "-k", 1);
    assert cmd[7] == "--careful";
  }

  /** Both SPAdes runs skip SPAdes' own read correction. */
  lemma SpadesAssemblerOnly(f: string, r: string, outdir: string)
    ensures "--only-assembler" in SpadesDefaultCommand(f, r, outdir)
    ensures "--only-assembler" in SpadesCarefulCommand(f, r, outdir)
  {
    assert SpadesDefaultCommand(f, r, outdir)[5] == "--only-assembler";
    assert SpadesCarefulCommand(f, r, outdir)[8] == "--only-assembler";
  }

  /**
   * The permissive MEGAHIT run ends by lowering the minimum k-mer
   * multiplicity to 3; the default run does not set it.
   */
  lemma MegahitMincountMode(f: string, r: string, outdir: string)
    requires IsOperand(f) && IsOperand(r)
    ensures var cmd := MegahitMincount3Command(f, r, outdir);
      cmd[|cmd| - 2..] == ["--min-count", "3"]
    ensures ArgAfter(MegahitDefaultCommand(f, r, outdir), "--min-count") == None
  {
    var cmd := MegahitMincount3Command(f, r, outdir);
    assert cmd[7] == "--min-count" && cmd[8] == "3";
    var d := MegahitDefaultCommand(f, r, outdir);
    assert ArgAfter(d, "--min-count") == None by {
      assert d[0] == "megahit" && d[1] == "-1" && d[2] == f && d[3] == "-2" && d[4] == r && d[5] == "-o";
      assert "megahit" != "--min-count" && "-1" != "--min-count" && "-2" != "--min-count";
      assert "-o" != "--min-count" && f != "--min-count" && r != "--min-count";
      ArgAfterAbsent(d, "--min-count");
    }
  }

  /**
   * trimmomatic gets the raw reads, then the four result files in the order
   * forward paired, forward unpaired, reverse paired, reverse unpaired, then
   * the quality policy: trim leading and trailing bases below 10 and cut
   * where a 5-base window's mean quality drops below 20.
   */
  lemma TrimmomaticShape(f: string, r: string, fp: string, fu: string, rp: string, ru: string)
    ensures var cmd := TrimmomaticCommand(f, r, fp, fu, rp, ru);
      && |cmd| == 11 && cmd[..2] == ["trimmomatic", "PE"]
      && cmd[2..4] == [f, r] && cmd[4..8] == [fp, fu, rp, ru]
      && cmd[8..] == ["LEADING:10", "TRAILING:10", "SLIDINGWINDOW:5:20"]
  {
    var cmd := TrimmomaticCommand(f, r, fp, fu, rp, ru);
    assert cmd[2] == f && cmd[3] == r && cmd[4] == fp && cmd[5] == fu && cmd[6] == rp && cmd[7] == ru;
    assert cmd[8] == "LEADING:10" && cmd[9] == "TRAILING:10" && cmd[10] == "SLIDINGWINDOW:5:20";
  }

  /** The quast labels, comma-separated, name the candidates in the order of `Candidates`. */
  lemma QuastLabelsText()
    ensures CommaList(seq(|Candidates|, i requires 0 <= i < |Candidates| => Label(Candidates[i])))
         == "Spades_default" + "," + "Spades_corrected" + "," + "Megahit_default" + "," + "Megahit_mincount"
  {
    var labels := seq(|Candidates|, i requires 0 <= i < |Candidates| => Label(Candidates[i]));
    assert labels == ["Spades_default", "Spades_corrected", "Megahit_default", "Megahit_mincount"];
    assert CommaList(labels[3..]) == "Megahit_mincount";
    assert CommaList(labels[2..]) == "Megahit_default" + "," + "Megahit_mincount";
    assert CommaList(labels[1..]) == "Spades_corrected" + "," + ("Megahit_default" + "," + "Megahit_mincount");
  }

  /** quast writes its report to the quast stage directory. */
  lemma QuastOutputDir(outdir: string, refGenome: string, refAnno: string)
    ensures ArgAfter(QuastCommand(outdir, refGenome, refAnno), "-o") == Some(StageDir(outdir, QuastResult))
  {
    ArgAfterAt(QuastCommand(outdir, refGenome, refAnno), "-o", 1);
  }

  /** quast reads the reference genome and the reference annotation it is given. */
  lemma QuastReferences(outdir: string, refGenome: string, refAnno: string)
    requires IsOperand(refGenome)
    ensures ArgAfter(QuastCommand(outdir, refGenome, refAnno), "-R") == Some(refGenome)
    ensures ArgAfter(QuastCommand(outdir, refGenome, refAnno), "-g") == Some(refAnno)
  {
    var cmd := QuastCommand(outdir, refGenome, refAnno);
    assert ArgAfter(cmd, "-R") == Some(cmd[4]) by { ArgAfterAt(cmd, "-R", 3); }
    assert ArgAfter(cmd, "-g") == Some(cmd[6]) by { ArgAfterAt(cmd, "-g", 5); }
  }

  /** quast receives the labels of the candidates, in the order of `Candidates`. */
  lemma QuastLabels(outdir: string, refGenome: string, refAnno: string)
    requires IsOperand(refGenome) && IsOperand(refAnno)
    ensures ArgAfter(QuastCommand(outdir, refGenome, refAnno), "-l")
         == Some(CommaList(seq(|Candidates|, i requires 0 <= i < |Candidates| => Label(Candidates[i]))))
  {
    var cmd := QuastCommand(outdir, refGenome, refAnno);
    ArgAfterAt(cmd, "-l", 7);
    QuastLabelsText();
  }

  /**
   * The contig files come last in the quast command, in the order of
   * `Candidates`: column i of quast's report is candidate i.
   */
  lemma QuastContigOrder(outdir: string, refGenome: string, refAnno: string)
    ensures var cmd := QuastCommand(outdir, refGenome, refAnno);
      && |cmd| == 9 + |Candidates|
      && forall i :: 0 <= i < |Candidates| ==> cmd[9 + i] == ContigPath(outdir, Candidates[i])
  {
    var cmd := QuastCommand(outdir, refGenome, refAnno);
    assert cmd[9..] == [
      Join(outdir + "_spades_default_output", "contigs.fasta"),
      Join(outdir + "_spades_careful_output", "contigs.fasta"),
      Join(outdir + "_megahit_default_output", "final.contigs.fa"),
      Join(outdir + "_megahit_mincount3_output", "final.contigs.fa")];
  }

  /** prokka annotates the contig file it is given into the prokka stage directory. */
  lemma ProkkaCommandTargets(contigs: string, outdir: string)
    ensures var cmd := ProkkaCommand(contigs, outdir);
      && ArgAfter(cmd, "-outdir") == Some(StageDir(outdir, ProkkaResult))
      && cmd[|cmd| - 1] == contigs
  {
  }
}
