/**
 * The driver `assemble_nd_anno`: create the output directory, trim the
 * reads, report their quality, run the four assemblies, evaluate them with
 * quast, annotate the best one with prokka and move every `outdir_*` result
 * into the output directory.
 *
 * External programs are not run: each shows up as an event in the trace.
 * The file system enters as the set of names that already exist and as the
 * contents the tools leave in the files the driver opens. `Simulate` says
 * what a run does; class `Session` performs it step by step.
 */
module Pipeline {
  import opened Wrappers
  import opened Text
  import opened Naming
  import opened Commands
  import opened Report
  import opened Fastqc

  /** The driver's five arguments. */
  datatype Request = Request(forwardReads: string, reverseReads: string, outdir: string,
                             refGenome: string, refAnno: string)

  /** What the driver reads: text files as lines, the quast report as tab-separated rows. */
  datatype Files = Files(texts: map<string, seq<string>>, tables: map<string, seq<seq<string>>>)

  /** The four files trimmomatic writes. */
  datatype Trimmed = Trimmed(forwardPaired: string, forwardUnpaired: string,
                             reversePaired: string, reverseUnpaired: string)

  /** An external program and the inputs its argument vector is built from. */
  datatype Command =
    | Trimmomatic(forwardReads: string, reverseReads: string, out: Trimmed)
    | FastqcRun(forwardReads: string, reverseReads: string, resultDir: string)
    | Unzip(archive: string)
    | Assembler(candidate: Candidate, forwardReads: string, reverseReads: string, outdir: string)
    | Quast(outdir: string, refGenome: string, refAnno: string)
    | Prokka(contigs: string, outdir: string)

  /** The argument vector handed to `subprocess.run` for a command. */
  function Argv(c: Command): seq<string>
  {
    match c
    case Trimmomatic(f, r, t) =>
      TrimmomaticCommand(f, r, t.forwardPaired, t.forwardUnpaired, t.reversePaired, t.reverseUnpaired)
    case FastqcRun(f, r, d) => FastqcCommand(f, r, d)
    case Unzip(a) => UnzipCommand(a)
    case Assembler(cand, f, r, o) => AssemblyCommand(cand, f, r, o)
    case Quast(o, g, a) => QuastCommand(o, g, a)
    case Prokka(contigs, o) => ProkkaCommand(contigs, o)
  }

  /** The steps of the pipeline that start a program. */
  datatype Stage = Trim | QualityReport | Unpack | Assemble(candidate: Candidate) | Evaluate | Annotate

  function StageOf(c: Command): Stage
  {
    match c
    case Trimmomatic(_, _, _) => Trim
    case FastqcRun(_, _, _) => QualityReport
    case Unzip(_) => Unpack
    case Assembler(cand, _, _, _) => Assemble(cand)
    case Quast(_, _, _) => Evaluate
    case Prokka(_, _) => Annotate
  }

  /** The program each stage starts. */
  function Program(s: Stage): string
  {
    match s
    case Trim => "trimmomatic"
    case QualityReport => "fastqc"
    case Unpack => "unzip"
    case Assemble(cand) => Tool(cand)
    case Evaluate => "quast"
    case Annotate => "prokka"
  }

  /** One observable action of the driver, in the order it happens. */
  datatype Event =
    | MakeDir(path: string)        // `os.mkdir(path)`, successful or not
    | Invoke(command: Command)     // `subprocess.run(Argv(command))`; the exit status is ignored
    | Shell(line: string)          // `subprocess.call(line, shell=True)`
    | Open(path: string)           // opening a file for reading
    | Print(text: string)          // `print(text)`

  /** The exceptions that end a run early; none of them is caught. */
  datatype Crash =
    | DirExists(path: string)      // `os.mkdir` of the quality-report directory
    | FileMissing(path: string)    // `open` of a summary or of the quast report
    | BadReport(error: ReportError)

  datatype Outcome = Finished | AlreadyExists | Crashed(crash: Crash)

  /** A whole run: how it ended, what it did, and the names that exist afterwards. */
  datatype Run = Run(outcome: Outcome, events: seq<Event>, dirs: set<string>)

  /** A part of a run: what it did, and the crash that ended it, if any. */
  datatype Phase = Phase(events: seq<Event>, crash: Option<Crash>)

  const ForwardHeader: string := "Forward read warning\n"
  const ReverseHeader: string := "Reverse read warning\n"

  /** The name `os.mkdir` creates: a trailing '/' does not belong to it. */
  function DirKey(path: string): (k: string)
    ensures |k| <= |path| && k == path[..|k|]
    ensures |k| < |path| <==> |path| > 0 && path[|path| - 1] == '/'
  {
    if |path| > 0 && path[|path| - 1] == '/' then path[..|path| - 1] else path
  }

  function AlreadyExistsMessage(outdir: string): string
  {
    "Folder " + outdir + " already exists."
  }

  // ---------------------------------------------------------------------------
  // The names a run works with

  /** The names `run_fastqc` derives from the two reads files and the output directory. */
  datatype ReportNames = ReportNames(forwardReads: string, reverseReads: string, dir: string,
                                     forwardZip: string, reverseZip: string,
                                     forwardSummary: string, reverseSummary: string)

  function FastqcNames(fp: string, rp: string, outdir: string): ReportNames
  {
    ReportNames(fp, rp, FastqcResultDir(outdir), ZipPath(outdir, fp), ZipPath(outdir, rp),
                SummaryPath(fp), SummaryPath(rp))
  }

  /** Every name the driver derives from its arguments before it runs anything that reads it. */
  datatype Layout = Layout(trimmed: Trimmed, report: ReportNames, quastReport: string)

  function Trimming(req: Request): Trimmed
  {
    Trimmed(TrimmedName(req.outdir, req.forwardReads, PairedTag),
            TrimmedName(req.outdir, req.forwardReads, UnpairedTag),
            TrimmedName(req.outdir, req.reverseReads, PairedTag),
            TrimmedName(req.outdir, req.reverseReads, UnpairedTag))
  }

  function LayoutOf(req: Request): Layout
  {
    var t := Trimming(req);
    Layout(t, FastqcNames(t.forwardPaired, t.reversePaired, req.outdir), QuastReportPath(req.outdir))
  }

  // ---------------------------------------------------------------------------
  // What a run does

  /** One `print` per line. */
  function Prints(lines: seq<string>): seq<Event>
  {
    if lines == [] then [] else Prints(lines[..|lines| - 1]) + [Print(lines[|lines| - 1])]
  }

  /** A header, then the lines of the summary at `path` that contain "WARN". */
  function SummaryPhase(header: string, path: string, files: Files): Phase
  {
    var opening := [Print(header)] + [Open(path)];
    if path in files.texts then Phase(opening + Prints(WarnLines(files.texts[path])), None)
    else Phase(opening, Some(FileMissing(path)))
  }

  /** Creating the report directory, running fastqc and unpacking both archives. */
  function UnpackEvents(n: ReportNames): seq<Event>
  {
    [MakeDir(n.dir)] + [Invoke(FastqcRun(n.forwardReads, n.reverseReads, n.dir))]
    + ([Invoke(Unzip(n.forwardZip))] + [Invoke(Unzip(n.reverseZip))])
  }

  /** `run_fastqc` on the two paired files, given the names that already exist. */
  function FastqcPhase(n: ReportNames, dirs: set<string>, files: Files): Phase
  {
    if DirKey(n.dir) in dirs then Phase([MakeDir(n.dir)], Some(DirExists(n.dir)))
    else
      var forward := SummaryPhase(ForwardHeader, n.forwardSummary, files);
      if forward.crash.Some? then Phase(UnpackEvents(n) + forward.events, forward.crash)
      else
        var reverse := SummaryPhase(ReverseHeader, n.reverseSummary, files);
        Phase(UnpackEvents(n) + forward.events + reverse.events, reverse.crash)
  }

  /** The four assemblies, in the order of `Candidates`. */
  function AssemblyEvents(fp: string, rp: string, outdir: string): seq<Event>
  {
    [Invoke(Assembler(SpadesDefault, fp, rp, outdir))] + [Invoke(Assembler(SpadesCareful, fp, rp, outdir))]
    + ([Invoke(Assembler(MegahitDefault, fp, rp, outdir))] + [Invoke(Assembler(MegahitMincount3, fp, rp, outdir))])
  }

  /** The column chosen from the quast report at `report`, or why the choice fails. */
  function Selection(report: string, files: Files): Result<nat, Crash>
  {
    if report !in files.tables then Err(FileMissing(report))
    else match AlignedLengths(files.tables[report])
      case Err(e) => Err(BadReport(e))
      case Ok(num) =>
        match SelectBest(num)
        case Err(e) => Err(BadReport(e))
        case Ok(i) => Ok(i)
  }

  /** How a run ends when its last part ended with `crash`. */
  function Ending(crash: Option<Crash>): Outcome
  {
    if crash.Some? then Crashed(crash.value) else Finished
  }

  /**
   * What `assemble_nd_anno` does, given the names that exist beforehand and
   * what the files it opens hold.
   */
  function Simulate(req: Request, dirs: set<string>, files: Files): (run: Run)
    ensures run.outcome == AlreadyExists <==> DirKey(req.outdir) in dirs
  {
    Drive(req, LayoutOf(req), dirs, files)
  }

  /** The driver, working with the names `lay`. */
  function Drive(req: Request, lay: Layout, dirs: set<string>, files: Files): (run: Run)
    ensures run.outcome == AlreadyExists <==> DirKey(req.outdir) in dirs
  {
    var o := req.outdir;
    if DirKey(o) in dirs then Run(AlreadyExists, [MakeDir(o)] + [Print(AlreadyExistsMessage(o))], dirs)
    else
      var run := FreshRun(req, lay, dirs + {DirKey(o)}, files);
      Run(run.outcome, [MakeDir(o)] + run.events, run.dirs)
  }

  function TrimStage(req: Request, t: Trimmed): Event
  {
    Invoke(Trimmomatic(req.forwardReads, req.reverseReads, t))
  }

  /** The run after the output directory is created; `dirs` are the names that exist by then. */
  function FreshRun(req: Request, lay: Layout, dirs: set<string>, files: Files): (run: Run)
    ensures run.outcome != AlreadyExists
    ensures run.dirs == dirs + {DirKey(lay.report.dir)}
  {
    var qc := FastqcPhase(lay.report, dirs, files);
    var after := dirs + {DirKey(lay.report.dir)};
    if qc.crash.Some? then Run(Crashed(qc.crash.value), [TrimStage(req, lay.trimmed)] + qc.events, after)
    else
      var ev := Evaluation(req, lay, files);
      Run(Ending(ev.crash), [TrimStage(req, lay.trimmed)] + qc.events + ev.events, after)
  }

  /** The assemblies, quast over them, and opening its report. */
  function EvaluateEvents(req: Request, lay: Layout): seq<Event>
  {
    AssemblyEvents(lay.trimmed.forwardPaired, lay.trimmed.reversePaired, req.outdir)
      + ([Invoke(Quast(req.outdir, req.refGenome, req.refAnno))] + [Open(lay.quastReport)])
  }

  /** `events` closes with the events of `tail`. */
  predicate EndsWith(events: seq<Event>, tail: seq<Event>)
  {
    |tail| <= |events| && events[|events| - |tail|..] == tail
  }

  /** Annotating the contigs of column `i` and moving the results. */
  function FinishEvents(outdir: string, i: nat): seq<Event>
  {
    [Invoke(Prokka(BestContigPath(outdir, i), outdir))] + [Shell(ConsolidateCommand(outdir))]
  }

  /** The run from the assemblies on. */
  function Evaluation(req: Request, lay: Layout, files: Files): Phase
  {
    match Selection(lay.quastReport, files)
    case Err(c) => Phase(EvaluateEvents(req, lay), Some(c))
    case Ok(i) => Phase(EvaluateEvents(req, lay) + FinishEvents(req.outdir, i), None)
  }

  // ---------------------------------------------------------------------------
  // Views of a trace

  /** The stage an event runs, if it starts a program. */
  function StageOfEvent(e: Event): seq<Stage>
  {
    if e.Invoke? then [StageOf(e.command)] else []
  }

  /** The text an event prints, if any. */
  function TextOf(e: Event): seq<string>
  {
    if e.Print? then [e.text] else []
  }

  /** The stages run, in order. */
  function Stages(events: seq<Event>): seq<Stage>
  {
    if events == [] then [] else Stages(events[..|events| - 1]) + StageOfEvent(events[|events| - 1])
  }

  /** The texts printed, in order. */
  function Printed(events: seq<Event>): seq<string>
  {
    if events == [] then [] else Printed(events[..|events| - 1]) + TextOf(events[|events| - 1])
  }

  lemma ViewsOfOne(e: Event)
    ensures Stages([e]) == StageOfEvent(e) && Printed([e]) == TextOf(e)
  {
    assert [e][..0] == [];
  }

  lemma {:induction false} StagesAppend(a: seq<Event>, b: seq<Event>)
    ensures Stages(a + b) == Stages(a) + Stages(b)
    decreases |b|
  {
    if b == [] {
      assert a + b == a;
    } else {
      var init := b[..|b| - 1];
      assert (a + b)[..|a + b| - 1] == a + init && (a + b)[|a + b| - 1] == b[|b| - 1];
      StagesAppend(a, init);
    }
  }

  lemma {:induction false} PrintedAppend(a: seq<Event>, b: seq<Event>)
    ensures Printed(a + b) == Printed(a) + Printed(b)
    decreases |b|
  {
    if b == [] {
      assert a + b == a;
    } else {
      var init := b[..|b| - 1];
      assert (a + b)[..|a + b| - 1] == a + init && (a + b)[|a + b| - 1] == b[|b| - 1];
      PrintedAppend(a, init);
    }
  }

  /** Both views of two events. */
  lemma ViewsOfTwo(e1: Event, e2: Event)
    ensures Stages([e1] + [e2]) == StageOfEvent(e1) + StageOfEvent(e2)
    ensures Printed([e1] + [e2]) == TextOf(e1) + TextOf(e2)
  {
    ViewsOfOne(e1);
    ViewsOfOne(e2);
    StagesAppend([e1], [e2]);
    PrintedAppend([e1], [e2]);
  }

  /** Echoing lines prints exactly those lines. */
  lemma {:induction false} PrintedPrints(lines: seq<string>)
    ensures Printed(Prints(lines)) == lines
  {
    if lines != [] {
      var init, last := lines[..|lines| - 1], lines[|lines| - 1];
      var echo := Prints(init);
      assert Prints(lines) == echo + [Print(last)];
      PrintedPrints(init);
      ViewsOfOne(Print(last));
      PrintedAppend(echo, [Print(last)]);
      assert init + [last] == lines;
    }
  }

  /** Echoing lines starts no program. */
  lemma {:induction false} StagesPrints(lines: seq<string>)
    ensures Stages(Prints(lines)) == []
  {
    if lines != [] {
      var init, last := lines[..|lines| - 1], lines[|lines| - 1];
      var echo := Prints(init);
      assert Prints(lines) == echo + [Print(last)];
      StagesPrints(init);
      ViewsOfOne(Print(last));
      StagesAppend(echo, [Print(last)]);
    }
  }

  /** Printing lines one at a time extends the echo by one line. */
  lemma PrintsSnoc(lines: seq<string>, line: string)
    ensures Prints(lines + [line]) == Prints(lines) + [Print(line)]
  {
    assert (lines + [line])[..|lines|] == lines;
  }

  // ---------------------------------------------------------------------------
  // Properties of the parts of a run

  lemma FinishViews(outdir: string, i: nat)
    ensures Stages(FinishEvents(outdir, i)) == [Annotate] && Printed(FinishEvents(outdir, i)) == []
  {
    ViewsOfTwo(Invoke(Prokka(BestContigPath(outdir, i), outdir)), Shell(ConsolidateCommand(outdir)));
  }

  /** The evaluation runs the four assemblers in the order of `Candidates`, then quast, and prints nothing. */
  lemma EvaluateViews(req: Request, lay: Layout)
    ensures Stages(EvaluateEvents(req, lay))
         == [Assemble(SpadesDefault), Assemble(SpadesCareful)] + [Assemble(MegahitDefault), Assemble(MegahitMincount3)]
            + [Evaluate]
    ensures Printed(EvaluateEvents(req, lay)) == []
  {
    var q1, q2 := Invoke(Quast(req.outdir, req.refGenome, req.refAnno)), Open(lay.quastReport);
    var assembled := AssemblyEvents(lay.trimmed.forwardPaired, lay.trimmed.reversePaired, req.outdir);
    AssemblyViews(lay.trimmed.forwardPaired, lay.trimmed.reversePaired, req.outdir);
    ViewsOfTwo(q1, q2);
    assert Stages([q1] + [q2]) == [Evaluate];
    assert EvaluateEvents(req, lay) == assembled + ([q1] + [q2]);
    QuietViews(assembled, [q1] + [q2]);
  }

  /** Two parts that print nothing: the stages concatenate and nothing is printed. */
  lemma QuietViews(a: seq<Event>, b: seq<Event>)
    requires Printed(a) == [] && Printed(b) == []
    ensures Stages(a + b) == Stages(a) + Stages(b) && Printed(a + b) == []
  {
    StagesAppend(a, b);
    PrintedAppend(a, b);
  }

  /** The four assemblers start in the order of `Candidates`, printing nothing. */
  lemma AssemblyViews(fp: string, rp: string, outdir: string)
    ensures Stages(AssemblyEvents(fp, rp, outdir))
         == [Assemble(SpadesDefault), Assemble(SpadesCareful)] + [Assemble(MegahitDefault), Assemble(MegahitMincount3)]
    ensures Printed(AssemblyEvents(fp, rp, outdir)) == []
  {
    var a1, a2 := Invoke(Assembler(SpadesDefault, fp, rp, outdir)), Invoke(Assembler(SpadesCareful, fp, rp, outdir));
    var a3, a4 := Invoke(Assembler(MegahitDefault, fp, rp, outdir)), Invoke(Assembler(MegahitMincount3, fp, rp, outdir));
    ViewsOfTwo(a1, a2);
    ViewsOfTwo(a3, a4);
    assert Stages([a1] + [a2]) == [Assemble(SpadesDefault), Assemble(SpadesCareful)];
    assert Stages([a3] + [a4]) == [Assemble(MegahitDefault), Assemble(MegahitMincount3)];
    StagesAppend([a1] + [a2], [a3] + [a4]);
    PrintedAppend([a1] + [a2], [a3] + [a4]);
  }

  /** The summary of one reads file: the header and the WARN lines are printed, and nothing is started. */
  lemma SummaryPhaseViews(header: string, path: string, files: Files)
    ensures var ph := SummaryPhase(header, path, files);
      && Stages(ph.events) == []
      && (ph.crash.None? <==> path in files.texts)
      && (ph.crash.None? ==> Printed(ph.events) == [header] + WarnLines(files.texts[path]))
      && (ph.crash.Some? ==> ph.crash == Some(FileMissing(path)) && ph.events[|ph.events| - 1] == Open(path))
  {
    var opening := [Print(header)] + [Open(path)];
    ViewsOfTwo(Print(header), Open(path));
    if path in files.texts {
      var echo := Prints(WarnLines(files.texts[path]));
      PrintedPrints(WarnLines(files.texts[path]));
      StagesPrints(WarnLines(files.texts[path]));
      StagesAppend(opening, echo);
      PrintedAppend(opening, echo);
    }
  }

  lemma UnpackViews(n: ReportNames)
    ensures Stages(UnpackEvents(n)) == [QualityReport] + [Unpack, Unpack] && Printed(UnpackEvents(n)) == []
  {
    var m1, m2 := MakeDir(n.dir), Invoke(FastqcRun(n.forwardReads, n.reverseReads, n.dir));
    var u1, u2 := Invoke(Unzip(n.forwardZip)), Invoke(Unzip(n.reverseZip));
    ViewsOfTwo(m1, m2);
    ViewsOfTwo(u1, u2);
    assert Stages([m1] + [m2]) == [QualityReport];
    assert Stages([u1] + [u2]) == [Unpack, Unpack];
    StagesAppend([m1] + [m2], [u1] + [u2]);
    PrintedAppend([m1] + [m2], [u1] + [u2]);
  }

  /** The quality-report step gets past its directory and both summaries exactly when they allow it. */
  lemma FastqcPhaseOk(n: ReportNames, dirs: set<string>, files: Files)
    ensures FastqcPhase(n, dirs, files).crash.None? <==>
      DirKey(n.dir) !in dirs && n.forwardSummary in files.texts && n.reverseSummary in files.texts
  {
    SummaryPhaseViews(ForwardHeader, n.forwardSummary, files);
    SummaryPhaseViews(ReverseHeader, n.reverseSummary, files);
  }

  /** The quality-report step when it gets through: fastqc, two unzips, and the two echoes. */
  lemma FastqcPhaseViews(n: ReportNames, dirs: set<string>, files: Files)
    requires FastqcPhase(n, dirs, files).crash.None?
    ensures var ph := FastqcPhase(n, dirs, files);
      && Stages(ph.events) == [QualityReport] + [Unpack, Unpack]
      && Printed(ph.events) == [ForwardHeader] + WarnLines(files.texts[n.forwardSummary])
                               + ([ReverseHeader] + WarnLines(files.texts[n.reverseSummary]))
  {
    FastqcPhaseOk(n, dirs, files);
    var forward := SummaryPhase(ForwardHeader, n.forwardSummary, files);
    var reverse := SummaryPhase(ReverseHeader, n.reverseSummary, files);
    SummaryPhaseViews(ForwardHeader, n.forwardSummary, files);
    SummaryPhaseViews(ReverseHeader, n.reverseSummary, files);
    UnpackViews(n);
    ViewsOfThree(UnpackEvents(n), forward.events, reverse.events);
  }

  /** In the quality-report step, a missing summary ends the step right after trying to open it. */
  lemma FastqcMissingFile(n: ReportNames, dirs: set<string>, files: Files, path: string)
    requires FastqcPhase(n, dirs, files).crash == Some(FileMissing(path))
    ensures var events := FastqcPhase(n, dirs, files).events;
      |events| > 0 && events[|events| - 1] == Open(path)
    ensures || (path == n.forwardSummary && path !in files.texts)
            || (path == n.reverseSummary && path !in files.texts)
  {
    var forward := SummaryPhase(ForwardHeader, n.forwardSummary, files);
    var reverse := SummaryPhase(ReverseHeader, n.reverseSummary, files);
    SummaryPhaseViews(ForwardHeader, n.forwardSummary, files);
    SummaryPhaseViews(ReverseHeader, n.reverseSummary, files);
  }

  /** When the first of three parts is the only one with stages, and the only one printing nothing. */
  lemma ViewsOfThree(a: seq<Event>, b: seq<Event>, c: seq<Event>)
    requires Printed(a) == [] && Stages(b) == [] && Stages(c) == []
    ensures Stages(a + b + c) == Stages(a)
    ensures Printed(a + b + c) == Printed(b) + Printed(c)
  {
    StagesAppend(a, b);
    StagesAppend(a + b, c);
    PrintedAppend(a, b);
    PrintedAppend(a + b, c);
    assert Stages(a) + [] + [] == Stages(a);
    assert [] + Printed(b) == Printed(b);
  }

  /** The stages of four consecutive parts. */
  lemma StagesOfFour(a: seq<Event>, b: seq<Event>, c: seq<Event>, d: seq<Event>)
    ensures Stages(a + b + c + d) == Stages(a) + Stages(b) + Stages(c) + Stages(d)
  {
    StagesAppend(a, b);
    StagesAppend(a + b, c);
    StagesAppend(a + b + c, d);
  }

  /** When only the second of four parts prints, the whole prints what it prints. */
  lemma PrintedBySecond(a: seq<Event>, b: seq<Event>, c: seq<Event>, d: seq<Event>)
    requires Printed(a) == [] && Printed(c) == [] && Printed(d) == []
    ensures Printed(a + b + c + d) == Printed(b)
  {
    PrintedAppend(a, b);
    PrintedAppend(a + b, c);
    PrintedAppend(a + b + c, d);
    assert [] + Printed(b) == Printed(b);
    assert Printed(b) + [] + [] == Printed(b);
  }

  /** The column selection succeeds exactly when the report is there, its values parse, and there is one. */
  lemma SelectionOk(report: string, files: Files)
    ensures Selection(report, files).Ok? <==>
      && report in files.tables
      && AlignedLengths(files.tables[report]).Ok?
      && AlignedLengths(files.tables[report]).value != []
    ensures Selection(report, files).Ok? ==>
      IsFirstMax(AlignedLengths(files.tables[report]).value, Selection(report, files).value)
  {
  }


  // ---------------------------------------------------------------------------
  // Properties of a run once the output directory is created, for any names

  /** The events of a finished run, part by part. */
  lemma FreshFinishedEvents(req: Request, lay: Layout, dirs: set<string>, files: Files)
    requires FreshRun(req, lay, dirs, files).outcome == Finished
    ensures && FastqcPhase(lay.report, dirs, files).crash.None?
            && Selection(lay.quastReport, files).Ok?
            && FreshRun(req, lay, dirs, files).events
               == [TrimStage(req, lay.trimmed)] + FastqcPhase(lay.report, dirs, files).events
                  + EvaluateEvents(req, lay) + FinishEvents(req.outdir, Selection(lay.quastReport, files).value)
  {
  }

  /** The run finishes exactly when the quality-report step and the column selection both get through. */
  lemma FreshFinishedIff(req: Request, lay: Layout, dirs: set<string>, files: Files)
    ensures FreshRun(req, lay, dirs, files).outcome == Finished <==>
      FastqcPhase(lay.report, dirs, files).crash.None? && Selection(lay.quastReport, files).Ok?
  {
  }

  lemma FreshToolOrder(req: Request, lay: Layout, dirs: set<string>, files: Files)
    requires FreshRun(req, lay, dirs, files).outcome == Finished
    ensures Stages(FreshRun(req, lay, dirs, files).events)
         == [Trim] + ([QualityReport] + [Unpack, Unpack])
            + ([Assemble(SpadesDefault), Assemble(SpadesCareful)] + [Assemble(MegahitDefault), Assemble(MegahitMincount3)]
               + [Evaluate])
            + [Annotate]
  {
    FreshFinishedEvents(req, lay, dirs, files);
    var i := Selection(lay.quastReport, files).value;
    ViewsOfOne(TrimStage(req, lay.trimmed));
    FastqcPhaseViews(lay.report, dirs, files);
    EvaluateViews(req, lay);
    FinishViews(req.outdir, i);
    StagesOfFour([TrimStage(req, lay.trimmed)], FastqcPhase(lay.report, dirs, files).events,
                 EvaluateEvents(req, lay), FinishEvents(req.outdir, i));
  }

  lemma FreshPrints(req: Request, lay: Layout, dirs: set<string>, files: Files)
    requires FreshRun(req, lay, dirs, files).outcome == Finished
    ensures lay.report.forwardSummary in files.texts && lay.report.reverseSummary in files.texts
    ensures Printed(FreshRun(req, lay, dirs, files).events)
         == [ForwardHeader] + WarnLines(files.texts[lay.report.forwardSummary])
            + ([ReverseHeader] + WarnLines(files.texts[lay.report.reverseSummary]))
  {
    FreshFinishedEvents(req, lay, dirs, files);
    FastqcPhaseOk(lay.report, dirs, files);
    var i := Selection(lay.quastReport, files).value;
    ViewsOfOne(TrimStage(req, lay.trimmed));
    FastqcPhaseViews(lay.report, dirs, files);
    EvaluateViews(req, lay);
    FinishViews(req.outdir, i);
    PrintedBySecond([TrimStage(req, lay.trimmed)], FastqcPhase(lay.report, dirs, files).events,
                    EvaluateEvents(req, lay), FinishEvents(req.outdir, i));
  }

  lemma FreshAnnotates(req: Request, lay: Layout, dirs: set<string>, files: Files, i: nat)
    requires FreshRun(req, lay, dirs, files).outcome == Finished
    ensures lay.quastReport in files.tables && AlignedLengths(files.tables[lay.quastReport]).Ok?
    ensures IsFirstMax(AlignedLengths(files.tables[lay.quastReport]).value, i) ==>
      EndsWith(FreshRun(req, lay, dirs, files).events, FinishEvents(req.outdir, i))
  {
    FreshFinishedEvents(req, lay, dirs, files);
    SelectionOk(lay.quastReport, files);
    if IsFirstMax(AlignedLengths(files.tables[lay.quastReport]).value, i) {
      FirstMaxUnique(AlignedLengths(files.tables[lay.quastReport]).value, i, Selection(lay.quastReport, files).value);
    }
  }

  /** A sequence closes with whatever was appended last. */
  lemma EndsWithAppend(events: seq<Event>, tail: seq<Event>)
    ensures EndsWith(events + tail, tail)
  {
    assert (events + tail)[|events|..] == tail;
  }

  /** Putting an event in front keeps the close of a sequence. */
  lemma EndsWithPrepend(e: Event, events: seq<Event>, tail: seq<Event>)
    requires EndsWith(events, tail)
    ensures EndsWith([e] + events, tail)
  {
    assert ([e] + events)[|events| + 1 - |tail|..] == events[|events| - |tail|..];
  }

  /**
   * The data flow of a finished run: trimmomatic comes first, fastqc second
   * on the names `lay` gives for its report, and the run closes with the
   * assemblies, quast, the report, prokka and the move.
   */
  lemma FreshDataFlow(req: Request, lay: Layout, dirs: set<string>, files: Files)
    requires FreshRun(req, lay, dirs, files).outcome == Finished
    ensures var events := FreshRun(req, lay, dirs, files).events;
      && |events| > 2
      && events[0] == TrimStage(req, lay.trimmed)
      && events[2] == Invoke(FastqcRun(lay.report.forwardReads, lay.report.reverseReads, lay.report.dir))
    ensures Selection(lay.quastReport, files).Ok?
    ensures EndsWith(FreshRun(req, lay, dirs, files).events,
                     EvaluateEvents(req, lay) + FinishEvents(req.outdir, Selection(lay.quastReport, files).value))
  {
    FreshFinishedEvents(req, lay, dirs, files);
    var qc := FastqcPhase(lay.report, dirs, files);
    var forward := SummaryPhase(ForwardHeader, lay.report.forwardSummary, files);
    var reverse := SummaryPhase(ReverseHeader, lay.report.reverseSummary, files);
    assert qc.events == UnpackEvents(lay.report) + forward.events + reverse.events;
    var head := [TrimStage(req, lay.trimmed)] + qc.events;
    var tail := EvaluateEvents(req, lay) + FinishEvents(req.outdir, Selection(lay.quastReport, files).value);
    assert FreshRun(req, lay, dirs, files).events == head + tail;
    assert head[2] == UnpackEvents(lay.report)[1];
    EndsWithAppend(head, tail);
  }

  lemma FreshDirCrash(req: Request, lay: Layout, dirs: set<string>, files: Files)
    requires DirKey(lay.report.dir) in dirs
    ensures FreshRun(req, lay, dirs, files).outcome == Crashed(DirExists(lay.report.dir))
    ensures Stages(FreshRun(req, lay, dirs, files).events) == [Trim]
  {
    ViewsOfTwo(TrimStage(req, lay.trimmed), MakeDir(lay.report.dir));
  }

  lemma FreshMissingFile(req: Request, lay: Layout, dirs: set<string>, files: Files, path: string)
    requires FreshRun(req, lay, dirs, files).outcome == Crashed(FileMissing(path))
    ensures var events := FreshRun(req, lay, dirs, files).events;
      |events| > 0 && events[|events| - 1] == Open(path)
    ensures || (path == lay.report.forwardSummary && path !in files.texts)
            || (path == lay.report.reverseSummary && path !in files.texts)
            || (path == lay.quastReport && path !in files.tables)
  {
    if FastqcPhase(lay.report, dirs, files).crash.Some? {
      FastqcMissingFile(lay.report, dirs, files, path);
    }
  }

  // ---------------------------------------------------------------------------
  // Properties of a run

  /** Creating the output directory does not create the quality-report directory. */
  lemma FastqcKeyDiffers(outdir: string)
    ensures DirKey(FastqcResultDir(outdir)) != DirKey(outdir)
  {
    assert |DirKey(FastqcResultDir(outdir))| > |outdir|;
  }

  /** Both views of a run that created the output directory: its own event adds nothing to them. */
  lemma AfterMakeDir(o: string, events: seq<Event>)
    ensures Stages([MakeDir(o)] + events) == Stages(events)
    ensures Printed([MakeDir(o)] + events) == Printed(events)
  {
    ViewsOfOne(MakeDir(o));
    StagesAppend([MakeDir(o)], events);
    PrintedAppend([MakeDir(o)], events);
  }

  /** The two ways a run starts, for any names. */
  lemma DriveStart(req: Request, lay: Layout, dirs: set<string>, files: Files)
    ensures DirKey(req.outdir) in dirs ==>
      Drive(req, lay, dirs, files)
        == Run(AlreadyExists, [MakeDir(req.outdir)] + [Print(AlreadyExistsMessage(req.outdir))], dirs)
    ensures DirKey(req.outdir) !in dirs ==>
      Drive(req, lay, dirs, files).dirs == dirs + {DirKey(req.outdir), DirKey(lay.report.dir)}
  {
  }

  lemma DriveFinishedIff(req: Request, lay: Layout, dirs: set<string>, files: Files)
    requires DirKey(lay.report.dir) != DirKey(req.outdir)
    ensures Drive(req, lay, dirs, files).outcome == Finished <==>
      && DirKey(req.outdir) !in dirs
      && DirKey(lay.report.dir) !in dirs
      && lay.report.forwardSummary in files.texts
      && lay.report.reverseSummary in files.texts
      && Selection(lay.quastReport, files).Ok?
  {
    if DirKey(req.outdir) !in dirs {
      FreshFinishedIff(req, lay, dirs + {DirKey(req.outdir)}, files);
      FastqcPhaseOk(lay.report, dirs + {DirKey(req.outdir)}, files);
    }
  }

  lemma DriveToolOrder(req: Request, lay: Layout, dirs: set<string>, files: Files)
    requires Drive(req, lay, dirs, files).outcome == Finished
    ensures Stages(Drive(req, lay, dirs, files).events)
         == [Trim] + ([QualityReport] + [Unpack, Unpack])
            + ([Assemble(SpadesDefault), Assemble(SpadesCareful)] + [Assemble(MegahitDefault), Assemble(MegahitMincount3)]
               + [Evaluate])
            + [Annotate]
  {
    var run := FreshRun(req, lay, dirs + {DirKey(req.outdir)}, files);
    FreshToolOrder(req, lay, dirs + {DirKey(req.outdir)}, files);
    AfterMakeDir(req.outdir, run.events);
  }

  lemma DrivePrints(req: Request, lay: Layout, dirs: set<string>, files: Files)
    requires Drive(req, lay, dirs, files).outcome == Finished
    ensures lay.report.forwardSummary in files.texts && lay.report.reverseSummary in files.texts
    ensures Printed(Drive(req, lay, dirs, files).events)
         == [ForwardHeader] + WarnLines(files.texts[lay.report.forwardSummary])
            + ([ReverseHeader] + WarnLines(files.texts[lay.report.reverseSummary]))
  {
    var run := FreshRun(req, lay, dirs + {DirKey(req.outdir)}, files);
    FreshPrints(req, lay, dirs + {DirKey(req.outdir)}, files);
    AfterMakeDir(req.outdir, run.events);
  }

  lemma DriveAnnotates(req: Request, lay: Layout, dirs: set<string>, files: Files, i: nat)
    requires Drive(req, lay, dirs, files).outcome == Finished
    ensures lay.quastReport in files.tables && AlignedLengths(files.tables[lay.quastReport]).Ok?
    ensures IsFirstMax(AlignedLengths(files.tables[lay.quastReport]).value, i) ==>
      EndsWith(Drive(req, lay, dirs, files).events, FinishEvents(req.outdir, i))
  {
    FreshAnnotates(req, lay, dirs + {DirKey(req.outdir)}, files, i);
  }

  lemma DriveDataFlow(req: Request, lay: Layout, dirs: set<string>, files: Files)
    requires Drive(req, lay, dirs, files).outcome == Finished
    ensures var events := Drive(req, lay, dirs, files).events;
      && |events| > 3
      && events[1] == TrimStage(req, lay.trimmed)
      && events[3] == Invoke(FastqcRun(lay.report.forwardReads, lay.report.reverseReads, lay.report.dir))
    ensures Selection(lay.quastReport, files).Ok?
    ensures EndsWith(Drive(req, lay, dirs, files).events,
                     EvaluateEvents(req, lay) + FinishEvents(req.outdir, Selection(lay.quastReport, files).value))
  {
    var run := FreshRun(req, lay, dirs + {DirKey(req.outdir)}, files);
    FreshDataFlow(req, lay, dirs + {DirKey(req.outdir)}, files);
    EndsWithPrepend(MakeDir(req.outdir), run.events,
                    EvaluateEvents(req, lay) + FinishEvents(req.outdir, Selection(lay.quastReport, files).value));
  }

  lemma DriveStageArguments(req: Request, lay: Layout, dirs: set<string>, files: Files)
    requires Drive(req, lay, dirs, files).outcome == Finished
    ensures AssembliesThen(Drive(req, lay, dirs, files).events, lay.trimmed.forwardPaired, lay.trimmed.reversePaired,
                           req.outdir, Invoke(Quast(req.outdir, req.refGenome, req.refAnno)))
  {
    DriveDataFlow(req, lay, dirs, files);
    var t, o := lay.trimmed, req.outdir;
    ClosingEvents(Drive(req, lay, dirs, files).events, t.forwardPaired, t.reversePaired, o,
                  Invoke(Quast(o, req.refGenome, req.refAnno)), Open(lay.quastReport),
                  FinishEvents(o, Selection(lay.quastReport, files).value));
  }

  lemma DriveDirCrash(req: Request, lay: Layout, dirs: set<string>, files: Files)
    requires DirKey(req.outdir) !in dirs && DirKey(lay.report.dir) in dirs
    ensures Drive(req, lay, dirs, files).outcome == Crashed(DirExists(lay.report.dir))
    ensures Stages(Drive(req, lay, dirs, files).events) == [Trim]
  {
    var run := FreshRun(req, lay, dirs + {DirKey(req.outdir)}, files);
    FreshDirCrash(req, lay, dirs + {DirKey(req.outdir)}, files);
    AfterMakeDir(req.outdir, run.events);
  }

  lemma DriveMissingFile(req: Request, lay: Layout, dirs: set<string>, files: Files, path: string)
    requires Drive(req, lay, dirs, files).outcome == Crashed(FileMissing(path))
    ensures var events := Drive(req, lay, dirs, files).events;
      |events| > 0 && events[|events| - 1] == Open(path)
    ensures || (path == lay.report.forwardSummary && path !in files.texts)
            || (path == lay.report.reverseSummary && path !in files.texts)
            || (path == lay.quastReport && path !in files.tables)
  {
    FreshMissingFile(req, lay, dirs + {DirKey(req.outdir)}, files, path);
  }

  /** The driver does nothing but try to create the directory and report when it exists, and only then. */
  lemma ExistingOutdirRunsNothing(req: Request, dirs: set<string>, files: Files)
    ensures Simulate(req, dirs, files).outcome == AlreadyExists <==> DirKey(req.outdir) in dirs
    ensures DirKey(req.outdir) in dirs ==>
      && Simulate(req, dirs, files).events == [MakeDir(req.outdir)] + [Print(AlreadyExistsMessage(req.outdir))]
      && Simulate(req, dirs, files).dirs == dirs
    ensures DirKey(req.outdir) !in dirs ==>
      Simulate(req, dirs, files).dirs == dirs + {DirKey(req.outdir), DirKey(FastqcResultDir(req.outdir))}
  {
    DriveStart(req, LayoutOf(req), dirs, files);
  }

  /**
   * The run finishes exactly when the output directory is new, the
   * quality-report directory is new, both summaries and the quast report can
   * be opened, every value of the "Total aligned length" rows is an integer
   * and there is at least one.
   */
  lemma FinishedIff(req: Request, dirs: set<string>, files: Files)
    ensures var o := req.outdir;
      Simulate(req, dirs, files).outcome == Finished <==>
        && DirKey(o) !in dirs
        && DirKey(FastqcResultDir(o)) !in dirs
        && SummaryPath(Trimming(req).forwardPaired) in files.texts
        && SummaryPath(Trimming(req).reversePaired) in files.texts
        && QuastReportPath(o) in files.tables
        && AlignedLengths(files.tables[QuastReportPath(o)]).Ok?
        && AlignedLengths(files.tables[QuastReportPath(o)]).value != []
  {
    FastqcKeyDiffers(req.outdir);
    DriveFinishedIff(req, LayoutOf(req), dirs, files);
    SelectionOk(QuastReportPath(req.outdir), files);
  }

  /** A finished run starts the programs in the pipeline's order, and each exactly once. */
  lemma FinishedToolOrder(req: Request, dirs: set<string>, files: Files)
    requires Simulate(req, dirs, files).outcome == Finished
    ensures Stages(Simulate(req, dirs, files).events)
         == [Trim] + ([QualityReport] + [Unpack, Unpack])
            + ([Assemble(SpadesDefault), Assemble(SpadesCareful)] + [Assemble(MegahitDefault), Assemble(MegahitMincount3)]
               + [Evaluate])
            + [Annotate]
  {
    DriveToolOrder(req, LayoutOf(req), dirs, files);
  }

  /**
   * A finished run prints the forward header, the WARN lines of the forward
   * summary, the reverse header and the WARN lines of the reverse summary,
   * and nothing else.
   */
  lemma FinishedPrints(req: Request, dirs: set<string>, files: Files)
    requires Simulate(req, dirs, files).outcome == Finished
    ensures SummaryPath(Trimming(req).forwardPaired) in files.texts
    ensures SummaryPath(Trimming(req).reversePaired) in files.texts
    ensures Printed(Simulate(req, dirs, files).events)
         == [ForwardHeader] + WarnLines(files.texts[SummaryPath(Trimming(req).forwardPaired)])
            + ([ReverseHeader] + WarnLines(files.texts[SummaryPath(Trimming(req).reversePaired)]))
  {
    DrivePrints(req, LayoutOf(req), dirs, files);
  }

  /**
   * A finished run annotates the contig file `BestContigPath` picks for the
   * first maximum `i` of the aligned lengths, then moves the results.
   */
  lemma AnnotatesFirstMax(req: Request, dirs: set<string>, files: Files, i: nat)
    requires Simulate(req, dirs, files).outcome == Finished
    ensures QuastReportPath(req.outdir) in files.tables
    ensures AlignedLengths(files.tables[QuastReportPath(req.outdir)]).Ok?
    ensures IsFirstMax(AlignedLengths(files.tables[QuastReportPath(req.outdir)]).value, i) ==>
      EndsWith(Simulate(req, dirs, files).events, FinishEvents(req.outdir, i))
  {
    DriveAnnotates(req, LayoutOf(req), dirs, files, i);
  }

  /**
   * What a finished run hands from stage to stage: trimmomatic (the second
   * event, after creating `outdir`) writes the trimmed names, fastqc (the
   * fourth) reads the paired ones into the report directory, and the run
   * closes with the four assemblies of the paired files into `outdir`'s
   * stage directories, quast over them with the two references, opening the
   * quast report, prokka and the move.
   */
  lemma FinishedDataFlow(req: Request, dirs: set<string>, files: Files)
    requires Simulate(req, dirs, files).outcome == Finished
    ensures var events, t := Simulate(req, dirs, files).events, Trimming(req);
      && |events| > 3
      && events[1] == Invoke(Trimmomatic(req.forwardReads, req.reverseReads, t))
      && events[3] == Invoke(FastqcRun(t.forwardPaired, t.reversePaired, FastqcResultDir(req.outdir)))
    ensures Selection(QuastReportPath(req.outdir), files).Ok?
    ensures var t, o := Trimming(req), req.outdir;
      EndsWith(Simulate(req, dirs, files).events,
               AssemblyEvents(t.forwardPaired, t.reversePaired, o)
               + ([Invoke(Quast(o, req.refGenome, req.refAnno))] + [Open(QuastReportPath(o))])
               + FinishEvents(o, Selection(QuastReportPath(o), files).value))
  {
    DriveDataFlow(req, LayoutOf(req), dirs, files);
  }

  /**
   * The last eight events of `events` begin with the four assemblies of `fp`
   * and `rp` into `o`'s stage directories, candidate k at position k, and
   * the fifth of them is `quast`.
   */
  predicate AssembliesThen(events: seq<Event>, fp: string, rp: string, o: string, quast: Event)
  {
    && |events| >= 8
    && (forall k :: 0 <= k < |Candidates| ==> events[|events| - 8 + k] == Invoke(Assembler(Candidates[k], fp, rp, o)))
    && events[|events| - 4] == quast
  }

  /** Reading the positions off a trace that closes with the evaluation and two more events. */
  lemma ClosingEvents(events: seq<Event>, fp: string, rp: string, o: string, quast: Event, opening: Event, finish: seq<Event>)
    requires |finish| == 2 && EndsWith(events, AssemblyEvents(fp, rp, o) + ([quast] + [opening]) + finish)
    ensures AssembliesThen(events, fp, rp, o, quast)
  {
    var tail := AssemblyEvents(fp, rp, o) + ([quast] + [opening]) + finish;
    assert |tail| == 8 && tail[4] == quast;
    forall k | 0 <= k < |Candidates|
      ensures events[|events| - 8 + k] == Invoke(Assembler(Candidates[k], fp, rp, o))
    {
      AssemblyEventAt(fp, rp, o, k);
      assert events[|events| - 8 + k] == tail[k];
    }
  }

  /**
   * In a finished run, the k-th assembly of the last eight events runs
   * candidate k on the paired files into `outdir`'s stage directories, and
   * quast follows with the two references.
   */
  lemma FinishedStageArguments(req: Request, dirs: set<string>, files: Files)
    requires Simulate(req, dirs, files).outcome == Finished
    ensures AssembliesThen(Simulate(req, dirs, files).events, Trimming(req).forwardPaired, Trimming(req).reversePaired,
                           req.outdir, Invoke(Quast(req.outdir, req.refGenome, req.refAnno)))
  {
    DriveStageArguments(req, LayoutOf(req), dirs, files);
  }

  /**
   * When the quality-report directory already exists, a run into an existing
   * output directory stops before anything else, and a run into a new one
   * crashes on that directory after only trimmomatic has run.
   */
  lemma FastqcDirCrash(req: Request, dirs: set<string>, files: Files)
    requires DirKey(FastqcResultDir(req.outdir)) in dirs
    ensures DirKey(req.outdir) in dirs ==> Simulate(req, dirs, files).outcome == AlreadyExists
    ensures DirKey(req.outdir) !in dirs ==>
      && Simulate(req, dirs, files).outcome == Crashed(DirExists(FastqcResultDir(req.outdir)))
      && Stages(Simulate(req, dirs, files).events) == [Trim]
  {
    if DirKey(req.outdir) in dirs {
      DriveStart(req, LayoutOf(req), dirs, files);
    } else {
      DriveDirCrash(req, LayoutOf(req), dirs, files);
    }
  }

  /** A run that stops on a missing file stops right after trying to open it, and the file is one the driver reads. */
  lemma MissingFileEndsRun(req: Request, dirs: set<string>, files: Files, path: string)
    requires Simulate(req, dirs, files).outcome == Crashed(FileMissing(path))
    ensures var events := Simulate(req, dirs, files).events;
      |events| > 0 && events[|events| - 1] == Open(path)
    ensures var t := Trimming(req);
      || (path == SummaryPath(t.forwardPaired) && path !in files.texts)
      || (path == SummaryPath(t.reversePaired) && path !in files.texts)
      || (path == QuastReportPath(req.outdir) && path !in files.tables)
  {
    DriveMissingFile(req, LayoutOf(req), dirs, files, path);
  }

  // ---------------------------------------------------------------------------
  // The commands of a run

  /** Every command starts the program of its stage: it is the first element of its argument vector. */
  lemma ProgramIsArgv0(c: Command)
    ensures |Argv(c)| > 0 && Argv(c)[0] == Program(StageOf(c))
  {
    match c
    case Assembler(cand, f, r, o) =>
      assert AssemblyCommand(cand, f, r, o)[0] == Tool(cand);
    case Quast(o, g, a) =>
      assert QuastCommand(o, g, a)[0] == "quast";
    case _ =>
  }

  /** The k-th assembly event runs candidate k. */
  lemma AssemblyEventAt(fp: string, rp: string, outdir: string, k: nat)
    requires k < |Candidates|
    ensures |AssemblyEvents(fp, rp, outdir)| == |Candidates|
    ensures AssemblyEvents(fp, rp, outdir)[k] == Invoke(Assembler(Candidates[k], fp, rp, outdir))
  {
  }

  /** trimmomatic writes the forward and reverse paired files as its fifth and seventh arguments. */
  lemma TrimmomaticWritesPairs(f: string, r: string, t: Trimmed)
    ensures |Argv(Trimmomatic(f, r, t))| == 11
    ensures Argv(Trimmomatic(f, r, t))[4] == t.forwardPaired
    ensures Argv(Trimmomatic(f, r, t))[6] == t.reversePaired
  {
    TrimmomaticShape(f, r, t.forwardPaired, t.forwardUnpaired, t.reversePaired, t.reverseUnpaired);
    var argv := Argv(Trimmomatic(f, r, t));
    assert argv[4..8][0] == argv[4] && argv[4..8][2] == argv[6];
  }

  /** Every assembler reads the two read files it is given and writes to its own stage directory. */
  lemma AssemblersRead(fp: string, rp: string, outdir: string, k: nat)
    requires k < |Candidates| && IsOperand(fp) && IsOperand(rp)
    ensures var argv := Argv(AssemblyEvents(fp, rp, outdir)[k].command);
      && ArgAfter(argv, "-1") == Some(fp)
      && ArgAfter(argv, "-2") == Some(rp)
      && ArgAfter(argv, "-o") == Some(StageDir(outdir, Assembly(Candidates[k])))
  {
    AssemblyEventAt(fp, rp, outdir, k);
    AssemblyCommandTargets(Candidates[k], fp, rp, outdir);
  }

  // ---------------------------------------------------------------------------
  // The driver, step by step

  /** The driver's effects so far: the events it produced and the names that exist. */
  class Session {
    var trace: seq<Event>
    var dirs: set<string>

    constructor(existing: set<string>)
      ensures trace == [] && dirs == existing
    {
      trace := [];
      dirs := existing;
    }

    /** `os.mkdir(path)`: fails when the name exists. */
    method Mkdir(path: string) returns (created: bool)
      modifies this
      ensures created <==> DirKey(path) !in old(dirs)
      ensures dirs == old(dirs) + {DirKey(path)}
      ensures trace == old(trace) + [MakeDir(path)]
    {
      created := DirKey(path) !in dirs;
      dirs := dirs + {DirKey(path)};
      trace := trace + [MakeDir(path)];
    }

    /** `subprocess.run(Argv(command))`. */
    method RunTool(command: Command)
      modifies this
      ensures dirs == old(dirs) && trace == old(trace) + [Invoke(command)]
    {
      trace := trace + [Invoke(command)];
    }

    method RunShell(command: string)
      modifies this
      ensures dirs == old(dirs) && trace == old(trace) + [Shell(command)]
    {
      trace := trace + [Shell(command)];
    }

    method Say(text: string)
      modifies this
      ensures dirs == old(dirs) && trace == old(trace) + [Print(text)]
    {
      trace := trace + [Print(text)];
    }

    method OpenText(path: string, files: Files) returns (lines: Option<seq<string>>)
      modifies this
      ensures lines == if path in files.texts then Some(files.texts[path]) else None
      ensures dirs == old(dirs) && trace == old(trace) + [Open(path)]
    {
      trace := trace + [Open(path)];
      lines := if path in files.texts then Some(files.texts[path]) else None;
    }

    method OpenTable(path: string, files: Files) returns (rows: Option<seq<seq<string>>>)
      modifies this
      ensures rows == if path in files.tables then Some(files.tables[path]) else None
      ensures dirs == old(dirs) && trace == old(trace) + [Open(path)]
    {
      trace := trace + [Open(path)];
      rows := if path in files.tables then Some(files.tables[path]) else None;
    }

    /** The loop over a summary's lines, printing each that contains "WARN". */
    method EchoWarnings(lines: seq<string>)
      modifies this
      ensures dirs == old(dirs) && trace == old(trace) + Prints(WarnLines(lines))
    {
      var i := 0;
      while i < |lines|
        invariant 0 <= i <= |lines|
        invariant dirs == old(dirs) && trace == old(trace) + Prints(WarnLines(lines[..i]))
      {
        var seen := WarnLines(lines[..i]);
        assert lines[..i + 1][..i] == lines[..i] && lines[..i + 1][i] == lines[i];
        if Occurs(lines[i], WarnMark) {
          assert WarnLines(lines[..i + 1]) == seen + [lines[i]];
          PrintsSnoc(seen, lines[i]);
          Say(lines[i]);
          assert trace == old(trace) + (Prints(seen) + [Print(lines[i])]);
        } else {
          assert WarnLines(lines[..i + 1]) == seen + [];
          assert seen + [] == seen;
        }
        i := i + 1;
      }
      assert lines[..i] == lines;
    }

    method ReadSummary(header: string, path: string, files: Files) returns (crash: Option<Crash>)
      modifies this
      ensures crash == SummaryPhase(header, path, files).crash
      ensures dirs == old(dirs) && trace == old(trace) + SummaryPhase(header, path, files).events
    {
      Say(header);
      var lines := OpenText(path, files);
      if lines.None? {
        return Some(FileMissing(path));
      }
      EchoWarnings(lines.value);
      crash := None;
    }

    /** `run_fastqc`: make the report directory, run fastqc, unpack both archives, echo both summaries' warnings. */
    method RunFastqc(n: ReportNames, files: Files) returns (crash: Option<Crash>)
      modifies this
      ensures crash == FastqcPhase(n, old(dirs), files).crash
      ensures trace == old(trace) + FastqcPhase(n, old(dirs), files).events
      ensures dirs == old(dirs) + {DirKey(n.dir)}
    {
      var created := Mkdir(n.dir);
      if !created {
        return Some(DirExists(n.dir));
      }
      RunTool(FastqcRun(n.forwardReads, n.reverseReads, n.dir));
      RunTool(Unzip(n.forwardZip));
      RunTool(Unzip(n.reverseZip));
      assert trace == old(trace) + UnpackEvents(n);
      ghost var forward := SummaryPhase(ForwardHeader, n.forwardSummary, files);
      crash := ReadSummary(ForwardHeader, n.forwardSummary, files);
      if crash.Some? {
        return;
      }
      assert trace == old(trace) + (UnpackEvents(n) + forward.events);
      crash := ReadSummary(ReverseHeader, n.reverseSummary, files);
    }

    /** Read the quast report, collect the aligned lengths and take the column of the first maximum. */
    method ChooseAssembly(report: string, files: Files) returns (choice: Result<nat, Crash>)
      modifies this
      ensures choice == Selection(report, files)
      ensures dirs == old(dirs) && trace == old(trace) + [Open(report)]
    {
      var rows := OpenTable(report, files);
      if rows.None? {
        return Err(FileMissing(report));
      }
      var num := ParseReport(rows.value);
      if num.Err? {
        return Err(BadReport(num.error));
      }
      var best := SelectBest(num.value);
      if best.Err? {
        return Err(BadReport(best.error));
      }
      return Ok(best.value);
    }

    /** The assemblies, quast, the choice of the best assembly, prokka and the final move. */
    method RunEvaluation(req: Request, lay: Layout, files: Files) returns (crash: Option<Crash>)
      modifies this
      ensures crash == Evaluation(req, lay, files).crash
      ensures dirs == old(dirs) && trace == old(trace) + Evaluation(req, lay, files).events
    {
      var o, fp, rp := req.outdir, lay.trimmed.forwardPaired, lay.trimmed.reversePaired;
      RunTool(Assembler(SpadesDefault, fp, rp, o));
      RunTool(Assembler(SpadesCareful, fp, rp, o));
      RunTool(Assembler(MegahitDefault, fp, rp, o));
      RunTool(Assembler(MegahitMincount3, fp, rp, o));
      RunTool(Quast(o, req.refGenome, req.refAnno));
      var choice := ChooseAssembly(lay.quastReport, files);
      assert trace == old(trace) + EvaluateEvents(req, lay);
      if choice.Err? {
        return Some(choice.error);
      }
      RunTool(Prokka(BestContigPath(o, choice.value), o));
      RunShell(ConsolidateCommand(o));
      crash := None;
    }

    /** The driver once the output directory is created: trimming, the quality report, then the rest. */
    method RunFresh(req: Request, lay: Layout, files: Files) returns (outcome: Outcome)
      modifies this
      ensures outcome == FreshRun(req, lay, old(dirs), files).outcome
      ensures trace == old(trace) + FreshRun(req, lay, old(dirs), files).events
      ensures dirs == FreshRun(req, lay, old(dirs), files).dirs
    {
      ghost var start, qc := [TrimStage(req, lay.trimmed)], FastqcPhase(lay.report, old(dirs), files);
      RunTool(TrimStage(req, lay.trimmed).command);
      var crash := RunFastqc(lay.report, files);
      assert trace == old(trace) + (start + qc.events);
      if crash.Some? {
        return Crashed(crash.value);
      }
      ghost var ev := Evaluation(req, lay, files);
      crash := RunEvaluation(req, lay, files);
      assert trace == old(trace) + (start + qc.events + ev.events);
      outcome := Ending(crash);
    }

    /** `assemble_nd_anno`, once it has derived its names. */
    method DriveWith(req: Request, lay: Layout, files: Files) returns (outcome: Outcome)
      modifies this
      ensures outcome == Drive(req, lay, old(dirs), files).outcome
      ensures trace == old(trace) + Drive(req, lay, old(dirs), files).events
      ensures dirs == Drive(req, lay, old(dirs), files).dirs
    {
      var o := req.outdir;
      var created := Mkdir(o);
      if !created {
        Say(AlreadyExistsMessage(o));
        return AlreadyExists;
      }
      outcome := RunFresh(req, lay, files);
    }

    /** `assemble_nd_anno`. */
    method AssembleAndAnnotate(req: Request, files: Files) returns (outcome: Outcome)
      modifies this
      ensures outcome == Simulate(req, old(dirs), files).outcome
      ensures trace == old(trace) + Simulate(req, old(dirs), files).events
      ensures dirs == Simulate(req, old(dirs), files).dirs
    {
      outcome := DriveWith(req, LayoutOf(req), files);
    }
  }
}
