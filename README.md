# assemble_nd_anno, modelled in Dafny

`assemble_nd_anno(forward_reads, reverse_reads, outdir, ref_genome, ref_anno)`
is a genome assembly and annotation pipeline. It does the following:

1. Creates the output directory.
2. Trims the paired reads with trimmomatic.
3. Runs fastqc on the trimmed reads, unpacks both reports and prints the
   summary lines that contain `WARN`.
4. Assembles the reads four times: spades default, spades careful, megahit
   default and megahit with `--min-count 3`.
5. Evaluates the four contig files with quast.
6. Reads quast's `report.tsv` and picks the assembly with the largest
   "Total aligned length". Ties go to the first one.
7. Annotates that assembly with prokka.
8. Moves every `outdir_*` sibling into `outdir/`.

The model has these modules:

- `Text`, `Paths`, `Numerals`: the library behaviour the pipeline relies on.
  - Python's `str.replace`, which replaces every occurrence.
  - `os.path.basename` and `os.path.join`, modelled as `posixpath`.
  - The substring test that `re.search("WARN", …)` amounts to.
  - `int()` on decimal text.
- `Naming`: every location derived from `outdir`:
  - the trimmed-read names;
  - the stage directories;
  - the contig files;
  - the quast report.
- `Commands`: the argument vector handed to each tool.
- `Report`: the report parse and the best-assembly selection.
  - The parse is a loop appending to `num`; its specification is a function.
  - The selection is the first maximum.
  - The if/elif chain maps the selected column back to a contig file.
- `Fastqc`: the WARN filter and where the zip archive and the summary are
  looked for.
- `Pipeline`: the driver.
  - `Simulate` is the specification. It says how a run ends, which events it
    produces, and which names exist afterwards. An event is a directory
    made, a program started, a shell line, a file opened or a line printed.
  - Class `Session` performs the run step by step on a trace and a set of
    existing names. Its methods are proved to produce exactly what
    `Simulate` says.

The file system enters as inputs:

- the names that already exist;
- the contents of the files the driver opens: the fastqc summaries as lines,
  the quast report as rows of cells.

The model follows the code wherever the code departs from the pipeline's
stated design:

- **A tool that starts and exits non-zero does not stop the run.** No exit
  status is checked. A failed trimming step is not detected; the run goes on
  until a file it opens is missing.
- **An existing output directory is not an error.** The driver prints
  `Folder <outdir> already exists.` and returns normally.
- **The report row is matched by list membership.**
  - Any row that has a cell equal to `Total aligned length` contributes
    `int` of all its cells but the first.
  - A label in a later cell therefore makes `int` fail on the label itself.
  - Several matching rows are concatenated.
- **A missing metric row has no error of its own.** It leaves `num` empty,
  and the failure is `max` of an empty list.
- **The crashes are uncaught exceptions.** A run ends early when:
  - the quality-report directory already exists (`os.mkdir` raises);
  - a summary or the quast report is missing;
  - a cell is not an integer;
  - there are no values.
- **The assemblies run one after another.**
- **The summary folder loses every `.zip`.** `result_file.replace('.zip','')`
  removes each occurrence, not only the extension. For an output directory
  named `o.zip`, the archive is `o.zip_x_paried_fastqc.zip` but the summary
  is looked for in `o_x_paried_fastqc/` (`Fastqc.ZipOutdirSummary`).
- **The archive is looked for under the whole trimmed path.** fastqc names
  its archive after the basename of its input, but the code joins the report
  directory with the full trimmed name, which starts with `outdir`. The
  unzip path is where fastqc writes only when `outdir` has no `/`
  (`Fastqc.FastqLayout`):
  - for `outdir` `r/o` it is `r/o_fastqc_report/r/o_x_paried_fastqc.zip`;
  - for an absolute `outdir` `/d/o`, `join` drops the report directory and
    it is `/d/o_x_paried_fastqc.zip`.

## Model

| member | source | states |
|---|---|---|
| Text.OccursAt | assemble_nd_anno.py:99 | The substring test used for `WARN` holds exactly when the pattern stands at some position of the line. |
| Text.ReplaceAll | assemble_nd_anno.py:130-133 | `str.replace` leaves a string without the pattern unchanged. |
| Text.ReplaceCharIsSubst | assemble_nd_anno.py:130-133 | Replacing every `.` equals substituting each `.` independently, so the trimmed names can be reasoned about character by character. |
| Text.ReplaceTail | assemble_nd_anno.py:88-89 | If the pattern's first character does not occur in `stem`, replacing in `stem + pat` gives `stem + rep`. This is how `.fastq` becomes `_fastqc.zip`. |
| Text.ReplaceSkip | assemble_nd_anno.py:88-95 | A prefix that lacks the pattern's first character comes through a replacement unchanged, and replacing goes on after it. |
| Text.DecoyTail | assemble_nd_anno.py:88-89 | In `d + x + pat`, a part `d` that starts like the pattern but differs from it in the second character is passed over, and only the final pattern is replaced. This needs the pattern's first character to occur neither in `d[1..]` nor in `x`. |
| Text.ReplacePastDecoy | assemble_nd_anno.py:88-89 | The same holds behind a prefix `o`, when the pattern's first character occurs neither in `o` nor in `d[1..]` nor in `x`. |
| Text.ReplaceTwice | assemble_nd_anno.py:94-95 | In `o + pat + x + pat`, both occurrences of the pattern are replaced, not only the last one, when the pattern's first character occurs neither in `o` nor in `x`. |
| Text.SubstAppend | assemble_nd_anno.py:130-133 | Substitution distributes over concatenation. |
| Text.SubstIdentity | assemble_nd_anno.py:130-133 | A string without `.` is left as it is. |
| Text.SubstAvoids | assemble_nd_anno.py:130-133 | Substitution introduces no character that neither the input nor the replacement has. In particular it introduces no `/`. |
| Text.SubstKeeps | assemble_nd_anno.py:130-133 | A `.` in the input survives when the replacement contains `.`. |
| Text.SubstLonger | assemble_nd_anno.py:130-133 | With a `.` present, a longer replacement gives a strictly longer result; without one, both results equal the input. |
| Text.SubstDiffers | assemble_nd_anno.py:130-133 | Replacements of different lengths give equal results exactly when there is no `.`. |
| Text.SubstInjective | assemble_nd_anno.py:130-133 | When the replacement ends in the replaced character (as `_paried.` ends in `.`), equal results come only from equal inputs. |
| Paths.Basename | assemble_nd_anno.py:127-128 | The basename has no `/`, is a suffix of the path, and is preceded by a `/` whenever it is shorter than the path. |
| Paths.Join | assemble_nd_anno.py:90-91 | `posixpath.join`: an absolute second part replaces the first; otherwise one `/` separates the parts unless the first is empty or ends in `/`. `Paths.JoinParts`, `Paths.JoinRelative` and `Paths.BasenameOfJoin` state its properties. |
| Paths.JoinParts | assemble_nd_anno.py:90-91 | `join(a, b)` always ends with `b`. Unless `b` is absolute, it also starts with `a`. |
| Paths.BasenameOfSuffix | assemble_nd_anno.py:127-128 | Conversely, any suffix with those three properties is the basename. |
| Paths.JoinRelative | assemble_nd_anno.py:90-91 | Joining a relative name onto a non-empty directory that does not end in `/` inserts exactly one `/`. |
| Paths.BasenameOfJoin | assemble_nd_anno.py:150-153 | The basename of `join(a, b)` is `b` for a plain file name `b`. |
| Numerals.ParseInt | assemble_nd_anno.py:169 | `int` accepts only an optional `-` followed by digits, and a negative value only with the `-`. |
| Numerals.FormatNat | assemble_nd_anno.py:169 | A number written in decimal is non-empty, all digits, and has no leading zero: the form `int` reads. |
| Numerals.FormatNatValue | assemble_nd_anno.py:169 | The digits of a formatted number denote that number. |
| Numerals.ParseFormat | assemble_nd_anno.py:169 | `int` reads back every formatted integer. |
| Naming.AssemblySuffixShape | assemble_nd_anno.py:37-73 | Each assembler's directory suffix is `_` followed by a name with no `/` and no `.`. |
| Naming.SuffixShape | assemble_nd_anno.py:37-112 | Every stage suffix is `_` followed by a name with no `/` and no `.`. |
| Naming.StageDir | assemble_nd_anno.py:37-112 | A stage directory is `outdir` followed by the stage's suffix. `Naming.StageDirMatchesGlob` and `Naming.StageDirsDistinct` state its properties. |
| Naming.ContigPath | assemble_nd_anno.py:150-153 | A contig file is the contig file name joined onto its assembler's stage directory. `Naming.ContigPathInAssemblyDir` states its shape. |
| Naming.QuastReportPath | assemble_nd_anno.py:161 | The report is `report.tsv` joined onto the quast stage directory. `Pipeline.FinishedIff` and `Pipeline.SelectionOk` state when it is read. |
| Naming.TrimmedName | assemble_nd_anno.py:130-133 | A trimmed-read name is `outdir_` followed by the reads' basename with each `.` replaced by the tag. `Naming.TrimmedTail`, `Naming.TrimmedNameMatchesGlob`, `Naming.PairedUnpairedDistinct` and `Naming.TrimmedNamesCollide` state its properties. |
| Naming.Label | assemble_nd_anno.py:149 | The label quast is given for each assembly. The constant `Naming.Candidates` lists the assemblies in the order of the labels at :149 and of the contig files at :150-153. `Commands.QuastLabels` and `Commands.QuastLabelsText` state the `-l` text. |
| Naming.FastqcResultDir | assemble_nd_anno.py:85 | `outdir + '_fastqc_report/'`: the report stage directory with a trailing `/`. `Pipeline.ExistingOutdirRunsNothing` and `Pipeline.FastqcDirCrash` state when it is created, and when it makes the run crash. |
| Naming.StageDirMatchesGlob | assemble_nd_anno.py:187-188 | Every stage directory starts with `outdir_` and has no further `/`, so the final `mv outdir_* outdir/` gathers it. |
| Naming.StageDirsDistinct | assemble_nd_anno.py:37-112 | Two stages share an output directory only if they are the same stage, for every `outdir`. |
| Naming.ContigPathInAssemblyDir | assemble_nd_anno.py:150-153 | Each contig file is `<assembly dir>/<contig file>`, and its basename is the contig file name. |
| Naming.TrimmedTail | assemble_nd_anno.py:130-133 | After `outdir_`, a trimmed name is the reads' basename with every `.` replaced by the tag. |
| Naming.TrimmedNameMatchesGlob | assemble_nd_anno.py:130-133 | Every trimmed-read file starts with `outdir_` and has no further `/`, so it is gathered by the final move too. |
| Naming.PairedUnpairedDistinct | assemble_nd_anno.py:130-133 | The paired and unpaired files of one read set differ exactly when the basename contains a `.`. Without one, trimmomatic is given the same file twice. |
| Naming.TrimmedNamesCollide | assemble_nd_anno.py:130-133 | Forward and reverse trimmed files with the same tag coincide exactly when the two read files have the same basename. |
| Naming.TrimmedNameNotStageDir | assemble_nd_anno.py:130-133 | A trimmed file whose basename has a `.` never lands on a stage directory. |
| Commands.TrimmomaticShape | assemble_nd_anno.py:19-25 | The trimmomatic vector has 11 entries in this order: `trimmomatic PE`, the two inputs, the four outputs, then `LEADING:10 TRAILING:10 SLIDINGWINDOW:5:20`. |
| Commands.SpadesDefaultTargets | assemble_nd_anno.py:37 | Default spades reads `-1` forward and `-2` reverse, and writes `-o` to its stage directory. |
| Commands.SpadesCarefulTargets | assemble_nd_anno.py:48-51 | Careful spades reads `-1` forward and `-2` reverse, and writes `-o` to its stage directory. |
| Commands.SpadesCarefulMode | assemble_nd_anno.py:48-51 | Careful spades gets `-k 21,33,55,77,99` and `--careful`. |
| Commands.SpadesAssemblerOnly | assemble_nd_anno.py:37-51 | Both spades runs pass `--only-assembler`. |
| Commands.MegahitDefaultTargets | assemble_nd_anno.py:62 | Default megahit reads `-1` forward and `-2` reverse, and writes `-o` to its stage directory. |
| Commands.MegahitMincount3Targets | assemble_nd_anno.py:73 | Megahit with min-count reads `-1` forward and `-2` reverse, and writes `-o` to its stage directory. |
| Commands.MegahitMincountMode | assemble_nd_anno.py:73 | The min-count megahit vector ends in `--min-count 3`. The default one has no `--min-count`. |
| Commands.AssemblyCommandTargets | assemble_nd_anno.py:143-146 | Every assembly runs its tool on the two paired files and writes to its own stage directory. |
| Commands.QuastOutputDir | assemble_nd_anno.py:148 | quast writes to the `_quast_result` stage directory. |
| Commands.QuastReferences | assemble_nd_anno.py:148-149 | quast gets `-R` with the reference genome and `-g` with the annotation. |
| Commands.QuastLabels | assemble_nd_anno.py:149 | The `-l` value is the comma list of the candidates' labels in candidate order. |
| Commands.QuastLabelsText | assemble_nd_anno.py:149 | That list reads `Spades_default,Spades_corrected,Megahit_default,Megahit_mincount`. |
| Commands.QuastContigOrder | assemble_nd_anno.py:150-153 | The contig files are quast's last four arguments, in the order of the candidate list. The report's columns follow this order. |
| Commands.ProkkaCommandTargets | assemble_nd_anno.py:112-113 | prokka writes `-outdir` to the `_prokka` stage directory and takes the contig file as its last argument. |
| Commands.TrimmomaticCommand | assemble_nd_anno.py:19-25 | The trimmomatic vector. `Commands.TrimmomaticShape` states its entries. |
| Commands.SpadesDefaultCommand | assemble_nd_anno.py:37 | The default spades vector. `Commands.SpadesDefaultTargets` and `Commands.SpadesAssemblerOnly` state its inputs, output and mode. |
| Commands.SpadesCarefulCommand | assemble_nd_anno.py:48-51 | The careful spades vector. `Commands.SpadesCarefulTargets`, `Commands.SpadesCarefulMode` and `Commands.SpadesAssemblerOnly` state its inputs, output and mode. |
| Commands.MegahitDefaultCommand | assemble_nd_anno.py:62 | The default megahit vector. `Commands.MegahitDefaultTargets` and `Commands.MegahitMincountMode` state its inputs, output and mode. |
| Commands.MegahitMincount3Command | assemble_nd_anno.py:73 | The min-count megahit vector. `Commands.MegahitMincount3Targets` and `Commands.MegahitMincountMode` state its inputs, output and mode. |
| Commands.FastqcCommand | assemble_nd_anno.py:87 | The fastqc vector: the two paired files, then `-o` and the report directory. `Pipeline.ProgramIsArgv0` and `Pipeline.FinishedDataFlow` state how it is used. |
| Commands.UnzipCommand | assemble_nd_anno.py:92-93 | The unzip vector for one archive. `Pipeline.FastqcPhaseViews` states that both archives are unpacked in order. |
| Commands.QuastCommand | assemble_nd_anno.py:148-155 | The quast vector. `Commands.QuastOutputDir`, `Commands.QuastReferences`, `Commands.QuastLabels` and `Commands.QuastContigOrder` state its entries. |
| Commands.ProkkaCommand | assemble_nd_anno.py:112-113 | The prokka vector. `Commands.ProkkaCommandTargets` states its output and input. |
| Commands.ConsolidateCommand | assemble_nd_anno.py:187 | The shell line `mv outdir_*  outdir/`. `Naming.StageDirMatchesGlob` and `Naming.TrimmedNameMatchesGlob` state which names its pattern covers. |
| Report.ParseReport | assemble_nd_anno.py:163-170 | The row loop collects exactly `AlignedLengths(rows)`, including its first error. |
| Report.AppendCells | assemble_nd_anno.py:168-169 | The cell loop appends the integers of the cells to `num`, or stops at the first cell that is not one. |
| Report.ParseCellsOk | assemble_nd_anno.py:168-169 | Parsing the cells succeeds exactly when every cell is an integer. The values are then those integers, one per cell, in order. |
| Report.ParseCells | assemble_nd_anno.py:168-169 | `int` of each cell in order, or the first cell that is not an integer. `Report.ParseCellsOk` and `Report.AppendCells` state its properties. |
| Report.Step | assemble_nd_anno.py:166-169 | One turn of the row loop: an earlier error stays; a row holding the label appends the integers of its cells after the first; any other row adds nothing. `Report.ParseReport` and `Report.UnlabelledRowIgnored` state its effect. |
| Report.AlignedLengthsOk | assemble_nd_anno.py:166-169 | Collection succeeds exactly when every non-first cell of every row holding the label is an integer. |
| Report.AlignedLengths | assemble_nd_anno.py:163-169 | The values the row loop collects, or its first error. `Report.ParseReport`, `Report.AlignedLengthsOk`, `Report.AlignedLengthsAppend` and `Report.LabelOffFirstColumnFails` state its properties. |
| Report.AlignedLengthsAppend | assemble_nd_anno.py:166-169 | Rows are read in order: the values of two consecutive blocks of rows are concatenated, and the first error wins. |
| Report.UnlabelledRowIgnored | assemble_nd_anno.py:167 | A row without the label contributes nothing. |
| Report.LabelIsNotInteger | assemble_nd_anno.py:169 | `int` rejects the label text. |
| Report.LabelOffFirstColumnFails | assemble_nd_anno.py:167-169 | A row carrying the label in any cell but the first makes the whole collection fail. |
| Report.MaxOf | assemble_nd_anno.py:171 | `max(num)` is an element of `num` and no element exceeds it. |
| Report.IndexOf | assemble_nd_anno.py:172 | `num.index(m)` is a position of `m` with no earlier `m`. |
| Report.SelectBest | assemble_nd_anno.py:171-172 | The selection fails exactly on an empty list, with the empty-list error. Otherwise it is the first maximum: no value exceeds it, and every earlier value is smaller. |
| Report.FirstMaxUnique | assemble_nd_anno.py:171-172 | There is only one first maximum, so the values determine the choice. |
| Report.BestContigPathIsCandidate | assemble_nd_anno.py:174-181 | The if/elif chain maps column `i < 4` to the contig file of candidate `i`, the same candidate quast labelled and was given in that column. Every column from 3 on maps to the min-count megahit contigs. |
| Report.BestContigPath | assemble_nd_anno.py:174-181 | The contig file the if/elif chain picks for column `i`. `Report.BestContigPathIsCandidate` states which candidate it is. |
| Fastqc.WarnLinesMembers | assemble_nd_anno.py:98-100 | A line is echoed exactly when it is in the summary and contains `WARN`. |
| Fastqc.WarnLinesAppend | assemble_nd_anno.py:98-100 | The echo keeps file order: filtering two consecutive parts gives the first part's echo, then the second's. |
| Fastqc.WarnLines | assemble_nd_anno.py:98-100 | The summary lines that are echoed. `Fastqc.WarnLinesMembers` and `Fastqc.WarnLinesAppend` state which lines, and in what order. |
| Fastqc.ZipName | assemble_nd_anno.py:88-89 | The archive name: every `.fastq` replaced by `_fastqc.zip`. `Fastqc.FastqLayout` and `Fastqc.DottedArchive` state its value. |
| Fastqc.ZipPath | assemble_nd_anno.py:90-91 | The archive name joined onto the report directory. `Fastqc.FastqLayout` states its value. |
| Fastqc.SummaryPath | assemble_nd_anno.py:94-96 | The archive name with every `.zip` removed, joined with `summary.txt`. `Fastqc.FastqLayout`, `Fastqc.PairedReadsSummary` and `Fastqc.ZipOutdirSummary` state its value. |
| Fastqc.FastqLayout | assemble_nd_anno.py:88-96 | For a reads file `stem.fastq` whose `stem` has no `.`:<br>• the archive name is `stem_fastqc.zip`;<br>• when `stem` is relative, the archive is looked for at the report directory followed by `stem_fastqc.zip`;<br>• when `stem` is absolute, it is looked for at `stem_fastqc.zip` itself, outside the report directory;<br>• the summary is `stem_fastqc/summary.txt`. |
| Fastqc.PairedBasename | assemble_nd_anno.py:130 | For `x` without `.`, `x.fastq` with `.` replaced by `_paried.` is `x_paried.fastq`. |
| Fastqc.PairedReadsSummary | assemble_nd_anno.py:94-96 | For reads whose basename is `x.fastq`, where neither `x` nor `outdir` has a `.`:<br>• the paired file is `outdir_x_paried.fastq`;<br>• its summary is read from `outdir_x_paried_fastqc/summary.txt`. |
| Fastqc.DottedArchive | assemble_nd_anno.py:88-89 | In `o.zip<inner>.fastq` (no other `.`), only the final `.fastq` becomes `_fastqc.zip`. |
| Fastqc.DottedFolder | assemble_nd_anno.py:94-95 | Removing `.zip` from `o.zip<inner>_fastqc.zip` removes both occurrences, giving `o<inner>_fastqc`. |
| Fastqc.DottedSummary | assemble_nd_anno.py:88-96 | For a trimmed file `o.zip<inner>.fastq`:<br>• the archive is `o.zip<inner>_fastqc.zip`;<br>• the summary is read from `o<inner>_fastqc/summary.txt`. |
| Fastqc.ZipOutdirTrimmed | assemble_nd_anno.py:130 | With output directory `o.zip` and reads whose basename is `x.fastq` (`x` without `.`), the paired file is `o.zip_x_paried.fastq`. |
| Fastqc.ZipOutdirSummary | assemble_nd_anno.py:88-96 | With output directory `o.zip` (neither `o` nor `x` has a `.`), the archive of the paired file keeps the directory's `.zip`, but its summary is read from `o_x_paried_fastqc/summary.txt`. |
| Pipeline.DirKey | assemble_nd_anno.py:86 | The name `os.mkdir` creates is the path without a trailing `/`, and is shorter exactly when there was one. |
| Pipeline.ProgramIsArgv0 | assemble_nd_anno.py:19-113 | Every command vector starts with the program of its stage. |
| Pipeline.TrimmomaticWritesPairs | assemble_nd_anno.py:19-25 | The trimmomatic vector has 11 entries. Its fifth is the forward paired file and its seventh the reverse paired file. |
| Pipeline.AssemblyEventAt | assemble_nd_anno.py:143-146 | The k-th assembly started is candidate k, on the paired files. |
| Pipeline.AssemblersRead | assemble_nd_anno.py:143-146 | The k-th assembly reads the two paired files and writes to candidate k's directory. |
| Pipeline.Trimming | assemble_nd_anno.py:127-133 | The four trimmed names: `TrimmedName` of each reads file with the paired and the unpaired tag. `Pipeline.FinishedDataFlow` states that trimmomatic is given them and fastqc and the assemblers read the paired ones. |
| Pipeline.LayoutOf | assemble_nd_anno.py:85-96 | The names the run derives: the trimmed names, the report directory, both archive paths and both summary paths of the paired files, and the quast report. `Pipeline.FinishedIff` and `Pipeline.MissingFileEndsRun` state which of them are read. |
| Pipeline.SummaryPhase | assemble_nd_anno.py:96-106 | The header is printed before the summary is opened. A missing summary ends the step right after the open; otherwise its WARN lines are printed in order. `Pipeline.SummaryPhaseViews` states its properties. |
| Pipeline.SummaryPhaseViews | assemble_nd_anno.py:97-100 | Reading one summary starts no program, fails exactly when the file is missing, and prints the header then the WARN lines. |
| Pipeline.FastqcPhaseOk | assemble_nd_anno.py:85-106 | The quality-report step gets through exactly when its directory is new and both summaries exist. |
| Pipeline.FastqcPhaseViews | assemble_nd_anno.py:85-106 | A quality-report step that gets through:<br>• starts fastqc, then two unzips;<br>• prints the forward header and WARN lines, then the reverse ones. |
| Pipeline.FastqcMissingFile | assemble_nd_anno.py:96-104 | A missing summary ends the step right after opening it. It is the forward or the reverse summary, and it is absent. |
| Pipeline.Selection | assemble_nd_anno.py:161-172 | A missing report fails with that file; a cell that is not an integer, or no values, fails with that error; otherwise the column of the first maximum. `Pipeline.SelectionOk` states its properties. |
| Pipeline.SelectionOk | assemble_nd_anno.py:161-172 | Selection succeeds exactly when the report exists, its values parse and there is at least one. It then returns the first maximum. |
| Pipeline.EvaluateViews | assemble_nd_anno.py:143-164 | The evaluation starts the four assemblers in candidate order, then quast, and prints nothing. |
| Pipeline.ExistingOutdirRunsNothing | assemble_nd_anno.py:120-123 | A run reports "already exists" exactly when `outdir` exists. In that case:<br>• it tries `mkdir`, prints the message and starts nothing;<br>• the names are unchanged.<br>Otherwise it creates `outdir` and the report directory. |
| Pipeline.FinishedIff | assemble_nd_anno.py:118-188 | A run finishes exactly when all of these hold:<br>• `outdir` and the report directory are new;<br>• both summaries exist;<br>• the quast report exists, parses and has a value. |
| Pipeline.FinishedToolOrder | assemble_nd_anno.py:136-188 | A finished run starts each stage once, in this order: trimmomatic, fastqc, two unzips, spades default, spades careful, megahit default, megahit min-count, quast, prokka. |
| Pipeline.FinishedPrints | assemble_nd_anno.py:97-106 | A finished run prints exactly the forward header and the forward summary's WARN lines in file order, then the reverse header and lines. |
| Pipeline.AnnotatesFirstMax | assemble_nd_anno.py:171-188 | In a finished run, the report's values parse. If column `i` is their first maximum, the run ends by:<br>• annotating `BestContigPath(outdir, i)`;<br>• then moving `outdir_*` into `outdir/`. |
| Pipeline.FastqcDirCrash | assemble_nd_anno.py:85-86 | If the report directory already exists:<br>• with `outdir` existing too, the run reports "already exists";<br>• with `outdir` new, the run crashes on the report directory's `mkdir` after starting only trimmomatic. |
| Pipeline.MissingFileEndsRun | assemble_nd_anno.py:98-164 | A run that crashes on a missing file ends right after opening it. The file is a summary or the quast report, and it is absent. |
| Pipeline.FinishedDataFlow | assemble_nd_anno.py:136-188 | In a finished run:<br>• the second event runs trimmomatic on the two read files, writing the four trimmed names;<br>• the fourth runs fastqc on the two paired files into the report directory;<br>• the run closes with the four assemblies of the paired files in candidate order, quast with both references, opening the quast report, prokka and the move. |
| Pipeline.FinishedStageArguments | assemble_nd_anno.py:143-157 | In a finished run, the k-th of the last eight events runs candidate k's assembler on the two paired files into `outdir`'s stage directories. The fourth from the end runs quast on `outdir` with the reference genome and annotation. Predicate `Pipeline.AssembliesThen` spells out these positions. |
| Pipeline.FastqcPhase | assemble_nd_anno.py:76-106 | `run_fastqc` as a function of the existing names and the files. `Pipeline.FastqcPhaseOk`, `Pipeline.FastqcPhaseViews` and `Pipeline.FastqcMissingFile` state its properties. |
| Pipeline.Evaluation | assemble_nd_anno.py:143-188 | The run from the assemblies on. `Pipeline.EvaluateViews`, `Pipeline.SelectionOk` and `Pipeline.AnnotatesFirstMax` state its properties. |
| Pipeline.FreshRun | assemble_nd_anno.py:136-188 | The run after `outdir` is created. It never reports "already exists", and afterwards the report directory exists too. |
| Pipeline.Drive | assemble_nd_anno.py:120-188 | The driver over given names. It reports "already exists" exactly when `outdir` exists. |
| Pipeline.Simulate | assemble_nd_anno.py:118-188 | The driver. It reports "already exists" exactly when `outdir` exists. `Pipeline.FinishedIff`, `Pipeline.FinishedToolOrder`, `Pipeline.FinishedPrints`, `Pipeline.FinishedDataFlow` and `Pipeline.AnnotatesFirstMax` state the rest. |
| Pipeline.Session.RunTool | assemble_nd_anno.py:87-93 | `subprocess.run` records one `Invoke` event with the argument vector and changes no name. |
| Pipeline.Session.RunShell | assemble_nd_anno.py:187-188 | `subprocess.call(…, shell=True)` records one `Shell` event with the command line and changes no name. |
| Pipeline.Session.Say | assemble_nd_anno.py:97-100 | `print` records one `Print` event with the text and changes no name. |
| Pipeline.Session.OpenText | assemble_nd_anno.py:98 | `open` of a summary records one `Open` event and yields the file's lines, or nothing when the file is missing. |
| Pipeline.Session.OpenTable | assemble_nd_anno.py:164-165 | `open` of the quast report records one `Open` event and yields its rows, or nothing when the file is missing. |
| Pipeline.Session.Mkdir | assemble_nd_anno.py:121 | Succeeds exactly when the name is new, then adds it to the existing names. A `MakeDir` event is recorded either way. |
| Pipeline.Session.EchoWarnings | assemble_nd_anno.py:98-100 | The line loop prints exactly the WARN lines, in file order, and changes nothing else. |
| Pipeline.Session.ReadSummary | assemble_nd_anno.py:96-100 | Opening and echoing one summary does what `SummaryPhase` says. |
| Pipeline.Session.RunFastqc | assemble_nd_anno.py:76-106 | `run_fastqc` does what `FastqcPhase` says: the same crash, the same events, and the report directory among the names afterwards. |
| Pipeline.Session.ChooseAssembly | assemble_nd_anno.py:161-172 | Opening and scanning the report, then taking the first maximum, yields `Selection`. |
| Pipeline.Session.RunEvaluation | assemble_nd_anno.py:143-188 | Assemblies, quast, selection, prokka and the move do what `Evaluation` says. |
| Pipeline.Session.RunFresh | assemble_nd_anno.py:136-188 | Everything after creating `outdir` does what `FreshRun` says. |
| Pipeline.Session.DriveWith | assemble_nd_anno.py:120-188 | Creating `outdir` and either printing the message or running the rest does what `Drive` says. |
| Pipeline.Session.AssembleAndAnnotate | assemble_nd_anno.py:118-188 | The driver produces exactly `Simulate`'s outcome, appends exactly its events to the trace, and leaves exactly its names existing. |

## Left out

- Programs that cannot be started. `subprocess.run` raises (`FileNotFoundError`, `PermissionError`) when a program is missing or not executable, and the run ends there. In the model every `Invoke` event succeeds and the run goes on. `subprocess.call` with `shell=True` at line 188 does not raise for a missing `mv`.
- Running the external programs. `subprocess.run` and `subprocess.call` become events carrying their argument vector or shell line. What the tools do, and their exit statuses (which the code ignores), is not modelled.
- What the tools leave on disk. The model does not create these files or directories:
  - the trimmed files;
  - fastqc's archives and the unzipped summaries;
  - the assemblies;
  - quast's report;
  - prokka's output.

  Their contents enter as `Files`: lines for the summaries, rows for the report.
- The shell `mv outdir_*  outdir/`: glob expansion and moving are not modelled. `Naming.MatchesGlob` states only what the pattern needs of a name: it starts with `outdir_` and has no further `/`.
- `os.mkdir` failures other than an existing name (a missing parent, permissions, an empty name) are not modelled. `Pipeline.DirKey` strips a single trailing `/` and does not normalise paths any further.
- `open` is modelled as either present (with its contents) or missing. Other I/O errors and text decoding are not. The summaries are never closed in the code; file handles are not modelled.
- `Numerals.ParseInt`: Python's `int()` also accepts surrounding whitespace, a leading `+`, digit-group underscores and non-ASCII digits. The model accepts an optional `-` followed by ASCII digits only.
- `csv.reader` quoting and escaping: the report enters already split into rows of cells.
- `re.search("WARN", line)` is modelled as a literal substring test, because the pattern has no special characters.
- `print` output is one `Print` event carrying the printed text. The newline `print` adds, and the blank line after each header's `\n`, are not rendered.
- The names `run_fastqc` derives (archive and summary paths) are computed with the other derived names before the run, in `LayoutOf`. They depend only on the arguments, so the order of computing them is not observable.
- `assanno.py` is not part of this model. It is command-line plumbing that forwards five strings to the driver.
