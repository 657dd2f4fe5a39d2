/**
 * The CodeNarc plugin: the extension defaults it installs, the default
 * dependency coordinate, the task description per source set, and the
 * naming conventions of the single-file reports (which ones are required,
 * where each is written).
 */
module CodeNarc {
  import opened Wrappers
  import opened JavaLang

  const DefaultCodeNarcVersion := "1.6.1"
  const DefaultReportFormat := "html"
  /** `config/codenarc/codenarc.xml`, relative to the root project directory. */
  const DefaultConfigFile: seq<string> := ["config", "codenarc", "codenarc.xml"]

  /** A file system path as its sequence of names. */
  datatype Path = Path(segments: seq<string>)

  /** `new File(dir, name)` / `project.file(...)` for a relative path. */
  function Resolve(dir: Path, relative: seq<string>): (p: Path)
    ensures |p.segments| == |dir.segments| + |relative|
    ensures p.segments[..|dir.segments|] == dir.segments && p.segments[|dir.segments|..] == relative
  {
    Path(dir.segments + relative)
  }

  /** A text resource read from a file. */
  datatype TextResource = FileText(file: Path)

  /* ---------------------------------------------------------------------- */
  /* The extension and its defaults                                          */
  /* ---------------------------------------------------------------------- */

  class CodeNarcExtension {
    var toolVersion: string
    var config: Option<TextResource>
    var maxPriority1Violations: int
    var maxPriority2Violations: int
    var maxPriority3Violations: int
    var reportFormat: string
    var reportsDir: Path
    var ignoreFailures: bool

    /** The extension before the plugin sets its defaults; only the reports directory comes from the project. */
    constructor (reportsDir: Path)
      ensures this.reportsDir == reportsDir && !ignoreFailures
      ensures toolVersion == "" && config == None && reportFormat == ""
    {
      this.reportsDir := reportsDir;
      toolVersion := "";
      config := None;
      maxPriority1Violations := 0;
      maxPriority2Violations := 0;
      maxPriority3Violations := 0;
      reportFormat := "";
      ignoreFailures := false;
    }
  }

  /** A dependency set a configuration resolves. */
  class DependencySet {
    var notations: seq<string>

    constructor ()
      ensures notations == []
    {
      notations := [];
    }
  }

  /** The task a source set gets. */
  class CodeNarcTask {
    var description: Option<string>

    constructor ()
      ensures description == None
    {
      description := None;
    }
  }

  class CodeNarcPlugin {
    const rootDir: Path
    var extension: CodeNarcExtension?

    constructor (rootDir: Path)
      ensures this.rootDir == rootDir && extension == null
    {
      this.rootDir := rootDir;
      extension := null;
    }

    /**
     * `createExtension`: a new extension with the plugin's defaults (tool
     * version, config, violation limits, report format). The reports
     * directory and ignoreFailures are not set here: the last ensures only
     * restates what the extension was created with, not plugin defaults.
     */
    method CreateExtension(reportsDir: Path) returns (e: CodeNarcExtension)
      modifies this
      ensures fresh(e) && extension == e
      ensures e.toolVersion == DefaultCodeNarcVersion
      ensures e.config == Some(FileText(Resolve(rootDir, DefaultConfigFile)))
      ensures e.maxPriority1Violations == 0 && e.maxPriority2Violations == 0 && e.maxPriority3Violations == 0
      ensures e.reportFormat == DefaultReportFormat
      ensures e.reportsDir == reportsDir && !e.ignoreFailures
    {
      e := new CodeNarcExtension(reportsDir);
      extension := e;
      e.toolVersion := DefaultCodeNarcVersion;
      e.config := Some(FileText(Resolve(rootDir, DefaultConfigFile)));
      e.maxPriority1Violations := 0;
      e.maxPriority2Violations := 0;
      e.maxPriority3Violations := 0;
      e.reportFormat := DefaultReportFormat;
    }

    /**
     * The default-dependencies action: adds the CodeNarc coordinate for
     * the tool version the extension holds when the action runs. Gradle
     * runs this action only when the configuration declares no dependencies
     * of its own; that guard belongs to the container and is not modelled.
     */
    method AddDefaultDependency(dependencies: DependencySet)
      requires extension != null
      modifies dependencies
      ensures dependencies.notations == old(dependencies.notations) + [DependencyNotation(extension.toolVersion)]
    {
      dependencies.notations := dependencies.notations + [DependencyNotation(extension.toolVersion)];
    }

    /** `configureForSourceSet`: the task's description names the source set. */
    method ConfigureForSourceSet(sourceSetName: string, task: CodeNarcTask)
      modifies task
      ensures task.description == Some(TaskDescription(sourceSetName))
      ensures DescribedSourceSet(task.description.value) == Some(sourceSetName)
    {
      task.description := Some(TaskDescription(sourceSetName));
      DescribedSourceSetRoundTrip(sourceSetName);
    }
  }

  /* ---------------------------------------------------------------------- */
  /* The dependency coordinate                                               */
  /* ---------------------------------------------------------------------- */

  const CoordinatePrefix := "org.codenarc:CodeNarc:"

  /** The default dependency: CodeNarc's coordinate prefix, then the tool version. */
  function DependencyNotation(toolVersion: string): (r: string)
    ensures |r| == |CoordinatePrefix| + |toolVersion|
    ensures r[..|CoordinatePrefix|] == CoordinatePrefix && r[|CoordinatePrefix|..] == toolVersion
  {
    CoordinatePrefix + toolVersion
  }

  /** Module coordinates a `group:name:version` notation stands for. */
  datatype ModuleCoordinates = ModuleCoordinates(group: string, name: string, version: string)

  /** The pieces of `s` between occurrences of `sep`. */
  function Split(s: string, sep: char): (parts: seq<string>)
    ensures |parts| >= 1
    ensures forall i :: 0 <= i < |parts| ==> sep !in parts[i]
    decreases |s|
  {
    var k := IndexOf(s, sep);
    if k < 0 then [s] else [s[..k]] + Split(s[k + 1..], sep)
  }

  /** A reference reading of `group:name:version`; any other shape is rejected. */
  function ParseNotation(s: string): Option<ModuleCoordinates>
  {
    var parts := Split(s, ':');
    if |parts| == 3 then Some(ModuleCoordinates(parts[0], parts[1], parts[2])) else None
  }

  lemma SplitAfterPiece(piece: string, sep: char, rest: string)
    requires sep !in piece
    ensures Split(piece + [sep] + rest, sep) == [piece] + Split(rest, sep)
  {
    var s := piece + [sep] + rest;
    IndexOfAfterPrefix(piece, sep, rest);
    assert s[..|piece|] == piece;
    assert s[|piece| + 1..] == rest;
  }

  lemma SplitWithoutSeparator(s: string, sep: char)
    requires sep !in s
    ensures Split(s, sep) == [s]
  {
  }

  lemma SplitWithSeparator(s: string, sep: char)
    requires sep in s
    ensures |Split(s, sep)| >= 2
  {
  }

  /** The coordinate splits into CodeNarc's group, its name and the pieces of the tool version. */
  lemma SplitNotation(toolVersion: string)
    ensures Split(DependencyNotation(toolVersion), ':') == ["org.codenarc", "CodeNarc"] + Split(toolVersion, ':')
  {
    var rest := "CodeNarc" + [':'] + toolVersion;
    assert ':' !in "org.codenarc";
    assert ':' !in "CodeNarc";
    assert DependencyNotation(toolVersion) == "org.codenarc" + [':'] + rest;
    SplitAfterPiece("org.codenarc", ':', rest);
    SplitAfterPiece("CodeNarc", ':', toolVersion);
  }

  /**
   * The coordinate reads back as CodeNarc's group, name and the tool
   * version exactly when the version has no `:` in it.
   */
  lemma DependencyNotationRoundTrip(toolVersion: string)
    ensures ParseNotation(DependencyNotation(toolVersion)) == Some(ModuleCoordinates("org.codenarc", "CodeNarc", toolVersion))
            <==> ':' !in toolVersion
  {
    SplitNotation(toolVersion);
    if ':' !in toolVersion {
      SplitWithoutSeparator(toolVersion, ':');
    } else {
      SplitWithSeparator(toolVersion, ':');
    }
  }

  /* ---------------------------------------------------------------------- */
  /* The task description                                                    */
  /* ---------------------------------------------------------------------- */

  const DescriptionPrefix := "Run CodeNarc analysis for "
  const DescriptionSuffix := " classes"

  /** The task description: the source set name between a fixed prefix and suffix. */
  function TaskDescription(sourceSetName: string): (r: string)
    ensures |r| == |DescriptionPrefix| + |sourceSetName| + |DescriptionSuffix|
    ensures r[|DescriptionPrefix|..|r| - |DescriptionSuffix|] == sourceSetName
  {
    DescriptionPrefix + sourceSetName + DescriptionSuffix
  }

  /** The source set a task description names, if it has the description's shape. */
  function DescribedSourceSet(description: string): (r: Option<string>)
    ensures r.Some? ==> TaskDescription(r.value) == description
  {
    var n := |DescriptionPrefix|;
    var m := |DescriptionSuffix|;
    if |description| >= n + m && description[..n] == DescriptionPrefix && description[|description| - m..] == DescriptionSuffix
    then
      var name := description[n..|description| - m];
      assert description == description[..n] + name + description[|description| - m..];
      Some(name)
    else None
  }

  lemma DescribedSourceSetRoundTrip(sourceSetName: string)
    ensures DescribedSourceSet(TaskDescription(sourceSetName)) == Some(sourceSetName)
  {
  }

  /** Different source sets get different task descriptions. */
  lemma TaskDescriptionInjective(a: string, b: string)
    ensures TaskDescription(a) == TaskDescription(b) <==> a == b
  {
    if TaskDescription(a) == TaskDescription(b) {
      DescribedSourceSetRoundTrip(a);
      DescribedSourceSetRoundTrip(b);
    }
  }

  /* ---------------------------------------------------------------------- */
  /* Report conventions                                                      */
  /* ---------------------------------------------------------------------- */

  /** The file suffix of a report: `txt` for the `text` report, the report's own name otherwise. */
  function FileSuffix(reportName: string): (r: string)
    ensures reportName != "text" ==> r == reportName
    ensures r == "txt" <==> reportName == "text" || reportName == "txt"
  {
    if reportName == "text" then "txt" else reportName
  }

  /** Two reports share a suffix exactly when they are the same report or are `text` and `txt`. */
  lemma FileSuffixCollision(a: string, b: string)
    ensures FileSuffix(a) == FileSuffix(b) <==> a == b || {a, b} == {"text", "txt"}
  {
  }

  /** `reportsDir / (baseName + "." + suffix)`. */
  function OutputLocation(reportsDir: Path, baseName: string, reportName: string): (r: Path)
    ensures |r.segments| == |reportsDir.segments| + 1 && r.segments[..|reportsDir.segments|] == reportsDir.segments
    ensures var file := r.segments[|reportsDir.segments|];
            |file| == |baseName| + 1 + |FileSuffix(reportName)| && file[|baseName| + 1..] == FileSuffix(reportName)
    ensures var file := r.segments[|reportsDir.segments|];
            file[..|baseName|] == baseName && file[|baseName|] == '.'
  {
    Resolve(reportsDir, [baseName + "." + FileSuffix(reportName)])
  }

  /**
   * Where the reports of one task go: the file name is the base name, a dot
   * and the suffix, so two reports collide only when their suffixes do.
   */
  lemma OutputLocationsDistinct(reportsDir: Path, baseName: string, a: string, b: string)
    ensures OutputLocation(reportsDir, baseName, a) == OutputLocation(reportsDir, baseName, b)
            <==> FileSuffix(a) == FileSuffix(b)
  {
    var la := OutputLocation(reportsDir, baseName, a);
    var lb := OutputLocation(reportsDir, baseName, b);
    if la == lb {
      assert la.segments[|reportsDir.segments|] == baseName + "." + FileSuffix(a);
      assert lb.segments[|reportsDir.segments|] == baseName + "." + FileSuffix(b);
      var fa := baseName + "." + FileSuffix(a);
      assert FileSuffix(a) == fa[|baseName| + 1..];
      assert FileSuffix(b) == fa[|baseName| + 1..];
    }
  }

  /**
   * Tasks whose base names have no dot in them (as source set names
   * normally have not) never share a report file.
   */
  lemma OutputLocationsOfTasksDistinct(reportsDir: Path, base1: string, base2: string, a: string, b: string)
    requires '.' !in base1 && '.' !in base2
    ensures OutputLocation(reportsDir, base1, a) == OutputLocation(reportsDir, base2, b)
            <==> base1 == base2 && FileSuffix(a) == FileSuffix(b)
  {
    var f1 := base1 + "." + FileSuffix(a);
    var f2 := base2 + "." + FileSuffix(b);
    var la := OutputLocation(reportsDir, base1, a);
    var lb := OutputLocation(reportsDir, base2, b);
    if la == lb {
      assert la.segments[|reportsDir.segments|] == f1;
      assert lb.segments[|reportsDir.segments|] == f2;
      assert f1 == base1 + ['.'] + FileSuffix(a);
      assert f2 == base2 + ['.'] + FileSuffix(b);
      IndexOfAfterPrefix(base1, '.', FileSuffix(a));
      IndexOfAfterPrefix(base2, '.', FileSuffix(b));
      assert base1 == f1[..|base1|];
      assert base2 == f2[..|base2|];
      assert FileSuffix(a) == f1[|base1| + 1..];
      assert FileSuffix(b) == f2[|base2| + 1..];
    }
  }

  /** A report is required when its name is the configured report format. */
  function Required(reportName: string, reportFormat: string): bool
  {
    reportName == reportFormat
  }

  /** The conventions the reports action gives one report. */
  datatype ReportConvention = ReportConvention(required: bool, outputLocation: Path)

  function ReportsConvention(reportName: string, reportFormat: string, reportsDir: Path, baseName: string): ReportConvention
  {
    ReportConvention(Required(reportName, reportFormat), OutputLocation(reportsDir, baseName, reportName))
  }

  /** Of a task's reports, exactly the one named like the report format is required. */
  lemma RequiredReports(reportNames: set<string>, reportFormat: string, reportsDir: Path, baseName: string)
    ensures (set n | n in reportNames && ReportsConvention(n, reportFormat, reportsDir, baseName).required)
            == (if reportFormat in reportNames then {reportFormat} else {})
  {
  }

  /** Example: with the default format, only the `html` report is required and it is written to `<baseName>.html`. */
  lemma DefaultFormatRequiresHtml(reportsDir: Path, baseName: string, reportName: string)
    ensures ReportsConvention(reportName, DefaultReportFormat, reportsDir, baseName).required <==> reportName == "html"
    ensures ReportsConvention("html", DefaultReportFormat, reportsDir, baseName).outputLocation
            == Path(reportsDir.segments + [baseName + ".html"])
  {
    assert baseName + "." + "html" == baseName + ".html";
  }

  /** Example: the text report is written to `<baseName>.txt`. */
  lemma TextReportIsTxt(reportsDir: Path, baseName: string, reportFormat: string)
    ensures ReportsConvention("text", reportFormat, reportsDir, baseName).outputLocation
            == Path(reportsDir.segments + [baseName + ".txt"])
  {
    assert baseName + "." + "txt" == baseName + ".txt";
  }
}
