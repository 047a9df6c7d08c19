/** The HTML test report: one report object per run, created on first request
    with a timestamped file under "<user.dir>/test-output/reports/", a fixed
    reporter configuration and a table of system information; it is flushed at
    the end of the suite, and old report files can be cleaned up. The clock and
    the file system are inputs. */
module Reports {
  import opened Wrappers
  import opened JavaText
  import opened Timestamps
  import opened Retention
  import opened Configuration

  /** `REPORTS_DIR`: `System.getProperty("user.dir")` (concatenated as "null"
      when absent) followed by "/test-output/reports/". */
  function ReportsDir(system: map<string, string>): (dir: string)
    ensures EndsWith(dir, "/test-output/reports/")
  {
    (if "user.dir" in system then system["user.dir"] else "null") + "/test-output/reports/"
  }

  /** "TestReport_<yyyy-MM-dd_HH-mm-ss>.html". */
  function ReportFileName(t: DateTime): (name: string)
    requires Valid(t)
    ensures |name| == 35
  {
    "TestReport_" + FileStamp(t) + ".html"
  }

  /** Reads the creation time back from a report file name. */
  function ParseReportFileName(name: string): Option<DateTime> {
    if |name| == 35 && name[..11] == "TestReport_" && name[30..] == ".html" then ParseFileStamp(name[11..30]) else None
  }

  /** A report's file name records the second it was created. */
  lemma ReportFileNameRoundTrip(t: DateTime)
    requires Valid(t)
    ensures ParseReportFileName(ReportFileName(t)) == Some(t)
  {
    var name := ReportFileName(t);
    assert name[..11] == "TestReport_";
    assert name[11..30] == FileStamp(t);
    assert name[30..] == ".html";
    FileStampRoundTrip(t);
  }

  /** Report files are exactly what the report clean-up looks at: a report file
      is a candidate precisely when it is older than the cutoff. */
  lemma ReportFileIsCleanupCandidate(t: DateTime, lastModified: int, deletable: bool, cutoff: int)
    requires Valid(t)
    ensures Selected(NameEndsWith(".html"), FileEntry(ReportFileName(t), true, lastModified, deletable), cutoff)
            <==> lastModified < cutoff
  {
    var name := ReportFileName(t);
    assert name[|name| - 5..] == ".html";
  }

  // ---------------------------------------------------------------------------
  // Reporter configuration and system information
  // ---------------------------------------------------------------------------

  datatype Theme = Standard | Dark

  /** The settings `configureSparkReporter` applies (the custom CSS and script
      are not modelled). */
  datatype SparkSettings = SparkSettings(
    reportName: string, documentTitle: string, theme: Theme,
    timelineEnabled: bool, encoding: string, thumbnailForBase64: bool)

  const ConfiguredSpark: SparkSettings :=
    SparkSettings("QA Automation Test Results", "Test Execution Report", Standard, true, "UTF-8", true)

  /** One row of the report's system information; a missing system property
      is recorded as null. */
  datatype SystemAttribute = SystemAttribute(name: string, value: Option<string>)

  /** `System.getProperty(key, default)`. */
  function PropertyOr(system: map<string, string>, key: string, default: string): string {
    if key in system then system[key] else default
  }

  /** `System.getProperty(key)`. */
  function PropertyOrNull(system: map<string, string>, key: string): Option<string> {
    if key in system then Some(system[key]) else None
  }

  /** `setSystemInformation`, in the order the rows are added; `generated` is
      the clock reading taken for the last row. */
  function SystemInformation(system: map<string, string>, generated: DateTime): seq<SystemAttribute>
    requires Valid(generated)
  {
    [ SystemAttribute("Tester", Some("Yuan Heng Lee")),
      SystemAttribute("Environment", Some(PropertyOr(system, "env", "local"))),
      SystemAttribute("Browser", Some(PropertyOr(system, "browser", "chrome"))),
      SystemAttribute("OS", PropertyOrNull(system, "os.name")),
      SystemAttribute("Java Version", PropertyOrNull(system, "java.version")),
      SystemAttribute("User Directory", PropertyOrNull(system, "user.dir")),
      SystemAttribute("Execution Mode", Some(PropertyOr(system, "execution", "local"))),
      SystemAttribute("Headless", Some(PropertyOr(system, "headless", "false"))),
      SystemAttribute("Report Generated", Some(DisplayStamp(generated))) ]
  }

  /** The rows' names, and the values that do not depend on the environment. */
  lemma SystemInformationLayout(system: map<string, string>, generated: DateTime)
    requires Valid(generated)
    ensures var info := SystemInformation(system, generated);
      && |info| == 9
      && (forall i, j :: 0 <= i < j < |info| ==> info[i].name != info[j].name)
      && info[0].value == Some("Yuan Heng Lee")
      && info[8].value == Some(DisplayStamp(generated))
      && (forall i :: 0 <= i < |info| && info[i].value.None? ==> 3 <= i <= 5)
  {
  }

  /** Where a property with a default is absent, the row shows that default. */
  lemma SystemInformationDefaults(system: map<string, string>, generated: DateTime)
    requires Valid(generated)
    ensures var info := SystemInformation(system, generated);
      && ("env" !in system ==> info[1].value == Some("local"))
      && ("browser" !in system ==> info[2].value == Some("chrome"))
      && ("execution" !in system ==> info[6].value == Some("local"))
      && ("headless" !in system ==> info[7].value == Some("false"))
      && ("os.name" in system <==> info[3].value.Some?)
  {
  }

  /** The "Browser" row reads the raw system property, not the configuration:
      with no `-Dbrowser` it says "chrome" even when the configuration file
      chooses another browser, and a padded or upper-case value is shown as
      given while the driver uses its trimmed, lower-cased form. */
  lemma ReportBrowserIsRawProperty(c: Config, generated: DateTime)
    requires Valid(generated)
    ensures "browser" !in c.system ==>
              SystemInformation(c.system, generated)[2].value == Some("chrome")
              && (Resolves(c.properties, "browser") ==> c.Browser() == ToLowerCase(Trim(c.properties["browser"])))
    ensures "browser" in c.system ==>
              SystemInformation(c.system, generated)[2].value == Some(c.system["browser"])
              && (Resolves(c.system, "browser") ==> c.Browser() == ToLowerCase(Trim(c.system["browser"])))
  {
  }

  // ---------------------------------------------------------------------------
  // The report object
  // ---------------------------------------------------------------------------

  /** An `ExtentReports` instance with its attached Spark reporter. */
  datatype Report = Report(
    createdAt: DateTime, filePath: string, settings: SparkSettings,
    systemInfo: seq<SystemAttribute>, flushCount: nat)

  /** The report `createReportInstance` builds. */
  function NewReport(reportsDir: string, system: map<string, string>, created: DateTime, generated: DateTime): Report
    requires Valid(created) && Valid(generated)
  {
    Report(created, reportsDir + ReportFileName(created), ConfiguredSpark, SystemInformation(system, generated), 0)
  }

  /** The static state of `ExtentReporterNG`. */
  class ExtentReporter {
    /** The system properties at class initialisation. */
    const system: map<string, string>
    const reportsDir: string
    /** The static `extent` field; `None` is null. */
    var extent: Option<Report>

    /** A report, once created, lives under the reports directory with a
        timestamped name. */
    ghost predicate Valid()
      reads this
    {
      && reportsDir == ReportsDir(system)
      && (extent.Some? ==> Timestamps.Valid(extent.value.createdAt)
                           && extent.value.filePath == reportsDir + ReportFileName(extent.value.createdAt))
    }

    constructor (system: map<string, string>)
      ensures Valid()
      ensures this.system == system && reportsDir == ReportsDir(system) && extent == None
    {
      this.system := system;
      reportsDir := ReportsDir(system);
      extent := None;
    }

    /** `getReportObject`: creates the report on the first call (at clock
        reading `created` for the file name and `generated` for the system
        information) and returns the same report on every later call. */
    method GetReportObject(created: DateTime, generated: DateTime) returns (report: Report)
      requires Valid() && Timestamps.Valid(created) && Timestamps.Valid(generated)
      modifies this
      ensures Valid()
      ensures old(extent).Some? ==> extent == old(extent) && report == old(extent).value
      ensures old(extent).None? ==> extent == Some(report) && report == NewReport(reportsDir, system, created, generated)
    {
      if extent.None? {
        extent := Some(NewReport(reportsDir, system, created, generated));
      }
      report := extent.value;
    }

    /** `flushReports`: writes the report out if there is one; otherwise does
        nothing. */
    method FlushReports()
      requires Valid()
      modifies this
      ensures Valid()
      ensures old(extent).None? ==> extent == None
      ensures old(extent).Some? ==> extent == Some(old(extent).value.(flushCount := old(extent).value.flushCount + 1))
    {
      if extent.Some? {
        extent := Some(extent.value.(flushCount := extent.value.flushCount + 1));
      }
    }

    /** `getCurrentReportPath` returns the reports directory, not the report's
        file: a proper prefix of the file's path. */
    function CurrentReportPath(): (path: string)
      reads this
      ensures Valid() && extent.Some? ==>
                |path| < |extent.value.filePath| && extent.value.filePath[..|path|] == path
      ensures Valid() ==> EndsWith(path, "/test-output/reports/")
    {
      reportsDir
    }
  }

  // ---------------------------------------------------------------------------
  // Clean-up
  // ---------------------------------------------------------------------------

  /** `cleanupOldReports`: like the screenshot clean-up, but only files whose
      name ends with ".html" are candidates. */
  method CleanupOldReports(dir: Directory, now: int, daysToKeep: int) returns (deletedCount: nat, after: Directory)
    ensures !dir.Listing? ==> deletedCount == 0 && after == dir
    ensures dir.Listing? ==> after == Listing(Kept(dir.entries, NameEndsWith(".html"), Cutoff(now, daysToKeep)))
    ensures dir.Listing? ==> deletedCount == DeletedCount(dir.entries, NameEndsWith(".html"), Cutoff(now, daysToKeep))
  {
    var cutoff := Cutoff(now, daysToKeep);
    deletedCount, after := Cleanup(dir, NameEndsWith(".html"), cutoff);
  }

  /** The report clean-up never removes anything but ".html" files. */
  lemma ReportCleanupSparesOtherFiles(entries: seq<FileEntry>, cutoff: int, e: FileEntry)
    requires e in entries && !EndsWith(e.name, ".html")
    ensures e in Kept(entries, NameEndsWith(".html"), cutoff)
  {
    KeptExactly(entries, NameEndsWith(".html"), cutoff);
  }
}
