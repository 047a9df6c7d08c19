/** Screenshot capture: a screenshot of the browser is saved as
    "test-output/screenshots/<name>_<yyyy-MM-dd_HH-mm-ss>.png", with name
    variants for failures, prefixes and debugging steps, plus in-memory
    captures and an age-based clean-up of the directory. The browser, the
    clock and the file system are inputs: whether the capture and the copy
    succeed, and what image comes back. */
module Screenshots {
  import opened Wrappers
  import opened JavaText
  import opened Timestamps
  import opened Retention

  const ScreenshotDir: string := "test-output/screenshots/"

  /** A `WebDriver` reference: null, or a driver that may or may not implement
      `TakesScreenshot`. */
  datatype DriverRef = NullDriver | Driver(takesScreenshot: bool)

  /** The exceptions that escape the capture methods, which their `catch`
      clauses do not cover: the cast to `TakesScreenshot` throws
      ClassCastException, and `Paths.get` throws InvalidPathException for a
      target path the platform refuses. */
  datatype ScreenshotError = NotTakesScreenshot | InvalidPath(path: string)

  /** `supportsScreenshots`: the reference is an instance of `TakesScreenshot`
      (null is not). */
  predicate SupportsScreenshots(driver: DriverRef) {
    driver.Driver? && driver.takesScreenshot
  }

  /** `getScreenshotDirectory`. */
  function ScreenshotDirectory(): (dir: string)
    ensures EndsWith(dir, "/")
  {
    ScreenshotDir
  }

  // ---------------------------------------------------------------------------
  // File names
  // ---------------------------------------------------------------------------

  /** The file a screenshot of `testName` taken at `t` is saved to. */
  function ScreenshotPath(testName: string, t: DateTime): (path: string)
    requires Valid(t)
    ensures |path| == |ScreenshotDir| + |testName| + 24
    ensures path[..|ScreenshotDir|] == ScreenshotDir && EndsWith(path, ".png")
  {
    ScreenshotDir + testName + "_" + FileStamp(t) + ".png"
  }

  /** Reads a screenshot path back into the name and the reading: the directory,
      the name, '_', a 19-character stamp and ".png". */
  function ParseScreenshotPath(path: string): Option<(string, DateTime)> {
    var d := |ScreenshotDir|;
    if |path| >= d + 24 && path[..d] == ScreenshotDir && path[|path| - 4..] == ".png" && path[|path| - 24] == '_' then
      match ParseFileStamp(path[|path| - 23..|path| - 4])
      case Some(t) => Some((path[d..|path| - 24], t))
      case None => None
    else None
  }

  /** A saved screenshot's path names its test and the second it was taken. */
  lemma ScreenshotPathRoundTrip(testName: string, t: DateTime)
    requires Valid(t)
    ensures ParseScreenshotPath(ScreenshotPath(testName, t)) == Some((testName, t))
  {
    var path := ScreenshotPath(testName, t);
    var stamp := FileStamp(t);
    var d := |ScreenshotDir|;
    assert path == ScreenshotDir + testName + "_" + stamp + ".png";
    assert path[..d] == ScreenshotDir;
    assert path[d..|path| - 24] == testName;
    assert path[|path| - 24] == '_';
    assert path[|path| - 23..|path| - 4] == stamp;
    assert path[|path| - 4..] == ".png";
    FileStampRoundTrip(t);
  }

  /** Two screenshots share a file only when they have the same name and are
      taken in the same second (the later copy then replaces the earlier). */
  lemma ScreenshotPathInjective(name1: string, t1: DateTime, name2: string, t2: DateTime)
    requires Valid(t1) && Valid(t2) && ScreenshotPath(name1, t1) == ScreenshotPath(name2, t2)
    ensures name1 == name2 && t1 == t2
  {
    ScreenshotPathRoundTrip(name1, t1);
    ScreenshotPathRoundTrip(name2, t2);
  }

  /** Every screenshot lands in the directory the getter reports and the
      clean-up scans, with the ".png" extension. */
  lemma ScreenshotPathInDirectory(testName: string, t: DateTime)
    requires Valid(t)
    ensures var path := ScreenshotPath(testName, t);
      path[..|ScreenshotDirectory()|] == ScreenshotDirectory() && EndsWith(path, ".png")
  {
    var path := ScreenshotPath(testName, t);
    assert path == ScreenshotDir + (testName + "_" + FileStamp(t)) + ".png";
  }

  /** `Paths.get` accepts a path holding none of the characters the platform
      refuses (`rejected`: NUL on Unix; NUL and `<>:"|?*` on Windows). */
  predicate PathAccepted(path: string, rejected: set<char>) {
    forall i :: 0 <= i < |path| ==> path[i] !in rejected
  }

  /** A refused character outside the letters, digits, '-', '_', '/' and '.'
      can only come from the test name: the directory, the stamp and the
      extension never hold one. */
  lemma ScreenshotPathAccepted(testName: string, t: DateTime, rejected: set<char>)
    requires Valid(t)
    requires forall c :: c in rejected ==> !IsAsciiAlphanumeric(c) && c != '-' && c != '_' && c != '/' && c != '.'
    ensures PathAccepted(ScreenshotPath(testName, t), rejected) <==> PathAccepted(testName, rejected)
  {
    var path := ScreenshotPath(testName, t);
    var stamp := FileStamp(t);
    var d := |ScreenshotDir|;
    assert path == ScreenshotDir + testName + "_" + stamp + ".png";
    assert forall i :: 0 <= i < 19 ==> IsAsciiAlphanumeric(stamp[i]) || stamp[i] == '-' || stamp[i] == '_';
    if PathAccepted(testName, rejected) {
      forall i | 0 <= i < |path| ensures path[i] !in rejected {
        if i < d {
          assert path[i] == ScreenshotDir[i];
        } else if i < d + |testName| {
          assert path[i] == testName[i - d];
        } else if i == d + |testName| {
          assert path[i] == '_';
        } else if i < d + |testName| + 20 {
          assert path[i] == stamp[i - d - |testName| - 1];
        } else {
          assert path[i] == ".png"[i - d - |testName| - 20];
        }
      }
    } else {
      var j :| 0 <= j < |testName| && testName[j] in rejected;
      assert path[d + j] == testName[j];
    }
  }

  // ---------------------------------------------------------------------------
  // Saving a screenshot
  // ---------------------------------------------------------------------------

  /** `takeScreenshot`: a null driver gives null and does nothing; a failed
      capture (WebDriverException) gives null; a target path `Paths.get`
      refuses throws; a failed copy (IOException) gives null; otherwise the
      image is copied to `ScreenshotPath(testName, now)` and that path is
      returned. `copySucceeds` also covers a screenshot directory that could
      not be created, since the copy then fails. */
  function TakeScreenshot(driver: DriverRef, testName: string, now: DateTime, captureSucceeds: bool,
                          rejected: set<char>, copySucceeds: bool): (r: Result<Option<string>, ScreenshotError>)
    requires Valid(now)
    ensures r == Failure(NotTakesScreenshot) <==> driver.Driver? && !SupportsScreenshots(driver)
    ensures (r.Failure? && r.error.InvalidPath?) <==>
              SupportsScreenshots(driver) && captureSucceeds && !PathAccepted(ScreenshotPath(testName, now), rejected)
    ensures driver == NullDriver ==> r == Success(None)
    ensures (r.Success? && r.value.Some?) <==>
              SupportsScreenshots(driver) && captureSucceeds && PathAccepted(ScreenshotPath(testName, now), rejected)
              && copySucceeds
    ensures r.Success? && r.value.Some? ==> ParseScreenshotPath(r.value.value) == Some((testName, now))
  {
    if driver == NullDriver then Success(None)
    else if !driver.takesScreenshot then Failure(NotTakesScreenshot)
    else if !captureSucceeds then Success(None)
    else
      var filePath := ScreenshotPath(testName, now);
      if !PathAccepted(filePath, rejected) then Failure(InvalidPath(filePath))
      else if !copySucceeds then Success(None)
      else
        ScreenshotPathRoundTrip(testName, now);
        Success(Some(filePath))
  }

  /** `takeScreenshotOnFailure`: the name gets the "FAILED_" prefix. */
  function TakeScreenshotOnFailure(driver: DriverRef, testName: string, now: DateTime, captureSucceeds: bool,
                                   rejected: set<char>, copySucceeds: bool): (r: Result<Option<string>, ScreenshotError>)
    requires Valid(now)
    ensures (r.Success? && r.value.Some?) <==>
              SupportsScreenshots(driver) && captureSucceeds
              && PathAccepted(ScreenshotPath("FAILED_" + testName, now), rejected) && copySucceeds
    ensures r.Success? && r.value.Some? ==> ParseScreenshotPath(r.value.value) == Some(("FAILED_" + testName, now))
  {
    TakeScreenshot(driver, "FAILED_" + testName, now, captureSucceeds, rejected, copySucceeds)
  }

  /** `takeScreenshotWithPrefix`: the name is the prefix, '_' and the test name. */
  function TakeScreenshotWithPrefix(driver: DriverRef, testName: string, prefix: string, now: DateTime,
                                    captureSucceeds: bool, rejected: set<char>, copySucceeds: bool)
    : (r: Result<Option<string>, ScreenshotError>)
    requires Valid(now)
    ensures (r.Success? && r.value.Some?) <==>
              SupportsScreenshots(driver) && captureSucceeds
              && PathAccepted(ScreenshotPath(prefix + "_" + testName, now), rejected) && copySucceeds
    ensures r.Success? && r.value.Some? ==> ParseScreenshotPath(r.value.value) == Some((prefix + "_" + testName, now))
  {
    TakeScreenshot(driver, prefix + "_" + testName, now, captureSucceeds, rejected, copySucceeds)
  }

  predicate IsAsciiAlphanumeric(c: char) {
    ('a' <= c <= 'z') || ('A' <= c <= 'Z') || ('0' <= c <= '9')
  }

  /** `replaceAll("[^a-zA-Z0-9]", "_")`: every character other than an ASCII
      letter or digit becomes '_'. */
  function Sanitize(s: string): (r: string)
    ensures |r| == |s|
    ensures forall i :: 0 <= i < |s| ==> (IsAsciiAlphanumeric(s[i]) ==> r[i] == s[i])
    ensures forall i :: 0 <= i < |s| ==> (!IsAsciiAlphanumeric(s[i]) ==> r[i] == '_')
  {
    seq(|s|, i requires 0 <= i < |s| => if IsAsciiAlphanumeric(s[i]) then s[i] else '_')
  }

  /** A sanitized step holds only letters, digits and '_' (so no path separator
      or dot), and sanitizing again changes nothing. */
  lemma SanitizeIsSafe(s: string)
    ensures forall i :: 0 <= i < |Sanitize(s)| ==> IsAsciiAlphanumeric(Sanitize(s)[i]) || Sanitize(s)[i] == '_'
    ensures '/' !in Sanitize(s) && '.' !in Sanitize(s)
    ensures Sanitize(Sanitize(s)) == Sanitize(s)
  {
    var r := Sanitize(s);
    assert forall i :: 0 <= i < |r| ==> IsAsciiAlphanumeric(r[i]) || r[i] == '_';
    assert forall i :: 0 <= i < |r| ==> r[i] != '/' && r[i] != '.';
  }

  /** The name `takeDebugScreenshot` saves under. */
  function DebugName(testName: string, stepDescription: string): string {
    "DEBUG_" + testName + "_" + Sanitize(stepDescription)
  }

  /** `takeDebugScreenshot`. */
  function TakeDebugScreenshot(driver: DriverRef, testName: string, stepDescription: string, now: DateTime,
                               captureSucceeds: bool, rejected: set<char>, copySucceeds: bool)
    : (r: Result<Option<string>, ScreenshotError>)
    requires Valid(now)
    ensures (r.Success? && r.value.Some?) <==>
              SupportsScreenshots(driver) && captureSucceeds
              && PathAccepted(ScreenshotPath(DebugName(testName, stepDescription), now), rejected) && copySucceeds
    ensures r.Success? && r.value.Some? ==>
              ParseScreenshotPath(r.value.value) == Some((DebugName(testName, stepDescription), now))
  {
    TakeScreenshot(driver, DebugName(testName, stepDescription), now, captureSucceeds, rejected, copySucceeds)
  }

  /** The sanitised step never makes `Paths.get` refuse a debug screenshot's
      path: only the test name can. */
  lemma DebugNameAccepted(testName: string, stepDescription: string, rejected: set<char>)
    requires forall c :: c in rejected ==> !IsAsciiAlphanumeric(c) && c != '_'
    ensures PathAccepted(DebugName(testName, stepDescription), rejected) <==> PathAccepted(testName, rejected)
  {
    var n := DebugName(testName, stepDescription);
    var r := Sanitize(stepDescription);
    assert n == "DEBUG_" + testName + "_" + r;
    if PathAccepted(testName, rejected) {
      forall i | 0 <= i < |n| ensures n[i] !in rejected {
        if i < 6 {
          assert n[i] == "DEBUG_"[i];
        } else if i < 6 + |testName| {
          assert n[i] == testName[i - 6];
        } else if i == 6 + |testName| {
          assert n[i] == '_';
        } else {
          assert n[i] == r[i - 7 - |testName|];
        }
      }
    } else {
      var j :| 0 <= j < |testName| && testName[j] in rejected;
      assert n[6 + j] == testName[j];
    }
  }

  /** The step description contributes only letters, digits and '_' to a debug
      screenshot's name, so it cannot move the file out of the directory. */
  lemma DebugNameSafeStep(testName: string, stepDescription: string)
    ensures var n := DebugName(testName, stepDescription);
      |n| == 6 + |testName| + 1 + |stepDescription|
      && n[..6] == "DEBUG_"
      && forall i :: 7 + |testName| <= i < |n| ==> n[i] != '/'
  {
    var n := DebugName(testName, stepDescription);
    var r := Sanitize(stepDescription);
    SanitizeIsSafe(stepDescription);
    assert n == "DEBUG_" + testName + "_" + r;
    forall i | 7 + |testName| <= i < |n| ensures n[i] != '/' {
      assert n[i] == r[i - 7 - |testName|];
    }
  }

  // ---------------------------------------------------------------------------
  // In-memory captures
  // ---------------------------------------------------------------------------

  /** `takeScreenshotAsBytes`: `capture` is what the browser returns, `None`
      standing for a WebDriverException; both that and a null driver give null. */
  function TakeScreenshotAsBytes(driver: DriverRef, capture: Option<seq<bv8>>): (r: Result<Option<seq<bv8>>, ScreenshotError>)
    ensures r.Failure? <==> driver.Driver? && !SupportsScreenshots(driver)
    ensures r.Success? && r.value.Some? <==> SupportsScreenshots(driver) && capture.Some?
    ensures r.Success? && r.value.Some? ==> r.value == capture
  {
    if driver == NullDriver then Success(None)
    else if !driver.takesScreenshot then Failure(NotTakesScreenshot)
    else Success(capture)
  }

  /** `takeScreenshotAsBase64`, with the browser's Base64 text as `capture`. */
  function TakeScreenshotAsBase64(driver: DriverRef, capture: Option<string>): (r: Result<Option<string>, ScreenshotError>)
    ensures r.Failure? <==> driver.Driver? && !SupportsScreenshots(driver)
    ensures r.Success? && r.value.Some? <==> SupportsScreenshots(driver) && capture.Some?
    ensures r.Success? && r.value.Some? ==> r.value == capture
  {
    if driver == NullDriver then Success(None)
    else if !driver.takesScreenshot then Failure(NotTakesScreenshot)
    else Success(capture)
  }

  /** The three capture methods agree on when the cast throws, and on a null
      driver. */
  lemma CapturesAgreeOnErrors(driver: DriverRef, testName: string, now: DateTime, captureSucceeds: bool,
                              rejected: set<char>, copySucceeds: bool, bytes: Option<seq<bv8>>, text: Option<string>)
    requires Valid(now)
    ensures (TakeScreenshot(driver, testName, now, captureSucceeds, rejected, copySucceeds) == Failure(NotTakesScreenshot))
            == TakeScreenshotAsBytes(driver, bytes).Failure?
            == TakeScreenshotAsBase64(driver, text).Failure?
    ensures driver == NullDriver ==>
              TakeScreenshotAsBytes(driver, bytes) == Success(None) && TakeScreenshotAsBase64(driver, text) == Success(None)
  {
  }

  // ---------------------------------------------------------------------------
  // Clean-up
  // ---------------------------------------------------------------------------

  /** `cleanupOldScreenshots`: every regular file in the directory older than
      `daysToKeep` days (at clock reading `now`, in milliseconds) is deleted. */
  method CleanupOldScreenshots(dir: Directory, now: int, daysToKeep: int) returns (deletedCount: nat, after: Directory)
    ensures !dir.Listing? ==> deletedCount == 0 && after == dir
    ensures dir.Listing? ==> after == Listing(Kept(dir.entries, AllFiles, Cutoff(now, daysToKeep)))
    ensures dir.Listing? ==> deletedCount == DeletedCount(dir.entries, AllFiles, Cutoff(now, daysToKeep))
  {
    var cutoff := Cutoff(now, daysToKeep);
    deletedCount, after := Cleanup(dir, AllFiles, cutoff);
  }
}
