# Selenium-TestNG harness core, modelled in Dafny

This project models the decision logic of a Selenium/TestNG test harness. Everything that needs a live browser, the network, the clock or the disk becomes an input.

**Configuration resolution (`Config`).** A key resolves in three steps:

1. a system (`-D`) property that is not blank after trimming, returned trimmed;
2. otherwise such an entry of the environment's properties file;
3. otherwise the getter's default, returned unchanged.

The properties file is `src/test/resources/config/<env>.properties`. When it cannot be read, a fallback table of seven entries is used. The typed getters then apply this to the resolved value:

- lower-casing (browser and execution mode);
- `Boolean.parseBoolean` (headless);
- `Integer.parseInt` (timeouts and thread count), which can fail.

**Retry counter (`RetryAnalyzer`).** A bounded counter: `retry` grants another run while the counter is below a bound parsed from `retry.count`. The bound falls back to 2 when the property is absent or not an integer.

**Driver factory (`WebDriverFactory`).**

- The execution mode picks a local or a remote session. The browser name picks Chrome, Firefox or Edge.
- Each browser gets a fixed argument and preference profile that depends on the headless flag.
- In remote mode the grid URL is checked before the browser name.
- The configured timeouts are applied to the new session.
- `quitDriver` never lets a failure escape.

**Artifacts (`ScreenshotUtils`, `ExtentReporterNG`).**

- Screenshot paths are `test-output/screenshots/<name>_<yyyy-MM-dd_HH-mm-ss>.png`. The failure, prefix and debug names are built from that base. Debug step text is sanitised.
- Null drivers are guarded against.
- Report files are `<user.dir>/test-output/reports/TestReport_<stamp>.html`. The report object is created lazily, exactly once.
- Both utilities have an age-based clean-up loop over a directory listing, modelled once in `Retention.Cleanup`.

Modules and files:

| module | file | models |
|---|---|---|
| `Wrappers` | wrappers.dfy | `Option` (Java `null`) and `Result` (a thrown exception) |
| `JavaText` | java_text.dfy | `String.trim`, blankness, ASCII `toLowerCase`, `endsWith`, `Boolean.parseBoolean`, `Integer.parseInt`, with `Integer.toString` as a reference for a round trip |
| `Timestamps` | timestamps.dfy | the two `DateTimeFormatter` patterns, each with a parser |
| `Configuration` | config.dfy | `Config` |
| `Retry` | retry_analyzer.dfy | `RetryAnalyzer` |
| `DriverFactory` | web_driver_factory.dfy | `WebDriverFactory` |
| `Retention` | retention.dfy | the clean-up loop and its cutoff, shared by the two utilities |
| `Screenshots` | screenshot_utils.dfy | `ScreenshotUtils` |
| `Reports` | extent_reporter.dfy | `ExtentReporterNG` |

The model keeps the source's shape:

- Classes appear where the source updates fields in place:
  - `Config.properties`, filled by `loadProperties` and `loadDefaultProperties`;
  - the retry counter;
  - the browser options objects;
  - the report singleton.
- Methods with loops appear where the source loops (the clean-up).
- Pure functions are used for the getters, the dispatch and the name construction.
- Each method is specified by a function of its inputs, and the lemmas are about those functions.

The inputs that stand in for the environment:

- the system properties, as a `map<string, string>`;
- the properties files, as a map from path to table, with a missing path meaning the read failed;
- the clock, as a `DateTime` or a millisecond count;
- whether the browser accepts a new session, a capture succeeds, a copy succeeds or a `quit` succeeds;
- the characters the platform's `Paths.get` refuses in a path (NUL on Unix; also `<>:"|?*` on Windows);
- the directory listing, including whether each delete succeeds.

## Model

| member | source | states |
|---|---|---|
| Configuration.Environment | src/main/java/config/Config.java:27 | the environment: the `env` system property as given, untrimmed, or `local` when absent; what the path records is stated by `ConfigFilePathRoundTrip` |
| Configuration.ConfigFilePath | src/main/java/config/Config.java:27-28 | the path starts with `src/test/resources/config/`, ends with `.properties`, and its length is that of the untrimmed environment name (`local` when `env` is absent) plus both |
| Configuration.ConfigFilePathRoundTrip | src/main/java/config/Config.java:27-30 | the environment name, padding included, reads back from the path of the file opened |
| Configuration.ConfigFilePathInjective | src/main/java/config/Config.java:27-30 | two configurations open the same file only when their environment names are equal, so a padded `env` names a different file |
| Configuration.Config.constructor | src/main/java/config/Config.java:15-17 | after class initialisation the table is the environment file's table when that file can be read, and exactly the fallback table otherwise |
| Configuration.Config.LoadProperties | src/main/java/config/Config.java:23-38 | the table is reset, then holds the file's entries, or the fallback entries when the read fails |
| Configuration.Config.LoadDefaultProperties | src/main/java/config/Config.java:43-51 | the seven `setProperty` calls leave the old table overridden by the fallback table |
| Configuration.Config.SetProperty | src/main/java/config/Config.java:44-50 | one entry is recorded or replaced, nothing else changes |
| Configuration.DefaultProperties | src/main/java/config/Config.java:43-51 | the fallback table: browser chrome, execution local, headless false, the two URLs and timeouts 10 and 15; its keys are stated by `DefaultPropertiesKeys` |
| Configuration.DefaultPropertiesKeys | src/main/java/config/Config.java:43-51 | the fallback table has exactly the seven keys browser, execution, headless, base.url, grid.url, timeout.implicit and timeout.explicit, and no `timeout.pageload` |
| Configuration.Config.GetProperty | src/main/java/config/Config.java:56-71 | a non-blank system property wins, trimmed; otherwise a non-blank file entry, trimmed; otherwise the default exactly as given; a resolved value is non-blank and already trimmed |
| Configuration.Config.Browser | src/main/java/config/Config.java:76-78 | the result is lower-case; the lower-cased trimmed system or file value, or `chrome` when neither resolves |
| Configuration.Config.Execution | src/main/java/config/Config.java:80-82 | the result is lower-case; the lower-cased trimmed system or file value, or `local` when neither resolves |
| Configuration.Config.IsHeadless | src/main/java/config/Config.java:84-86 | true only when a source resolves, and then exactly when its trimmed value is "true" ignoring case; the default "false" gives false |
| Configuration.Config.GridUrl | src/main/java/config/Config.java:88-90 | a non-blank system value wins, trimmed; otherwise a non-blank file value, trimmed; otherwise `http://localhost:4444/wd/hub` |
| Configuration.Config.BaseUrl | src/main/java/config/Config.java:95-97 | a non-blank system value wins, trimmed; otherwise a non-blank file value, trimmed; otherwise `https://example.com` |
| Configuration.Config.ApiBaseUrl | src/main/java/config/Config.java:99-101 | a non-blank system value wins, trimmed; otherwise a non-blank file value, trimmed; otherwise the base URL followed by `/api` |
| Configuration.Config.ImplicitTimeout | src/main/java/config/Config.java:106-108 | a parsed timeout is a Java `int` |
| Configuration.Config.ExplicitTimeout | src/main/java/config/Config.java:110-112 | a parsed timeout is a Java `int` |
| Configuration.Config.PageLoadTimeout | src/main/java/config/Config.java:114-116 | a parsed timeout is a Java `int` |
| Configuration.Config.ThreadCount | src/main/java/config/Config.java:136-138 | a parsed count is a Java `int` |
| Configuration.UnresolvedTimeouts | src/main/java/config/Config.java:106-116 | unresolved integer keys give 10, 15, 30 and 1 |
| Configuration.DefaultLiterals | src/main/java/config/Config.java:107-137 | the default literals "10", "15", "30" and "1" parse to 10, 15, 30 and 1 |
| Configuration.NonNumericTimeoutFails | src/main/java/config/Config.java:106-108 | a non-digit after the first character of the resolved implicit timeout makes the getter fail |
| Configuration.FileEntryWins | src/main/java/config/Config.java:56-71 | with no usable system value, a non-blank file entry resolves to that entry trimmed, whatever the default |
| Configuration.TrimOfTrimmed | src/main/java/config/Config.java:64-66 | a file entry with no blank ends is usable and is returned as it is |
| Configuration.FallbackConfiguration | src/main/java/config/Config.java:33-51 | after a failed file read, and with no usable system property for the nine keys the getters read (other system properties may be anything), the getters give chrome, local, not headless, the two default URLs, the derived API URL, and timeouts 10, 15 and 30 (the page-load one from the getter's own default) |
| Configuration.FallbackStrings | src/main/java/config/Config.java:43-51 | with no usable override of the getters' keys, the string getters over the fallback table give its values |
| Configuration.FallbackBrowser | src/main/java/config/Config.java:44-46 | with no usable override of the getters' keys, browser, execution and headless over the fallback table give chrome, local and false |
| Configuration.FallbackUrls | src/main/java/config/Config.java:47-48 | with no usable override of the getters' keys, the URL getters over the fallback table give its two URLs and `https://example.com/api` |
| Configuration.FallbackBaseUrl | src/main/java/config/Config.java:47 | with no usable override, the base URL over the fallback table is `https://example.com` |
| Configuration.FallbackGridUrl | src/main/java/config/Config.java:48 | with no usable override, the grid URL over the fallback table is `http://localhost:4444/wd/hub` |
| Configuration.FallbackApiUrl | src/main/java/config/Config.java:99-101 | with no usable override, the API URL over the fallback table (which has no `api.base.url`) is `https://example.com/api` |
| Configuration.DerivedApiUrl | src/main/java/config/Config.java:99-101 | with no usable `api.base.url` in either table, the API URL is the base URL followed by `/api` |
| Configuration.FallbackTimeouts | src/main/java/config/Config.java:49-50 | with no usable override of the getters' keys, the timeout getters over the fallback table give 10, 15 and 30 |
| JavaText.Trim | src/main/java/config/Config.java:59-66 | neither end of a trimmed string is a character at or below U+0020 |
| JavaText.TrimSlice | src/main/java/config/Config.java:59-66 | `trim` removes exactly a leading and a trailing run of such characters and keeps the infix between them |
| JavaText.IsBlank | src/main/java/config/Config.java:59-65 | `trim().isEmpty()` holds exactly when every character is at or below U+0020 |
| JavaText.TrimIdempotent | src/main/java/config/Config.java:60-66 | trimming a trimmed value changes nothing |
| JavaText.TrimOfNonBlank | src/main/java/config/Config.java:59-66 | a non-blank value trims to a non-empty, non-blank value |
| JavaText.ToLowerCase | src/main/java/config/Config.java:77-81 | length is kept, the result has no upper-case letter, each upper-case ASCII letter becomes its lower-case form and every other character is kept |
| JavaText.ToLowerCaseOfLowerCase | src/main/java/config/Config.java:77-81 | lower-casing a lower-case string changes nothing |
| JavaText.ParseBoolean | src/main/java/config/Config.java:85 | `Boolean.parseBoolean`: true exactly when the text lower-cases to "true"; the accepted spellings are stated by `ParseBooleanSpellings` |
| JavaText.ParseBooleanSpellings | src/main/java/config/Config.java:85 | `Boolean.parseBoolean` is true exactly for the sixteen case spellings of "true" |
| JavaText.ParseInt | src/main/java/config/Config.java:107-137 | parsing succeeds exactly when the text is an optional sign then at least one digit and its value lies in the `int` range, and the result is that value; a negative value had a '-' |
| JavaText.NatToString | src/main/java/config/Config.java:107-137 | the reference rendering is non-empty, all digits, with no leading zero |
| JavaText.DigitsValueOfNatToString | src/main/java/config/Config.java:107-137 | the value of a rendered natural number's digits is that number |
| JavaText.ParseIntOfIntToString | src/main/java/config/Config.java:107-137 | `parseInt` inverts `Integer.toString` on the whole `int` range |
| JavaText.ParseIntRejectsOutOfRange | src/main/java/config/Config.java:107-137 | the rendering of every integer outside the `int` range is a decimal literal that does not parse |
| JavaText.DigitsValueLeadingZeros | src/main/java/config/Config.java:107-137 | leading zeros do not change the value of a digit string |
| JavaText.ParseIntNonCanonical | src/main/java/config/Config.java:107-137 | a leading '+' and leading zeros parse to the same result as the bare digits, and a minus sign before zeros gives 0 |
| JavaText.ParseIntRejectsNonDigit | src/main/java/config/Config.java:107-137 | any non-digit after the first position makes parsing fail |
| Timestamps.FileStamp | src/main/java/utils/ScreenshotUtils.java:23 | "yyyy-MM-dd_HH-mm-ss" renders to 19 characters: digits, with '-', '-', '_', '-', '-' at positions 4, 7, 10, 13 and 16 |
| Timestamps.DisplayStamp | src/test/java/com/buzzheng/TestComponents/ExtentReporterNG.java:93 | "yyyy-MM-dd HH:mm:ss" renders to 19 characters: digits, with '-', '-', ' ', ':', ':' at positions 4, 7, 10, 13 and 16 |
| Timestamps.RenderRoundTrip | src/main/java/utils/ScreenshotUtils.java:23 | a stamp with non-digit separators reads back to the clock reading it was made from |
| Timestamps.FileStampRoundTrip | src/main/java/utils/ScreenshotUtils.java:23 | the file-name stamp reads back to the clock reading it was made from |
| Timestamps.DisplayStampRoundTrip | src/test/java/com/buzzheng/TestComponents/ExtentReporterNG.java:93 | the "Report Generated" stamp reads back to the clock reading it was made from |
| Timestamps.DisplayStampOfFileStamp | src/test/java/com/buzzheng/TestComponents/ExtentReporterNG.java:93 | the display stamp and the file stamp of a reading agree at every position except the separators 10, 13 and 16 |
| Timestamps.FileStampInjective | src/test/java/com/buzzheng/TestComponents/ExtentReporterNG.java:19 | different readings (to the second) give different stamps |
| Retry.MaxRetryCount | src/test/java/com/buzzheng/TestComponents/RetryAnalyzer.java:41-49 | absent or unparsable `retry.count` gives 2; otherwise its parsed `int` value |
| Retry.PaddedRetryCountFallsBack | src/test/java/com/buzzheng/TestComponents/RetryAnalyzer.java:42-47 | the value is not trimmed, so a leading space gives the fallback 2 |
| Retry.RetryAnalyzer.constructor | src/test/java/com/buzzheng/TestComponents/RetryAnalyzer.java:12-13 | the counter starts at 0 and the bound is `MaxRetryCount` |
| Retry.RetryAnalyzer.Retry | src/test/java/com/buzzheng/TestComponents/RetryAnalyzer.java:21-35 | true exactly when the counter was below the bound; true increments the counter by one, false leaves it; the counter stays within 0 and the allowance |
| Retry.RetryAnalyzer.GetRetryCount | src/test/java/com/buzzheng/TestComponents/RetryAnalyzer.java:55-57 | reports the counter, which lies within the allowance |
| Retry.RetryAnalyzer.ResetRetryCount | src/test/java/com/buzzheng/TestComponents/RetryAnalyzer.java:62-64 | the counter becomes 0 |
| Retry.Outcomes | src/test/java/com/buzzheng/TestComponents/RetryAnalyzer.java:21-35 | `n` successive calls give `n` results |
| Retry.GrantedRetries | src/test/java/com/buzzheng/TestComponents/RetryAnalyzer.java:22-34 | `n` calls from counter `c` grant exactly min(n, max(bound - c, 0)) retries |
| Retry.AtMostAllowance | src/test/java/com/buzzheng/TestComponents/RetryAnalyzer.java:12-34 | from 0, no sequence of calls grants more than max(bound, 0) retries |
| Retry.NonPositiveBoundNeverRetries | src/test/java/com/buzzheng/TestComponents/RetryAnalyzer.java:22-44 | with a bound of 0 or below, every call returns false |
| Retry.RefusalIsFinal | src/test/java/com/buzzheng/TestComponents/RetryAnalyzer.java:22-35 | once a call returns false every later call does too |
| Retry.CountAfterIsGranted | src/test/java/com/buzzheng/TestComponents/RetryAnalyzer.java:22-34 | the counter after `n` calls is the start plus the retries granted |
| Retry.CounterWithinAllowance | src/test/java/com/buzzheng/TestComponents/RetryAnalyzer.java:12-34 | from 0, the counter never exceeds max(bound, 0) |
| DriverFactory.BrowserOf | src/main/java/ui/driver/WebDriverFactory.java:50-55 | exactly chrome, firefox and edge name a browser |
| DriverFactory.BrowserOptions.constructor | src/main/java/ui/driver/WebDriverFactory.java:81 | a new options object is empty |
| DriverFactory.BrowserOptions.AddArgument | src/main/java/ui/driver/WebDriverFactory.java:103 | an argument is appended; preferences and experimental options are unchanged |
| DriverFactory.BrowserOptions.AddPreference | src/main/java/ui/driver/WebDriverFactory.java:144 | one preference is recorded or replaced; nothing else changes |
| DriverFactory.BrowserOptions.SetExperimentalOption | src/main/java/ui/driver/WebDriverFactory.java:124-125 | one experimental option is recorded or replaced; nothing else changes |
| DriverFactory.AddChromeBaseArguments | src/main/java/ui/driver/WebDriverFactory.java:103-115 | the eleven fixed flags are appended in source order |
| DriverFactory.ConfigureChromeOptions | src/main/java/ui/driver/WebDriverFactory.java:101-127 | appends the Chrome argument sequence and adds excludeSwitches and useAutomationExtension |
| DriverFactory.AddFirefoxHeadlessArguments | src/main/java/ui/driver/WebDriverFactory.java:148-152 | `--headless`, `--width=1920` and `--height=1080` are appended only in headless mode |
| DriverFactory.ConfigureFirefoxOptions | src/main/java/ui/driver/WebDriverFactory.java:142-157 | appends the Firefox arguments and adds the four preferences |
| DriverFactory.ConfigureEdgeOptions | src/main/java/ui/driver/WebDriverFactory.java:172-182 | appends the Edge arguments |
| DriverFactory.ConfiguredOptions | src/main/java/ui/driver/WebDriverFactory.java:80-96 | a fresh options object configured for a browser holds exactly that browser's profile |
| DriverFactory.ChromeArgumentsLayout | src/main/java/ui/driver/WebDriverFactory.java:103-126 | 12 or 14 arguments: the eleven fixed flags first, `--headless=new` and the window size iff headless, the automation flag last |
| DriverFactory.FirefoxProfileLayout | src/main/java/ui/driver/WebDriverFactory.java:142-157 | `--headless` is present iff headless and there are no arguments otherwise; the four preference keys are always set |
| DriverFactory.EdgeArgumentsLayout | src/main/java/ui/driver/WebDriverFactory.java:172-182 | 3 arguments, or 5 with `--headless` when headless |
| DriverFactory.ProfileKinds | src/main/java/ui/driver/WebDriverFactory.java:101-182 | only Chrome has experimental options and only Firefox has preferences |
| DriverFactory.CapabilityName | src/main/java/ui/driver/WebDriverFactory.java:129-191 | the remote browser names are chrome, firefox and MicrosoftEdge |
| DriverFactory.GetCapabilities | src/main/java/ui/driver/WebDriverFactory.java:129-191 | remote capabilities carry the same profile as local creation and the fixed browser name |
| DriverFactory.CapabilityNamesDistinct | src/main/java/ui/driver/WebDriverFactory.java:129-191 | the three names differ; only Edge's differs from the configuration's browser name |
| DriverFactory.SchemeEnd | src/main/java/ui/driver/WebDriverFactory.java:63 | the position of the first ':' or '/' in the grid address |
| DriverFactory.Protocol | src/main/java/ui/driver/WebDriverFactory.java:63 | a protocol found is the valid protocol name before the first ':', with no '/' before it, lower-cased |
| DriverFactory.IsWellFormedUrl | src/main/java/ui/driver/WebDriverFactory.java:63 | `new URL` succeeds exactly when a protocol is found and the JDK has a handler for it; acceptance and rejection are stated by `ProtocolPrefix` and `NoProtocolRejected` |
| DriverFactory.ProtocolPrefix | src/main/java/ui/driver/WebDriverFactory.java:63 | when a valid protocol name precedes the first ':' with no '/' before it, that name lower-cased is the protocol, and the address is accepted exactly when it has a URL handler |
| DriverFactory.NoProtocolRejected | src/main/java/ui/driver/WebDriverFactory.java:63-73 | an address in which a '/' precedes every ':' (or with no ':') has no protocol and is rejected |
| DriverFactory.DefaultGridUrlWellFormed | src/main/java/ui/driver/WebDriverFactory.java:63 | the default grid address is accepted |
| DriverFactory.UpperCaseProtocolWellFormed | src/main/java/ui/driver/WebDriverFactory.java:63 | an upper-case protocol is accepted |
| DriverFactory.MissingProtocolRejected | src/main/java/ui/driver/WebDriverFactory.java:63-73 | `localhost:4444/wd/hub` is rejected as an invalid grid URL |
| DriverFactory.RelativeAddressRejected | src/main/java/ui/driver/WebDriverFactory.java:63-73 | an address starting with '/' is rejected |
| DriverFactory.LocalSession | src/main/java/ui/driver/WebDriverFactory.java:49-56 | the local outcome: an unknown lower-cased browser name is the unsupported-browser error; otherwise the session with that browser's profile, or the session-not-created error; the imperative path equals it by `CreateLocalDriver` |
| DriverFactory.RemoteSession | src/main/java/ui/driver/WebDriverFactory.java:61-75 | the remote outcome: a malformed grid URL first, then an unknown browser, then a remote session at that URL with the named capabilities; the imperative path equals it by `CreateRemoteDriver` |
| DriverFactory.CreateOutcome | src/main/java/ui/driver/WebDriverFactory.java:28-44 | the dispatch on the execution mode, then the implicit wait and the page-load timeout in that order; its properties are the lemmas `UnknownExecutionRejected` to `TimeoutFailureLeaksSession` |
| DriverFactory.CreateLocalDriver | src/main/java/ui/driver/WebDriverFactory.java:49-56 | equals the local-session outcome: unsupported browser, session not created, or a local session with the browser's profile |
| DriverFactory.CreateRemoteDriver | src/main/java/ui/driver/WebDriverFactory.java:61-75 | equals the remote-session outcome: invalid grid URL first, then unsupported browser, then the session |
| DriverFactory.CreateDriver | src/main/java/ui/driver/WebDriverFactory.java:28-44 | equals the creation outcome over the configuration getters, in the source's order |
| DriverFactory.UnknownExecutionRejected | src/main/java/ui/driver/WebDriverFactory.java:32-36 | the unsupported-execution error occurs exactly for modes other than local, grid and docker |
| DriverFactory.ModeDecidesLaunch | src/main/java/ui/driver/WebDriverFactory.java:32-75 | a driver comes from a supported browser name; local mode launches locally with the profile; grid and docker launch remotely at a well-formed grid address with the named capabilities |
| DriverFactory.DriverCarriesTimeouts | src/main/java/ui/driver/WebDriverFactory.java:39-40 | a driver is returned only with both timeouts parsed, and it carries them |
| DriverFactory.GridUrlCheckedFirst | src/main/java/ui/driver/WebDriverFactory.java:62-74 | in remote mode the result is the invalid-URL error exactly when the address is malformed, whatever the browser |
| DriverFactory.UnsupportedBrowserRejected | src/main/java/ui/driver/WebDriverFactory.java:50-69 | an unknown browser never yields a driver: the local error in local mode, the remote error (not the URL error) when the address is well formed |
| DriverFactory.TimeoutFailureLeaksSession | src/main/java/ui/driver/WebDriverFactory.java:32-40 | a timeout error arises only after a session started; it names the failing key and carries that session, which is never quit |
| DriverFactory.DefaultDriver | src/main/java/ui/driver/WebDriverFactory.java:28-44 | with the fallback table and no usable system property for the getters' keys, the factory gives a local, non-headless Chrome with timeouts 10 and 30 |
| DriverFactory.QuitDriver | src/main/java/ui/driver/WebDriverFactory.java:197-206 | nothing happens for null; otherwise `quit` is attempted, and a failure is logged, never raised |
| Retention.CutoffIsExact | src/main/java/utils/ScreenshotUtils.java:160 | for an `int` day count and a realistic clock the `long` arithmetic does not wrap: the cutoff is now minus days times 86400000 |
| Retention.Cutoff | src/main/java/utils/ScreenshotUtils.java:160 | the cutoff in `long` arithmetic, always within the `long` range; its exact value for realistic clocks is stated by `CutoffIsExact` |
| Retention.Cleanup | src/main/java/utils/ScreenshotUtils.java:155-175 | a missing or unlistable directory is left alone; otherwise the remaining listing and the count are those of the selection rule |
| Retention.KeptAndDeletedPartition | src/main/java/utils/ScreenshotUtils.java:164-171 | every entry is either kept or counted as deleted |
| Retention.KeptExactly | src/main/java/utils/ScreenshotUtils.java:165-171 | an entry survives exactly when it is not a selected file, or its delete failed |
| Retention.CleanupIdempotent | src/main/java/utils/ScreenshotUtils.java:165-171 | a second pass at the same cutoff deletes nothing and changes nothing |
| Retention.LaterCutoffDeletesMore | src/main/java/utils/ScreenshotUtils.java:160-167 | fewer days kept deletes at least as many files |
| Screenshots.ScreenshotDirectory | src/main/java/utils/ScreenshotUtils.java:186-188 | the directory ends with '/' |
| Screenshots.SupportsScreenshots | src/main/java/utils/ScreenshotUtils.java:195-197 | `instanceof TakesScreenshot`: a non-null driver that implements the interface; it decides which captures throw |
| Screenshots.ScreenshotPath | src/main/java/utils/ScreenshotUtils.java:41-43 | the directory, the test name, '_', the 19-character stamp and ".png": it starts with the directory, ends with ".png" and is 24 characters longer than both parts |
| Screenshots.ScreenshotPathRoundTrip | src/main/java/utils/ScreenshotUtils.java:22-43 | a screenshot path reads back to its test name and clock reading |
| Screenshots.ScreenshotPathInjective | src/main/java/utils/ScreenshotUtils.java:41-49 | two screenshots share a file only with the same name in the same second |
| Screenshots.ScreenshotPathInDirectory | src/main/java/utils/ScreenshotUtils.java:22-43 | every screenshot lies in the reported and cleaned directory and ends with ".png" |
| Screenshots.TakeScreenshot | src/main/java/utils/ScreenshotUtils.java:31-59 | null driver gives null; a driver without `TakesScreenshot` throws ClassCastException; after a successful capture a path `Paths.get` refuses throws InvalidPathException; a path is returned exactly when the capture succeeds, the path is accepted and the copy succeeds, and it names the test and the reading |
| Screenshots.ScreenshotPathAccepted | src/main/java/utils/ScreenshotUtils.java:41-49 | when the refused characters are none of the letters, digits, '-', '_', '/' and '.', a screenshot path is refused exactly when the test name holds one of them |
| Screenshots.TakeScreenshotOnFailure | src/main/java/utils/ScreenshotUtils.java:67-70 | a path is returned exactly when capture, path and copy succeed for the name "FAILED_" + test name, which it records |
| Screenshots.TakeScreenshotWithPrefix | src/main/java/utils/ScreenshotUtils.java:79-81 | a path is returned exactly when capture, path and copy succeed for the name prefix + "_" + test name, which it records |
| Screenshots.Sanitize | src/main/java/utils/ScreenshotUtils.java:91 | length is kept, ASCII letters and digits stay in place, every other character becomes '_' |
| Screenshots.SanitizeIsSafe | src/main/java/utils/ScreenshotUtils.java:91 | the result holds only letters, digits and '_', no '/' or '.', and sanitising is idempotent |
| Screenshots.TakeDebugScreenshot | src/main/java/utils/ScreenshotUtils.java:90-93 | a path is returned exactly when capture, path and copy succeed for the name "DEBUG_" + test name + "_" + sanitised step, which it records |
| Screenshots.DebugName | src/main/java/utils/ScreenshotUtils.java:91-92 | "DEBUG_", the test name, '_' and the sanitised step; its safety is stated by `DebugNameSafeStep` and `DebugNameAccepted` |
| Screenshots.DebugNameAccepted | src/main/java/utils/ScreenshotUtils.java:90-93 | when no letter, digit or '_' is refused, a debug name is refused exactly when the test name is: the sanitised step never is |
| Screenshots.DebugNameSafeStep | src/main/java/utils/ScreenshotUtils.java:91-92 | the step part of a debug name contains no '/' |
| Screenshots.TakeScreenshotAsBytes | src/main/java/utils/ScreenshotUtils.java:100-114 | null driver or failed capture gives null; otherwise the captured bytes |
| Screenshots.TakeScreenshotAsBase64 | src/main/java/utils/ScreenshotUtils.java:121-135 | null driver or failed capture gives null; otherwise the captured text |
| Screenshots.CapturesAgreeOnErrors | src/main/java/utils/ScreenshotUtils.java:31-135 | the three capture methods throw ClassCastException in the same cases and the in-memory ones give null for a null driver |
| Screenshots.CleanupOldScreenshots | src/main/java/utils/ScreenshotUtils.java:153-180 | every regular file older than the cutoff, whatever its name, is deleted if it can be; a missing directory is a no-op |
| Reports.ReportsDir | src/test/java/com/buzzheng/TestComponents/ExtentReporterNG.java:18 | the directory ends with "/test-output/reports/" |
| Reports.ReportFileName | src/test/java/com/buzzheng/TestComponents/ExtentReporterNG.java:40-41 | the report file name has 35 characters |
| Reports.ReportFileNameRoundTrip | src/test/java/com/buzzheng/TestComponents/ExtentReporterNG.java:40-41 | the report file name reads back to its creation time |
| Reports.ReportFileIsCleanupCandidate | src/test/java/com/buzzheng/TestComponents/ExtentReporterNG.java:171-172 | a report file is a clean-up candidate exactly when it is older than the cutoff |
| Reports.SystemInformationLayout | src/test/java/com/buzzheng/TestComponents/ExtentReporterNG.java:82-94 | nine rows with distinct names, the fixed tester, the display timestamp last; only OS, Java version and user directory can be null |
| Reports.SystemInformationDefaults | src/test/java/com/buzzheng/TestComponents/ExtentReporterNG.java:84-92 | absent env, browser, execution and headless show local, chrome, local and false |
| Reports.ReportBrowserIsRawProperty | src/test/java/com/buzzheng/TestComponents/ExtentReporterNG.java:85 | the Browser row is the raw system property (or "chrome"), not the configuration's resolved browser |
| Reports.SystemInformation | src/test/java/com/buzzheng/TestComponents/ExtentReporterNG.java:82-94 | the nine system-information rows in source order; their names and values are stated by `SystemInformationLayout` and `SystemInformationDefaults` |
| Reports.NewReport | src/test/java/com/buzzheng/TestComponents/ExtentReporterNG.java:35-56 | the report created on first request: the timestamped file under the reports directory, the configured settings, the system information and no flush yet |
| Reports.ExtentReporter.constructor | src/test/java/com/buzzheng/TestComponents/ExtentReporterNG.java:17-18 | no report yet; the directory is fixed at initialisation |
| Reports.ExtentReporter.GetReportObject | src/test/java/com/buzzheng/TestComponents/ExtentReporterNG.java:25-56 | an existing report is returned unchanged; otherwise one is created with the timestamped path, the settings and the system information, and kept |
| Reports.ExtentReporter.FlushReports | src/test/java/com/buzzheng/TestComponents/ExtentReporterNG.java:147-152 | no report: nothing happens; otherwise the report is flushed once more |
| Reports.ExtentReporter.CurrentReportPath | src/test/java/com/buzzheng/TestComponents/ExtentReporterNG.java:190-194 | the result is the reports directory, a proper prefix of the report's path |
| Reports.CleanupOldReports | src/test/java/com/buzzheng/TestComponents/ExtentReporterNG.java:158-185 | only regular ".html" files older than the cutoff are deleted; a missing directory is a no-op |
| Reports.ReportCleanupSparesOtherFiles | src/test/java/com/buzzheng/TestComponents/ExtentReporterNG.java:171 | a file whose name does not end with ".html" is never removed |

## Left out

- Real browsers, the grid and the network are left out. Constructing `ChromeDriver`, `FirefoxDriver`, `EdgeDriver` or `RemoteWebDriver` is replaced by an input saying whether the session starts. A failed start is the `SessionNotCreated` error. The timeout `Duration` calls only record the values.
- The clock, file copies, deletions and directory creation are inputs, not effects.
  - `createScreenshotDirectory` and `createReportsDirectory` only log a failure. The model records neither.
  - A screenshot directory that cannot be created shows up as a failed copy.
  - A report written to a missing directory is not modelled.
- Console output, stack traces, the ExtentReports theme, custom CSS and JavaScript are left out. The Spark settings keep only their names and flags.
- `Properties.load` is represented by its parsed table. The file's syntax, escapes and a read that fails midway (entries already loaded) are not modelled.
- Only ASCII letters are case-mapped and only ASCII digits are digits. Java's `toLowerCase` in the default locale and `Character.digit` also map other scripts, and `parseInt` accepts non-ASCII digits.
- JavaText.ToLowerCase: the default locale is assumed to map 'I' to 'i'. In a Turkish or Azeri locale `toLowerCase` maps 'I' to dotless 'ı', so `-Dexecution=GRID` gives "grıd", an unsupported execution mode, and `-Dbrowser=FIREFOX` gives "fırefox", an unsupported browser; the model gives "grid" and "firefox". The grid URL's protocol is unaffected, since `URL` lower-cases it independently of the locale.
- JavaText.ParseInt: only ASCII digits are accepted; `Integer.parseInt` also accepts the decimal digits of other scripts.
- DriverFactory.IsWellFormedUrl: this approximates `new URL(...)` by its protocol check.
  - It requires a valid protocol name before the first ':', with no '/' before it, among the JDK's handlers file, ftp, http, https, jar, jrt and mailto.
  - The leading and trailing blanks `URL` strips, the `url:` prefix, and handler-specific failures (such as a bad port) are not modelled.
  - The grid URL the configuration returns is already trimmed.
- Screenshots.PathAccepted: the platform's path check is reduced to a set of refused characters. Windows' further rules for a path (such as a trailing space before a separator) are not modelled.
- Retry.MaxRetryCount: `MAX_RETRY_COUNT` is a static constant computed once per JVM. The model computes it per analyzer from the system properties given, which is the same whenever those properties do not change.
- Retry.RetryAnalyzer.Retry: the log line reads the test result's throwable. A result without a throwable would throw after the counter was incremented. The test result is not modelled.
- Configuration.Config.ImplicitTimeout, Configuration.Config.ExplicitTimeout, Configuration.Config.PageLoadTimeout and Configuration.Config.ThreadCount carry only the `int` range in their own contracts. The values for unresolved keys are stated by `UnresolvedTimeouts` and `FallbackConfiguration`. Their failure on malformed or out-of-range text, and their value otherwise, is stated by `JavaText.ParseInt`, `ParseIntRejectsOutOfRange` and `NonNumericTimeoutFails`.
- Timestamps.Valid: clock readings are assumed to have a year from 1 to 9999. `DateTimeFormatter` prints other years with a sign or extra digits.
- `getDbUrl`, `getDbUsername`, `getDbPassword`, `getParallelMode` and `printConfiguration` are left out. They are plain `getProperty` calls or console output, and are covered by `GetProperty`'s contract.
- A `TestNG` `ITestResult` and the listener callbacks are not part of this model.
- Behaviours the model states as they are written:
  - A timeout that fails to parse after the driver has started leaves that browser running: the error carries the session.
  - `getCurrentReportPath` returns the directory, not the report file.
  - The report's "Browser" row can disagree with the browser the factory starts.
