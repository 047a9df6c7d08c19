/** The driver factory: picks a local browser or a remote (Selenium Grid or
    Docker) session from the configuration, fills in the browser's options,
    applies the configured timeouts, and quits drivers without letting a
    failure escape. Starting a real browser is outside the model: whether the
    browser (or the grid) accepts a new session is an input. */
module DriverFactory {
  import opened Wrappers
  import opened JavaText
  import opened Configuration

  datatype BrowserKind = Chrome | Firefox | Edge

  /** The browser names the factory accepts (after lower-casing). */
  function BrowserOf(name: string): (r: Option<BrowserKind>)
    ensures r == Some(Chrome) <==> name == "chrome"
    ensures r == Some(Firefox) <==> name == "firefox"
    ensures r == Some(Edge) <==> name == "edge"
  {
    if name == "chrome" then Some(Chrome)
    else if name == "firefox" then Some(Firefox)
    else if name == "edge" then Some(Edge)
    else None
  }

  // ---------------------------------------------------------------------------
  // Browser options
  // ---------------------------------------------------------------------------

  /** A value stored under a preference or an experimental option. */
  datatype OptionValue = Flag(flag: bool) | Text(text: string) | TextList(items: seq<string>)

  /** The content of an options object. */
  datatype Profile = Profile(
    arguments: seq<string>,
    preferences: map<string, OptionValue>,
    experimental: map<string, OptionValue>)

  /** `ChromeOptions`, `FirefoxOptions` or `EdgeOptions`: command-line arguments
      are appended in order; preferences and experimental options are keyed,
      a later value replacing an earlier one. */
  class BrowserOptions {
    var arguments: seq<string>
    var preferences: map<string, OptionValue>
    var experimental: map<string, OptionValue>

    constructor ()
      ensures arguments == [] && preferences == map[] && experimental == map[]
    {
      arguments := [];
      preferences := map[];
      experimental := map[];
    }

    /** The options as a value. */
    function Content(): Profile
      reads this
    {
      Profile(arguments, preferences, experimental)
    }

    /** `addArguments` with one argument. */
    method AddArgument(argument: string)
      modifies this
      ensures arguments == old(arguments) + [argument]
      ensures preferences == old(preferences) && experimental == old(experimental)
    {
      arguments := arguments + [argument];
    }

    /** `FirefoxOptions.addPreference`. */
    method AddPreference(name: string, value: OptionValue)
      modifies this
      ensures preferences == old(preferences)[name := value]
      ensures arguments == old(arguments) && experimental == old(experimental)
    {
      preferences := preferences[name := value];
    }

    /** `ChromeOptions.setExperimentalOption`. */
    method SetExperimentalOption(name: string, value: OptionValue)
      modifies this
      ensures experimental == old(experimental)[name := value]
      ensures arguments == old(arguments) && preferences == old(preferences)
    {
      experimental := experimental[name := value];
    }
  }

  /** The eleven performance and security flags every Chrome session gets. */
  const ChromeBaseArguments: seq<string> := [
    "--no-sandbox", "--disable-dev-shm-usage", "--disable-gpu", "--disable-extensions",
    "--disable-plugins", "--disable-images", "--disable-popup-blocking",
    "--disable-web-security", "--disable-features=VizDisplayCompositor",
    "--ignore-ssl-errors=yes", "--ignore-certificate-errors"]

  /** The arguments `configureChromeOptions` adds, in order. */
  function ChromeArguments(headless: bool): seq<string> {
    ChromeBaseArguments
    + (if headless then ["--headless=new", "--window-size=1920,1080"] else [])
    + ["--disable-blink-features=AutomationControlled"]
  }

  /** The experimental options `configureChromeOptions` sets. */
  function ChromeExperimental(): map<string, OptionValue> {
    map["excludeSwitches" := TextList(["enable-automation"]), "useAutomationExtension" := Flag(false)]
  }

  /** The arguments `configureFirefoxOptions` adds: only the headless ones. */
  function FirefoxArguments(headless: bool): seq<string> {
    if headless then ["--headless", "--width=1920", "--height=1080"] else []
  }

  /** The preferences `configureFirefoxOptions` sets. */
  function FirefoxPreferences(): map<string, OptionValue> {
    map[
      "dom.webnotifications.enabled" := Flag(false),
      "media.volume_scale" := Text("0.0"),
      "security.tls.insecure_fallback_hosts" := Text("localhost"),
      "security.fileuri.strict_origin_policy" := Flag(false)
    ]
  }

  /** The arguments `configureEdgeOptions` adds, in order. */
  function EdgeArguments(headless: bool): seq<string> {
    ["--no-sandbox", "--disable-dev-shm-usage", "--disable-gpu"]
    + (if headless then ["--headless", "--window-size=1920,1080"] else [])
  }

  /** What a fresh options object holds once configured for `kind`. */
  function ProfileFor(kind: BrowserKind, headless: bool): Profile {
    match kind
    case Chrome => Profile(ChromeArguments(headless), map[], ChromeExperimental())
    case Firefox => Profile(FirefoxArguments(headless), FirefoxPreferences(), map[])
    case Edge => Profile(EdgeArguments(headless), map[], map[])
  }

  /** Chrome: the base flags come first and the automation flag last; the
      headless pair is present exactly in headless mode and sits right
      before the automation flag. */
  lemma ChromeArgumentsLayout(headless: bool)
    ensures var r := ChromeArguments(headless);
      && |r| == (if headless then 14 else 12)
      && r[..11] == ChromeBaseArguments
      && r[|r| - 1] == "--disable-blink-features=AutomationControlled"
      && (headless <==> "--headless=new" in r)
      && (headless ==> r[11] == "--headless=new" && r[12] == "--window-size=1920,1080")
  {
    var r := ChromeArguments(headless);
    assert r[..11] == ChromeBaseArguments;
    if !headless {
      assert r == ChromeBaseArguments + ["--disable-blink-features=AutomationControlled"];
      assert forall i :: 0 <= i < |r| ==> r[i] != "--headless=new";
    } else {
      assert r[11] == "--headless=new";
    }
  }

  /** Firefox: headless mode adds the three size and headless arguments and
      nothing else; the four preferences are set either way. */
  lemma FirefoxProfileLayout(headless: bool)
    ensures var p := ProfileFor(Firefox, headless);
      && (headless <==> "--headless" in p.arguments)
      && (!headless ==> p.arguments == [])
      && p.preferences.Keys == {"dom.webnotifications.enabled", "media.volume_scale",
                                "security.tls.insecure_fallback_hosts", "security.fileuri.strict_origin_policy"}
      && p.preferences["security.fileuri.strict_origin_policy"] == Flag(false)
  {
    var p := ProfileFor(Firefox, headless);
    if headless {
      assert p.arguments[0] == "--headless";
    }
  }

  /** Edge: three flags, followed by the headless pair in headless mode. */
  lemma EdgeArgumentsLayout(headless: bool)
    ensures var r := EdgeArguments(headless);
      && |r| == (if headless then 5 else 3)
      && r[..3] == ["--no-sandbox", "--disable-dev-shm-usage", "--disable-gpu"]
      && (headless <==> "--headless" in r)
  {
    var r := EdgeArguments(headless);
    assert r[..3] == ["--no-sandbox", "--disable-dev-shm-usage", "--disable-gpu"];
    if headless {
      assert r[3] == "--headless";
    } else {
      assert forall i :: 0 <= i < |r| ==> r[i] != "--headless";
    }
  }

  /** Only Chrome gets experimental options and only Firefox gets preferences. */
  lemma ProfileKinds(kind: BrowserKind, headless: bool)
    ensures (ProfileFor(kind, headless).experimental != map[]) <==> kind == Chrome
    ensures (ProfileFor(kind, headless).preferences != map[]) <==> kind == Firefox
  {
    assert "excludeSwitches" in ChromeExperimental();
    assert "media.volume_scale" in FirefoxPreferences();
  }

  /** The first eleven `addArguments` calls of `configureChromeOptions`. */
  method AddChromeBaseArguments(options: BrowserOptions)
    modifies options
    ensures options.arguments == old(options.arguments) + ChromeBaseArguments
    ensures options.preferences == old(options.preferences) && options.experimental == old(options.experimental)
  {
    ghost var a := options.arguments;
    options.AddArgument("--no-sandbox");
    options.AddArgument("--disable-dev-shm-usage");
    options.AddArgument("--disable-gpu");
    options.AddArgument("--disable-extensions");
    assert options.arguments == a + ChromeBaseArguments[..4];
    a := options.arguments;
    options.AddArgument("--disable-plugins");
    options.AddArgument("--disable-images");
    options.AddArgument("--disable-popup-blocking");
    options.AddArgument("--disable-web-security");
    assert options.arguments == a + ChromeBaseArguments[4..8];
    a := options.arguments;
    options.AddArgument("--disable-features=VizDisplayCompositor");
    options.AddArgument("--ignore-ssl-errors=yes");
    options.AddArgument("--ignore-certificate-errors");
    assert options.arguments == a + ChromeBaseArguments[8..];
    assert ChromeBaseArguments == ChromeBaseArguments[..4] + ChromeBaseArguments[4..8] + ChromeBaseArguments[8..];
  }

  /** `configureChromeOptions`. */
  method ConfigureChromeOptions(options: BrowserOptions, headless: bool)
    modifies options
    ensures options.arguments == old(options.arguments) + ChromeArguments(headless)
    ensures options.preferences == old(options.preferences)
    ensures options.experimental == old(options.experimental) + ChromeExperimental()
  {
    ghost var before := options.arguments;
    AddChromeBaseArguments(options);
    ghost var headlessPair: seq<string> := [];
    if headless {
      options.AddArgument("--headless=new");
      options.AddArgument("--window-size=1920,1080");
      headlessPair := ["--headless=new", "--window-size=1920,1080"];
    }
    assert options.arguments == before + ChromeBaseArguments + headlessPair;
    options.SetExperimentalOption("excludeSwitches", TextList(["enable-automation"]));
    options.SetExperimentalOption("useAutomationExtension", Flag(false));
    options.AddArgument("--disable-blink-features=AutomationControlled");
  }

  /** The headless arguments of `configureFirefoxOptions`. */
  method AddFirefoxHeadlessArguments(options: BrowserOptions, headless: bool)
    modifies options
    ensures options.arguments == old(options.arguments) + FirefoxArguments(headless)
    ensures options.preferences == old(options.preferences) && options.experimental == old(options.experimental)
  {
    if headless {
      options.AddArgument("--headless");
      options.AddArgument("--width=1920");
      options.AddArgument("--height=1080");
    }
  }

  /** `configureFirefoxOptions`. */
  method ConfigureFirefoxOptions(options: BrowserOptions, headless: bool)
    modifies options
    ensures options.arguments == old(options.arguments) + FirefoxArguments(headless)
    ensures options.preferences == old(options.preferences) + FirefoxPreferences()
    ensures options.experimental == old(options.experimental)
  {
    ghost var before := options.preferences;
    ghost var written: map<string, OptionValue> := map[];
    options.AddPreference("dom.webnotifications.enabled", Flag(false));
    UnionUpdate(before, written, "dom.webnotifications.enabled", Flag(false));
    written := written["dom.webnotifications.enabled" := Flag(false)];
    assert options.preferences == before + written;
    options.AddPreference("media.volume_scale", Text("0.0"));
    UnionUpdate(before, written, "media.volume_scale", Text("0.0"));
    written := written["media.volume_scale" := Text("0.0")];
    assert options.preferences == before + written;
    AddFirefoxHeadlessArguments(options, headless);
    options.AddPreference("security.tls.insecure_fallback_hosts", Text("localhost"));
    UnionUpdate(before, written, "security.tls.insecure_fallback_hosts", Text("localhost"));
    written := written["security.tls.insecure_fallback_hosts" := Text("localhost")];
    assert options.preferences == before + written;
    options.AddPreference("security.fileuri.strict_origin_policy", Flag(false));
    UnionUpdate(before, written, "security.fileuri.strict_origin_policy", Flag(false));
    written := written["security.fileuri.strict_origin_policy" := Flag(false)];
    assert options.preferences == before + written;
    assert written == FirefoxPreferences();
  }

  /** `configureEdgeOptions`. */
  method ConfigureEdgeOptions(options: BrowserOptions, headless: bool)
    modifies options
    ensures options.arguments == old(options.arguments) + EdgeArguments(headless)
    ensures options.preferences == old(options.preferences)
    ensures options.experimental == old(options.experimental)
  {
    options.AddArgument("--no-sandbox");
    options.AddArgument("--disable-dev-shm-usage");
    options.AddArgument("--disable-gpu");
    if headless {
      options.AddArgument("--headless");
      options.AddArgument("--window-size=1920,1080");
    }
  }

  /** A new options object for `kind`, configured by its `configure...Options`. */
  method ConfiguredOptions(kind: BrowserKind, headless: bool) returns (profile: Profile)
    ensures profile == ProfileFor(kind, headless)
  {
    var options := new BrowserOptions();
    match kind {
      case Chrome => ConfigureChromeOptions(options, headless);
      case Firefox => ConfigureFirefoxOptions(options, headless);
      case Edge => ConfigureEdgeOptions(options, headless);
    }
    profile := options.Content();
  }

  // ---------------------------------------------------------------------------
  // Remote capabilities
  // ---------------------------------------------------------------------------

  /** `DesiredCapabilities` carrying a browser name and its options. */
  datatype Capabilities = Capabilities(browserName: string, options: Profile)

  /** The browser name each `get...Capabilities` sets. */
  function CapabilityName(kind: BrowserKind): (name: string)
    ensures kind == Chrome ==> name == "chrome"
    ensures kind == Firefox ==> name == "firefox"
    ensures kind == Edge ==> name == "MicrosoftEdge"
  {
    match kind
    case Chrome => "chrome"
    case Firefox => "firefox"
    case Edge => "MicrosoftEdge"
  }

  /** `getChromeCapabilities`, `getFirefoxCapabilities`, `getEdgeCapabilities`:
      a remote session gets exactly the options a local one would. */
  method GetCapabilities(kind: BrowserKind, headless: bool) returns (caps: Capabilities)
    ensures caps.options == ProfileFor(kind, headless)
    ensures caps.browserName == CapabilityName(kind)
  {
    var profile := ConfiguredOptions(kind, headless);
    caps := Capabilities(CapabilityName(kind), profile);
  }

  /** Every capability name is distinct, so the grid can tell the browsers apart;
      only Edge's differs from the configuration's browser name. */
  lemma CapabilityNamesDistinct(a: BrowserKind, b: BrowserKind)
    ensures CapabilityName(a) == CapabilityName(b) <==> a == b
    ensures BrowserOf(CapabilityName(a)) == Some(a) <==> a != Edge
  {
  }

  // ---------------------------------------------------------------------------
  // Grid URL
  // ---------------------------------------------------------------------------

  /** The protocols the JDK's `URL` class has handlers for. */
  const KnownProtocols: set<string> := {"file", "ftp", "http", "https", "jar", "jrt", "mailto"}

  predicate IsAsciiLetter(c: char) {
    ('a' <= c <= 'z') || ('A' <= c <= 'Z')
  }

  /** A protocol name: a letter, then letters, digits, '.', '+' or '-'. */
  predicate IsValidProtocol(s: string) {
    |s| > 0 && IsAsciiLetter(s[0])
    && forall i :: 1 <= i < |s| ==> IsAsciiLetter(s[i]) || IsDigit(s[i]) || s[i] in ".+-"
  }

  /** The position of the first ':' or '/', or the length when neither occurs. */
  function SchemeEnd(url: string): (n: nat)
    ensures n <= |url|
    ensures forall i :: 0 <= i < n ==> url[i] != ':' && url[i] != '/'
    ensures n < |url| ==> url[n] == ':' || url[n] == '/'
  {
    if url == [] || url[0] == ':' || url[0] == '/' then 0 else 1 + SchemeEnd(url[1..])
  }

  /** The protocol `new URL(spec)` reads: the text before the first ':', provided
      no '/' comes before it and it is a valid protocol name, lower-cased. */
  function Protocol(url: string): (r: Option<string>)
    ensures r.Some? ==> IsLowerCase(r.value) && |r.value| > 0 && |r.value| < |url| && url[|r.value|] == ':'
    ensures r.Some? ==> forall i :: 0 <= i < |r.value| ==> url[i] != ':' && url[i] != '/'
    ensures r.Some? ==> IsValidProtocol(url[..|r.value|]) && r.value == ToLowerCase(url[..|r.value|])
  {
    var n := SchemeEnd(url);
    if n < |url| && url[n] == ':' && IsValidProtocol(url[..n]) then Some(ToLowerCase(url[..n])) else None
  }

  /** `new URL(spec)` does not throw MalformedURLException: the protocol is
      present and has a handler. */
  predicate IsWellFormedUrl(url: string) {
    Protocol(url).Some? && Protocol(url).value in KnownProtocols
  }

  /** The scheme ends at a ':' when no ':' or '/' comes before it. */
  lemma {:induction false} SchemeEndAtColon(url: string, n: nat)
    requires n < |url| && url[n] == ':'
    requires forall i :: 0 <= i < n ==> url[i] != ':' && url[i] != '/'
    ensures SchemeEnd(url) == n
    decreases n
  {
    if n > 0 {
      SchemeEndAtColon(url[1..], n - 1);
    }
  }

  /** An address whose first ':' (with no '/' before it) follows a valid
      protocol name is accepted exactly when that name, ignoring case, has a
      handler. */
  lemma ProtocolPrefix(url: string, n: nat)
    requires n < |url| && url[n] == ':'
    requires forall i :: 0 <= i < n ==> url[i] != ':' && url[i] != '/'
    requires IsValidProtocol(url[..n])
    ensures Protocol(url) == Some(ToLowerCase(url[..n]))
    ensures IsWellFormedUrl(url) <==> ToLowerCase(url[..n]) in KnownProtocols
  {
    SchemeEndAtColon(url, n);
  }

  /** An address in which a '/' comes before every ':' (in particular one with
      no ':' at all) has no protocol and is rejected. */
  lemma NoProtocolRejected(url: string)
    requires forall i :: 0 <= i < |url| && url[i] == ':' ==> '/' in url[..i]
    ensures Protocol(url).None? && !IsWellFormedUrl(url)
  {
  }

  /** The default grid address is accepted. */
  lemma DefaultGridUrlWellFormed(u: string)
    requires u == "http://localhost:4444/wd/hub"
    ensures IsWellFormedUrl(u)
  {
    assert u[..4] == "http";
    ProtocolPrefix(u, 4);
    assert ToLowerCase("http") == "http";
  }

  /** The protocol is matched ignoring case. */
  lemma UpperCaseProtocolWellFormed(u: string)
    requires u == "HTTPS://grid:4444"
    ensures IsWellFormedUrl(u)
  {
    assert u[..5] == "HTTPS";
    ProtocolPrefix(u, 5);
    assert ToLowerCase("HTTPS") == "https";
  }

  /** "localhost:4444" reads "localhost" as a protocol, which has no handler. */
  lemma MissingProtocolRejected(u: string)
    requires u == "localhost:4444/wd/hub"
    ensures !IsWellFormedUrl(u)
  {
    assert u[..9] == "localhost";
    ProtocolPrefix(u, 9);
    assert ToLowerCase("localhost") == "localhost";
    assert "localhost" !in KnownProtocols;
  }

  /** An address starting with '/' has no protocol at all. */
  lemma RelativeAddressRejected(u: string)
    requires u == "/wd/hub:4444"
    ensures !IsWellFormedUrl(u)
  {
    assert SchemeEnd(u) == 0;
  }

  // ---------------------------------------------------------------------------
  // Creating a driver
  // ---------------------------------------------------------------------------

  /** How a session was started: a local browser with its options, or a
      `RemoteWebDriver` at a grid address with capabilities. */
  datatype Launch = LocalLaunch(options: Profile) | RemoteLaunch(gridUrl: string, capabilities: Capabilities)

  /** A started browser session. */
  datatype Session = Session(browser: BrowserKind, launch: Launch)

  /** A driver returned to the caller, with the timeouts applied to it in seconds. */
  datatype Driver = Driver(session: Session, implicitWaitSeconds: int, pageLoadSeconds: int)

  /** The exceptions `createDriver` lets escape. */
  datatype FactoryError =
    | UnsupportedExecution(execution: string)
    | UnsupportedBrowser(browser: string)
    | UnsupportedRemoteBrowser(browser: string)
    | InvalidGridUrl(gridUrl: string)
    | SessionNotCreated(kind: BrowserKind)
      /** A timeout that does not parse, thrown after the session started: the
          session is never quit and never returned. */
    | InvalidTimeout(key: string, leaked: Session)

  /** `createLocalDriver`. */
  function LocalSession(browser: string, headless: bool, starts: bool): Result<Session, FactoryError> {
    match BrowserOf(ToLowerCase(browser))
    case None => Failure(UnsupportedBrowser(browser))
    case Some(kind) =>
      if starts then Success(Session(kind, LocalLaunch(ProfileFor(kind, headless))))
      else Failure(SessionNotCreated(kind))
  }

  /** `createRemoteDriver`: the grid address is parsed before the browser name
      is looked at. */
  function RemoteSession(browser: string, headless: bool, gridUrl: string, starts: bool): Result<Session, FactoryError> {
    if !IsWellFormedUrl(gridUrl) then Failure(InvalidGridUrl(gridUrl))
    else match BrowserOf(ToLowerCase(browser))
      case None => Failure(UnsupportedRemoteBrowser(browser))
      case Some(kind) =>
        if starts then
          Success(Session(kind, RemoteLaunch(gridUrl, Capabilities(CapabilityName(kind), ProfileFor(kind, headless)))))
        else Failure(SessionNotCreated(kind))
  }

  /** `createDriver` on the configuration's values: choose by execution mode,
      then apply the implicit wait and the page-load timeout, in that order. */
  function CreateOutcome(execution: string, browser: string, headless: bool, gridUrl: string,
                         implicitTimeout: Option<int>, pageLoadTimeout: Option<int>, starts: bool)
    : Result<Driver, FactoryError>
  {
    var session :=
      if execution == "local" then LocalSession(browser, headless, starts)
      else if execution == "grid" || execution == "docker" then RemoteSession(browser, headless, gridUrl, starts)
      else Failure(UnsupportedExecution(execution));
    match session
    case Failure(e) => Failure(e)
    case Success(s) =>
      match implicitTimeout
      case None => Failure(InvalidTimeout("timeout.implicit", s))
      case Some(i) =>
        match pageLoadTimeout
        case None => Failure(InvalidTimeout("timeout.pageload", s))
        case Some(p) => Success(Driver(s, i, p))
  }

  /** `createLocalDriver` and the `create...Driver` it dispatches to. */
  method CreateLocalDriver(browser: string, headless: bool, starts: bool) returns (r: Result<Session, FactoryError>)
    ensures r == LocalSession(browser, headless, starts)
  {
    var kind := BrowserOf(ToLowerCase(browser));
    if kind.None? {
      return Failure(UnsupportedBrowser(browser));
    }
    var profile := ConfiguredOptions(kind.value, headless);
    if !starts {
      return Failure(SessionNotCreated(kind.value));
    }
    r := Success(Session(kind.value, LocalLaunch(profile)));
  }

  /** `createRemoteDriver`. */
  method CreateRemoteDriver(browser: string, headless: bool, gridUrl: string, starts: bool)
    returns (r: Result<Session, FactoryError>)
    ensures r == RemoteSession(browser, headless, gridUrl, starts)
  {
    if !IsWellFormedUrl(gridUrl) {
      return Failure(InvalidGridUrl(gridUrl));
    }
    var kind := BrowserOf(ToLowerCase(browser));
    if kind.None? {
      return Failure(UnsupportedRemoteBrowser(browser));
    }
    var caps := GetCapabilities(kind.value, headless);
    if !starts {
      return Failure(SessionNotCreated(kind.value));
    }
    r := Success(Session(kind.value, RemoteLaunch(gridUrl, caps)));
  }

  /** `createDriver`, reading the configuration getters it calls. */
  method CreateDriver(config: Config, starts: bool) returns (r: Result<Driver, FactoryError>)
    ensures r == CreateOutcome(config.Execution(), config.Browser(), config.IsHeadless(), config.GridUrl(),
                               config.ImplicitTimeout(), config.PageLoadTimeout(), starts)
  {
    var execution := config.Execution();
    var browser := config.Browser();
    var session: Result<Session, FactoryError>;
    if execution == "local" {
      session := CreateLocalDriver(browser, config.IsHeadless(), starts);
    } else if execution == "grid" || execution == "docker" {
      session := CreateRemoteDriver(browser, config.IsHeadless(), config.GridUrl(), starts);
    } else {
      return Failure(UnsupportedExecution(execution));
    }
    if session.Failure? {
      return Failure(session.error);
    }
    var implicitTimeout := config.ImplicitTimeout();
    if implicitTimeout.None? {
      return Failure(InvalidTimeout("timeout.implicit", session.value));
    }
    var pageLoadTimeout := config.PageLoadTimeout();
    if pageLoadTimeout.None? {
      return Failure(InvalidTimeout("timeout.pageload", session.value));
    }
    r := Success(Driver(session.value, implicitTimeout.value, pageLoadTimeout.value));
  }

  // ---------------------------------------------------------------------------
  // Properties of driver creation
  // ---------------------------------------------------------------------------

  /** An execution mode other than "local", "grid" or "docker" is rejected before
      anything else is looked at. */
  lemma UnknownExecutionRejected(execution: string, browser: string, headless: bool, gridUrl: string,
                                 implicitTimeout: Option<int>, pageLoadTimeout: Option<int>, starts: bool)
    ensures var r := CreateOutcome(execution, browser, headless, gridUrl, implicitTimeout, pageLoadTimeout, starts);
      (r == Failure(UnsupportedExecution(execution))) <==> execution !in {"local", "grid", "docker"}
  {
  }

  /** The mode decides the kind of session: "local" starts a local browser and
      "grid" or "docker" a remote one at the configured address, with the
      configured browser's options either way. */
  lemma ModeDecidesLaunch(execution: string, browser: string, headless: bool, gridUrl: string,
                          implicitTimeout: Option<int>, pageLoadTimeout: Option<int>, starts: bool)
    requires CreateOutcome(execution, browser, headless, gridUrl, implicitTimeout, pageLoadTimeout, starts).Success?
    ensures var d := CreateOutcome(execution, browser, headless, gridUrl, implicitTimeout, pageLoadTimeout, starts).value;
      && BrowserOf(ToLowerCase(browser)) == Some(d.session.browser)
      && (execution == "local" ==> d.session.launch == LocalLaunch(ProfileFor(d.session.browser, headless)))
      && (execution != "local" ==>
            && (execution == "grid" || execution == "docker")
            && d.session.launch.RemoteLaunch? && d.session.launch.gridUrl == gridUrl
            && IsWellFormedUrl(gridUrl)
            && d.session.launch.capabilities == Capabilities(CapabilityName(d.session.browser), ProfileFor(d.session.browser, headless)))
  {
  }

  /** A driver is returned only when both timeouts parse, and then it carries them. */
  lemma DriverCarriesTimeouts(execution: string, browser: string, headless: bool, gridUrl: string,
                              implicitTimeout: Option<int>, pageLoadTimeout: Option<int>, starts: bool)
    ensures var r := CreateOutcome(execution, browser, headless, gridUrl, implicitTimeout, pageLoadTimeout, starts);
      r.Success? ==> implicitTimeout == Some(r.value.implicitWaitSeconds) && pageLoadTimeout == Some(r.value.pageLoadSeconds)
    ensures var r := CreateOutcome(execution, browser, headless, gridUrl, implicitTimeout, pageLoadTimeout, starts);
      implicitTimeout.None? ==> !r.Success?
  {
  }

  /** In remote mode a malformed grid address is reported whatever the browser
      name is: the address is checked first. */
  lemma GridUrlCheckedFirst(execution: string, browser: string, headless: bool, gridUrl: string,
                            implicitTimeout: Option<int>, pageLoadTimeout: Option<int>, starts: bool)
    requires execution == "grid" || execution == "docker"
    ensures var r := CreateOutcome(execution, browser, headless, gridUrl, implicitTimeout, pageLoadTimeout, starts);
      !IsWellFormedUrl(gridUrl) <==> r == Failure(InvalidGridUrl(gridUrl))
  {
  }

  /** An unsupported browser name is rejected with the mode's own error. */
  lemma UnsupportedBrowserRejected(execution: string, browser: string, headless: bool, gridUrl: string,
                                   implicitTimeout: Option<int>, pageLoadTimeout: Option<int>, starts: bool)
    requires BrowserOf(ToLowerCase(browser)).None?
    ensures var r := CreateOutcome(execution, browser, headless, gridUrl, implicitTimeout, pageLoadTimeout, starts);
      && (execution == "local" ==> r == Failure(UnsupportedBrowser(browser)))
      && ((execution == "grid" || execution == "docker") && IsWellFormedUrl(gridUrl) ==>
            r == Failure(UnsupportedRemoteBrowser(browser)))
      && !r.Success?
  {
  }

  /** A timeout that does not parse is only discovered after a session started,
      and that session is dropped without being quit. */
  lemma TimeoutFailureLeaksSession(execution: string, browser: string, headless: bool, gridUrl: string,
                                   implicitTimeout: Option<int>, pageLoadTimeout: Option<int>, starts: bool)
    ensures var r := CreateOutcome(execution, browser, headless, gridUrl, implicitTimeout, pageLoadTimeout, starts);
      r.Failure? && r.error.InvalidTimeout? ==>
        && starts
        && (implicitTimeout.None? ==> r.error.key == "timeout.implicit")
        && (implicitTimeout.Some? ==> r.error.key == "timeout.pageload" && pageLoadTimeout.None?)
        && (execution == "local" ==> LocalSession(browser, headless, starts) == Success(r.error.leaked))
        && (execution != "local" ==> RemoteSession(browser, headless, gridUrl, starts) == Success(r.error.leaked))
  {
  }

  /** The default configuration (execution "local", browser "chrome", not
      headless, timeouts 10 and 30) yields a local Chrome with the non-headless
      Chrome options, whenever the browser starts. */
  lemma DefaultDriver(c: Config, starts: bool)
    requires c.properties == DefaultProperties()
    requires NoOverrides(c.system)
    ensures CreateOutcome(c.Execution(), c.Browser(), c.IsHeadless(), c.GridUrl(),
                          c.ImplicitTimeout(), c.PageLoadTimeout(), starts)
            == if starts then Success(Driver(Session(Chrome, LocalLaunch(ProfileFor(Chrome, false))), 10, 30))
               else Failure(SessionNotCreated(Chrome))
  {
    FallbackConfiguration(c);
    LocalChromeOutcome(c.Execution(), c.Browser(), c.GridUrl(), starts);
  }

  /** The outcome for local execution of "chrome", not headless, with timeouts 10 and 30. */
  lemma LocalChromeOutcome(execution: string, browser: string, gridUrl: string, starts: bool)
    requires execution == "local" && browser == "chrome"
    ensures CreateOutcome(execution, browser, false, gridUrl, Some(10), Some(30), starts)
            == if starts then Success(Driver(Session(Chrome, LocalLaunch(ProfileFor(Chrome, false))), 10, 30))
               else Failure(SessionNotCreated(Chrome))
  {
    assert IsLowerCase(browser);
    ToLowerCaseOfLowerCase(browser);
  }

  // ---------------------------------------------------------------------------
  // Quitting a driver
  // ---------------------------------------------------------------------------

  /** What `quitDriver` did: nothing for a null driver, a clean quit, or a quit
      whose exception was logged and swallowed. */
  datatype QuitOutcome = NothingToQuit | Quit | QuitErrorLogged

  /** `quitDriver`: never throws (the outcome has no error case); `quit` is
      attempted exactly when there is a driver. */
  function QuitDriver(driver: Option<Driver>, quitSucceeds: bool): (r: QuitOutcome)
    ensures r == NothingToQuit <==> driver.None?
    ensures r == Quit <==> driver.Some? && quitSucceeds
    ensures r == QuitErrorLogged <==> driver.Some? && !quitSucceeds
  {
    if driver.None? then NothingToQuit else if quitSucceeds then Quit else QuitErrorLogged
  }
}
