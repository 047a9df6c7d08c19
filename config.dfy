/** The framework's configuration: JVM system properties (the `-D` values given
    on the command line) override an environment-specific properties file,
    which overrides the default each getter supplies. */
module Configuration {
  import opened Wrappers
  import opened JavaText

  const DefaultConfigPath: string := "src/test/resources/config/"

  /** The environment class initialisation selects: the `env` system property
      as given (not trimmed), "local" when absent. */
  function Environment(system: map<string, string>): string {
    if "env" in system then system["env"] else "local"
  }

  /** The file class initialisation reads, named by the environment. */
  function ConfigFilePath(system: map<string, string>): (path: string)
    ensures |path| == |DefaultConfigPath| + |Environment(system)| + 11
    ensures path[..|DefaultConfigPath|] == DefaultConfigPath
    ensures EndsWith(path, ".properties")
  {
    DefaultConfigPath + Environment(system) + ".properties"
  }

  /** Reads the environment back from a configuration file path. */
  function ConfigFileEnvironment(path: string): Option<string> {
    var d := |DefaultConfigPath|;
    if |path| >= d + 11 && path[..d] == DefaultConfigPath && path[|path| - 11..] == ".properties"
    then Some(path[d..|path| - 11])
    else None
  }

  /** The path records the environment exactly, padding included. */
  lemma ConfigFilePathRoundTrip(system: map<string, string>)
    ensures ConfigFileEnvironment(ConfigFilePath(system)) == Some(Environment(system))
  {
    var path := ConfigFilePath(system);
    var d := |DefaultConfigPath|;
    assert path == DefaultConfigPath + Environment(system) + ".properties";
    assert path[d..|path| - 11] == Environment(system);
  }

  /** Distinct environments read distinct files: a padded `-Denv=" qa"` does
      not find "qa.properties" and so falls back to the defaults. */
  lemma ConfigFilePathInjective(s1: map<string, string>, s2: map<string, string>)
    requires ConfigFilePath(s1) == ConfigFilePath(s2)
    ensures Environment(s1) == Environment(s2)
  {
    ConfigFilePathRoundTrip(s1);
    ConfigFilePathRoundTrip(s2);
  }

  /** The table `loadDefaultProperties` writes when no file could be loaded. */
  function DefaultProperties(): map<string, string> {
    map[
      "browser" := "chrome",
      "execution" := "local",
      "headless" := "false",
      "base.url" := "https://example.com",
      "grid.url" := "http://localhost:4444/wd/hub",
      "timeout.implicit" := "10",
      "timeout.explicit" := "15"
    ]
  }

  /** The fallback table has exactly seven keys and no page-load timeout. */
  lemma DefaultPropertiesKeys()
    ensures DefaultProperties().Keys ==
      {"browser", "execution", "headless", "base.url", "grid.url", "timeout.implicit", "timeout.explicit"}
    ensures |DefaultProperties()| == 7
    ensures "timeout.pageload" !in DefaultProperties()
  {
    var keys := DefaultProperties().Keys;
    assert keys == {"browser", "execution", "headless", "base.url", "grid.url", "timeout.implicit", "timeout.explicit"};
    assert |{"browser", "execution", "headless", "base.url", "grid.url", "timeout.implicit", "timeout.explicit"}| == 7;
  }

  /** Writing an entry after a union is writing it into the right operand. */
  lemma UnionUpdate<K, V>(m: map<K, V>, d: map<K, V>, k: K, v: V)
    ensures m + d[k := v] == (m + d)[k := v]
  {
  }

  /** A table entry counts only when present and not blank. */
  predicate Resolves(table: map<string, string>, key: string) {
    key in table && !IsBlank(table[key])
  }

  /** The static state of the configuration class. */
  class Config {
    /** `System.getProperty`: the command-line and JVM properties. */
    const system: map<string, string>
    /** The static `properties` table. */
    var properties: map<string, string>

    /** The static initialiser: runs `loadProperties` against `files`, the
        property files that can be opened and read (path to parsed contents);
        a path missing from `files` stands for the IOException of opening or
        reading it. */
    constructor (system: map<string, string>, files: map<string, map<string, string>>)
      ensures this.system == system
      ensures ConfigFilePath(system) in files ==> properties == files[ConfigFilePath(system)]
      ensures ConfigFilePath(system) !in files ==> properties == DefaultProperties()
    {
      this.system := system;
      properties := map[];
      new;
      LoadProperties(files);
    }

    /** `loadProperties`: a fresh table, filled from the environment's file, or
        with the defaults when that file cannot be read. */
    method LoadProperties(files: map<string, map<string, string>>)
      modifies this
      ensures ConfigFilePath(system) in files ==> properties == files[ConfigFilePath(system)]
      ensures ConfigFilePath(system) !in files ==> properties == DefaultProperties()
    {
      properties := map[];
      var configFile := ConfigFilePath(system);
      if configFile in files {
        properties := properties + files[configFile];
      } else {
        LoadDefaultProperties();
      }
    }

    /** `loadDefaultProperties`: seven `setProperty` calls on the current table. */
    method LoadDefaultProperties()
      modifies this
      ensures properties == old(properties) + DefaultProperties()
    {
      ghost var before, written := properties, map[];
      SetProperty("browser", "chrome");
      UnionUpdate(before, written, "browser", "chrome");
      written := written["browser" := "chrome"];
      assert properties == before + written;
      SetProperty("execution", "local");
      UnionUpdate(before, written, "execution", "local");
      written := written["execution" := "local"];
      assert properties == before + written;
      SetProperty("headless", "false");
      UnionUpdate(before, written, "headless", "false");
      written := written["headless" := "false"];
      assert properties == before + written;
      SetProperty("base.url", "https://example.com");
      UnionUpdate(before, written, "base.url", "https://example.com");
      written := written["base.url" := "https://example.com"];
      assert properties == before + written;
      SetProperty("grid.url", "http://localhost:4444/wd/hub");
      UnionUpdate(before, written, "grid.url", "http://localhost:4444/wd/hub");
      written := written["grid.url" := "http://localhost:4444/wd/hub"];
      assert properties == before + written;
      SetProperty("timeout.implicit", "10");
      UnionUpdate(before, written, "timeout.implicit", "10");
      written := written["timeout.implicit" := "10"];
      assert properties == before + written;
      SetProperty("timeout.explicit", "15");
      UnionUpdate(before, written, "timeout.explicit", "15");
      written := written["timeout.explicit" := "15"];
      assert properties == before + written;
      assert written == DefaultProperties();
    }

    /** `Properties.setProperty`: records or replaces one entry. */
    method SetProperty(key: string, value: string)
      modifies this
      ensures properties == old(properties)[key := value]
    {
      properties := properties[key := value];
    }

    /** `getProperty`: a non-blank system property wins, then a non-blank file
        entry, both trimmed; otherwise the caller's default, unchanged. */
    function GetProperty(key: string, defaultValue: string): (r: string)
      reads this
      ensures Resolves(system, key) ==> r == Trim(system[key])
      ensures !Resolves(system, key) && Resolves(properties, key) ==> r == Trim(properties[key])
      ensures !Resolves(system, key) && !Resolves(properties, key) ==> r == defaultValue
      ensures Resolves(system, key) || Resolves(properties, key) ==> !IsBlank(r) && Trim(r) == r
    {
      if Resolves(system, key) then
        TrimIdempotent(system[key]);
        Trim(system[key])
      else if Resolves(properties, key) then
        TrimIdempotent(properties[key]);
        Trim(properties[key])
      else
        defaultValue
    }

    /** `getBrowser`: the resolved browser, lower-cased. */
    function Browser(): (r: string)
      reads this
      ensures IsLowerCase(r)
      ensures Resolves(system, "browser") ==> r == ToLowerCase(Trim(system["browser"]))
      ensures !Resolves(system, "browser") && Resolves(properties, "browser") ==>
                r == ToLowerCase(Trim(properties["browser"]))
      ensures !Resolves(system, "browser") && !Resolves(properties, "browser") ==> r == "chrome"
    {
      ToLowerCase(GetProperty("browser", "chrome"))
    }

    /** `getExecution`: the resolved execution mode, lower-cased. */
    function Execution(): (r: string)
      reads this
      ensures IsLowerCase(r)
      ensures Resolves(system, "execution") ==> r == ToLowerCase(Trim(system["execution"]))
      ensures !Resolves(system, "execution") && Resolves(properties, "execution") ==>
                r == ToLowerCase(Trim(properties["execution"]))
      ensures !Resolves(system, "execution") && !Resolves(properties, "execution") ==> r == "local"
    {
      ToLowerCase(GetProperty("execution", "local"))
    }

    /** `isHeadless`: the resolved flag read by `Boolean.parseBoolean`; the
        default "false" reads as false. */
    predicate IsHeadless()
      reads this
      ensures IsHeadless() ==> Resolves(system, "headless") || Resolves(properties, "headless")
      ensures Resolves(system, "headless") ==> (IsHeadless() <==> ParseBoolean(Trim(system["headless"])))
      ensures !Resolves(system, "headless") && Resolves(properties, "headless") ==>
                (IsHeadless() <==> ParseBoolean(Trim(properties["headless"])))
    {
      assert |ToLowerCase("false")| == 5;
      ParseBoolean(GetProperty("headless", "false"))
    }

    /** `getGridUrl`. */
    function GridUrl(): (r: string)
      reads this
      ensures Resolves(system, "grid.url") ==> r == Trim(system["grid.url"])
      ensures !Resolves(system, "grid.url") && Resolves(properties, "grid.url") ==>
                r == Trim(properties["grid.url"])
      ensures !Resolves(system, "grid.url") && !Resolves(properties, "grid.url") ==>
                r == "http://localhost:4444/wd/hub"
      ensures Resolves(system, "grid.url") || Resolves(properties, "grid.url") ==> !IsBlank(r)
    {
      GetProperty("grid.url", "http://localhost:4444/wd/hub")
    }

    /** `getBaseUrl`. */
    function BaseUrl(): (r: string)
      reads this
      ensures Resolves(system, "base.url") ==> r == Trim(system["base.url"])
      ensures !Resolves(system, "base.url") && Resolves(properties, "base.url") ==>
                r == Trim(properties["base.url"])
      ensures !Resolves(system, "base.url") && !Resolves(properties, "base.url") ==> r == "https://example.com"
      ensures Resolves(system, "base.url") || Resolves(properties, "base.url") ==> !IsBlank(r)
    {
      GetProperty("base.url", "https://example.com")
    }

    /** `getApiBaseUrl`: defaults to the base URL followed by "/api". */
    function ApiBaseUrl(): (r: string)
      reads this
      ensures !Resolves(system, "api.base.url") && !Resolves(properties, "api.base.url") ==>
                r == BaseUrl() + "/api"
      ensures Resolves(system, "api.base.url") ==> r == Trim(system["api.base.url"])
      ensures !Resolves(system, "api.base.url") && Resolves(properties, "api.base.url") ==>
                r == Trim(properties["api.base.url"])
    {
      GetProperty("api.base.url", BaseUrl() + "/api")
    }

    /** `getImplicitTimeout`; `None` is the NumberFormatException. */
    function ImplicitTimeout(): (r: Option<int>)
      reads this
      ensures r.Some? ==> InInt32(r.value)
    {
      ParseInt(GetProperty("timeout.implicit", "10"))
    }

    /** `getExplicitTimeout`; `None` is the NumberFormatException. */
    function ExplicitTimeout(): (r: Option<int>)
      reads this
      ensures r.Some? ==> InInt32(r.value)
    {
      ParseInt(GetProperty("timeout.explicit", "15"))
    }

    /** `getPageLoadTimeout`; `None` is the NumberFormatException. */
    function PageLoadTimeout(): (r: Option<int>)
      reads this
      ensures r.Some? ==> InInt32(r.value)
    {
      ParseInt(GetProperty("timeout.pageload", "30"))
    }

    /** `getThreadCount`; `None` is the NumberFormatException. */
    function ThreadCount(): (r: Option<int>)
      reads this
      ensures r.Some? ==> InInt32(r.value)
    {
      ParseInt(GetProperty("thread.count", "1"))
    }
  }

  /** An unresolved integer key yields the getter's default. */
  lemma UnresolvedTimeouts(c: Config)
    ensures !Resolves(c.system, "timeout.implicit") && !Resolves(c.properties, "timeout.implicit") ==>
              c.ImplicitTimeout() == Some(10)
    ensures !Resolves(c.system, "timeout.explicit") && !Resolves(c.properties, "timeout.explicit") ==>
              c.ExplicitTimeout() == Some(15)
    ensures !Resolves(c.system, "timeout.pageload") && !Resolves(c.properties, "timeout.pageload") ==>
              c.PageLoadTimeout() == Some(30)
    ensures !Resolves(c.system, "thread.count") && !Resolves(c.properties, "thread.count") ==>
              c.ThreadCount() == Some(1)
  {
    DefaultLiterals();
  }

  /** The getters' numeric defaults parse to their values. */
  lemma DefaultLiterals()
    ensures ParseInt("10") == Some(10) && ParseInt("15") == Some(15)
    ensures ParseInt("30") == Some(30) && ParseInt("1") == Some(1)
  {
    ParseIntOfIntToString(10);
    ParseIntOfIntToString(15);
    ParseIntOfIntToString(30);
    ParseIntOfIntToString(1);
    assert IntToString(10) == "10" && IntToString(15) == "15";
    assert IntToString(30) == "30" && IntToString(1) == "1";
  }

  /** A resolved timeout that is not an `int` literal (a stray character, or a
      first character that is neither digit nor sign) makes the getter fail,
      whichever source it came from. */
  lemma NonNumericTimeoutFails(c: Config, i: nat)
    requires var v := c.GetProperty("timeout.implicit", "10");
      i < |v| && !IsDigit(v[i]) && (i == 0 ==> v[i] != '+' && v[i] != '-')
    ensures c.ImplicitTimeout() == None
  {
  }

  /** None of the keys the getters read has a usable system property; other
      system properties (`user.dir`, `os.name`, ...) may be anything. */
  predicate NoOverrides(system: map<string, string>) {
    && !Resolves(system, "browser") && !Resolves(system, "execution") && !Resolves(system, "headless")
    && !Resolves(system, "base.url") && !Resolves(system, "grid.url") && !Resolves(system, "api.base.url")
    && !Resolves(system, "timeout.implicit") && !Resolves(system, "timeout.explicit")
    && !Resolves(system, "timeout.pageload")
  }

  /** With the fallback table and no overriding system property, every getter
      yields its documented default; the page-load timeout, missing from the
      table, comes from the getter's own default "30". */
  lemma FallbackConfiguration(c: Config)
    requires c.properties == DefaultProperties()
    requires NoOverrides(c.system)
    ensures c.Browser() == "chrome" && c.Execution() == "local" && !c.IsHeadless()
    ensures c.BaseUrl() == "https://example.com" && c.GridUrl() == "http://localhost:4444/wd/hub"
    ensures c.ApiBaseUrl() == "https://example.com/api"
    ensures c.ImplicitTimeout() == Some(10) && c.ExplicitTimeout() == Some(15)
    ensures c.PageLoadTimeout() == Some(30)
  {
    FallbackStrings(c);
    FallbackTimeouts(c);
  }

  /** A usable file entry, not overridden by a system property, is what
      `getProperty` returns, trimmed, whatever the default. */
  lemma FileEntryWins(c: Config, key: string, defaultValue: string)
    requires !Resolves(c.system, key) && Resolves(c.properties, key)
    ensures c.GetProperty(key, defaultValue) == Trim(c.properties[key])
  {
  }

  /** A value with no trim-space at either end is not blank and trims to itself. */
  lemma TrimOfTrimmed(value: string)
    requires value != [] && !IsTrimSpace(value[0]) && !IsTrimSpace(value[|value| - 1])
    ensures Trim(value) == value && !IsBlank(value)
  {
    assert TrimStart(value) == value;
    assert TrimEnd(value) == value;
  }

  lemma FallbackStrings(c: Config)
    requires c.properties == DefaultProperties()
    requires NoOverrides(c.system)
    ensures c.Browser() == "chrome" && c.Execution() == "local" && !c.IsHeadless()
    ensures c.BaseUrl() == "https://example.com" && c.GridUrl() == "http://localhost:4444/wd/hub"
    ensures c.ApiBaseUrl() == "https://example.com/api"
  {
    FallbackBrowser(c);
    FallbackUrls(c);
  }

  lemma FallbackBrowser(c: Config)
    requires c.properties == DefaultProperties()
    requires NoOverrides(c.system)
    ensures c.Browser() == "chrome" && c.Execution() == "local" && !c.IsHeadless()
  {
    FallbackEntry(c, "browser", "chrome");
    assert ToLowerCase("chrome") == "chrome";
    FallbackEntry(c, "execution", "local");
    assert ToLowerCase("local") == "local";
    FallbackEntry(c, "headless", "false");
    assert |ToLowerCase("false")| == 5;
  }

  /** An entry of the fallback table, with no usable system property for its
      key, is what `getProperty` returns for that key. */
  lemma FallbackEntry(c: Config, key: string, value: string)
    requires c.properties == DefaultProperties()
    requires !Resolves(c.system, key)
    requires key in DefaultProperties() && DefaultProperties()[key] == value
    requires value != [] && !IsTrimSpace(value[0]) && !IsTrimSpace(value[|value| - 1])
    ensures forall d :: c.GetProperty(key, d) == value
  {
    TrimOfTrimmed(value);
    forall d {
      FileEntryWins(c, key, d);
    }
  }

  lemma FallbackUrls(c: Config)
    requires c.properties == DefaultProperties()
    requires NoOverrides(c.system)
    ensures c.BaseUrl() == "https://example.com" && c.GridUrl() == "http://localhost:4444/wd/hub"
    ensures c.ApiBaseUrl() == "https://example.com/api"
  {
    FallbackBaseUrl(c);
    FallbackGridUrl(c);
    FallbackApiUrl(c);
  }

  /** The URL getters over the fallback table, one at a time. */
  lemma FallbackBaseUrl(c: Config)
    requires c.properties == DefaultProperties()
    requires NoOverrides(c.system)
    ensures c.BaseUrl() == "https://example.com"
  {
    assert DefaultProperties()["base.url"] == "https://example.com";
    FallbackEntry(c, "base.url", "https://example.com");
  }

  lemma FallbackGridUrl(c: Config)
    requires c.properties == DefaultProperties()
    requires NoOverrides(c.system)
    ensures c.GridUrl() == "http://localhost:4444/wd/hub"
  {
    assert DefaultProperties()["grid.url"] == "http://localhost:4444/wd/hub";
    FallbackEntry(c, "grid.url", "http://localhost:4444/wd/hub");
  }

  lemma FallbackApiUrl(c: Config)
    requires c.properties == DefaultProperties()
    requires NoOverrides(c.system)
    ensures c.ApiBaseUrl() == "https://example.com/api"
  {
    NoApiEntry();
    FallbackBaseUrl(c);
    DerivedApiUrl(c, "https://example.com");
    ApiLiteral();
  }

  /** The fallback table has no `api.base.url` entry. */
  lemma NoApiEntry()
    ensures "api.base.url" !in DefaultProperties()
  {
  }

  /** The default API address spelled out. */
  lemma ApiLiteral()
    ensures "https://example.com" + "/api" == "https://example.com/api"
  {
  }

  /** With no usable `api.base.url`, the API address is the base URL + "/api". */
  lemma DerivedApiUrl(c: Config, base: string)
    requires !Resolves(c.system, "api.base.url") && !Resolves(c.properties, "api.base.url")
    requires c.BaseUrl() == base
    ensures c.ApiBaseUrl() == base + "/api"
  {
  }

  lemma FallbackTimeouts(c: Config)
    requires c.properties == DefaultProperties()
    requires NoOverrides(c.system)
    ensures c.ImplicitTimeout() == Some(10) && c.ExplicitTimeout() == Some(15)
    ensures c.PageLoadTimeout() == Some(30)
  {
    var d := DefaultProperties();
    assert d["timeout.implicit"] == "10" && d["timeout.explicit"] == "15";
    DefaultPropertiesKeys();
    FallbackEntry(c, "timeout.implicit", "10");
    FallbackEntry(c, "timeout.explicit", "15");
    UnresolvedTimeouts(c);
    DefaultLiterals();
  }
}
