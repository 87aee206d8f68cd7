/** The web driver factory: which driver a browser name calls for, the checks made before
    one is built, the system properties it registers, and the Firefox preferences it
    writes. Drivers are not built; a result records what would be handed to the driver's
    constructor. */
module WebDriverFactory {
  import opened Common
  import Browser

  // ---------------------------------------------------------------------------
  // Vocabulary

  /** A key of the caller's preference map. Only two constants are told apart by the
      factory; the firefox key of each constant (getFireFoxKey) is a parameter. */
  datatype BrowserPreference =
    | Language
    | DownloadFolderList
    | OtherPreference(name: string)

  /** java.util.Locale, as the (language, country) pair its getters return. */
  datatype Locale = Locale(language: string, country: string)

  /** A value of the caller's preference map, an Object in the source. */
  datatype PreferenceArgument =
    | LocaleArgument(locale: Locale)
    | TextArgument(text: string)
    | NullArgument
    | OtherArgument  // an object of any other class

  /** A value handed to FirefoxProfile.setPreference; a string may be null. */
  datatype PreferenceValue =
    | BoolPreference(b: bool)
    | IntPreference(i: Int32)
    | StringPreference(s: Option<string>)

  /** What a FirefoxProfile holds once its preferences are written. */
  datatype ProfileSpec = ProfileSpec(preferences: map<string, PreferenceValue>, nativeEvents: bool)

  datatype CapabilityValue =
    | BoolCapability(b: bool)
    | StringCapability(s: string)
    | ProfileCapability(profile: ProfileSpec)
    | ChromeOptionsCapability(arguments: seq<string>)

  type Capabilities = map<string, CapabilityValue>

  /** The driver a call would construct, with what it is constructed from. */
  datatype Driver =
    | FirefoxDriver(capabilities: Capabilities)
    | ChromeDriver(arguments: seq<string>)
    | HtmlUnitDriver(javascriptEnabled: bool)
    | InternetExplorerDriver(capabilities: Capabilities)
    | SafariDriver
    | RemoteWebDriver(url: string, capabilities: Capabilities, localFileDetector: bool)

  datatype FactoryError =
    | GridUrlRequired               // UnsupportedOperationException "Grid url is required"
    | InvalidGridUrl(url: string)   // UnsupportedOperationException "A valid grid url is required ..."
    | ChromePathRequired            // RuntimeException "... require a valid chromeServerPath"
    | SafariPathRequired            // RuntimeException "... require a valid safariPath"
    | IePathRequired                // RuntimeException "... require a valid ieServerPath"
    | NullSystemProperty(key: string)  // NullPointerException of Properties.put with a null value
    | LocaleRequired                // IllegalArgumentException "Locale value is required"
    | ClassCast                     // ClassCastException of a preference value
    | InvalidNumber                 // NumberFormatException of Integer.valueOf

  const ChromeServerDriverPath := "webdriver.chrome.driver"
  const SafariServerDriverPath := "webdriver.safari.driver"
  const IeServerDriverPath := "webdriver.ie.driver"

  // capability names and values of the Selenium client
  const BrowserNameCapability := "browserName"
  const JavascriptEnabledCapability := "javascriptEnabled"
  const ProfileCapabilityName := "firefox_profile"
  const ChromeOptionsCapabilityName := "chromeOptions"
  const IgnoreSecurityDomainsCapability := "ignoreProtectedModeSettings"
  const TakesScreenshotCapability := "takesScreenshot"
  const FirefoxBrowserName := "firefox"
  const ChromeBrowserName := "chrome"
  const IeBrowserName := "internet explorer"
  const KioskArgument := "--kiosk"

  // Firefox preference keys, spelled as the factory writes them
  const RetryIntervalsKey := "dom.mms.retrievalRetryIntervals;"
  const MaxTotalViewersKey := "browser.sessionhistory.max_total_viewers;"
  const AutoUpdateKey := "app.update.auto"
  const UpdateEnabledKey := "app.update.enabled"
  const FolderListKey := "browser.download.folderList"
  const DownloadDirKey := "browser.download.dir"
  const NeverAskSaveToDiskKey := "browser.helperApps.neverAsk.saveToDisk"

  predicate IsNullOrEmpty(s: Option<string>)
  {
    s.None? || s.value == ""
  }

  predicate IsRemote(browser: Browser.Browser)
  {
    browser == Browser.RemoteFireFox || browser == Browser.RemoteChrome || browser == Browser.RemoteIE
  }

  // ---------------------------------------------------------------------------
  // formatLocale and the conversion of caller preference values

  /** formatLocale(locale): the language, followed by "-" and the lower-cased country when
      there is one. */
  function FormatLocale(locale: Option<Locale>): (r: Result<string, FactoryError>)
    ensures r.Err? <==> locale.None?
    ensures r.Err? ==> r.error == LocaleRequired
    ensures r.Ok? && locale.value.country == "" ==> r.value == locale.value.language
    ensures r.Ok? && locale.value.country != "" ==>
              |r.value| == |locale.value.language| + 1 + |ToLower(locale.value.country)| &&
              r.value[..|locale.value.language|] == locale.value.language &&
              r.value[|locale.value.language|] == '-' &&
              r.value[|locale.value.language| + 1..] == ToLower(locale.value.country)
  {
    if locale.None? then Err(LocaleRequired)
    else if locale.value.country == "" then Ok(locale.value.language)
    else Ok(locale.value.language + "-" + ToLower(locale.value.country))
  }

  /** The case of an ASCII country does not matter. */
  lemma FormatLocaleIgnoresCountryCase(language: string, country: string)
    requires forall i :: 0 <= i < |country| ==> IsAsciiUpper(country[i]) || IsAsciiLower(country[i])
    ensures FormatLocale(Some(Locale(language, ToUpper(country)))) == FormatLocale(Some(Locale(language, country)))
  {
    LowerOfUpper(country);
  }

  /** The country part of a formatted locale holds no ASCII capital. */
  lemma FormatLocaleCountryIsLowerCase(locale: Locale)
    requires locale.country != ""
    ensures var text := FormatLocale(Some(locale)).value;
            forall i :: |locale.language| < i < |text| ==> !IsAsciiUpper(text[i])
  {
    var text := FormatLocale(Some(locale)).value;
    forall i | |locale.language| < i < |text|
      ensures !IsAsciiUpper(text[i])
    {
      assert text[i] == ToLower(locale.country)[i - |locale.language| - 1];
    }
  }

  /** The value one caller preference is written with: a Language value goes through
      formatLocale, a DownloadFolderList value is parsed as an int, any other value is
      kept as the raw (possibly null) string; each cast can fail. */
  function CallerValue(preference: BrowserPreference, value: PreferenceArgument): (r: Result<PreferenceValue, FactoryError>)
    ensures r.Ok? && preference.Language? ==>
              value.LocaleArgument? && r.value == StringPreference(Some(FormatLocale(Some(value.locale)).value))
    ensures r.Ok? && preference.DownloadFolderList? ==>
              value.TextArgument? && r.value.IntPreference? && ParseInt(value.text) == Some(r.value.i)
    ensures r.Ok? && preference.OtherPreference? ==>
              r.value.StringPreference? &&
              value == (if r.value.s.Some? then TextArgument(r.value.s.value) else NullArgument)
    ensures r.Err? <==>
              value.OtherArgument? ||
              (value.LocaleArgument? && !preference.Language?) ||
              (preference.Language? && !value.LocaleArgument?) ||
              (preference.DownloadFolderList? && (value.NullArgument? || (value.TextArgument? && ParseInt(value.text).None?)))
    ensures r.Err? ==>
              r.error == (if preference.Language? && value.NullArgument? then LocaleRequired
                          else if preference.DownloadFolderList? && (value.NullArgument? || value.TextArgument?) then InvalidNumber
                          else ClassCast)
  {
    match preference
    case Language =>
      (match value
       case LocaleArgument(locale) => Ok(StringPreference(Some(FormatLocale(Some(locale)).value)))
       case NullArgument => Err(FormatLocale(None).error)
       case _ => Err(ClassCast))
    case DownloadFolderList =>
      (match value
       case TextArgument(text) =>
         (match ParseInt(text)
          case Some(n) => Ok(IntPreference(n))
          case None => Err(InvalidNumber))
       case NullArgument => Err(InvalidNumber)
       case _ => Err(ClassCast))
    case OtherPreference(_) =>
      (match value
       case TextArgument(text) => Ok(StringPreference(Some(text)))
       case NullArgument => Ok(StringPreference(None))
       case _ => Err(ClassCast))
  }

  // ---------------------------------------------------------------------------
  // The layers of Firefox preferences

  /** The two preferences createProfile() writes into a fresh profile. */
  function CreateProfilePreferences(): map<string, PreferenceValue>
  {
    map[RetryIntervalsKey := StringPreference(Some("60000,120000")),
        MaxTotalViewersKey := StringPreference(Some("0"))]
  }

  /** Auto-update switched off. */
  function UpdatesDisabled(preferences: map<string, PreferenceValue>): map<string, PreferenceValue>
  {
    preferences[AutoUpdateKey := BoolPreference(false)][UpdateEnabledKey := BoolPreference(false)]
  }

  /** The download-to-directory preferences of FireFoxDownloadToDir. */
  function DownloadPreferences(preferences: map<string, PreferenceValue>, downloadDirectory: Option<string>,
                               mimeTypes: Option<string>): map<string, PreferenceValue>
  {
    preferences[FolderListKey := IntPreference(2)][DownloadDirKey := StringPreference(downloadDirectory)]
               [NeverAskSaveToDiskKey := StringPreference(mimeTypes)]
  }

  /** The firefox keys the caller preferences visited in `order` write. */
  function Written(order: seq<BrowserPreference>, fireFoxKey: BrowserPreference -> string): set<string>
  {
    set p | p in order :: fireFoxKey(p)
  }

  /** The caller preference loop over `order`, writing on top of `base`; the first value
      that cannot be converted ends it. */
  function CallerLayer(order: seq<BrowserPreference>, preferences: map<BrowserPreference, PreferenceArgument>,
                       fireFoxKey: BrowserPreference -> string, base: map<string, PreferenceValue>)
    : Result<map<string, PreferenceValue>, FactoryError>
    requires forall p :: p in order ==> p in preferences
    decreases |order|
  {
    if order == [] then Ok(base)
    else match CallerLayer(order[..|order| - 1], preferences, fireFoxKey, base)
      case Err(e) => Err(e)
      case Ok(m) =>
        var p := order[|order| - 1];
        match CallerValue(p, preferences[p])
        case Err(e) => Err(e)
        case Ok(v) => Ok(m[fireFoxKey(p) := v])
  }

  /** The loop succeeds exactly when every visited value converts; otherwise it fails with
      the error of the first one, in visiting order, that does not. */
  lemma {:induction false} CallerLayerFailsIffBadValue(order: seq<BrowserPreference>, preferences: map<BrowserPreference, PreferenceArgument>,
                                                       fireFoxKey: BrowserPreference -> string, base: map<string, PreferenceValue>)
    requires forall p :: p in order ==> p in preferences
    ensures CallerLayer(order, preferences, fireFoxKey, base).Ok? <==>
              forall p :: p in order ==> CallerValue(p, preferences[p]).Ok?
    ensures CallerLayer(order, preferences, fireFoxKey, base).Err? ==>
              exists i :: 0 <= i < |order| && CallerValue(order[i], preferences[order[i]]).Err? &&
                (forall j :: 0 <= j < i ==> CallerValue(order[j], preferences[order[j]]).Ok?) &&
                CallerLayer(order, preferences, fireFoxKey, base).error == CallerValue(order[i], preferences[order[i]]).error
    decreases |order|
  {
    if order != [] {
      var front := order[..|order| - 1];
      assert forall p :: p in front ==> p in order;
      CallerLayerFailsIffBadValue(front, preferences, fireFoxKey, base);
      assert forall j :: 0 <= j < |front| ==> front[j] == order[j];
      assert order == front + [order[|order| - 1]];
    }
  }

  /** No preference visited after position `i` writes the firefox key that the one at `i`
      writes. */
  predicate LastToWrite(order: seq<BrowserPreference>, i: nat, fireFoxKey: BrowserPreference -> string)
    requires i < |order|
  {
    forall j :: i < j < |order| ==> fireFoxKey(order[j]) != fireFoxKey(order[i])
  }

  /** The caller layer writes exactly the keys of the visited preferences and every other
      key keeps its earlier value. */
  lemma {:induction false} CallerLayerKeys(order: seq<BrowserPreference>, preferences: map<BrowserPreference, PreferenceArgument>,
                                           fireFoxKey: BrowserPreference -> string, base: map<string, PreferenceValue>)
    requires forall p :: p in order ==> p in preferences
    requires CallerLayer(order, preferences, fireFoxKey, base).Ok?
    ensures CallerLayer(order, preferences, fireFoxKey, base).value.Keys == base.Keys + Written(order, fireFoxKey)
    ensures forall k :: k in base && k !in Written(order, fireFoxKey) ==>
              CallerLayer(order, preferences, fireFoxKey, base).value[k] == base[k]
    decreases |order|
  {
    if order != [] {
      var front := order[..|order| - 1];
      var last := order[|order| - 1];
      assert forall p :: p in front ==> p in order;
      CallerLayerKeys(front, preferences, fireFoxKey, base);
      assert order == front + [last];
      assert Written(order, fireFoxKey) == Written(front, fireFoxKey) + {fireFoxKey(last)};
    }
  }

  /** Each written key holds the value of the last preference, in visiting order, that
      maps onto it. */
  lemma {:induction false} CallerLayerLastWriterWins(order: seq<BrowserPreference>, preferences: map<BrowserPreference, PreferenceArgument>,
                                                     fireFoxKey: BrowserPreference -> string, base: map<string, PreferenceValue>,
                                                     i: nat)
    requires forall p :: p in order ==> p in preferences
    requires CallerLayer(order, preferences, fireFoxKey, base).Ok?
    requires i < |order| && LastToWrite(order, i, fireFoxKey)
    ensures CallerValue(order[i], preferences[order[i]]).Ok?
    ensures fireFoxKey(order[i]) in CallerLayer(order, preferences, fireFoxKey, base).value
    ensures CallerLayer(order, preferences, fireFoxKey, base).value[fireFoxKey(order[i])] ==
              CallerValue(order[i], preferences[order[i]]).value
    decreases |order|
  {
    var front := order[..|order| - 1];
    var last := order[|order| - 1];
    assert forall p :: p in front ==> p in order;
    if i < |order| - 1 {
      assert fireFoxKey(last) != fireFoxKey(order[i]);
      assert front[i] == order[i];
      assert LastToWrite(front, i, fireFoxKey) by {
        forall j | i < j < |front|
          ensures fireFoxKey(front[j]) != fireFoxKey(front[i])
        {
          assert front[j] == order[j];
        }
      }
      CallerLayerLastWriterWins(front, preferences, fireFoxKey, base, i);
    }
  }

  /** `fireFoxKey` maps no two preferences of `keys` onto the same firefox key. */
  predicate InjectiveOn(fireFoxKey: BrowserPreference -> string, keys: set<BrowserPreference>)
  {
    forall p, q :: p in keys && q in keys && fireFoxKey(p) == fireFoxKey(q) ==> p == q
  }

  /** With distinct firefox keys the unspecified order of the key set shows only in which
      error a failing map reports: whether the loop succeeds, and what it writes, does not
      depend on the order. */
  lemma CallerLayerOrderIndependent(order: seq<BrowserPreference>, other: seq<BrowserPreference>,
                                    preferences: map<BrowserPreference, PreferenceArgument>,
                                    fireFoxKey: BrowserPreference -> string, base: map<string, PreferenceValue>)
    requires Enumerates(order, preferences.Keys) && Enumerates(other, preferences.Keys)
    requires InjectiveOn(fireFoxKey, preferences.Keys)
    ensures CallerLayer(order, preferences, fireFoxKey, base).Ok? == CallerLayer(other, preferences, fireFoxKey, base).Ok?
    ensures CallerLayer(order, preferences, fireFoxKey, base).Ok? ==>
              CallerLayer(order, preferences, fireFoxKey, base) == CallerLayer(other, preferences, fireFoxKey, base)
  {
    CallerLayerFailsIffBadValue(order, preferences, fireFoxKey, base);
    CallerLayerFailsIffBadValue(other, preferences, fireFoxKey, base);
    if CallerLayer(order, preferences, fireFoxKey, base).Ok? {
      SameLayer(order, other, preferences, fireFoxKey, base);
    }
  }

  lemma SameLayer(order: seq<BrowserPreference>, other: seq<BrowserPreference>,
                  preferences: map<BrowserPreference, PreferenceArgument>,
                  fireFoxKey: BrowserPreference -> string, base: map<string, PreferenceValue>)
    requires Enumerates(order, preferences.Keys) && Enumerates(other, preferences.Keys)
    requires InjectiveOn(fireFoxKey, preferences.Keys)
    requires CallerLayer(order, preferences, fireFoxKey, base).Ok? && CallerLayer(other, preferences, fireFoxKey, base).Ok?
    ensures CallerLayer(order, preferences, fireFoxKey, base) == CallerLayer(other, preferences, fireFoxKey, base)
  {
    CallerLayerKeys(order, preferences, fireFoxKey, base);
    CallerLayerKeys(other, preferences, fireFoxKey, base);
    CallerWins(order, preferences, fireFoxKey, base);
    CallerWins(other, preferences, fireFoxKey, base);
    var written := Written(order, fireFoxKey);
    assert written == Written(other, fireFoxKey);
    SameEntries(CallerLayer(order, preferences, fireFoxKey, base).value,
                CallerLayer(other, preferences, fireFoxKey, base).value,
                base, preferences.Keys, fireFoxKey, written);
  }

  /** Two maps that extend `base` on the keys `keys` write, and agree there, are equal. */
  lemma SameEntries(m: map<string, PreferenceValue>, n: map<string, PreferenceValue>, base: map<string, PreferenceValue>,
                    keys: set<BrowserPreference>, fireFoxKey: BrowserPreference -> string, written: set<string>)
    requires forall k :: k in written <==> exists p :: p in keys && fireFoxKey(p) == k
    requires m.Keys == base.Keys + written && n.Keys == base.Keys + written
    requires forall k :: k in base && k !in written ==> m[k] == base[k] && n[k] == base[k]
    requires forall p :: p in keys ==> fireFoxKey(p) in m && fireFoxKey(p) in n && m[fireFoxKey(p)] == n[fireFoxKey(p)]
    ensures m == n
  {
    forall k | k in m
      ensures m[k] == n[k]
    {
      if k in written {
        var p :| p in keys && fireFoxKey(p) == k;
      }
    }
  }

  /** Each caller preference of a map with distinct firefox keys wins over the earlier
      layers. */
  lemma CallerWins(order: seq<BrowserPreference>, preferences: map<BrowserPreference, PreferenceArgument>,
                   fireFoxKey: BrowserPreference -> string, base: map<string, PreferenceValue>)
    requires Enumerates(order, preferences.Keys)
    requires InjectiveOn(fireFoxKey, preferences.Keys)
    requires CallerLayer(order, preferences, fireFoxKey, base).Ok?
    ensures forall p :: p in preferences ==> CallerValue(p, preferences[p]).Ok?
    ensures forall p :: p in preferences ==>
              fireFoxKey(p) in CallerLayer(order, preferences, fireFoxKey, base).value &&
              CallerLayer(order, preferences, fireFoxKey, base).value[fireFoxKey(p)] == CallerValue(p, preferences[p]).value
  {
    CallerLayerFailsIffBadValue(order, preferences, fireFoxKey, base);
    forall p | p in preferences
      ensures fireFoxKey(p) in CallerLayer(order, preferences, fireFoxKey, base).value
      ensures CallerLayer(order, preferences, fireFoxKey, base).value[fireFoxKey(p)] == CallerValue(p, preferences[p]).value
    {
      var i :| 0 <= i < |order| && order[i] == p;
      assert LastToWrite(order, i, fireFoxKey) by {
        forall j | i < j < |order|
          ensures fireFoxKey(order[j]) != fireFoxKey(order[i])
        {
          assert order[j] != order[i];
        }
      }
      CallerLayerLastWriterWins(order, preferences, fireFoxKey, base, i);
    }
  }

  /** Once the loop has failed, visiting more preferences does not change the outcome. */
  lemma {:induction false} CallerLayerKeepsError(order: seq<BrowserPreference>, rest: seq<BrowserPreference>,
                                                 preferences: map<BrowserPreference, PreferenceArgument>,
                                                 fireFoxKey: BrowserPreference -> string, base: map<string, PreferenceValue>)
    requires forall p :: p in order + rest ==> p in preferences
    requires CallerLayer(order, preferences, fireFoxKey, base).Err?
    ensures CallerLayer(order + rest, preferences, fireFoxKey, base) == CallerLayer(order, preferences, fireFoxKey, base)
    decreases |rest|
  {
    if rest != [] {
      var whole := order + rest;
      var front := order + rest[..|rest| - 1];
      assert whole[..|whole| - 1] == front;
      CallerLayerKeepsError(order, rest[..|rest| - 1], preferences, fireFoxKey, base);
    } else {
      assert order + rest == order;
    }
  }

  // ---------------------------------------------------------------------------
  // The factory's configuration and what getObject does with it

  /** The factory's fields, as a value. */
  datatype Settings = Settings(
    gridUrl: Option<string>,
    chromeServerPath: Option<string>,
    safariServerPath: Option<string>,
    ieServerPath: Option<string>,
    downloadDirectory: Option<string>,
    mimeTypes: Option<string>,
    preferences: Option<map<BrowserPreference, PreferenceArgument>>)

  /** `preferences != null && preferences.size() > 0`. */
  predicate AppliesCallerPreferences(s: Settings)
  {
    s.preferences.Some? && |s.preferences.value| > 0
  }

  /** The layers under the caller's preferences. */
  function FixedPreferences(customProfile: bool, downloadDirectory: Option<string>, mimeTypes: Option<string>)
    : (m: map<string, PreferenceValue>)
    ensures m.Keys == {RetryIntervalsKey, MaxTotalViewersKey, AutoUpdateKey, UpdateEnabledKey} +
                      (if customProfile then {FolderListKey, DownloadDirKey, NeverAskSaveToDiskKey} else {})
  {
    var fixed := UpdatesDisabled(CreateProfilePreferences());
    if customProfile then DownloadPreferences(fixed, downloadDirectory, mimeTypes) else fixed
  }

  /** The preferences of the profile getFireFox(customProfile) hands to the driver. */
  function FireFoxPreferences(s: Settings, customProfile: bool, fireFoxKey: BrowserPreference -> string,
                              order: seq<BrowserPreference>): Result<map<string, PreferenceValue>, FactoryError>
    requires AppliesCallerPreferences(s) ==> Enumerates(order, s.preferences.value.Keys)
  {
    var layered := FixedPreferences(customProfile, s.downloadDirectory, s.mimeTypes);
    if AppliesCallerPreferences(s) then CallerLayer(order, s.preferences.value, fireFoxKey, layered)
    else Ok(layered)
  }

  function FirefoxCapabilities(preferences: map<string, PreferenceValue>): Capabilities
  {
    map[BrowserNameCapability := StringCapability(FirefoxBrowserName),
        ProfileCapabilityName := ProfileCapability(ProfileSpec(preferences, true))]
  }

  function RemoteFireFoxCapabilities(): Capabilities
  {
    map[BrowserNameCapability := StringCapability(FirefoxBrowserName),
        JavascriptEnabledCapability := BoolCapability(true),
        ProfileCapabilityName := ProfileCapability(ProfileSpec(UpdatesDisabled(CreateProfilePreferences()), true))]
  }

  function RemoteChromeCapabilities(): Capabilities
  {
    map[BrowserNameCapability := StringCapability(ChromeBrowserName),
        ChromeOptionsCapabilityName := ChromeOptionsCapability([KioskArgument])]
  }

  function IeCapabilities(): Capabilities
  {
    map[BrowserNameCapability := StringCapability(IeBrowserName),
        IgnoreSecurityDomainsCapability := BoolCapability(true)]
  }

  /** getRemoteDriver(capability): the grid URL must be present, non-empty and
      well-formed (`wellFormed` decides what java.net.URL accepts); the driver always
      takes screenshots and uses a local file detector. */
  function RemoteDriver(gridUrl: Option<string>, capabilities: Capabilities, wellFormed: string -> bool)
    : (r: Result<Driver, FactoryError>)
    ensures r == Err(GridUrlRequired) <==> IsNullOrEmpty(gridUrl)
    ensures !IsNullOrEmpty(gridUrl) && !wellFormed(gridUrl.value) ==> r == Err(InvalidGridUrl(gridUrl.value))
    ensures r.Ok? <==> !IsNullOrEmpty(gridUrl) && wellFormed(gridUrl.value)
    ensures r.Ok? ==>
              r.value.RemoteWebDriver? && gridUrl == Some(r.value.url) && r.value.localFileDetector &&
              r.value.capabilities.Keys == capabilities.Keys + {TakesScreenshotCapability} &&
              r.value.capabilities[TakesScreenshotCapability] == BoolCapability(true) &&
              forall k :: k in capabilities && k != TakesScreenshotCapability ==> r.value.capabilities[k] == capabilities[k]
  {
    if IsNullOrEmpty(gridUrl) then Err(GridUrlRequired)
    else if !wellFormed(gridUrl.value) then Err(InvalidGridUrl(gridUrl.value))
    else Ok(RemoteWebDriver(gridUrl.value, capabilities[TakesScreenshotCapability := BoolCapability(true)], true))
  }

  /** `System.getProperties()` after `if (!props.containsKey(key)) props.put(key, value)`;
      a null value is a NullPointerException. */
  function Registered(properties: map<string, string>, key: string, value: Option<string>): (r: Result<map<string, string>, FactoryError>)
    ensures r.Err? <==> key !in properties && value.None?
    ensures r.Err? ==> r.error == NullSystemProperty(key)
    ensures r.Ok? ==> r.value.Keys == properties.Keys + {key}
    ensures r.Ok? ==> forall k :: k in properties ==> r.value[k] == properties[k]
    ensures r.Ok? && key !in properties ==> r.value[key] == value.value
  {
    if key in properties then Ok(properties)
    else if value.None? then Err(NullSystemProperty(key))
    else Ok(properties[key := value.value])
  }

  /** getObject(browser) as a function of the configuration, the system properties, the
      preference key table, URL well-formedness and the preference visiting order. */
  function Build(s: Settings, browser: Browser.Browser, properties: map<string, string>,
                 fireFoxKey: BrowserPreference -> string, wellFormed: string -> bool, order: seq<BrowserPreference>)
    : Result<Driver, FactoryError>
    requires AppliesCallerPreferences(s) ==> Enumerates(order, s.preferences.value.Keys)
  {
    match browser
    case FireFox => FireFoxDriver(s, false, fireFoxKey, order)
    case FireFoxDownloadToDir => FireFoxDriver(s, true, fireFoxKey, order)
    case Chrome =>
      if IsNullOrEmpty(s.chromeServerPath) then Err(ChromePathRequired) else Ok(ChromeDriver([KioskArgument]))
    case HtmlUnit => Ok(HtmlUnitDriver(true))
    case IE =>
      // the check is made on the chrome path
      if IsNullOrEmpty(s.chromeServerPath) then Err(IePathRequired)
      else (match Registered(properties, IeServerDriverPath, s.ieServerPath)
            case Err(e) => Err(e)
            case Ok(_) => Ok(InternetExplorerDriver(IeCapabilities())))
    case Safari =>
      if IsNullOrEmpty(s.safariServerPath) then Err(SafariPathRequired) else Ok(SafariDriver)
    case RemoteFireFox => RemoteDriver(s.gridUrl, RemoteFireFoxCapabilities(), wellFormed)
    case RemoteChrome => RemoteDriver(s.gridUrl, RemoteChromeCapabilities(), wellFormed)
    case RemoteIE => RemoteDriver(s.gridUrl, IeCapabilities(), wellFormed)
  }

  function FireFoxDriver(s: Settings, customProfile: bool, fireFoxKey: BrowserPreference -> string,
                         order: seq<BrowserPreference>): Result<Driver, FactoryError>
    requires AppliesCallerPreferences(s) ==> Enumerates(order, s.preferences.value.Keys)
  {
    match FireFoxPreferences(s, customProfile, fireFoxKey, order)
    case Err(e) => Err(e)
    case Ok(preferences) => Ok(FirefoxDriver(FirefoxCapabilities(preferences)))
  }

  /** The system properties after getObject(browser). */
  function SystemAfter(s: Settings, browser: Browser.Browser, properties: map<string, string>): map<string, string>
  {
    match browser
    case Chrome =>
      if IsNullOrEmpty(s.chromeServerPath) then properties
      else Registered(properties, ChromeServerDriverPath, s.chromeServerPath).value
    case Safari =>
      if IsNullOrEmpty(s.safariServerPath) then properties
      else Registered(properties, SafariServerDriverPath, s.safariServerPath).value
    case IE =>
      if IsNullOrEmpty(s.chromeServerPath) then properties
      else (match Registered(properties, IeServerDriverPath, s.ieServerPath)
            case Err(_) => properties
            case Ok(m) => m)
    case _ => properties
  }

  // ---------------------------------------------------------------------------
  // Properties of getObject

  /** getObject(browser) can only add the driver path of Chrome, Safari or IE to the
      system properties, with the configured path as its value, and never overwrites a
      property. */
  lemma SystemPropertiesAreNeverOverwritten(s: Settings, browser: Browser.Browser, properties: map<string, string>)
    ensures properties.Keys <= SystemAfter(s, browser, properties).Keys
    ensures forall k :: k in properties ==> SystemAfter(s, browser, properties)[k] == properties[k]
    ensures forall k :: k in SystemAfter(s, browser, properties) && k !in properties ==>
              (browser == Browser.Chrome && k == ChromeServerDriverPath && s.chromeServerPath == Some(SystemAfter(s, browser, properties)[k])) ||
              (browser == Browser.Safari && k == SafariServerDriverPath && s.safariServerPath == Some(SystemAfter(s, browser, properties)[k])) ||
              (browser == Browser.IE && k == IeServerDriverPath && s.ieServerPath == Some(SystemAfter(s, browser, properties)[k]))
  {
  }

  /** Every remote variant needs a grid URL, and fails before anything else when it is
      null or empty. */
  lemma RemoteRequiresGridUrl(s: Settings, browser: Browser.Browser, properties: map<string, string>,
                              fireFoxKey: BrowserPreference -> string, wellFormed: string -> bool, order: seq<BrowserPreference>)
    requires AppliesCallerPreferences(s) ==> Enumerates(order, s.preferences.value.Keys)
    requires IsRemote(browser)
    ensures IsNullOrEmpty(s.gridUrl) ==> Build(s, browser, properties, fireFoxKey, wellFormed, order) == Err(GridUrlRequired)
    ensures !IsNullOrEmpty(s.gridUrl) && !wellFormed(s.gridUrl.value) ==>
              Build(s, browser, properties, fireFoxKey, wellFormed, order) == Err(InvalidGridUrl(s.gridUrl.value))
    ensures SystemAfter(s, browser, properties) == properties
  {
  }

  /** Every remote driver built goes to the configured grid, takes screenshots and has a
      local file detector; a local driver is never remote. */
  lemma ExactlyRemoteVariantsAreRemote(s: Settings, browser: Browser.Browser, properties: map<string, string>,
                                       fireFoxKey: BrowserPreference -> string, wellFormed: string -> bool, order: seq<BrowserPreference>)
    requires AppliesCallerPreferences(s) ==> Enumerates(order, s.preferences.value.Keys)
    requires Build(s, browser, properties, fireFoxKey, wellFormed, order).Ok?
    ensures var d := Build(s, browser, properties, fireFoxKey, wellFormed, order).value;
            d.RemoteWebDriver? <==> IsRemote(browser)
    ensures var d := Build(s, browser, properties, fireFoxKey, wellFormed, order).value;
            d.RemoteWebDriver? ==>
              s.gridUrl == Some(d.url) && wellFormed(d.url) && d.localFileDetector &&
              d.capabilities[TakesScreenshotCapability] == BoolCapability(true)
  {
    if browser == Browser.FireFox || browser == Browser.FireFoxDownloadToDir {
      assert !IsRemote(browser);
    }
  }

  /** Chrome and Safari need their own driver path. */
  lemma LocalDriversNeedPath(s: Settings, properties: map<string, string>,
                             fireFoxKey: BrowserPreference -> string, wellFormed: string -> bool, order: seq<BrowserPreference>)
    requires AppliesCallerPreferences(s) ==> Enumerates(order, s.preferences.value.Keys)
    ensures Build(s, Browser.Chrome, properties, fireFoxKey, wellFormed, order).Ok? <==> !IsNullOrEmpty(s.chromeServerPath)
    ensures Build(s, Browser.Safari, properties, fireFoxKey, wellFormed, order).Ok? <==> !IsNullOrEmpty(s.safariServerPath)
    ensures IsNullOrEmpty(s.chromeServerPath) ==> SystemAfter(s, Browser.Chrome, properties) == properties
    ensures IsNullOrEmpty(s.safariServerPath) ==> SystemAfter(s, Browser.Safari, properties) == properties
  {
  }

  /** Internet Explorer is gated on the chrome path, never on its own one: without a
      chrome path it fails whatever the IE path is, and with one it goes ahead even without
      an IE path as long as the system property is already set. */
  lemma IeChecksChromeServerPath(s: Settings, properties: map<string, string>,
                                 fireFoxKey: BrowserPreference -> string, wellFormed: string -> bool, order: seq<BrowserPreference>)
    requires AppliesCallerPreferences(s) ==> Enumerates(order, s.preferences.value.Keys)
    ensures IsNullOrEmpty(s.chromeServerPath) ==> Build(s, Browser.IE, properties, fireFoxKey, wellFormed, order) == Err(IePathRequired)
    ensures !IsNullOrEmpty(s.chromeServerPath) ==>
              (Build(s, Browser.IE, properties, fireFoxKey, wellFormed, order).Ok? <==>
                 IeServerDriverPath in properties || s.ieServerPath.Some?)
    ensures !IsNullOrEmpty(s.chromeServerPath) && IeServerDriverPath !in properties && s.ieServerPath.None? ==>
              Build(s, Browser.IE, properties, fireFoxKey, wellFormed, order) == Err(NullSystemProperty(IeServerDriverPath))
  {
  }

  /** The layers of a local Firefox profile: the createProfile preferences, auto-update
      off, for FireFoxDownloadToDir the download preferences, and then the caller's
      preferences, which alone can replace them. */
  lemma FireFoxLayers(s: Settings, customProfile: bool, fireFoxKey: BrowserPreference -> string, order: seq<BrowserPreference>)
    requires AppliesCallerPreferences(s) ==> Enumerates(order, s.preferences.value.Keys)
    requires FireFoxPreferences(s, customProfile, fireFoxKey, order).Ok?
    ensures var m := FireFoxPreferences(s, customProfile, fireFoxKey, order).value;
            var written := if AppliesCallerPreferences(s) then Written(order, fireFoxKey) else {};
            m.Keys == {RetryIntervalsKey, MaxTotalViewersKey, AutoUpdateKey, UpdateEnabledKey} +
                      (if customProfile then {FolderListKey, DownloadDirKey, NeverAskSaveToDiskKey} else {}) + written &&
            (RetryIntervalsKey !in written ==> m[RetryIntervalsKey] == StringPreference(Some("60000,120000"))) &&
            (MaxTotalViewersKey !in written ==> m[MaxTotalViewersKey] == StringPreference(Some("0"))) &&
            (AutoUpdateKey !in written ==> m[AutoUpdateKey] == BoolPreference(false)) &&
            (UpdateEnabledKey !in written ==> m[UpdateEnabledKey] == BoolPreference(false)) &&
            (customProfile && FolderListKey !in written ==> m[FolderListKey] == IntPreference(2)) &&
            (customProfile && DownloadDirKey !in written ==> m[DownloadDirKey] == StringPreference(s.downloadDirectory)) &&
            (customProfile && NeverAskSaveToDiskKey !in written ==> m[NeverAskSaveToDiskKey] == StringPreference(s.mimeTypes))
  {
    var layered := FixedPreferences(customProfile, s.downloadDirectory, s.mimeTypes);
    FixedPreferenceValues(customProfile, s.downloadDirectory, s.mimeTypes);
    if AppliesCallerPreferences(s) {
      CallerLayerKeys(order, s.preferences.value, fireFoxKey, layered);
    }
  }

  /** The value each fixed layer leaves under its keys. */
  lemma FixedPreferenceValues(customProfile: bool, downloadDirectory: Option<string>, mimeTypes: Option<string>)
    ensures var m := FixedPreferences(customProfile, downloadDirectory, mimeTypes);
            m[RetryIntervalsKey] == StringPreference(Some("60000,120000")) &&
            m[MaxTotalViewersKey] == StringPreference(Some("0")) &&
            m[AutoUpdateKey] == BoolPreference(false) &&
            m[UpdateEnabledKey] == BoolPreference(false) &&
            (customProfile ==>
               m[FolderListKey] == IntPreference(2) &&
               m[DownloadDirKey] == StringPreference(downloadDirectory) &&
               m[NeverAskSaveToDiskKey] == StringPreference(mimeTypes))
  {
  }

  /** With distinct firefox keys, every caller preference is in the local Firefox
      profile, converted. */
  lemma FireFoxCallerPreferencesWin(s: Settings, customProfile: bool, fireFoxKey: BrowserPreference -> string, order: seq<BrowserPreference>)
    requires AppliesCallerPreferences(s) ==> Enumerates(order, s.preferences.value.Keys)
    requires FireFoxPreferences(s, customProfile, fireFoxKey, order).Ok?
    requires AppliesCallerPreferences(s) && InjectiveOn(fireFoxKey, s.preferences.value.Keys)
    ensures forall p :: p in s.preferences.value ==>
              CallerValue(p, s.preferences.value[p]).Ok? &&
              fireFoxKey(p) in FireFoxPreferences(s, customProfile, fireFoxKey, order).value &&
              FireFoxPreferences(s, customProfile, fireFoxKey, order).value[fireFoxKey(p)] ==
                CallerValue(p, s.preferences.value[p]).value
  {
    CallerWins(order, s.preferences.value, fireFoxKey, FixedPreferences(customProfile, s.downloadDirectory, s.mimeTypes));
  }

  /** A local Firefox profile fails to build exactly when some caller value cannot be
      converted, whatever order the preferences are visited in. */
  lemma FireFoxFailsIffBadValue(s: Settings, customProfile: bool, fireFoxKey: BrowserPreference -> string, order: seq<BrowserPreference>)
    requires AppliesCallerPreferences(s) ==> Enumerates(order, s.preferences.value.Keys)
    ensures FireFoxPreferences(s, customProfile, fireFoxKey, order).Ok? <==>
              !AppliesCallerPreferences(s) ||
              forall p :: p in s.preferences.value ==> CallerValue(p, s.preferences.value[p]).Ok?
  {
    var layered := FixedPreferences(customProfile, s.downloadDirectory, s.mimeTypes);
    if AppliesCallerPreferences(s) {
      CallerLayerFailsIffBadValue(order, s.preferences.value, fireFoxKey, layered);
    }
  }

  /** The remote Firefox profile gets the createProfile preferences and auto-update off,
      but never the caller's preferences or the download settings. */
  lemma RemoteFireFoxIgnoresCallerPreferences(s: Settings, t: Settings, properties: map<string, string>,
                                              fireFoxKey: BrowserPreference -> string, otherKey: BrowserPreference -> string,
                                              wellFormed: string -> bool, order: seq<BrowserPreference>, other: seq<BrowserPreference>)
    requires AppliesCallerPreferences(s) ==> Enumerates(order, s.preferences.value.Keys)
    requires AppliesCallerPreferences(t) ==> Enumerates(other, t.preferences.value.Keys)
    requires s.gridUrl == t.gridUrl
    ensures Build(s, Browser.RemoteFireFox, properties, fireFoxKey, wellFormed, order) ==
            Build(t, Browser.RemoteFireFox, properties, otherKey, wellFormed, other)
    ensures Build(s, Browser.RemoteFireFox, properties, fireFoxKey, wellFormed, order).Ok? ==>
              Build(s, Browser.RemoteFireFox, properties, fireFoxKey, wellFormed, order).value.capabilities[ProfileCapabilityName] ==
                ProfileCapability(ProfileSpec(UpdatesDisabled(CreateProfilePreferences()), true))
  {
  }

  // ---------------------------------------------------------------------------
  // The imperative parts: the profile, the system properties and the factory

  /** A Firefox profile as the factory writes it; preferences already in a fresh profile
      are not part of this model. */
  class FirefoxProfile {
    var preferences: map<string, PreferenceValue>
    var nativeEvents: bool

    constructor ()
      ensures preferences == map[] && !nativeEvents
    {
      preferences := map[];
      nativeEvents := false;
    }

    method SetPreference(key: string, value: PreferenceValue)
      modifies this
      ensures preferences == old(preferences)[key := value] && nativeEvents == old(nativeEvents)
    {
      preferences := preferences[key := value];
    }

    method SetEnableNativeEvents(enable: bool)
      modifies this
      ensures nativeEvents == enable && preferences == old(preferences)
    {
      nativeEvents := enable;
    }

    function Spec(): ProfileSpec
      reads this
    {
      ProfileSpec(preferences, nativeEvents)
    }
  }

  /** createProfile(): a fresh profile with the two retry and history preferences. */
  method CreateProfile() returns (profile: FirefoxProfile)
    ensures fresh(profile) && profile.preferences == CreateProfilePreferences() && !profile.nativeEvents
  {
    profile := new FirefoxProfile();
    profile.SetPreference(RetryIntervalsKey, StringPreference(Some("60000,120000")));
    profile.SetPreference(MaxTotalViewersKey, StringPreference(Some("0")));
  }

  /** When the loop stops at a value that does not convert, the keys not yet visited
      complete an enumeration of the key set in which that value is the first failure. */
  lemma FailingOrder(visited: seq<BrowserPreference>, failing: BrowserPreference, remaining: set<BrowserPreference>,
                     preferences: map<BrowserPreference, PreferenceArgument>, fireFoxKey: BrowserPreference -> string,
                     base: map<string, PreferenceValue>, current: map<string, PreferenceValue>)
    returns (order: seq<BrowserPreference>)
    requires forall p :: p in preferences <==> p in remaining || p in visited + [failing]
    requires forall p :: p in visited + [failing] ==> p !in remaining
    requires forall i, j :: 0 <= i < j < |visited + [failing]| ==> (visited + [failing])[i] != (visited + [failing])[j]
    requires CallerLayer(visited, preferences, fireFoxKey, base) == Ok(current)
    requires CallerValue(failing, preferences[failing]).Err?
    ensures Enumerates(order, preferences.Keys)
    ensures CallerLayer(order, preferences, fireFoxKey, base) == Err(CallerValue(failing, preferences[failing]).error)
    ensures exists i :: 0 <= i < |order| && CallerValue(order[i], preferences[order[i]]) == CallerValue(failing, preferences[failing]) &&
              CallerLayer(order[..i], preferences, fireFoxKey, base) == Ok(current)
  {
    var front := visited + [failing];
    assert front[..|front| - 1] == visited;
    assert CallerLayer(front, preferences, fireFoxKey, base) == Err(CallerValue(failing, preferences[failing]).error);
    var rest := Enumeration(remaining);
    CallerLayerKeepsError(front, rest, preferences, fireFoxKey, base);
    order := front + rest;
    forall i, j | 0 <= i < j < |order|
      ensures order[i] != order[j]
    {
      if j >= |front| && i < |front| {
        assert order[j] in remaining;
      }
    }
    assert order[..|visited|] == visited && order[|visited|] == failing;
  }

  /** The caller preference loop of getFireFox over the key set, in its unspecified order;
      `order` records the one taken. */
  method ApplyCallerPreferences(profile: FirefoxProfile, preferences: map<BrowserPreference, PreferenceArgument>,
                                fireFoxKey: BrowserPreference -> string)
    returns (r: Outcome<FactoryError>, ghost order: seq<BrowserPreference>)
    modifies profile
    ensures Enumerates(order, preferences.Keys)
    ensures profile.nativeEvents == old(profile.nativeEvents)
    ensures match CallerLayer(order, preferences, fireFoxKey, old(profile.preferences))
            case Ok(m) => r == Pass && profile.preferences == m
            case Err(e) =>
              r == Fail(e) &&
              exists i :: 0 <= i < |order| && CallerValue(order[i], preferences[order[i]]) == Err(e) &&
                CallerLayer(order[..i], preferences, fireFoxKey, old(profile.preferences)) == Ok(profile.preferences)
  {
    order := [];
    ghost var base := profile.preferences;
    var remaining := preferences.Keys;
    while remaining != {}
      invariant remaining <= preferences.Keys
      invariant forall p :: p in preferences <==> p in remaining || p in order
      invariant forall p :: p in order ==> p !in remaining
      invariant forall i, j :: 0 <= i < j < |order| ==> order[i] != order[j]
      invariant CallerLayer(order, preferences, fireFoxKey, base) == Ok(profile.preferences)
      invariant profile.nativeEvents == old(profile.nativeEvents)
      decreases remaining
    {
      var browserPreference :| browserPreference in remaining;
      ghost var visited := order;
      remaining := remaining - {browserPreference};
      order := order + [browserPreference];
      assert order[..|order| - 1] == visited;
      var value := CallerValue(browserPreference, preferences[browserPreference]);
      if value.Err? {
        order := FailingOrder(visited, browserPreference, remaining, preferences, fireFoxKey, base, profile.preferences);
        return Fail(value.error), order;
      }
      profile.SetPreference(fireFoxKey(browserPreference), value.value);
    }
    r := Pass;
  }

  /** The JVM's system properties. */
  class SystemProperties {
    var properties: map<string, string>

    constructor (properties: map<string, string>)
      ensures this.properties == properties
    {
      this.properties := properties;
    }

    /** `if (!props.containsKey(key)) props.put(key, value)`. */
    method PutIfAbsent(key: string, value: Option<string>) returns (r: Outcome<FactoryError>)
      modifies this
      ensures match Registered(old(properties), key, value)
              case Ok(m) => r == Pass && properties == m
              case Err(e) => r == Fail(e) && properties == old(properties)
    {
      if key in properties {
        return Pass;
      }
      if value.None? {
        return Fail(NullSystemProperty(key));
      }
      properties := properties[key := value.value];
      r := Pass;
    }
  }

  class WebDriverFactory {
    var gridUrl: Option<string>
    var chromeServerPath: Option<string>
    var safariServerPath: Option<string>
    var ieServerPath: Option<string>
    var downloadDirectory: Option<string>
    var mimeTypes: Option<string>
    var preferences: Option<map<BrowserPreference, PreferenceArgument>>

    /** The bean as instantiated: every field null. */
    constructor ()
      ensures Configured() == Settings(None, None, None, None, None, None, None)
    {
      gridUrl, chromeServerPath, safariServerPath, ieServerPath := None, None, None, None;
      downloadDirectory, mimeTypes, preferences := None, None, None;
    }

    /** A factory whose fields hold `s`, including the two fields (safariServerPath and
        preferences) that have no setter. */
    constructor Configure(s: Settings)
      ensures Configured() == s
    {
      gridUrl, chromeServerPath, safariServerPath, ieServerPath := s.gridUrl, s.chromeServerPath, s.safariServerPath, s.ieServerPath;
      downloadDirectory, mimeTypes, preferences := s.downloadDirectory, s.mimeTypes, s.preferences;
    }

    function Configured(): Settings
      reads this
    {
      Settings(gridUrl, chromeServerPath, safariServerPath, ieServerPath, downloadDirectory, mimeTypes, preferences)
    }

    method SetGridUrl(gridUrl: Option<string>)
      modifies this
      ensures Configured() == old(Configured()).(gridUrl := gridUrl)
    {
      this.gridUrl := gridUrl;
    }

    method SetChromeServerPath(chromeServerPath: Option<string>)
      modifies this
      ensures Configured() == old(Configured()).(chromeServerPath := chromeServerPath)
    {
      this.chromeServerPath := chromeServerPath;
    }

    method SetIeServerPath(ieServerPath: Option<string>)
      modifies this
      ensures Configured() == old(Configured()).(ieServerPath := ieServerPath)
    {
      this.ieServerPath := ieServerPath;
    }

    method SetDownloadDirectory(downloadDirectory: Option<string>)
      modifies this
      ensures Configured() == old(Configured()).(downloadDirectory := downloadDirectory)
    {
      this.downloadDirectory := downloadDirectory;
    }

    method SetMimeTypes(mimeTypes: Option<string>)
      modifies this
      ensures Configured() == old(Configured()).(mimeTypes := mimeTypes)
    {
      this.mimeTypes := mimeTypes;
    }

    /** getObject(browser). `system` is System.getProperties(), `fireFoxKey` the firefox
        key of each preference constant, `wellFormed` what java.net.URL accepts, and
        `order` the order in which the caller preferences were visited. */
    method GetObject(browser: Browser.Browser, system: SystemProperties, fireFoxKey: BrowserPreference -> string,
                     wellFormed: string -> bool)
      returns (r: Result<Driver, FactoryError>, ghost order: seq<BrowserPreference>)
      modifies system
      ensures AppliesCallerPreferences(Configured()) ==> Enumerates(order, Configured().preferences.value.Keys)
      ensures r == Build(Configured(), browser, old(system.properties), fireFoxKey, wellFormed, order)
      ensures system.properties == SystemAfter(Configured(), browser, old(system.properties))
    {
      if browser == Browser.Chrome || browser == Browser.IE || browser == Browser.Safari {
        order := if AppliesCallerPreferences(Configured()) then Enumeration(preferences.value.Keys) else [];
        r := GetServerDriver(browser, system, fireFoxKey, wellFormed, order);
      } else {
        r, order := GetDriver(browser, fireFoxKey, wellFormed);
      }
    }

    /** The cases of getObject(browser) that register a driver path. */
    method GetServerDriver(browser: Browser.Browser, system: SystemProperties, ghost fireFoxKey: BrowserPreference -> string,
                           ghost wellFormed: string -> bool, ghost order: seq<BrowserPreference>)
      returns (r: Result<Driver, FactoryError>)
      requires browser == Browser.Chrome || browser == Browser.IE || browser == Browser.Safari
      requires AppliesCallerPreferences(Configured()) ==> Enumerates(order, Configured().preferences.value.Keys)
      modifies system
      ensures r == Build(Configured(), browser, old(system.properties), fireFoxKey, wellFormed, order)
      ensures system.properties == SystemAfter(Configured(), browser, old(system.properties))
    {
      if browser == Browser.Chrome {
        r := GetChromeDriver(system);
      } else if browser == Browser.IE {
        r := GetInternetExplorerDriver(system);
      } else {
        r := GetSafariDriver(system);
      }
    }

    /** The cases of getObject(browser) that leave the system properties alone. */
    method GetDriver(browser: Browser.Browser, fireFoxKey: BrowserPreference -> string, wellFormed: string -> bool)
      returns (r: Result<Driver, FactoryError>, ghost order: seq<BrowserPreference>)
      requires browser != Browser.Chrome && browser != Browser.IE && browser != Browser.Safari
      ensures AppliesCallerPreferences(Configured()) ==> Enumerates(order, Configured().preferences.value.Keys)
      ensures forall properties :: r == Build(Configured(), browser, properties, fireFoxKey, wellFormed, order)
    {
      order := if AppliesCallerPreferences(Configured()) then Enumeration(preferences.value.Keys) else [];
      match browser {
        case FireFox =>
          r, order := GetFireFox(false, fireFoxKey);
        case HtmlUnit =>
          r := Ok(HtmlUnitDriver(true));
        case RemoteFireFox =>
          r := GetRemoteFireFox(wellFormed);
        case RemoteChrome =>
          r := RemoteDriver(gridUrl, RemoteChromeCapabilities(), wellFormed);
        case RemoteIE =>
          r := RemoteDriver(gridUrl, IeCapabilities(), wellFormed);
        case FireFoxDownloadToDir =>
          r, order := GetFireFox(true, fireFoxKey);
      }
    }

    /** The RemoteFireFox case of getObject(browser): a profile with auto-update off, on
        a remote driver. */
    method GetRemoteFireFox(wellFormed: string -> bool) returns (r: Result<Driver, FactoryError>)
      ensures r == RemoteDriver(gridUrl, RemoteFireFoxCapabilities(), wellFormed)
    {
      var profile := CreateProfile();
      // auto-update off
      profile.SetPreference(AutoUpdateKey, BoolPreference(false));
      profile.SetPreference(UpdateEnabledKey, BoolPreference(false));
      profile.SetEnableNativeEvents(true);
      var capabilities := map[BrowserNameCapability := StringCapability(FirefoxBrowserName),
                              JavascriptEnabledCapability := BoolCapability(true),
                              ProfileCapabilityName := ProfileCapability(profile.Spec())];
      r := RemoteDriver(gridUrl, capabilities, wellFormed);
    }

    /** getObject(): the remote Firefox driver. */
    method GetDefaultObject(system: SystemProperties, fireFoxKey: BrowserPreference -> string, wellFormed: string -> bool)
      returns (r: Result<Driver, FactoryError>, ghost order: seq<BrowserPreference>)
      modifies system
      ensures AppliesCallerPreferences(Configured()) ==> Enumerates(order, Configured().preferences.value.Keys)
      ensures r == Build(Configured(), Browser.RemoteFireFox, old(system.properties), fireFoxKey, wellFormed, order)
      ensures system.properties == old(system.properties)
    {
      r, order := GetObject(Browser.RemoteFireFox, system, fireFoxKey, wellFormed);
    }

    /** getFireFox(customProfile). */
    method GetFireFox(customProfile: bool, fireFoxKey: BrowserPreference -> string)
      returns (r: Result<Driver, FactoryError>, ghost order: seq<BrowserPreference>)
      ensures AppliesCallerPreferences(Configured()) ==> Enumerates(order, Configured().preferences.value.Keys)
      ensures r == FireFoxDriver(Configured(), customProfile, fireFoxKey, order)
    {
      var firefoxProfile := CreateProfile();
      // auto-update off
      firefoxProfile.SetPreference(AutoUpdateKey, BoolPreference(false));
      firefoxProfile.SetPreference(UpdateEnabledKey, BoolPreference(false));
      firefoxProfile.SetEnableNativeEvents(true);
      if customProfile {
        firefoxProfile.SetPreference(FolderListKey, IntPreference(2));
        firefoxProfile.SetPreference(DownloadDirKey, StringPreference(downloadDirectory));
        firefoxProfile.SetPreference(NeverAskSaveToDiskKey, StringPreference(mimeTypes));
      }
      order := [];
      if preferences.Some? && |preferences.value| > 0 {
        var applied;
        applied, order := ApplyCallerPreferences(firefoxProfile, preferences.value, fireFoxKey);
        if applied.Fail? {
          return Err(applied.error), order;
        }
      }
      var capabilities := map[BrowserNameCapability := StringCapability(FirefoxBrowserName),
                              ProfileCapabilityName := ProfileCapability(firefoxProfile.Spec())];
      r := Ok(FirefoxDriver(capabilities));
    }

    /** getChromeDriver(). */
    method GetChromeDriver(system: SystemProperties) returns (r: Result<Driver, FactoryError>)
      modifies system
      ensures IsNullOrEmpty(chromeServerPath) ==> r == Err(ChromePathRequired) && system.properties == old(system.properties)
      ensures !IsNullOrEmpty(chromeServerPath) ==>
                r == Ok(ChromeDriver([KioskArgument])) &&
                Registered(old(system.properties), ChromeServerDriverPath, chromeServerPath) == Ok(system.properties)
    {
      if chromeServerPath.None? || chromeServerPath.value == "" {
        return Err(ChromePathRequired);
      }
      var put := system.PutIfAbsent(ChromeServerDriverPath, chromeServerPath);
      r := Ok(ChromeDriver([KioskArgument]));
    }

    /** getSafariDriver(). */
    method GetSafariDriver(system: SystemProperties) returns (r: Result<Driver, FactoryError>)
      modifies system
      ensures IsNullOrEmpty(safariServerPath) ==> r == Err(SafariPathRequired) && system.properties == old(system.properties)
      ensures !IsNullOrEmpty(safariServerPath) ==>
                r == Ok(SafariDriver) &&
                Registered(old(system.properties), SafariServerDriverPath, safariServerPath) == Ok(system.properties)
    {
      if safariServerPath.None? || safariServerPath.value == "" {
        return Err(SafariPathRequired);
      }
      var put := system.PutIfAbsent(SafariServerDriverPath, safariServerPath);
      r := Ok(SafariDriver);
    }

    /** getInternetExplorerDriver(): guarded by the chrome path, registers the IE path. */
    method GetInternetExplorerDriver(system: SystemProperties) returns (r: Result<Driver, FactoryError>)
      modifies system
      ensures IsNullOrEmpty(chromeServerPath) ==> r == Err(IePathRequired) && system.properties == old(system.properties)
      ensures !IsNullOrEmpty(chromeServerPath) ==>
                match Registered(old(system.properties), IeServerDriverPath, ieServerPath)
                case Err(e) => r == Err(e) && system.properties == old(system.properties)
                case Ok(m) => r == Ok(InternetExplorerDriver(IeCapabilities())) && system.properties == m
    {
      if chromeServerPath.None? || chromeServerPath.value == "" {
        return Err(IePathRequired);
      }
      var put := system.PutIfAbsent(IeServerDriverPath, ieServerPath);
      if put.Fail? {
        return Err(put.error);
      }
      var capabilities := map[BrowserNameCapability := StringCapability(IeBrowserName),
                              IgnoreSecurityDomainsCapability := BoolCapability(true)];
      r := Ok(InternetExplorerDriver(capabilities));
    }
  }
}
