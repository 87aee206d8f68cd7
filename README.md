# A verified model of the grid and web-driver factory core

This project models the decision logic of a Selenium test harness and proves properties of it in Dafny. The logic has five parts:

- **Property loader (`GridProperties`).** It merges `grid/<role>.properties` with the optional `grid/<role>.local.properties`, the local file winning. It applies an optional `hub.url.port` override. It then turns every key of the `grid.` namespace into a `"-parameter", value` pair of command-line arguments. A blank parameter, a malformed properties file and a placeholder that cannot be resolved are fatal, and the hub and node wrappers add their own error message.
- **Embedded hub (`GridHub`).** It is built from the hub arguments, with a port patched in place at index 3. The model covers start, stop and the HTTP status probe ("alive" means status 200).
- **Grid bean (`Grid`).** In local mode it owns a hub and a node and starts them unless the hub already answers 200. `isAlive` and `isClosed` classify one status probe. `close` stops the node and then, if it is alive, the hub.
- **Browser enumeration (`Browser`).** It has nine constants and a parser that ignores case.
- **Web-driver factory (`WebDriverFactory`).** It covers:
  - which driver each browser calls for;
  - the grid URL and driver path checks;
  - the system properties it registers, only when they are absent;
  - the layered Firefox preferences, where the caller's map is written last;
  - `formatLocale`.

  No driver is built: a result records what would be handed to the driver's constructor.

Everything outside the program's own logic is an explicit input of the model:

| Outside input | How the model takes it |
|---|---|
| Class-loader resources | a function from path to `Resource`: missing, unreadable (an `IOException`) after a partial read, malformed (an `IllegalArgumentException` from `Properties.load`) after a partial read, or readable |
| `StrSubstitutor` | a function parameter that gives the substituted value, or nothing for the `IllegalStateException` of a cyclic reference |
| HTTP GET against the hub | a `Probe` value: a status code, a protocol failure, an I/O failure or any other exception |
| Whether hub start, node build, node start and hub stop succeed | boolean parameters |
| What `java.net.URL` accepts | a predicate |
| `BrowserPreference.getFireFoxKey()` | a function |
| Key order of a `Hashtable` / `HashMap` | a nondeterministic choice in each loop, recorded in a ghost `order` result |

Every contract that depends on key order holds for every order.

Some details of the code that the model keeps as written:

- `getInternetExplorerDriver` checks `chromeServerPath`, although its error message names `ieServerPath`. It then registers `ieServerPath`, which may be null; registering a null value throws a `NullPointerException`, which the model reports as an error.
- `formatLocale` lower-cases the country.
- The two `createProfile` preference keys end in `;` (`"dom.mms.retrievalRetryIntervals;"`, `"browser.sessionhistory.max_total_viewers;"`); the model keeps that spelling.
- `safariServerPath` and `preferences` have no setter. The factory class therefore has a `Configure` constructor that sets every field.

## Model

| member | source | states |
|---|---|---|
| Browser.Name | src/main/java/org/alfresco/po/Browser.java:30-38 | `name()`: each constant's declared identifier; `NameIsWord` and `NamesDistinctIgnoringCase` state its properties |
| Browser.Values | src/main/java/org/alfresco/po/Browser.java:28-38 | `values()`, the nine constants in declaration order; `ValuesComplete` states that it lists every constant |
| Browser.Find | src/main/java/org/alfresco/po/Browser.java:52-58 | a found constant is in the list and equals the input ignoring case; no constant is found only when none equals it |
| Browser.ValuesComplete | src/main/java/org/alfresco/po/Browser.java:28-38 | `values()` contains each of the nine constants |
| Browser.NameIsWord | src/main/java/org/alfresco/po/Browser.java:30-38 | every constant's name is a non-empty word of ASCII letters |
| Browser.FromString | src/main/java/org/alfresco/po/Browser.java:46-60 | `fromString`: the null-or-blank check, then the search of `values()`; `BlankIsValueRequired`, `MatchesExactlyIgnoringCase`, `RoundTrip`, `CaseInsensitive`, `UnknownIsNoMatch` and `PaddedNameIsNoMatch` state what it returns for every input |
| Browser.BlankIsValueRequired | src/main/java/org/alfresco/po/Browser.java:48-51 | null or whitespace-only input fails with "value required", before any comparison |
| Browser.NamesDistinctIgnoringCase | src/main/java/org/alfresco/po/Browser.java:28-38 | no two constants' names are equal ignoring case |
| Browser.MatchIsNotBlank | src/main/java/org/alfresco/po/Browser.java:48-54 | a string equal to a name ignoring case is never blank |
| Browser.MatchesExactlyIgnoringCase | src/main/java/org/alfresco/po/Browser.java:46-60 | `fromString(s)` returns `b` if and only if `s` equals `b.name()` ignoring case, so the result is unique |
| Browser.RoundTrip | src/main/java/org/alfresco/po/Browser.java:30-58 | `fromString(b.name()) == b` for every constant |
| Browser.CaseInsensitive | src/main/java/org/alfresco/po/Browser.java:54 | the upper-case and the lower-case spelling of each name parse to that constant |
| Browser.UnknownIsNoMatch | src/main/java/org/alfresco/po/Browser.java:59 | non-blank input equal to no name fails with the no-match error |
| Browser.PaddedNameIsNoMatch | src/main/java/org/alfresco/po/Browser.java:48-54 | a name with spaces before or after it is not blank, yet matches nothing: trimming is used only for the blank test |
| Browser.EqualsIgnoreCaseTransitive | src/main/java/org/alfresco/po/Browser.java:54 | two strings equal ignoring case to the same string are equal ignoring case to each other |
| Browser.EqualsIgnoreCaseSymmetric | src/main/java/org/alfresco/po/Browser.java:54 | equality ignoring case is symmetric |
| Common.UpperChar | src/main/java/org/alfresco/po/Browser.java:54 | `Character.toUpperCase` turns an ASCII lower-case letter into an upper-case one and leaves every other character alone, except dotless ı and long ſ |
| Common.LowerChar | src/main/java/org/alfresco/po/Browser.java:54 | `Character.toLowerCase` turns an ASCII capital into a lower-case letter and leaves every other character alone, except dotted İ and the Kelvin sign |
| Common.CharEqualsIgnoreCase | src/main/java/org/alfresco/po/Browser.java:54 | the character test of `String.equalsIgnoreCase`: equal, or equal upper cases, or equal lower cases of the upper cases; `CharEqualsIgnoreCaseIsFolding` states that this is equality of the folded characters |
| Common.EqualsIgnoreCase | src/main/java/org/alfresco/po/Browser.java:54 | `String.equalsIgnoreCase`: the same length and every position equal ignoring case; `EqualsIgnoreCaseSymmetric`, `EqualsIgnoreCaseTransitive` and `CaseChangesEqualIgnoringCase` state its properties |
| Common.TrimsToEmpty | src/main/java/org/alfresco/po/Browser.java:48 | `trim().isEmpty()`: every character is at most U+0020, the characters `trim` strips; `BlankIsValueRequired` and `MatchIsNotBlank` state its role in `fromString` |
| Common.IsWhitespace | src/main/java/org/alfresco/grid/GridProperties.java:148 | `Character.isWhitespace`: the Unicode space, line and paragraph separators other than the three non-breaking spaces, and U+0009-U+000D, U+001C-U+001F |
| Common.IsBlank | src/main/java/org/alfresco/grid/GridProperties.java:148 | `StringUtils.isBlank` of a non-null string: empty or made only of `Character.isWhitespace` characters; `WideSpaceParameterIsInvalid` shows that a non-ASCII space counts |
| Common.CharEqualsIgnoreCaseIsFolding | src/main/java/org/alfresco/po/Browser.java:54 | two characters are equal ignoring case exactly when their lower-cased upper cases agree |
| Common.CaseChangeEqualsIgnoringCase | src/main/java/org/alfresco/po/Browser.java:54 | a character is equal, ignoring case, to its own upper and lower case |
| Common.LowerString | src/main/java/org/alfresco/grid/WebDriverFactory.java:192 | `toLowerCase()` turns dotted capital İ into "i" followed by U+0307, and any other character into its `Character.toLowerCase`; no ASCII capital results |
| Common.ToLower | src/main/java/org/alfresco/grid/WebDriverFactory.java:192 | `toLowerCase()` never shortens a string and leaves no ASCII capital; a string without dotted capital İ keeps its length and is lower-cased character by character |
| Common.DottedCapitalILengthens | src/main/java/org/alfresco/grid/WebDriverFactory.java:192 | lower-casing a string that contains dotted capital İ makes it longer |
| Common.ToUpper | src/main/java/org/alfresco/po/Browser.java:54 | `toUpperCase()` keeps the length and upper-cases each character |
| Common.CaseChangesEqualIgnoringCase | src/main/java/org/alfresco/po/Browser.java:54 | a string is equal, ignoring case, to its upper-cased form, and to its lower-cased form exactly when it has no dotted capital İ |
| Common.LowerOfUpper | src/main/java/org/alfresco/grid/WebDriverFactory.java:192 | for ASCII letters, lower-casing the upper-cased string gives the lower-cased string |
| Common.LowerOfUpperChar | src/main/java/org/alfresco/grid/WebDriverFactory.java:192 | for an ASCII letter, lower-casing its upper case gives its lower case |
| Common.Enumeration | src/main/java/org/alfresco/grid/GridProperties.java:141-142 | every finite key set has an iteration order that visits each key exactly once |
| Common.DigitChar | src/main/java/org/alfresco/grid/GridProperties.java:138 | a digit value becomes its ASCII digit character |
| Common.DigitValue | src/main/java/org/alfresco/grid/WebDriverFactory.java:171 | an ASCII digit character becomes its value |
| Common.ParseInt | src/main/java/org/alfresco/grid/WebDriverFactory.java:171 | `Integer.valueOf(String)` never accepts empty text; the two lemmas below state what it accepts |
| Common.DecimalString | src/main/java/org/alfresco/grid/GridProperties.java:138 | `String.valueOf(int)`: a '-' for a negative number, then the decimal digits; `DecimalStringShape`, `DigitsAreDigits` and `ParseDecimalRoundTrip` state its shape and that `Integer.valueOf` reads it back |
| Common.DigitsAreDigits | src/main/java/org/alfresco/grid/GridProperties.java:138 | the text of a natural number is a non-empty run of digits that denotes that number |
| Common.DecimalStringShape | src/main/java/org/alfresco/grid/GridProperties.java:138 | `String.valueOf(int)` is never empty, starts with '-' exactly for a negative number, and never starts with '+' |
| Common.ParseDecimalRoundTrip | src/main/java/org/alfresco/grid/GridProperties.java:138 | `Integer.valueOf(String.valueOf(n)) == n` for every 32-bit `n` |
| Common.ParseIntRejectsNonDigit | src/main/java/org/alfresco/grid/WebDriverFactory.java:171 | text containing a non-digit after the optional sign is not a number |
| GridProperties.PropertyPath | src/main/java/org/alfresco/grid/GridProperties.java:113 | the base resource `grid/<role>.properties`; `LocalOverridesBase` and `LoadProperties` read it |
| GridProperties.LocalPropertyPath | src/main/java/org/alfresco/grid/GridProperties.java:123 | the override resource `grid/<role>.local.properties`; `LocalOverridesBase` and `LoadProperties` read it |
| GridProperties.Entries | src/main/java/org/alfresco/grid/GridProperties.java:114-135 | the entries one `Properties.load` adds: none for a missing file, those read before the failure for a failed read, all of them otherwise; `MissingLocalIsBaseOnly` states the effect of a missing local file |
| GridProperties.Merged | src/main/java/org/alfresco/grid/GridProperties.java:113-139 | the merged keys are the base keys, the local keys and the port key; the port override wins, then the local value, then the base value |
| GridProperties.LoadProperties | src/main/java/org/alfresco/grid/GridProperties.java:104-139 | a null or empty role is rejected before any resource is read; loading succeeds exactly when the role is non-empty, the base file is readable and the local file is not malformed (an I/O failure of the local file is only logged, a malformed one is not caught); a malformed-file error names the file at fault |
| GridProperties.IsGridKey | src/main/java/org/alfresco/grid/GridProperties.java:145 | `key.startsWith("grid.")`; `PortKeyEmitsNothing` states that `hub.url.port` is not one |
| GridProperties.NextMatch | src/main/java/org/alfresco/grid/GridProperties.java:147 | the first place at or after `from` where the regular expression `grid.` matches, or the end of the key |
| GridProperties.Parameter | src/main/java/org/alfresco/grid/GridProperties.java:147 | `key.split("grid.")[1]`: the text between the prefix and the next match of the pattern; `ParameterIsSuffix` and `ParameterStopsAtMatch` state what it is |
| GridProperties.Flag | src/main/java/org/alfresco/grid/GridProperties.java:152 | `"-" + parameter`; `EmitPairs` states that these are the flags emitted |
| GridProperties.HasValidParameter | src/main/java/org/alfresco/grid/GridProperties.java:148-151 | a `grid.` key passes the blank check; `EmitFailsIffBadKey` states that the loop fails on a key without it |
| GridProperties.Emittable | src/main/java/org/alfresco/grid/GridProperties.java:145-153 | a key the loop gets past: outside the namespace, or with a valid parameter and a value `StrSubstitutor` resolves; `EmitFailsIffBadKey` and `EmitOverKeySet` state that the loop succeeds exactly when every key is emittable |
| GridProperties.Rejects | src/main/java/org/alfresco/grid/GridProperties.java:148-153 | the two errors of the loop: a `grid.` key with a blank parameter, or a `grid.` key with a parameter whose value cannot be resolved; `EmitFailsIffBadKey` states that every loop failure is one of them |
| GridProperties.Emit | src/main/java/org/alfresco/grid/GridProperties.java:141-158 | the loop, key by key in a given order; `EmitFailsIffBadKey`, `EmitPairs`, `EmitLength`, `EmitKeepsError`, `OrderIndependent` and `EmitOverKeySet` state its properties, and `EmitArguments` is proved to compute it |
| GridProperties.ParameterIsSuffix | src/main/java/org/alfresco/grid/GridProperties.java:147 | when `grid.` does not match again later, the parameter is the key minus its `grid.` prefix |
| GridProperties.ParameterStopsAtMatch | src/main/java/org/alfresco/grid/GridProperties.java:147 | a later match of the pattern cuts the parameter short |
| GridProperties.PropertiesOutcome | src/main/java/org/alfresco/grid/GridProperties.java:102-159 | the end-to-end result of `getProperties`: a loading error as it is; otherwise success exactly when every key of the merged map is emittable, and then one (flag, substituted value) pair per `grid.` key, twice as many entries as `grid.` keys, in every key order; a failure names a `grid.` key with a blank parameter or an unresolvable value |
| GridProperties.EmitOverKeySet | src/main/java/org/alfresco/grid/GridProperties.java:141-158 | the loop over an enumeration of the whole key set fails exactly when some key is not emittable, with one of the two loop errors, and otherwise emits exactly the pairs the map calls for |
| GridProperties.WideSpaceParameterIsInvalid | src/main/java/org/alfresco/grid/GridProperties.java:147-151 | a key `grid.` followed by an ideographic space has a blank parameter and is rejected |
| GridProperties.CyclicReferenceFails | src/main/java/org/alfresco/grid/GridProperties.java:152-153 | a `grid.` key whose value refers to itself, which `StrSubstitutor` rejects, fails the loop although its parameter is valid |
| GridProperties.GetProperties | src/main/java/org/alfresco/grid/GridProperties.java:102-159 | loads the base file, then the local file, then the port into one map in place; the order it visits the keys in covers every key once; the result is the loop's outcome over that order |
| GridProperties.EmitArguments | src/main/java/org/alfresco/grid/GridProperties.java:141-158 | the loop over the key set visits every key once, in some order, and appends exactly what the key-by-key specification `Emit` produces for that order, stopping at the first blank parameter or unresolvable value |
| GridProperties.GetHubProperties | src/main/java/org/alfresco/grid/GridProperties.java:61-71 | the hub result is the role `hub` load, with any failure wrapped in "Unable to load hub properties" |
| GridProperties.GetNodeProperties | src/main/java/org/alfresco/grid/GridProperties.java:81-91 | the node result is the role `node` load with the port, with any failure wrapped in "Unable to load node properties" |
| GridProperties.Wrapped | src/main/java/org/alfresco/grid/GridProperties.java:61-91 | a success passes unchanged; a failure is wrapped exactly once, with the given message and the original cause |
| GridProperties.EmitKeepsError | src/main/java/org/alfresco/grid/GridProperties.java:148-151 | once the loop has failed, visiting more keys does not change the error |
| GridProperties.EmitFailsIffBadKey | src/main/java/org/alfresco/grid/GridProperties.java:145-153 | the loop fails exactly when some visited `grid.` key has a blank parameter (empty, or made only of `Character.isWhitespace` characters, non-ASCII spaces included) or a value `StrSubstitutor` rejects, and the error names such a key and says which of the two it is |
| GridProperties.EmitPairs | src/main/java/org/alfresco/grid/GridProperties.java:145-155 | the output has even length and its pairs are exactly ("-" + parameter, substituted value), one per visited `grid.` key |
| GridProperties.PairSetAppend | src/main/java/org/alfresco/grid/GridProperties.java:154-155 | appending a flag and a value adds exactly that pair |
| GridProperties.EmitLength | src/main/java/org/alfresco/grid/GridProperties.java:141-158 | the output is twice as long as the number of distinct `grid.` keys visited |
| GridProperties.OrderIndependent | src/main/java/org/alfresco/grid/GridProperties.java:141-158 | in every key order, a map whose keys are all emittable yields the same set of pairs and twice as many entries as `grid.` keys |
| GridProperties.LocalOverridesBase | src/main/java/org/alfresco/grid/GridProperties.java:113-135 | a key set in both files takes the local file's value |
| GridProperties.MissingLocalIsBaseOnly | src/main/java/org/alfresco/grid/GridProperties.java:124-135 | a missing local file, or one that failed before any entry was read, leaves the base map (plus the port) |
| GridProperties.PortOverrideReadsBack | src/main/java/org/alfresco/grid/GridProperties.java:136-139 | the `hub.url.port` value is the port's decimal text and reads back as the port |
| GridProperties.PortKeyEmitsNothing | src/main/java/org/alfresco/grid/GridProperties.java:138-145 | `hub.url.port` lies outside the `grid.` namespace |
| GridProperties.LocalPortScenario | src/main/java/org/alfresco/grid/GridProperties.java:113-158 | `grid.port=4444` in the base file and `grid.port=5555` in the local file give exactly `"-port", "5555"` |
| GridProperties.PortScenarioPairs | src/main/java/org/alfresco/grid/GridProperties.java:145-155 | the map `grid.port=5555` has one grid key and calls for the single pair ("-port", "5555") |
| GridHub.PageResponse | src/main/java/org/alfresco/grid/GridHub.java:112-138 | `checkPageResponse` gives the status code of a response, 0 after a protocol or I/O failure (and only then, or for a response with status 0), and lets every other exception escape |
| GridHub.PatchedArguments | src/main/java/org/alfresco/grid/GridHub.java:47-54 | without a port the arguments are unchanged; with one, only element 3 changes, to the decimal text of `port[0]`, and an array of 3 or fewer elements is an index error |
| GridHub.PatchPort | src/main/java/org/alfresco/grid/GridHub.java:50-54 | the in-place write of element 3 leaves exactly the patched arguments, and leaves the array untouched when it is too short |
| GridHub.PatchedPortReadsBack | src/main/java/org/alfresco/grid/GridHub.java:43-53 | the patched element reads back as the port |
| GridHub.HubConfiguration | src/main/java/org/alfresco/grid/GridHub.java:47-56 | a failed hub load is reported as the hub wrapper's "Unable to load hub properties" error |
| GridHub.GridHub.Build | src/main/java/org/alfresco/grid/GridHub.java:56-57 | a hub holding the configuration it was built from and the URL it reports, not yet running |
| GridHub.GridHub.Create | src/main/java/org/alfresco/grid/GridHub.java:47-58 | a hub is built from exactly the patched configuration, not yet running, or the construction fails with the error of the load or of the patch |
| GridHub.GridHub.Run | src/main/java/org/alfresco/grid/GridHub.java:68-79 | a start failure becomes "Unable to start the grid"; a success leaves the hub running |
| GridHub.GridHub.Stop | src/main/java/org/alfresco/grid/GridHub.java:81-92 | never reports a failure; the hub stops running only when its shutdown succeeds |
| GridHub.GridHub.CheckPageResponse | src/main/java/org/alfresco/grid/GridHub.java:112-138 | the method, with its local `code = 0`, computes `PageResponse` |
| GridHub.GridHub.IsAlive | src/main/java/org/alfresco/grid/GridHub.java:98-105 | true exactly when the probe answers 200; an exception of the probe escapes |
| Grid.GridNode.Build | src/main/java/org/alfresco/grid/Grid.java:64 | a node that is not running |
| Grid.GridNode.Start | src/main/java/org/alfresco/grid/Grid.java:68 | a start failure is an error; a success leaves the node running |
| Grid.GridNode.Stop | src/main/java/org/alfresco/grid/Grid.java:117 | the node is no longer running |
| Grid.Grid.Init | src/main/java/org/alfresco/grid/Grid.java:49-60 | the fields hold the given flag, hub and node |
| Grid.Grid.ParseGridStatus | src/main/java/org/alfresco/grid/Grid.java:129-156 | 0 without a hub, with an empty URL, or after a protocol or I/O failure; otherwise the status received; any other exception escapes |
| Grid.Grid.IsAlive | src/main/java/org/alfresco/grid/Grid.java:82-93 | true exactly when there is a hub with a URL that answers 200; every failure reads as false |
| Grid.Grid.IsClosed | src/main/java/org/alfresco/grid/Grid.java:99-111 | true exactly when there is a hub with a URL that answers 404; every failure reads as false; never true together with `IsAlive` |
| Grid.Grid.Create | src/main/java/org/alfresco/grid/Grid.java:58-71 | a remote grid holds no hub and no node; a local grid builds the hub and then the node, and starts the hub and then the node only when the probe does not answer 200. The result states the outcome of every failure, including the node failing after the hub was started |
| Grid.Grid.Close | src/main/java/org/alfresco/grid/Grid.java:113-123 | the node, if present, is stopped first; the hub is stopped only when it is present and its own probe answers 200; an exception of that probe escapes after the node was stopped |
| Grid.RemoteGridIsNeitherAliveNorClosed | src/main/java/org/alfresco/grid/Grid.java:129-156 | without a hub the status is 0, and the grid is neither alive nor closed |
| Grid.AliveAgreesWithHub | src/main/java/org/alfresco/grid/Grid.java:82-93 | on a hub with a URL, the grid's liveness agrees with the hub's status check, and a probe exception reads as neither alive nor closed |
| WebDriverFactory.FormatLocale | src/main/java/org/alfresco/grid/WebDriverFactory.java:189-193 | a null locale is an error; an empty country gives the language alone; otherwise the language, "-" and the `toLowerCase()` of the country |
| WebDriverFactory.FormatLocaleIgnoresCountryCase | src/main/java/org/alfresco/grid/WebDriverFactory.java:192 | an ASCII country in upper case formats like the same country as given |
| WebDriverFactory.FormatLocaleCountryIsLowerCase | src/main/java/org/alfresco/grid/WebDriverFactory.java:192 | the country part of a formatted locale has no ASCII capital |
| WebDriverFactory.CallerValue | src/main/java/org/alfresco/grid/WebDriverFactory.java:163-176 | a `Language` value goes through `formatLocale`, a `DownloadFolderList` value is parsed as an int, every other value is the raw (possibly null) string; states exactly which values fail, with a class-cast, locale or number error |
| WebDriverFactory.CallerLayer | src/main/java/org/alfresco/grid/WebDriverFactory.java:158-179 | the caller loop in a given order on top of the earlier layers; `CallerLayerFailsIffBadValue`, `CallerLayerKeys`, `CallerLayerLastWriterWins`, `CallerLayerOrderIndependent`, `CallerWins` and `CallerLayerKeepsError` state its properties, and `ApplyCallerPreferences` is proved to compute it |
| WebDriverFactory.CallerLayerFailsIffBadValue | src/main/java/org/alfresco/grid/WebDriverFactory.java:158-179 | the caller loop succeeds exactly when every visited value converts; otherwise it reports the error of the first visited value that fails |
| WebDriverFactory.CallerLayerKeys | src/main/java/org/alfresco/grid/WebDriverFactory.java:161-178 | the caller loop writes exactly the firefox keys of the visited preferences, and every other key keeps its earlier value |
| WebDriverFactory.CallerLayerLastWriterWins | src/main/java/org/alfresco/grid/WebDriverFactory.java:161-178 | each written key holds the converted value of the last preference visited that maps onto it |
| WebDriverFactory.CallerLayerOrderIndependent | src/main/java/org/alfresco/grid/WebDriverFactory.java:160-161 | with distinct firefox keys, whether the loop succeeds, and what it writes, does not depend on the order the key set is visited in |
| WebDriverFactory.SameLayer | src/main/java/org/alfresco/grid/WebDriverFactory.java:160-161 | two successful visiting orders over distinct firefox keys give the same preferences |
| WebDriverFactory.SameEntries | src/main/java/org/alfresco/grid/WebDriverFactory.java:161-178 | two maps that extend the same base on the same written keys, and agree on them, are equal |
| WebDriverFactory.CallerWins | src/main/java/org/alfresco/grid/WebDriverFactory.java:158-179 | with distinct firefox keys, every caller preference ends up in the profile, converted, over any earlier layer |
| WebDriverFactory.CallerLayerKeepsError | src/main/java/org/alfresco/grid/WebDriverFactory.java:161-178 | once the loop has failed, visiting more preferences does not change the error |
| WebDriverFactory.CreateProfilePreferences | src/main/java/org/alfresco/grid/WebDriverFactory.java:131-134 | the two preferences `createProfile` writes; `FixedPreferenceValues` and `CreateProfile` state them |
| WebDriverFactory.UpdatesDisabled | src/main/java/org/alfresco/grid/WebDriverFactory.java:147-149 | `app.update.auto` and `app.update.enabled` written false; `FixedPreferenceValues` and `RemoteFireFoxIgnoresCallerPreferences` state them |
| WebDriverFactory.DownloadPreferences | src/main/java/org/alfresco/grid/WebDriverFactory.java:151-156 | folder list 2, the download directory and the mime types, as possibly null strings; `FixedPreferenceValues` states them |
| WebDriverFactory.FixedPreferences | src/main/java/org/alfresco/grid/WebDriverFactory.java:132-155 | the layers under the caller's map hold the two `createProfile` keys, the two auto-update keys and, for a download profile, the three download keys |
| WebDriverFactory.FixedPreferenceValues | src/main/java/org/alfresco/grid/WebDriverFactory.java:131-156 | the layers under the caller's map hold the `createProfile` values, auto-update off, and for a download profile folder list 2, the download directory and the mime types |
| WebDriverFactory.FireFoxPreferences | src/main/java/org/alfresco/grid/WebDriverFactory.java:143-179 | the preferences `getFireFox` writes, the caller's map last and only when it is non-null and non-empty; `FireFoxLayers`, `FireFoxCallerPreferencesWin` and `FireFoxFailsIffBadValue` state its properties |
| WebDriverFactory.FireFoxDriver | src/main/java/org/alfresco/grid/WebDriverFactory.java:143-182 | a Firefox driver whose capabilities carry a profile with those preferences and native events on, or the caller layer's error; `GetFireFox` is proved to build it |
| WebDriverFactory.FirefoxCapabilities | src/main/java/org/alfresco/grid/WebDriverFactory.java:145-180 | the browser name and the profile handed to `FirefoxDriver` |
| WebDriverFactory.RemoteFireFoxCapabilities | src/main/java/org/alfresco/grid/WebDriverFactory.java:86-94 | the browser name, JavaScript on and the profile with only the `createProfile` and auto-update preferences; `RemoteFireFoxIgnoresCallerPreferences` states it |
| WebDriverFactory.RemoteChromeCapabilities | src/main/java/org/alfresco/grid/WebDriverFactory.java:97-100 | the Chrome browser name and options holding `--kiosk` |
| WebDriverFactory.IeCapabilities | src/main/java/org/alfresco/grid/WebDriverFactory.java:103-104 | the IE browser name and the ignore-security-domains capability set true |
| WebDriverFactory.RemoteDriver | src/main/java/org/alfresco/grid/WebDriverFactory.java:200-220 | fails when the grid URL is null or empty, then when it is malformed; otherwise a remote driver bound to that URL with a local file detector and the given capabilities plus `takesScreenshot = true` |
| WebDriverFactory.Registered | src/main/java/org/alfresco/grid/WebDriverFactory.java:232-275 | a present key is never overwritten; an absent key is added with the value; adding a null value is a `NullPointerException` |
| WebDriverFactory.Build | src/main/java/org/alfresco/grid/WebDriverFactory.java:71-111 | the `getObject` dispatch; `ExactlyRemoteVariantsAreRemote`, `RemoteRequiresGridUrl`, `LocalDriversNeedPath`, `IeChecksChromeServerPath`, `FireFoxFailsIffBadValue` and `RemoteFireFoxIgnoresCallerPreferences` state what it gives, and `GetObject` is proved to compute it |
| WebDriverFactory.SystemAfter | src/main/java/org/alfresco/grid/WebDriverFactory.java:226-279 | the system properties after `getObject`; `SystemPropertiesAreNeverOverwritten` states that it only adds the browser's driver path and never overwrites, and `GetObject` is proved to leave it |
| WebDriverFactory.SystemPropertiesAreNeverOverwritten | src/main/java/org/alfresco/grid/WebDriverFactory.java:226-279 | `getObject` never overwrites a system property, and can only add the Chrome, Safari or IE driver path, for that browser, with the configured value |
| WebDriverFactory.RemoteRequiresGridUrl | src/main/java/org/alfresco/grid/WebDriverFactory.java:200-215 | every remote variant fails when the grid URL is null or empty, or when it is malformed, and touches no system property |
| WebDriverFactory.ExactlyRemoteVariantsAreRemote | src/main/java/org/alfresco/grid/WebDriverFactory.java:200-220 | a built driver is remote exactly for the remote variants; each remote driver uses the configured URL, takes screenshots and has a local file detector |
| WebDriverFactory.LocalDriversNeedPath | src/main/java/org/alfresco/grid/WebDriverFactory.java:226-259 | Chrome and Safari succeed exactly when their configured path is non-empty, and register nothing when it is empty |
| WebDriverFactory.IeChecksChromeServerPath | src/main/java/org/alfresco/grid/WebDriverFactory.java:265-279 | IE fails when the chrome path is empty, whatever the IE path is; with a chrome path it succeeds exactly when the IE property is already set or an IE path is configured |
| WebDriverFactory.FireFoxLayers | src/main/java/org/alfresco/grid/WebDriverFactory.java:116-179 | a local Firefox profile holds the `createProfile` preferences, auto-update off and, for FireFoxDownloadToDir, the download preferences; among these, only keys the caller's map writes differ from those defaults |
| WebDriverFactory.FireFoxCallerPreferencesWin | src/main/java/org/alfresco/grid/WebDriverFactory.java:158-179 | with distinct firefox keys, every caller preference is in the local Firefox profile, converted |
| WebDriverFactory.FireFoxFailsIffBadValue | src/main/java/org/alfresco/grid/WebDriverFactory.java:158-179 | a local Firefox driver fails exactly when some caller value cannot be converted, whatever the visiting order |
| WebDriverFactory.RemoteFireFoxIgnoresCallerPreferences | src/main/java/org/alfresco/grid/WebDriverFactory.java:85-95 | the RemoteFireFox driver depends only on the grid URL; its profile has the `createProfile` preferences and auto-update off, and never the caller's or the download preferences |
| WebDriverFactory.FirefoxProfile.SetPreference | src/main/java/org/alfresco/grid/WebDriverFactory.java:132-148 | writes one preference and changes nothing else |
| WebDriverFactory.FirefoxProfile.SetEnableNativeEvents | src/main/java/org/alfresco/grid/WebDriverFactory.java:150 | sets native events and changes no preference |
| WebDriverFactory.CreateProfile | src/main/java/org/alfresco/grid/WebDriverFactory.java:116-136 | a fresh profile holding exactly the retry-interval and session-history preferences |
| WebDriverFactory.ApplyCallerPreferences | src/main/java/org/alfresco/grid/WebDriverFactory.java:158-179 | the loop over the key set visits every key once, in some order, and leaves the profile the caller-layer specification gives for that order; on a failure it reports the error of the first value that does not convert and leaves the preferences written before it |
| WebDriverFactory.SystemProperties.PutIfAbsent | src/main/java/org/alfresco/grid/WebDriverFactory.java:232-236 | the system properties after `if (!containsKey(k)) put(k, v)`, as `Registered` states them |
| WebDriverFactory.WebDriverFactory.constructor | src/main/java/org/alfresco/grid/WebDriverFactory.java:63-69 | a new factory has every field null |
| WebDriverFactory.WebDriverFactory.Configure | src/main/java/org/alfresco/grid/WebDriverFactory.java:63-69 | a factory whose fields hold the given settings |
| WebDriverFactory.WebDriverFactory.Configured | src/main/java/org/alfresco/grid/WebDriverFactory.java:63-69 | the settings the seven fields hold; each setter is stated as changing one of them |
| WebDriverFactory.WebDriverFactory.SetGridUrl | src/main/java/org/alfresco/grid/WebDriverFactory.java:286-289 | changes the grid URL and nothing else |
| WebDriverFactory.WebDriverFactory.SetChromeServerPath | src/main/java/org/alfresco/grid/WebDriverFactory.java:296-299 | changes the chrome path and nothing else |
| WebDriverFactory.WebDriverFactory.SetIeServerPath | src/main/java/org/alfresco/grid/WebDriverFactory.java:306-309 | changes the IE path and nothing else |
| WebDriverFactory.WebDriverFactory.SetDownloadDirectory | src/main/java/org/alfresco/grid/WebDriverFactory.java:311-314 | changes the download directory and nothing else |
| WebDriverFactory.WebDriverFactory.SetMimeTypes | src/main/java/org/alfresco/grid/WebDriverFactory.java:316-319 | changes the mime types and nothing else |
| WebDriverFactory.WebDriverFactory.GetObject | src/main/java/org/alfresco/grid/WebDriverFactory.java:71-111 | the driver and the new system properties are exactly those the `Build` and `SystemAfter` specification gives for the browser; the lemmas above state their properties |
| WebDriverFactory.WebDriverFactory.GetServerDriver | src/main/java/org/alfresco/grid/WebDriverFactory.java:77-84 | the Chrome, IE and Safari cases of `getObject` agree with the specification, including the system properties |
| WebDriverFactory.WebDriverFactory.GetDriver | src/main/java/org/alfresco/grid/WebDriverFactory.java:71-111 | the other cases agree with the specification, whatever the system properties |
| WebDriverFactory.WebDriverFactory.GetRemoteFireFox | src/main/java/org/alfresco/grid/WebDriverFactory.java:85-95 | the remote Firefox driver built from a fresh profile with auto-update off and native events on |
| WebDriverFactory.WebDriverFactory.GetDefaultObject | src/main/java/org/alfresco/grid/WebDriverFactory.java:323-326 | `getObject()` is `getObject(RemoteFireFox)` and leaves the system properties unchanged |
| WebDriverFactory.WebDriverFactory.GetFireFox | src/main/java/org/alfresco/grid/WebDriverFactory.java:143-182 | the profile is written layer by layer, the caller's map last, and the driver is exactly the one `FireFoxDriver` specifies |
| WebDriverFactory.WebDriverFactory.GetChromeDriver | src/main/java/org/alfresco/grid/WebDriverFactory.java:226-241 | fails when the chrome path is null or empty; otherwise registers it only if absent and gives a Chrome driver with `--kiosk` |
| WebDriverFactory.WebDriverFactory.GetSafariDriver | src/main/java/org/alfresco/grid/WebDriverFactory.java:247-259 | fails when the Safari path is null or empty; otherwise registers it only if absent and gives a Safari driver |
| WebDriverFactory.WebDriverFactory.GetInternetExplorerDriver | src/main/java/org/alfresco/grid/WebDriverFactory.java:265-279 | fails when the chrome path is null or empty; otherwise registers the IE path only if absent (a null one is a `NullPointerException`) and gives an IE driver that ignores security domains |

## Left out

- HTTP access through Apache HttpClient (in `Grid.parseGridStatus` and `GridHub.checkPageResponse`) is a `Probe` parameter. Releasing the connection, logging and `Thread.interrupted()` have no observable effect in the model and are not modelled.
- Selenium objects (`Hub`, `GridHubConfiguration`, the driver classes, `ProfilesIni`, `DesiredCapabilities`) are not modelled. A driver is the data handed to its constructor. The capabilities that Selenium's `DesiredCapabilities.firefox()`/`chrome()`/`internetExplorer()` fill in by themselves, and the defaults of a new `FirefoxProfile`, are left out. A preference written with a null string (a null `downloadDirectory` or `mimeTypes` for FireFoxDownloadToDir, or a null caller value) is recorded as a null string preference; whether Selenium's `setPreference` accepts it is not modelled.
- Hub and node failures are outside the model: the URL a built hub reports (`hubUrl`), whether a start or stop succeeds, and whether the node's constructor succeeds are parameters.
- `java.net.URL` parsing is a `wellFormed` predicate.
- `StrSubstitutor.replace` is a `Substitution` parameter: which placeholders it resolves, and to what, is not modelled. Its one failure, the `IllegalStateException` of a cyclic reference, is modelled as the parameter giving nothing.
- Class-loader lookup and `Properties.load` are a `resources` function over four outcomes. The line format of properties files (escapes, continuation lines) is not modelled; which files are malformed is part of that input.
- Java's Unicode case mapping is modelled on ASCII letters and four non-ASCII characters: dotless ı and long ſ (upper case I and S), dotted İ (lower case i as a character, "i" followed by U+0307 in a string) and the Kelvin sign (lower case k). These are all the characters that `equalsIgnoreCase` can match with an ASCII letter, so the browser parser is exact. Other non-ASCII letters keep their case in `UpperChar`, `LowerChar`, `ToUpper` and `ToLower`, which differs from Java for a country code outside ASCII.
- `toLowerCase()` ignores the default locale (a Turkish default locale lower-cases I to dotless ı).
- Common.ParseInt: accepts ASCII digits only, whereas `Integer.valueOf` also accepts the other Unicode decimal digits (those `Character.digit` accepts).
- GridNode.java is not part of this model. `Grid` uses a node with only a `running` state; whether its construction and its start succeed are parameters, and stopping it always succeeds.
- The test file WebDriverFactoryTest.java is not modelled: it needs real browsers and a grid.
- The Spring `FactoryBean` plumbing (`getObjectType`, `isSingleton`) and the getters are left out.
- `createProfile(String...)` with a profile name is not modelled, since no caller passes one.
- A null `Browser` (a `NullPointerException` in the `switch`) and the `default` branch are not modelled: the enumeration is closed and each of its nine constants has a case.
- GridProperties.Parameter: it is the real regular-expression split of `key.split("grid.")`, which ends the parameter at the next match of `grid` followed by any character. An array without element 1 (a key made only of back-to-back matches, such as `grid.`, `grid.grid.` or `grid.gridx`, which splits into an empty array) is folded into the blank-parameter error.
- GridHub.GridHub.Create: the model does not prove that element 3 of the hub arguments is the port; the hub's key order is unspecified.
- Grid.Grid.Close: a failing node stop is not modelled.
