/** The closed set of web driver implementations and the parser from their names. */
module Browser {
  import opened Common

  datatype Browser =
    | FireFox
    | FireFoxDownloadToDir
    | Chrome
    | IE
    | HtmlUnit
    | Safari
    | RemoteFireFox
    | RemoteChrome
    | RemoteIE

  /** Enum.name(): the constant as declared. */
  function Name(b: Browser): string
  {
    match b
    case FireFox => "FireFox"
    case FireFoxDownloadToDir => "FireFoxDownloadToDir"
    case Chrome => "Chrome"
    case IE => "IE"
    case HtmlUnit => "HtmlUnit"
    case Safari => "Safari"
    case RemoteFireFox => "RemoteFireFox"
    case RemoteChrome => "RemoteChrome"
    case RemoteIE => "RemoteIE"
  }

  /** Browser.values(), in declaration order. */
  function Values(): seq<Browser>
  {
    [FireFox, FireFoxDownloadToDir, Chrome, IE, HtmlUnit, Safari, RemoteFireFox, RemoteChrome, RemoteIE]
  }

  /** values() lists every constant. */
  lemma ValuesComplete(b: Browser)
    ensures b in Values()
  {
    match b
    case FireFox =>
    case FireFoxDownloadToDir =>
    case Chrome =>
    case IE =>
    case HtmlUnit =>
    case Safari =>
    case RemoteFireFox =>
    case RemoteChrome =>
    case RemoteIE =>
  }

  /** Every name is a non-empty word of ASCII letters. */
  lemma NameIsWord(b: Browser)
    ensures |Name(b)| > 0
    ensures forall i :: 0 <= i < |Name(b)| ==> IsAsciiUpper(Name(b)[i]) || IsAsciiLower(Name(b)[i])
  {
  }

  /** The two exceptions fromString can throw. */
  datatype ParseError =
    | ValueRequired  // UnsupportedOperationException: null or blank input
    | NoMatch        // IllegalArgumentException: no constant has that name

  /** The search loop over `vs`: the first constant whose name equals `value` ignoring case. */
  function Find(value: string, vs: seq<Browser>): (r: Option<Browser>)
    ensures r.Some? ==> r.value in vs && EqualsIgnoreCase(value, Name(r.value))
    ensures r.None? ==> forall b :: b in vs ==> !EqualsIgnoreCase(value, Name(b))
  {
    if vs == [] then None
    else if EqualsIgnoreCase(value, Name(vs[0])) then Some(vs[0])
    else Find(value, vs[1..])
  }

  /** Browser.fromString; `None` stands for a null argument. */
  function FromString(value: Option<string>): Result<Browser, ParseError>
  {
    if value.None? || TrimsToEmpty(value.value) then Err(ValueRequired)
    else match Find(value.value, Values())
      case Some(b) => Ok(b)
      case None => Err(NoMatch)
  }

  // ---------------------------------------------------------------------------
  // Properties of the parser

  /** Missing or blank (after trimming) input is rejected before any name is compared. */
  lemma BlankIsValueRequired(value: Option<string>)
    requires value.None? || TrimsToEmpty(value.value)
    ensures FromString(value) == Err(ValueRequired)
  {
  }

  /** No two constants have names that are equal ignoring case. */
  lemma NamesDistinctIgnoringCase(a: Browser, b: Browser)
    requires a != b
    ensures !EqualsIgnoreCase(Name(a), Name(b))
  {
    // the only names of equal length, Chrome/Safari and HtmlUnit/RemoteIE, differ in
    // their first letter
    if |Name(a)| == |Name(b)| {
      assert !CharEqualsIgnoreCase(Name(a)[0], Name(b)[0]);
    }
  }

  /** A string equal to a name ignoring case is not blank. */
  lemma MatchIsNotBlank(s: string, b: Browser)
    requires EqualsIgnoreCase(s, Name(b))
    ensures !TrimsToEmpty(s)
  {
    NameIsWord(b);
    CaseChangeEqualsIgnoringCase(s[0]);
    assert CharEqualsIgnoreCase(s[0], Name(b)[0]);
  }

  /** The parser accepts exactly the strings equal to a name ignoring case, and returns
      that constant, which is unique. */
  lemma MatchesExactlyIgnoringCase(s: string, b: Browser)
    ensures FromString(Some(s)) == Ok(b) <==> EqualsIgnoreCase(s, Name(b))
  {
    if EqualsIgnoreCase(s, Name(b)) {
      MatchIsNotBlank(s, b);
      ValuesComplete(b);
      var r := Find(s, Values());
      if r.Some? && r.value != b {
        EqualsIgnoreCaseTransitive(Name(r.value), s, Name(b));
        NamesDistinctIgnoringCase(r.value, b);
      }
    }
  }

  /** Round trip: every constant is recovered from its own name. */
  lemma RoundTrip(b: Browser)
    ensures FromString(Some(Name(b))) == Ok(b)
  {
    assert EqualsIgnoreCase(Name(b), Name(b));
    MatchesExactlyIgnoringCase(Name(b), b);
  }

  /** Case does not matter: the upper- and lower-case spellings of a name both parse to it. */
  lemma CaseInsensitive(b: Browser)
    ensures FromString(Some(ToUpper(Name(b)))) == Ok(b)
    ensures FromString(Some(ToLower(Name(b)))) == Ok(b)
  {
    NameIsWord(b);
    assert '\U{130}' !in Name(b);
    CaseChangesEqualIgnoringCase(Name(b));
    EqualsIgnoreCaseSymmetric(ToUpper(Name(b)), Name(b));
    MatchesExactlyIgnoringCase(ToUpper(Name(b)), b);
    MatchesExactlyIgnoringCase(ToLower(Name(b)), b);
  }

  /** Non-blank input that names no constant is an IllegalArgumentException. */
  lemma UnknownIsNoMatch(s: string)
    requires !TrimsToEmpty(s)
    requires forall b: Browser :: !EqualsIgnoreCase(s, Name(b))
    ensures FromString(Some(s)) == Err(NoMatch)
  {
  }

  /** Trimming is only used for the blank test: a name with spaces before or after it
      matches nothing. */
  lemma PaddedNameIsNoMatch(b: Browser, before: string, after: string)
    requires before + after != []
    requires forall i :: 0 <= i < |before| ==> before[i] == ' '
    requires forall i :: 0 <= i < |after| ==> after[i] == ' '
    ensures FromString(Some(before + Name(b) + after)) == Err(NoMatch)
  {
    var s := before + Name(b) + after;
    NameIsWord(b);
    assert s[|before|] == Name(b)[0];
    var k := if before != [] then 0 else |s| - 1;
    assert s[k] == ' ';
    CaseChangeEqualsIgnoringCase(' ');
    forall c: Browser
      ensures !EqualsIgnoreCase(s, Name(c))
    {
      NameIsWord(c);
    }
  }

  /** Helper: equality ignoring case is transitive, since two characters are equal
      ignoring case exactly when their lower-cased upper cases agree. */
  lemma EqualsIgnoreCaseTransitive(x: string, s: string, y: string)
    requires EqualsIgnoreCase(s, x) && EqualsIgnoreCase(s, y)
    ensures EqualsIgnoreCase(x, y)
  {
    EqualsIgnoreCaseSymmetric(s, x);
    forall i | 0 <= i < |x|
      ensures CharEqualsIgnoreCase(x[i], y[i])
    {
      assert CharEqualsIgnoreCase(s[i], x[i]) && CharEqualsIgnoreCase(s[i], y[i]);
    }
  }

  lemma EqualsIgnoreCaseSymmetric(x: string, y: string)
    requires EqualsIgnoreCase(x, y)
    ensures EqualsIgnoreCase(y, x)
  {
    forall i | 0 <= i < |x|
      ensures CharEqualsIgnoreCase(y[i], x[i])
    {
      CharEqualsIgnoreCaseIsFolding(x[i], y[i]);
      CharEqualsIgnoreCaseIsFolding(y[i], x[i]);
    }
  }
}
