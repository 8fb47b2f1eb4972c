/**
  Application settings: the run mode, read from the `RUN_MODE` environment
  variable with "development" as the default, is validated before any
  configuration source is built.
 */
module Settings {
  import opened Wrappers

  datatype RunMode = Production | Development

  const RunModeError := "parsing run mode error, valid input development|production"

  /** ASCII lower-casing of one character; every other character is left alone. */
  function LowerChar(c: char): char {
    if 'A' <= c <= 'Z' then (c as int + 32) as char else c
  }

  function AsciiLower(s: string): string {
    seq(|s|, i requires 0 <= i < |s| => LowerChar(s[i]))
  }

  /** `c` writes `w` either as it is or, for a lower-case ASCII letter, as its capital. */
  predicate CharCasing(c: char, w: char) {
    c == w || ('a' <= w <= 'z' && c as int == w as int - 32)
  }

  /** `s` is `word` up to the case of its ASCII letters. */
  predicate IsCasingOf(s: string, word: string) {
    |s| == |word| && forall i :: 0 <= i < |s| ==> CharCasing(s[i], word[i])
  }

  /** `word` has no capital ASCII letter. */
  predicate NoCapitals(word: string) {
    forall i :: 0 <= i < |word| ==> !('A' <= word[i] <= 'Z')
  }

  /** Lower-casing `c` gives a character with no capital form exactly when `c` writes it. */
  lemma LowerCharMatches(c: char, w: char)
    requires !('A' <= w <= 'Z')
    ensures LowerChar(c) == w <==> CharCasing(c, w)
  {
  }

  /** Lower-casing yields a keyword exactly for the casings of that keyword. */
  lemma AsciiLowerIsKeyword(s: string, word: string)
    requires NoCapitals(word)
    ensures AsciiLower(s) == word <==> IsCasingOf(s, word)
  {
    if |s| == |word| {
      forall i | 0 <= i < |s|
        ensures LowerChar(s[i]) == word[i] <==> CharCasing(s[i], word[i])
      {
        LowerCharMatches(s[i], word[i]);
      }
      if IsCasingOf(s, word) {
        assert AsciiLower(s) == word;
      }
      if AsciiLower(s) == word {
        forall i | 0 <= i < |s|
          ensures CharCasing(s[i], word[i])
        {
          assert AsciiLower(s)[i] == word[i];
        }
      }
    }
  }

  /**
    `RunMode::from_str`, a match on the lower-cased input: any casing of
    "production" parses to `Production`, any casing of "development" to
    `Development`, and every other string is rejected with the fixed message,
    each in both directions.
   */
  function FromStr(s: string): (r: Result<RunMode, string>)
    ensures r == Ok(Production) <==> IsCasingOf(s, "production")
    ensures r == Ok(Development) <==> IsCasingOf(s, "development")
    ensures r == Err(RunModeError) <==> !IsCasingOf(s, "production") && !IsCasingOf(s, "development")
  {
    AsciiLowerIsKeyword(s, "production");
    AsciiLowerIsKeyword(s, "development");
    match AsciiLower(s)
    case "production" => Ok(Production)
    case "development" => Ok(Development)
    case _ => Err(RunModeError)
  }

  /** Mixed and upper case are accepted; a prefix of a keyword is not. */
  lemma FromStrExamples()
    ensures FromStr("Production") == Ok(Production)
    ensures FromStr("DEVELOPMENT") == Ok(Development)
    ensures FromStr("prod").Err?
  {
    assert IsCasingOf("Production", "production");
    assert IsCasingOf("DEVELOPMENT", "development");
    assert !IsCasingOf("prod", "production") && !IsCasingOf("prod", "development");
  }

  /** A configuration file source; an optional one may be absent. */
  datatype ConfigSource = ConfigSource(name: string, required: bool)

  /** The two sources, in layering order: the defaults, then the run mode's own file. */
  function ConfigSources(runMode: string): seq<ConfigSource> {
    [ConfigSource("configs/default", true), ConfigSource("config/" + runMode, false)]
  }

  /** What `Settings::new` can fail with; the error after deserializing carries its context. */
  datatype SettingsError =
    | InvalidRunMode(message: string)
    | ConfigBuild(reason: string)
    | Deserialize(context: string, reason: string)

  /**
    `Settings::new`. `runModeVar` is the `RUN_MODE` lookup (`None` when it is
    unset or not valid Unicode); `build` stands for the configuration builder
    over the sources, `deserialize` for `try_deserialize`.
   */
  function New<C, S>(runModeVar: Option<string>, build: seq<ConfigSource> -> Result<C, string>,
                     deserialize: C -> Result<S, string>): (r: Result<S, SettingsError>)
    ensures var mode := runModeVar.GetOr("development");
      && (FromStr(mode).Err? ==> r == Err(InvalidRunMode(FromStr(mode).error)))
      && (FromStr(mode).Ok? && build(ConfigSources(mode)).Err?
          ==> r == Err(ConfigBuild(build(ConfigSources(mode)).error)))
      && (FromStr(mode).Ok? && build(ConfigSources(mode)).Ok?
          && deserialize(build(ConfigSources(mode)).value).Err?
          ==> r == Err(Deserialize("failed to deserialize", deserialize(build(ConfigSources(mode)).value).error)))
      && (r.Ok? <==> FromStr(mode).Ok? && build(ConfigSources(mode)).Ok?
                     && deserialize(build(ConfigSources(mode)).value).Ok?)
      && (r.Ok? ==> r.value == deserialize(build(ConfigSources(mode)).value).value)
  {
    var runMode := runModeVar.GetOr("development");
    match FromStr(runMode)
    case Err(message) => Err(InvalidRunMode(message))
    case Ok(_) =>
      match build(ConfigSources(runMode))
      case Err(why) => Err(ConfigBuild(why))
      case Ok(config) =>
        match deserialize(config)
        case Err(why) => Err(Deserialize("failed to deserialize", why))
        case Ok(settings) => Ok(settings)
  }

  /** An invalid run mode fails before any source is built: neither builder nor deserializer matters. */
  lemma InvalidRunModeStopsEarly<C, S>(v: string, b1: seq<ConfigSource> -> Result<C, string>,
                                      d1: C -> Result<S, string>,
                                      b2: seq<ConfigSource> -> Result<C, string>,
                                      d2: C -> Result<S, string>)
    requires !IsCasingOf(v, "production") && !IsCasingOf(v, "development")
    ensures New(Some(v), b1, d1) == New(Some(v), b2, d2) == Err(InvalidRunMode(RunModeError))
  {
  }

  /** An unset `RUN_MODE` is "development", which validates, so the development sources are built. */
  lemma AbsentRunModeIsDevelopment<C, S>(build: seq<ConfigSource> -> Result<C, string>,
                                        deserialize: C -> Result<S, string>)
    ensures FromStr("development") == Ok(Development)
    ensures New(None, build, deserialize) == New(Some("development"), build, deserialize)
    ensures New(None, build, deserialize).Ok? <==>
            build(ConfigSources("development")).Ok?
            && deserialize(build(ConfigSources("development")).value).Ok?
  {
    assert IsCasingOf("development", "development");
  }
}
