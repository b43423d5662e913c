/**
 * Application settings (backend/core/config.py): the field defaults, the required
 * fields, and the validator that turns the comma-separated ALLOWED_ORIGINS string
 * into a list of origins.
 */
module Config {
  import opened Wrappers

  const Comma: char := ','

  /** Python's `s.split(sep)` for a one-character separator: every piece is kept, empty ones too. */
  function Split(s: string, sep: char): (pieces: seq<string>)
    ensures |pieces| >= 1
    decreases |s|
  {
    if |s| == 0 then [""]
    else
      var rest := Split(s[1..], sep);
      if s[0] == sep then [""] + rest
      else [[s[0]] + rest[0]] + rest[1..]
  }

  /** `sep.join(pieces)`: the pieces with one separator between neighbours. */
  function Join(pieces: seq<string>, sep: char): string
    decreases |pieces|
  {
    if |pieces| == 0 then ""
    else if |pieces| == 1 then pieces[0]
    else pieces[0] + [sep] + Join(pieces[1..], sep)
  }

  /** The number of occurrences of `c` in `s`. */
  function Occurrences(s: string, c: char): nat
    decreases |s|
  {
    if |s| == 0 then 0 else (if s[0] == c then 1 else 0) + Occurrences(s[1..], c)
  }

  /** `Settings.parse_allowed_origins`: an empty string is no origins, otherwise a split on commas. */
  function ParseAllowedOrigins(v: string): (origins: seq<string>)
    ensures v == "" <==> origins == []
  {
    if v == "" then [] else Split(v, Comma)
  }

  lemma {:induction false} SplitJoin(s: string, sep: char)
    ensures Join(Split(s, sep), sep) == s
    decreases |s|
  {
    if |s| > 0 {
      var rest := Split(s[1..], sep);
      SplitJoin(s[1..], sep);
      if s[0] == sep {
        assert Split(s, sep) == [""] + rest;
        assert ([""] + rest)[1..] == rest;
      } else {
        var pieces := [[s[0]] + rest[0]] + rest[1..];
        assert Split(s, sep) == pieces;
        if |rest| == 1 {
          assert Join(rest, sep) == rest[0];
        } else {
          assert pieces[1..] == rest[1..];
          assert Join(rest, sep) == rest[0] + [sep] + Join(rest[1..], sep);
        }
      }
    }
  }

  lemma {:induction false} SplitPiecesLackSeparator(s: string, sep: char)
    ensures forall i :: 0 <= i < |Split(s, sep)| ==> sep !in Split(s, sep)[i]
    decreases |s|
  {
    if |s| > 0 {
      SplitPiecesLackSeparator(s[1..], sep);
      var rest := Split(s[1..], sep);
      if s[0] != sep {
        assert sep !in [s[0]] + rest[0];
      }
    }
  }

  lemma {:induction false} SplitLength(s: string, sep: char)
    ensures |Split(s, sep)| == Occurrences(s, sep) + 1
    decreases |s|
  {
    if |s| > 0 {
      SplitLength(s[1..], sep);
    }
  }

  /** Splitting a string with no separator in it gives that string alone. */
  lemma {:induction false} SplitWithoutSeparator(a: string, sep: char)
    requires sep !in a
    ensures Split(a, sep) == [a]
    decreases |a|
  {
    if |a| > 0 {
      assert sep !in a[1..] by {
        forall i | 0 <= i < |a[1..]| ensures a[1..][i] != sep { assert a[1..][i] == a[i + 1]; }
      }
      SplitWithoutSeparator(a[1..], sep);
      assert [a[0]] + a[1..] == a;
    }
  }

  /** Splitting `a + sep + b`, when `a` holds no separator, cuts exactly at that separator. */
  lemma {:induction false} SplitAtFirstSeparator(a: string, sep: char, b: string)
    requires sep !in a
    ensures Split(a + [sep] + b, sep) == [a] + Split(b, sep)
    decreases |a|
  {
    var s := a + [sep] + b;
    if |a| == 0 {
      assert s[1..] == b;
    } else {
      assert s[1..] == a[1..] + [sep] + b;
      assert sep !in a[1..] by {
        forall i | 0 <= i < |a[1..]| ensures a[1..][i] != sep { assert a[1..][i] == a[i + 1]; }
      }
      SplitAtFirstSeparator(a[1..], sep, b);
      assert [a[0]] + a[1..] == a;
    }
  }

  lemma {:induction false} JoinSplit(pieces: seq<string>, sep: char)
    requires |pieces| >= 1
    requires forall i :: 0 <= i < |pieces| ==> sep !in pieces[i]
    ensures Split(Join(pieces, sep), sep) == pieces
    decreases |pieces|
  {
    if |pieces| == 1 {
      SplitWithoutSeparator(pieces[0], sep);
    } else {
      JoinSplit(pieces[1..], sep);
      SplitAtFirstSeparator(pieces[0], sep, Join(pieces[1..], sep));
      assert [pieces[0]] + pieces[1..] == pieces;
    }
  }

  /** A non-empty ALLOWED_ORIGINS value is given back exactly by joining its origins with commas. */
  lemma AllowedOriginsRoundTrip(v: string)
    requires v != ""
    ensures Join(ParseAllowedOrigins(v), Comma) == v
  {
    SplitJoin(v, Comma);
  }

  /** No parsed origin contains a comma, and empty pieces are kept: one origin per comma, plus one. */
  lemma AllowedOriginsPieces(v: string)
    ensures forall i :: 0 <= i < |ParseAllowedOrigins(v)| ==> Comma !in ParseAllowedOrigins(v)[i]
    ensures v != "" ==> |ParseAllowedOrigins(v)| == Occurrences(v, Comma) + 1
  {
    if v != "" {
      SplitPiecesLackSeparator(v, Comma);
      SplitLength(v, Comma);
    }
  }

  /**
   * The other direction of the round trip: a list of comma-free origins joined with commas
   * parses back to that list, except the list holding only the empty string, which joins to
   * "" and so parses to no origins.
   */
  lemma AllowedOriginsFromList(origins: seq<string>)
    requires |origins| >= 1 && origins != [""]
    requires forall i :: 0 <= i < |origins| ==> Comma !in origins[i]
    ensures ParseAllowedOrigins(Join(origins, Comma)) == origins
  {
    JoinSplit(origins, Comma);
  }

  /** The settings after validation; ALLOWED_ORIGINS has become a list. */
  datatype Settings = Settings(
    apiPrefix: string,
    debug: bool,
    databaseUrl: string,
    allowedOrigins: seq<string>,
    openaiApiKey: string,
    geminiApiKey: string)

  /** What the environment (or the .env file) supplies for each field, already typed. */
  datatype Environment = Environment(
    apiPrefix: Option<string>,
    debug: Option<bool>,
    databaseUrl: Option<string>,
    allowedOrigins: Option<string>,
    openaiApiKey: Option<string>,
    geminiApiKey: Option<string>)

  const DefaultApiPrefix: string := "/api"
  const DefaultDebug: bool := false
  const DefaultAllowedOrigins: string := ""

  /** The fields declared without a default, in declaration order. */
  const RequiredFields: seq<string> := ["DATABASE_URL", "OPENAI_API_KEY", "GEMINI_API_KEY"]

  /** The names of the required fields (those without a default) that the environment lacks, in declaration order. */
  function MissingFields(env: Environment): seq<string>
  {
    (if env.databaseUrl.None? then ["DATABASE_URL"] else [])
    + (if env.openaiApiKey.None? then ["OPENAI_API_KEY"] else [])
    + (if env.geminiApiKey.None? then ["GEMINI_API_KEY"] else [])
  }

  /**
   * `Settings()`: fields the environment lacks take their defaults; a missing required field
   * is a validation error listing every missing one. The validator also runs on the default
   * ALLOWED_ORIGINS, because settings classes validate defaults.
   */
  function LoadSettings(env: Environment): (r: Result<Settings, seq<string>>)
    ensures r.Success? <==> env.databaseUrl.Some? && env.openaiApiKey.Some? && env.geminiApiKey.Some?
    ensures r.Failure? ==>
      && |r.error| > 0
      && ("DATABASE_URL" in r.error <==> env.databaseUrl.None?)
      && ("OPENAI_API_KEY" in r.error <==> env.openaiApiKey.None?)
      && ("GEMINI_API_KEY" in r.error <==> env.geminiApiKey.None?)
      && (forall x :: x in r.error ==> x in RequiredFields)
      && (forall i, j :: 0 <= i < j < |r.error| ==> r.error[i] != r.error[j])
    ensures r.Success? ==>
      && r.value.apiPrefix == (if env.apiPrefix.Some? then env.apiPrefix.value else DefaultApiPrefix)
      && r.value.debug == (if env.debug.Some? then env.debug.value else DefaultDebug)
      && r.value.allowedOrigins == ParseAllowedOrigins(env.allowedOrigins.GetOr(DefaultAllowedOrigins))
      && r.value.databaseUrl == env.databaseUrl.value
      && r.value.openaiApiKey == env.openaiApiKey.value
      && r.value.geminiApiKey == env.geminiApiKey.value
  {
    var missing := MissingFields(env);
    if missing != [] then Failure(missing)
    else Success(Settings(
      env.apiPrefix.GetOr(DefaultApiPrefix),
      env.debug.GetOr(DefaultDebug),
      env.databaseUrl.value,
      ParseAllowedOrigins(env.allowedOrigins.GetOr(DefaultAllowedOrigins)),
      env.openaiApiKey.value,
      env.geminiApiKey.value))
  }

  /** With only the required fields set, the API prefix is "/api", debugging is off and no origin is allowed. */
  lemma DefaultSettings(databaseUrl: string, openaiApiKey: string, geminiApiKey: string)
    ensures LoadSettings(Environment(None, None, Some(databaseUrl), None, Some(openaiApiKey), Some(geminiApiKey)))
         == Success(Settings("/api", false, databaseUrl, [], openaiApiKey, geminiApiKey))
  {
  }
}
