/**
 * backend/config.py: the settlement-day rule and the environment-string
 * normalisers. The environment is passed in: `raw` is `os.getenv(key)`,
 * None when the variable is unset.
 */
module Config {
  import opened PyBuiltins
  import opened Models

  /** CUTOFF_HOUR_MEZ when the environment does not set it. */
  const DEFAULT_CUTOFF_HOUR: int := 4

  /** START_BUDGET when the environment does not set it. */
  const DEFAULT_START_BUDGET: int := 40_000_000

  /** The payout per league point with and without salaries, when the environment does not set them. */
  const DEFAULT_POINTS_PAYOUT_WITH_SALARIES: int := 30_000
  const DEFAULT_POINTS_PAYOUT_WITHOUT_SALARIES: int := 10_000

  /** CACHE_TTL_SECONDS and NEWS_CACHE_TTL_SECONDS when the environment does not set them. */
  const DEFAULT_CACHE_TTL_SECONDS: int := 60
  const DEFAULT_NEWS_CACHE_TTL_SECONDS: int := 900

  /** `transfer_settlement_date`: before the cut-off hour a timestamp belongs to the previous day. */
  function TransferSettlementDate(t: Instant, cutoffHour: int): (d: int)
    ensures d == t.day || d == t.day - 1
    ensures d == t.day - 1 <==> Hour(t) < cutoffHour
  {
    if Hour(t) < cutoffHour then t.day - 1 else t.day
  }

  /** A later timestamp never settles on an earlier day. */
  lemma SettlementMonotone(a: Instant, b: Instant, cutoffHour: int)
    requires Rank(a) <= Rank(b)
    ensures TransferSettlementDate(a, cutoffHour) <= TransferSettlementDate(b, cutoffHour)
  {
    RankOrdersDays(a, b);
    if a.day == b.day {
      assert a.sec <= b.sec;
      assert Hour(a) <= Hour(b);
    }
  }

  /** `effective_today`, with the clock reading `now` passed in. */
  function EffectiveToday(now: Instant, cutoffHour: int): (d: int)
  {
    if Hour(now) >= cutoffHour then now.day else now.day - 1
  }

  /** The current effective day is the settlement day of the current instant. */
  lemma EffectiveTodayIsSettlementDate(now: Instant, cutoffHour: int)
    ensures EffectiveToday(now, cutoffHour) == TransferSettlementDate(now, cutoffHour)
  {
  }

  /** `os.getenv(key, default)` */
  function GetEnv(raw: Option<string>, default: string): string
  {
    if raw.Some? then raw.value else default
  }

  /** Drops one enclosing pair of double quotes, when there is one. */
  function Unquote(v: string): (r: string)
  {
    if |v| >= 2 && v[0] == '"' && v[|v| - 1] == '"' then v[1..|v| - 1] else v
  }

  /** `_env(key, default)`: strip white space, then drop one enclosing pair of double quotes. */
  function Env(raw: Option<string>, default: string): (r: string)
  {
    Unquote(Strip(GetEnv(raw, default)))
  }

  lemma UnquotePair(s: string)
    ensures Unquote("\"" + s + "\"") == s
  {
    var q := "\"" + s + "\"";
    assert q[1..|q| - 1] == s;
  }

  lemma StripQuoted(q: string)
    requires |q| >= 2 && q[0] == '"' && q[|q| - 1] == '"'
    ensures Strip(q) == q
  {
    StripNoSpace(q);
  }

  /** A quoted value comes back without its quotes, whatever it holds. */
  lemma EnvUnquotes(s: string, default: string)
    ensures Env(Some("\"" + s + "\""), default) == s
  {
    var q := "\"" + s + "\"";
    assert |q| >= 2 && q[0] == '"' && q[|q| - 1] == '"';
    StripQuoted(q);
    UnquotePair(s);
  }

  /** Without an enclosing pair of quotes, `_env` is `strip()` of the value. */
  lemma EnvWithoutQuotes(raw: Option<string>, default: string)
    requires var v := Strip(GetEnv(raw, default));
      |v| < 2 || v[0] != '"' || v[|v| - 1] != '"'
    ensures Env(raw, default) == Strip(GetEnv(raw, default))
  {
  }

  /** A value with no white space at its ends and no enclosing quotes comes back as it is. */
  lemma EnvPlain(raw: Option<string>, default: string)
    requires var v := GetEnv(raw, default);
      && (v == [] || (!IsSpace(v[0]) && !IsSpace(v[|v| - 1])))
      && (|v| < 2 || v[0] != '"' || v[|v| - 1] != '"')
    ensures Env(raw, default) == GetEnv(raw, default)
  {
    StripNoSpace(GetEnv(raw, default));
  }

  /** Only one pair of quotes is removed. */
  lemma EnvRemovesOnePair(x: string)
    requires x == "\"\"x\"\""
    ensures Env(Some(x), "") == "\"x\""
  {
    assert x == "\"" + "\"x\"" + "\"";
    EnvUnquotes("\"x\"", "");
  }

  /** A lone quote is shorter than a pair and is kept. */
  lemma EnvKeepsLoneQuote(x: string)
    requires x == "\""
    ensures Env(Some(x), "") == x
  {
    EnvPlain(Some(x), "");
  }

  /** An unset variable reads as if it held the default. */
  lemma EnvUsesDefault(default: string, other: string)
    ensures Env(None, default) == Env(Some(default), other)
  {
  }

  /** `_bool_env(key, default)`: the default is ignored and the value is not stripped. */
  function BoolEnv(raw: Option<string>, default: bool): (r: bool)
    ensures r ==> raw.Some? && |raw.value| in {1, 3, 4}
  {
    var v := if raw.Some? then raw.value else "";
    var l := Lower(v);
    l == "1" || l == "true" || l == "yes"
  }

  /** An unset variable is false whatever the default says. */
  lemma BoolEnvIgnoresDefault(raw: Option<string>)
    ensures BoolEnv(raw, true) == BoolEnv(raw, false)
    ensures BoolEnv(None, true) == false
  {
  }

  /** Case does not matter, but surrounding white space or quotes make the value false. */
  lemma BoolEnvSpellings()
    ensures BoolEnv(Some("TRUE"), false) && BoolEnv(Some("Yes"), false) && BoolEnv(Some("1"), false)
    ensures !BoolEnv(Some(" true"), true) && !BoolEnv(Some("\"1\""), true) && !BoolEnv(Some("on"), true)
  {
    assert Lower("TRUE") == "true";
    assert Lower("Yes") == "yes";
    assert Lower("1") == "1";
    assert Lower(" true")[0] == ' ';
    assert Lower("\"1\"")[0] == '"';
    assert |Lower("on")| == 2;
  }

  /** DEFAULT_LANGUAGE: the first two letters of `_env("DEFAULT_LANGUAGE", "de")`, lowered; anything but de or en becomes de. */
  function DefaultLanguage(raw: Option<string>): (r: string)
    ensures r == "de" || r == "en"
    ensures var l := Lower(Env(raw, "de"));
      r == "en" <==> |l| >= 2 && l[..2] == "en"
  {
    var l := Lower(Env(raw, "de"));
    var p := if |l| <= 2 then l else l[..2];
    if p == "de" || p == "en" then p else "de"
  }

  /** An unset DEFAULT_LANGUAGE is German. */
  lemma DefaultLanguageUnset(x: string)
    requires x == "de"
    ensures DefaultLanguage(None) == "de"
  {
    assert !IsSpace(x[0]) && !IsSpace(x[|x| - 1]);
    EnvPlain(None, x);
    assert Lower(x) == x;
  }

  /** Quotes are dropped and the case and region suffix are ignored. */
  lemma DefaultLanguageQuotedEnglish(x: string)
    requires x == "\"EN_gb\""
    ensures DefaultLanguage(Some(x)) == "en"
  {
    assert x == "\"" + "EN_gb" + "\"";
    EnvUnquotes("EN_gb", "de");
    var l := Lower("EN_gb");
    assert l[0] == 'e' && l[1] == 'n';
    assert l[..2] == "en";
  }

  /** Any other language falls back to German. */
  lemma DefaultLanguageOther(x: string)
    requires x == "fr"
    ensures DefaultLanguage(Some(x)) == "de"
  {
    assert !IsSpace(x[0]) && !IsSpace(x[|x| - 1]);
    EnvPlain(Some(x), "de");
    var l := Lower(x);
    assert l[0] == 'f';
  }
}
