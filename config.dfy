/**
 * app/config.py: the upload size limit and the database URL each configuration
 * class settles on when it is defined. The environment variable DATABASE_URL is
 * a parameter: `None` when it is unset.
 */
module Config {
  import opened Wrappers
  import opened Text

  /** The scheme Heroku writes into DATABASE_URL, which SQLAlchemy no longer accepts. */
  const LegacyScheme := "postgres://"
  /** The scheme SQLAlchemy expects for PostgreSQL. */
  const PostgresqlScheme := "postgresql://"
  const ProductionDefault := "sqlite:///prod.db"
  const DevelopmentDefault := "sqlite:///dev.db"

  /** BaseConfig.MAX_CONTENT_LENGTH: the largest request body accepted, 16 MiB. */
  function MaxContentLength(): (n: nat)
    ensures n == 16_777_216
  {
    16 * 1024 * 1024
  }

  /** Python's `s.replace(pat, rep, 1)`: replaces the leftmost occurrence of `pat`, if any. */
  function ReplaceFirst(s: string, pat: string, rep: string): string
    decreases |s|
  {
    if StartsWith(s, pat) then rep + s[|pat|..]
    else if |s| == 0 then s
    else [s[0]] + ReplaceFirst(s[1..], pat, rep)
  }

  /** DevelopmentConfig.SQLALCHEMY_DATABASE_URI: DATABASE_URL verbatim, no rewrite. */
  function DevelopmentDatabaseUri(env: Option<string>): (uri: string)
    ensures env.None? ==> uri == DevelopmentDefault
    ensures env.Some? ==> uri == env.value
  {
    match env
    case None => DevelopmentDefault
    case Some(raw) => raw
  }

  /**
   * ProductionConfig.SQLALCHEMY_DATABASE_URI: a non-empty DATABASE_URL that starts
   * with the legacy scheme has its first occurrence of it replaced; an unset or empty
   * one falls back to the SQLite default.
   */
  function ProductionDatabaseUri(env: Option<string>): (uri: string)
    ensures env.None? || env == Some("") ==> uri == ProductionDefault
    ensures env.Some? && StartsWith(env.value, LegacyScheme) ==>
              StartsWith(uri, PostgresqlScheme) &&
              uri[|PostgresqlScheme|..] == env.value[|LegacyScheme|..]
    ensures env.Some? && env.value != "" && !StartsWith(env.value, LegacyScheme) ==>
              uri == env.value
  {
    var raw :=
      if env.Some? && env.value != "" && StartsWith(env.value, LegacyScheme)
      then Some(ReplaceFirst(env.value, LegacyScheme, PostgresqlScheme))
      else env;
    if raw.Some? && raw.value != "" then raw.value else ProductionDefault
  }

  /** A URL that already has the PostgreSQL scheme does not start with the legacy one. */
  lemma PostgresqlIsNotLegacy(s: string)
    requires StartsWith(s, PostgresqlScheme)
    ensures !StartsWith(s, LegacyScheme)
  {
    assert s[8] == PostgresqlScheme[8] == 'q';
    assert LegacyScheme[8] == ':';
  }

  /** Whatever DATABASE_URL holds, the production URL never carries the legacy scheme. */
  lemma ProductionUriNeverLegacy(env: Option<string>)
    ensures !StartsWith(ProductionDatabaseUri(env), LegacyScheme)
    ensures ProductionDatabaseUri(env) != ""
  {
    var uri := ProductionDatabaseUri(env);
    if env.Some? && StartsWith(env.value, LegacyScheme) {
      PostgresqlIsNotLegacy(uri);
    } else if env.None? || env == Some("") {
      assert uri[..|LegacyScheme|][0] == 's';
    }
  }

  /**
   * Feeding the production URL back in as DATABASE_URL gives the same URL: the
   * rewrite and the default are idempotent.
   */
  lemma ProductionUriIdempotent(env: Option<string>)
    ensures ProductionDatabaseUri(Some(ProductionDatabaseUri(env))) == ProductionDatabaseUri(env)
  {
    ProductionUriNeverLegacy(env);
  }

  /** An already-normalised `postgresql://` URL passes through unchanged. */
  lemma PostgresqlUriUnchanged(raw: string)
    requires StartsWith(raw, PostgresqlScheme)
    ensures ProductionDatabaseUri(Some(raw)) == raw
  {
    PostgresqlIsNotLegacy(raw);
  }
}
