/** Backend/app/core/config.py: the `Config` class attributes, computed once
    from the process environment. */
module Config {
  import opened Common

  /** The environment: a variable is set exactly when it is a key. */
  type Env = map<string, string>

  /** `os.getenv(name)`. */
  function Getenv(env: Env, name: string): (v: Option<string>)
    ensures v.Some? <==> name in env
    ensures v.Some? ==> v.value == env[name]
  {
    if name in env then Some(env[name]) else None
  }

  /** `os.getenv(name, default)`: the default stands in only for an unset
      variable; one set to "" stays "". */
  function GetenvOr(env: Env, name: string, default: string): (v: string)
    ensures name in env ==> v == env[name]
    ensures name !in env ==> v == default
  {
    if name in env then env[name] else default
  }

  /** Python's `a or b` on values that are strings or `None`. */
  function Or(a: Option<string>, b: Option<string>): (r: Option<string>)
    ensures Truthy(a) ==> r == a
    ensures !Truthy(a) ==> r == b
  {
    if Truthy(a) then a else b
  }

  /** `s.replace(pattern, replacement, 1)`: only the leftmost occurrence is replaced. */
  function ReplaceFirst(s: string, pattern: string, replacement: string): (r: string)
    ensures StartsWith(s, pattern) ==> r == replacement + s[|pattern|..]
    decreases |s|
  {
    if StartsWith(s, pattern) then replacement + s[|pattern|..]
    else if s == [] then s
    else [s[0]] + ReplaceFirst(s[1..], pattern, replacement)
  }

  /** `pattern` occurs in `s` at position `i`. */
  predicate OccursAt(s: string, pattern: string, i: nat) {
    i + |pattern| <= |s| && s[i..i + |pattern|] == pattern
  }

  /** A string in which `pattern` does not occur is left as it was. */
  lemma {:induction false} ReplaceFirstWithoutOccurrence(s: string, pattern: string, replacement: string)
    requires forall i: nat :: !OccursAt(s, pattern, i)
    ensures ReplaceFirst(s, pattern, replacement) == s
    decreases |s|
  {
    assert !OccursAt(s, pattern, 0);
    if s != [] {
      forall i: nat
        ensures !OccursAt(s[1..], pattern, i)
      {
        assert !OccursAt(s, pattern, i + 1);
        if i + |pattern| <= |s[1..]| {
          assert s[1..][i..i + |pattern|] == s[i + 1..i + 1 + |pattern|];
        }
      }
      ReplaceFirstWithoutOccurrence(s[1..], pattern, replacement);
    }
  }

  /** The leftmost occurrence, wherever it is, is the one replaced, and the
      text around it is kept. */
  lemma {:induction false} ReplaceFirstAt(s: string, pattern: string, replacement: string, i: nat)
    requires OccursAt(s, pattern, i)
    requires forall j: nat :: j < i ==> !OccursAt(s, pattern, j)
    ensures ReplaceFirst(s, pattern, replacement) == s[..i] + replacement + s[i + |pattern|..]
    decreases i
  {
    if i == 0 {
      assert s[..|pattern|] == s[0..|pattern|];
    } else {
      assert !OccursAt(s, pattern, 0);
      assert s[..|pattern|] == s[0..|pattern|];
      var t := s[1..];
      forall j: nat | j < i - 1
        ensures !OccursAt(t, pattern, j)
      {
        assert !OccursAt(s, pattern, j + 1);
        if j + |pattern| <= |t| {
          assert t[j..j + |pattern|] == s[j + 1..j + 1 + |pattern|];
        }
      }
      assert t[i - 1..i - 1 + |pattern|] == s[i..i + |pattern|];
      ReplaceFirstAt(t, pattern, replacement, i - 1);
      assert t[..i - 1] == s[1..i] && t[i - 1 + |pattern|..] == s[i + |pattern|..];
      assert [s[0]] + s[1..i] == s[..i];
    }
  }

  const PostgresScheme: string := "postgres://"
  const PostgresqlScheme: string := "postgresql://"
  const SqliteFallback: string := "sqlite:///mealy_app.db"

  /** `DATABASE_URL or DATABASE_URI`, before normalisation. */
  function RawDatabaseUrl(env: Env): (u: Option<string>)
    ensures Truthy(Getenv(env, "DATABASE_URL")) ==> u == Some(env["DATABASE_URL"])
    ensures !Truthy(Getenv(env, "DATABASE_URL")) ==> u == Getenv(env, "DATABASE_URI")
  {
    Or(Getenv(env, "DATABASE_URL"), Getenv(env, "DATABASE_URI"))
  }

  /** Lines 9-11: a URL with the old "postgres://" scheme is rewritten to
      "postgresql://" with the rest kept; any other value is kept. */
  function DatabaseUrl(env: Env): (u: Option<string>)
    ensures var raw := RawDatabaseUrl(env);
            raw.Some? && StartsWith(raw.value, PostgresScheme) ==>
              u == Some(PostgresqlScheme + raw.value[|PostgresScheme|..])
    ensures var raw := RawDatabaseUrl(env);
            !(raw.Some? && StartsWith(raw.value, PostgresScheme)) ==> u == raw
  {
    var raw := RawDatabaseUrl(env);
    if Truthy(raw) && StartsWith(raw.value, PostgresScheme) then
      Some(ReplaceFirst(raw.value, PostgresScheme, PostgresqlScheme))
    else raw
  }

  /** `SQLALCHEMY_DATABASE_URI`: the normalised URL, or the SQLite file
      when there is none (unset or empty). */
  function DatabaseUri(env: Env): (uri: string)
    ensures Truthy(DatabaseUrl(env)) ==> uri == DatabaseUrl(env).value
    ensures !Truthy(DatabaseUrl(env)) ==> uri == SqliteFallback
  {
    if Truthy(DatabaseUrl(env)) then DatabaseUrl(env).value else SqliteFallback
  }

  /** Whatever the environment holds, the URI handed to SQLAlchemy never
      uses the old scheme, and a rewritten URL keeps everything after it. */
  lemma DatabaseUriScheme(env: Env)
    ensures !StartsWith(DatabaseUri(env), PostgresScheme)
    ensures var raw := RawDatabaseUrl(env);
            raw.Some? && StartsWith(raw.value, PostgresScheme) ==>
              DatabaseUri(env)[|PostgresqlScheme|..] == raw.value[|PostgresScheme|..]
  {
    var raw := RawDatabaseUrl(env);
    if raw.Some? && StartsWith(raw.value, PostgresScheme) {
      var uri := PostgresqlScheme + raw.value[|PostgresScheme|..];
      assert uri[..|PostgresScheme|] == PostgresqlScheme[..|PostgresScheme|];
      assert uri[..|PostgresScheme|][8] != PostgresScheme[8];
    } else if !Truthy(DatabaseUrl(env)) {
      assert SqliteFallback[0] != PostgresScheme[0];
    }
  }

  /** With neither variable set, or both empty, the SQLite file is used. */
  lemma NoUrlMeansSqlite(env: Env)
    requires !Truthy(Getenv(env, "DATABASE_URL")) && !Truthy(Getenv(env, "DATABASE_URI"))
    ensures DatabaseUri(env) == "sqlite:///mealy_app.db"
  {
  }

  const DefaultSecretKey: string := "supersecretkey"
  const DefaultJwtSecretKey: string := "jwt-secret-key-change-in-production"

  /** `JWT_ACCESS_TOKEN_EXPIRES`: one hour. */
  const JwtAccessTokenExpiresSeconds: nat := 60 * 60

  function SecretKey(env: Env): (k: string)
    ensures "SECRET_KEY" !in env ==> k == "supersecretkey"
    ensures "SECRET_KEY" in env ==> k == env["SECRET_KEY"]
  {
    GetenvOr(env, "SECRET_KEY", DefaultSecretKey)
  }

  function JwtSecretKey(env: Env): (k: string)
    ensures "JWT_SECRET_KEY" !in env ==> k == "jwt-secret-key-change-in-production"
    ensures "JWT_SECRET_KEY" in env ==> k == env["JWT_SECRET_KEY"]
  {
    GetenvOr(env, "JWT_SECRET_KEY", DefaultJwtSecretKey)
  }

  /** `os.getenv('MAIL_USE_TLS', 'True').lower() == 'true'`. */
  function MailUseTls(env: Env): (on: bool)
    ensures "MAIL_USE_TLS" !in env ==> on
    ensures "MAIL_USE_TLS" in env ==> (on == (Lower(env["MAIL_USE_TLS"]) == "true"))
  {
    Lower(GetenvOr(env, "MAIL_USE_TLS", "True")) == "true"
  }

  /** "true" written in any mix of upper and lower case. */
  predicate SpellsTrue(v: string) {
    |v| == 4 && (v[0] == 't' || v[0] == 'T') && (v[1] == 'r' || v[1] == 'R')
    && (v[2] == 'u' || v[2] == 'U') && (v[3] == 'e' || v[3] == 'E')
  }

  lemma LowerIsTrue(v: string)
    ensures Lower(v) == "true" <==> SpellsTrue(v)
  {
    if SpellsTrue(v) {
      assert Lower(v)[0] == 't' && Lower(v)[1] == 'r' && Lower(v)[2] == 'u' && Lower(v)[3] == 'e';
      assert Lower(v) == "true";
    }
    if Lower(v) == "true" {
      assert LowerChar(v[0]) == 't' && LowerChar(v[1]) == 'r' && LowerChar(v[2]) == 'u' && LowerChar(v[3]) == 'e';
    }
  }

  /** TLS is on when the variable is unset or spells "true" in any case, and
      off for every other text, the empty one included. */
  lemma MailUseTlsExactly(env: Env)
    ensures MailUseTls(env) <==> "MAIL_USE_TLS" !in env || SpellsTrue(env["MAIL_USE_TLS"])
  {
    if "MAIL_USE_TLS" in env {
      LowerIsTrue(env["MAIL_USE_TLS"]);
    }
  }


  /** The settings the application reads. */
  datatype Settings = Settings(databaseUri: string, secretKey: string, jwtSecretKey: string,
                               jwtExpiresSeconds: nat, mailUseTls: bool)

  function Load(env: Env): Settings {
    Settings(DatabaseUri(env), SecretKey(env), JwtSecretKey(env), JwtAccessTokenExpiresSeconds, MailUseTls(env))
  }
}
