/**
 * The environment configuration read once at start-up: the run mode, the
 * database URLs and the session secret, with development fallbacks that are
 * never used in production.
 */
module Env {
  import opened Wrappers
  import opened Text

  /** The process environment: the variables that are set, with their values. */
  type Vars = map<string, string>

  /** `process.env[key]`, `undefined` when the variable is not set. */
  function Lookup(vars: Vars, key: string): Option<string>
  {
    if key in vars then Some(vars[key]) else None
  }

  /** `a ?? b`: `a` unless it is absent. An empty string is not absent. */
  function Coalesce(a: Option<string>, b: Option<string>): (r: Option<string>)
    ensures a.Some? ==> r == a
    ensures a.None? ==> r == b
  {
    if a.Some? then a else b
  }

  /** The run mode, "development" when unset. */
  function NodeEnv(vars: Vars): string
  {
    Coalesce(Lookup(vars, "NODE_ENV"), Some("development")).value
  }

  predicate IsProduction(vars: Vars)
  {
    NodeEnv(vars) == "production"
  }

  /** The mode rules: unset means development, and production only when the mode says so. */
  lemma ModeRules(vars: Vars)
    ensures "NODE_ENV" !in vars ==> NodeEnv(vars) == "development" && !IsProduction(vars)
    ensures IsProduction(vars) <==> "NODE_ENV" in vars && vars["NODE_ENV"] == "production"
  {
  }

  /** The outcome of reading one required variable: its value, or the error it throws. */
  datatype Resolved = Value(value: string) | Thrown(message: string)

  function MissingMessage(key: string): string
  {
    "Missing required environment variable: " + key + ". Add it to your environment or .env file before running the app."
  }

  /**
   * `ensureEnv`: the variable's value when set, else the development fallback
   * outside production; a result that is absent or empty throws.
   */
  function EnsureEnv(vars: Vars, key: string, devFallback: Option<string>): (r: Resolved)
    ensures r.Thrown? ==> r.message == MissingMessage(key)
    ensures r.Value? ==> r.value != ""
    ensures r.Value? <==> if key in vars then vars[key] != "" else !IsProduction(vars) && Truthy(devFallback)
    ensures r.Value? ==> r.value == if key in vars then vars[key] else devFallback.value
  {
    var value := Coalesce(Lookup(vars, key), if !IsProduction(vars) then devFallback else None);
    if !Truthy(value) then Thrown(MissingMessage(key)) else Value(value.value)
  }

  /** A variable that is set is used as it is, in every mode; empty, it throws even in development. */
  lemma SetVariableWins(vars: Vars, key: string, devFallback: Option<string>)
    requires key in vars
    ensures vars[key] != "" ==> EnsureEnv(vars, key, devFallback) == Value(vars[key])
    ensures vars[key] == "" ==> EnsureEnv(vars, key, devFallback).Thrown?
  {
  }

  /** The fallback is used only for an unset variable outside production. */
  lemma FallbackOnlyWhenUnset(vars: Vars, key: string, devFallback: Option<string>)
    requires EnsureEnv(vars, key, devFallback).Value?
    requires key !in vars || EnsureEnv(vars, key, devFallback).value != vars[key]
    ensures key !in vars && !IsProduction(vars)
    ensures EnsureEnv(vars, key, devFallback).value == devFallback.value
  {
  }

  /** In production a required variable must be set and non-empty. */
  lemma ProductionNeedsVariable(vars: Vars, key: string, devFallback: Option<string>)
    requires IsProduction(vars)
    ensures EnsureEnv(vars, key, devFallback).Value? <==> key in vars && vars[key] != ""
  {
  }

  /** The exported configuration. */
  datatype Config = Config(
    nodeEnv: string, isProduction: bool, databaseUrl: string, directDatabaseUrl: string, nextAuthSecret: string)

  const DevDatabaseUrl: string := "file:./dev.db"

  /** The outcome of loading the configuration: the record, or the error the first failing read throws. */
  datatype Loaded = Loaded(config: Config) | LoadThrown(message: string)

  /**
   * The module's start-up: the database URL first, then the secret, whose
   * development fallback is `randomSecret` (32 random bytes in hex, drawn by
   * the caller). The first missing variable is the error thrown.
   */
  function LoadConfig(vars: Vars, randomSecret: string): (r: Loaded)
    ensures r.Loaded? <==>
              EnsureEnv(vars, "DATABASE_URL", Some(DevDatabaseUrl)).Value? &&
              EnsureEnv(vars, "NEXTAUTH_SECRET", Some(randomSecret)).Value?
    ensures EnsureEnv(vars, "DATABASE_URL", Some(DevDatabaseUrl)).Thrown? ==>
              r == LoadThrown(MissingMessage("DATABASE_URL"))
    ensures EnsureEnv(vars, "DATABASE_URL", Some(DevDatabaseUrl)).Value? &&
            EnsureEnv(vars, "NEXTAUTH_SECRET", Some(randomSecret)).Thrown? ==>
              r == LoadThrown(MissingMessage("NEXTAUTH_SECRET"))
    ensures r.Loaded? ==>
              var c := r.config;
              && c.nodeEnv == NodeEnv(vars) && (c.isProduction <==> IsProduction(vars))
              && c.databaseUrl == EnsureEnv(vars, "DATABASE_URL", Some(DevDatabaseUrl)).value
              && c.directDatabaseUrl ==
                   (if "DIRECT_DATABASE_URL" in vars then vars["DIRECT_DATABASE_URL"] else c.databaseUrl)
              && c.nextAuthSecret == EnsureEnv(vars, "NEXTAUTH_SECRET", Some(randomSecret)).value
  {
    var databaseUrl := EnsureEnv(vars, "DATABASE_URL", Some(DevDatabaseUrl));
    if databaseUrl.Thrown? then LoadThrown(databaseUrl.message)
    else
      var directDatabaseUrl := Coalesce(Lookup(vars, "DIRECT_DATABASE_URL"), Some(databaseUrl.value)).value;
      var secret := EnsureEnv(vars, "NEXTAUTH_SECRET", Some(randomSecret));
      if secret.Thrown? then LoadThrown(secret.message)
      else Loaded(Config(NodeEnv(vars), IsProduction(vars), databaseUrl.value, directDatabaseUrl, secret.value))
  }

  /**
   * In production the configuration loads exactly when both required
   * variables are set and non-empty, and then uses them as they are: the
   * random secret is never used.
   */
  lemma ProductionConfig(vars: Vars, randomSecret: string)
    requires IsProduction(vars)
    ensures LoadConfig(vars, randomSecret).Loaded? <==>
              && "DATABASE_URL" in vars && vars["DATABASE_URL"] != ""
              && "NEXTAUTH_SECRET" in vars && vars["NEXTAUTH_SECRET"] != ""
    ensures LoadConfig(vars, randomSecret).Loaded? ==>
              && LoadConfig(vars, randomSecret).config.databaseUrl == vars["DATABASE_URL"]
              && LoadConfig(vars, randomSecret).config.nextAuthSecret == vars["NEXTAUTH_SECRET"]
              && LoadConfig(vars, randomSecret).config.isProduction
  {
    ProductionNeedsVariable(vars, "DATABASE_URL", Some(DevDatabaseUrl));
    ProductionNeedsVariable(vars, "NEXTAUTH_SECRET", Some(randomSecret));
  }

  /** In development with nothing set, the configuration falls back to the local database. */
  lemma DevelopmentDefaults(randomSecret: string)
    requires randomSecret != ""
    ensures LoadConfig(map[], randomSecret) ==
              Loaded(Config("development", false, DevDatabaseUrl, DevDatabaseUrl, randomSecret))
  {
  }
}
