/**
 * The configuration builder of the servitor entrypoint (servitor/main.go, buildConfig).
 *
 * The process environment is a map from variable names to values; a variable is
 * absent when it is not in the map's domain. Only presence is checked, so a
 * required variable whose value is the empty string is accepted.
 */
module Config {
  import opened Wrappers

  type Env = map<string, string>
  type Config = map<string, string>

  const PairingKey: string := "PAIRING_KEY"
  const DbDataSource: string := "DB_DATA_SOURCE"
  const TsmDbDataSource: string := "TSM_DB_DATA_SOURCE"
  const LogLevel: string := "LOG_LEVEL"
  const DbDriver: string := "DB_DRIVER"

  /** The database driver name the builder always records. */
  const Postgres: string := "postgres"

  /** The required variables, in the order the builder checks them. */
  const Required: seq<string> := [PairingKey, DbDataSource, TsmDbDataSource]

  /** Every key of a successfully built configuration. */
  const ConfigKeys: set<string> := {PairingKey, DbDataSource, TsmDbDataSource, LogLevel, DbDriver}

  /** Go's `(map[string]string, error)` result pair: a nil map is None, a nil error is None. */
  datatype Outcome = Outcome(config: Option<Config>, err: Option<string>)

  /** The text of the error that reports a missing required variable. */
  function RequiredMessage(name: string): string
  {
    name + " is required"
  }

  /** The facts about the variable names that the proofs below rely on. */
  lemma RequiredFacts()
    ensures |Required| == 3
    ensures Required[0] == PairingKey && Required[1] == DbDataSource && Required[2] == TsmDbDataSource
    ensures LogLevel !in Required && DbDriver !in Required && LogLevel != DbDriver
    ensures RequiredMessage(PairingKey) == "PAIRING_KEY is required"
    ensures RequiredMessage(DbDataSource) == "DB_DATA_SOURCE is required"
    ensures RequiredMessage(TsmDbDataSource) == "TSM_DB_DATA_SOURCE is required"
  {
  }

  /**
   * The position of the first name in `names` that is absent from `env`,
   * or None when every name is present.
   */
  function FirstAbsent(env: Env, names: seq<string>): (r: Option<nat>)
    ensures r.None? <==> forall i :: 0 <= i < |names| ==> names[i] in env
    ensures r.Some? ==> r.value < |names| && names[r.value] !in env
    ensures r.Some? ==> forall j :: 0 <= j < r.value ==> names[j] in env
  {
    if names == [] then None
    else if names[0] !in env then Some(0)
    else match FirstAbsent(env, names[1..])
      case None => None
      case Some(i) => Some(i + 1)
  }

  /** The value a successfully built configuration holds for `key`. */
  function Setting(env: Env, key: string): string
  {
    if key == DbDriver then Postgres
    else if key in env then env[key]
    else ""
  }

  /**
   * Reference definition of the builder's outcome: fail with the first missing
   * required variable, otherwise record every configuration key.
   */
  function ConfigOutcome(env: Env): (r: Outcome)
    // exactly one of the map and the error is present
    ensures r.config.Some? <==> r.err.None?
    ensures r.err.Some? <==> exists i :: 0 <= i < |Required| && Required[i] !in env
    // fail-fast, in the checking order, whatever else the environment holds
    ensures PairingKey !in env ==> r.err == Some("PAIRING_KEY is required")
    ensures PairingKey in env && DbDataSource !in env ==> r.err == Some("DB_DATA_SOURCE is required")
    ensures PairingKey in env && DbDataSource in env && TsmDbDataSource !in env
            ==> r.err == Some("TSM_DB_DATA_SOURCE is required")
    // on success: exactly five keys, required values verbatim, LOG_LEVEL defaulted, DB_DRIVER fixed
    ensures r.config.Some? ==> r.config.value.Keys == ConfigKeys
    ensures r.config.Some? ==> PairingKey in env && r.config.value[PairingKey] == env[PairingKey]
    ensures r.config.Some? ==> DbDataSource in env && r.config.value[DbDataSource] == env[DbDataSource]
    ensures r.config.Some? ==> TsmDbDataSource in env && r.config.value[TsmDbDataSource] == env[TsmDbDataSource]
    ensures r.config.Some? ==> r.config.value[LogLevel] == (if LogLevel in env then env[LogLevel] else "")
    ensures r.config.Some? ==> r.config.value[DbDriver] == "postgres"
  {
    RequiredFacts();
    match FirstAbsent(env, Required)
    case Some(i) => Outcome(None, Some(RequiredMessage(Required[i])))
    case None => Outcome(Some(map k | k in ConfigKeys :: Setting(env, k)), None)
  }

  /**
   * buildConfig: fills a local map key by key, returning early at the first
   * required variable that is absent.
   */
  method BuildConfig(env: Env) returns (config: Option<Config>, err: Option<string>)
    ensures Outcome(config, err) == ConfigOutcome(env)
  {
    var m: Config := map[];

    if PairingKey !in env {
      return None, Some(RequiredMessage(PairingKey));
    }
    m := m[PairingKey := env[PairingKey]];

    if DbDataSource !in env {
      return None, Some(RequiredMessage(DbDataSource));
    }
    m := m[DbDataSource := env[DbDataSource]];

    if TsmDbDataSource !in env {
      return None, Some(RequiredMessage(TsmDbDataSource));
    }
    m := m[TsmDbDataSource := env[TsmDbDataSource]];

    // LOG_LEVEL is optional: an absent variable reads as the empty string
    m := m[LogLevel := if LogLevel in env then env[LogLevel] else ""];
    m := m[DbDriver := Postgres];

    assert m == map k | k in ConfigKeys :: Setting(env, k);
    return Some(m), None;
  }

  /** The error depends only on which required variables are present, not on their values. */
  lemma {:induction false} FirstAbsentDependsOnPresence(env: Env, env': Env, names: seq<string>)
    requires forall i :: 0 <= i < |names| ==> (names[i] in env <==> names[i] in env')
    ensures FirstAbsent(env, names) == FirstAbsent(env', names)
  {
    if names != [] && names[0] in env {
      FirstAbsentDependsOnPresence(env, env', names[1..]);
    }
  }

  /** Setting or unsetting LOG_LEVEL never decides whether the builder fails, nor with which error. */
  lemma LogLevelNeverFails(env: Env, v: string)
    ensures ConfigOutcome(env[LogLevel := v]).err == ConfigOutcome(env - {LogLevel}).err
  {
    FirstAbsentDependsOnPresence(env[LogLevel := v], env - {LogLevel}, Required);
  }

  /** Any DB_DRIVER in the environment is ignored: the outcome is the one without it. */
  lemma DbDriverIgnored(env: Env, v: string)
    ensures ConfigOutcome(env[DbDriver := v]) == ConfigOutcome(env - {DbDriver})
  {
    var e1, e2 := env[DbDriver := v], env - {DbDriver};
    RequiredFacts();
    FirstAbsentDependsOnPresence(e1, e2, Required);
    if FirstAbsent(e1, Required).None? {
      var c1, c2 := ConfigOutcome(e1).config.value, ConfigOutcome(e2).config.value;
      forall k | k in ConfigKeys
        ensures c1[k] == c2[k]
      {
        assert c1[k] == Setting(e1, k) && c2[k] == Setting(e2, k);
      }
      assert c1 == c2;
    }
  }

  /** All three required variables and LOG_LEVEL set: each is recorded, plus the driver. */
  lemma AllVariablesPresent()
    ensures ConfigOutcome(map[PairingKey := "test_pairing_key", DbDataSource := "test_db_source",
                              TsmDbDataSource := "test_tsm_db_source", LogLevel := "debug"])
         == Outcome(Some(map[PairingKey := "test_pairing_key", DbDataSource := "test_db_source",
                             TsmDbDataSource := "test_tsm_db_source", LogLevel := "debug",
                             DbDriver := "postgres"]), None)
  {
    var env := map[PairingKey := "test_pairing_key", DbDataSource := "test_db_source",
                   TsmDbDataSource := "test_tsm_db_source", LogLevel := "debug"];
    RequiredFacts();
    var c := ConfigOutcome(env).config.value;
    assert c.Keys == ConfigKeys;
    assert c == map[PairingKey := "test_pairing_key", DbDataSource := "test_db_source",
                    TsmDbDataSource := "test_tsm_db_source", LogLevel := "debug",
                    DbDriver := "postgres"];
  }

  /** LOG_LEVEL unset: the configuration records it as the empty string. */
  lemma LogLevelAbsent()
    ensures ConfigOutcome(map[PairingKey := "test_pairing_key", DbDataSource := "test_db_source",
                              TsmDbDataSource := "test_tsm_db_source"])
         == Outcome(Some(map[PairingKey := "test_pairing_key", DbDataSource := "test_db_source",
                             TsmDbDataSource := "test_tsm_db_source", LogLevel := "",
                             DbDriver := "postgres"]), None)
  {
    var env := map[PairingKey := "test_pairing_key", DbDataSource := "test_db_source",
                   TsmDbDataSource := "test_tsm_db_source"];
    RequiredFacts();
    var c := ConfigOutcome(env).config.value;
    assert c.Keys == ConfigKeys;
    assert c == map[PairingKey := "test_pairing_key", DbDataSource := "test_db_source",
                    TsmDbDataSource := "test_tsm_db_source", LogLevel := "",
                    DbDriver := "postgres"];
  }
}
