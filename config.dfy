/** pkg/config/config.go: the application configuration read from the environment. */
module Config {
  import Strings

  datatype Config = Config(
    mongoUri: string,
    kafkaBrokers: seq<string>,   // nil in Go when KAFKA_BROKERS is empty
    smsApiAccountSid: string,
    smsApiAuthToken: string)

  /** `os.Getenv`: the value of `key`, or "" when it is unset. */
  function Getenv(env: map<string, string>, key: string): string
  {
    if key in env then env[key] else ""
  }

  /** `LoadConfig`, given the process environment (after the optional .env file was loaded). */
  function LoadConfig(env: map<string, string>): (cfg: Config)
    ensures cfg.mongoUri == Getenv(env, "MONGO_URI")
    ensures cfg.smsApiAccountSid == Getenv(env, "SMS_API_ACCOUNT_SID")
    ensures cfg.smsApiAuthToken == Getenv(env, "SMS_API_AUTH_TOKEN")
    ensures Getenv(env, "KAFKA_BROKERS") == "" ==> cfg.kafkaBrokers == []
    ensures Getenv(env, "KAFKA_BROKERS") != "" ==>
      && Strings.Join(cfg.kafkaBrokers, ',') == Getenv(env, "KAFKA_BROKERS")
      && |cfg.kafkaBrokers| == Strings.Count(Getenv(env, "KAFKA_BROKERS"), ',') + 1
      && forall k :: 0 <= k < |cfg.kafkaBrokers| ==> ',' !in cfg.kafkaBrokers[k]
  {
    var raw := Getenv(env, "KAFKA_BROKERS");
    var brokers := if raw != "" then Strings.Split(raw, ',') else [];
    Strings.JoinSplit(raw, ',');
    Strings.SplitCount(raw, ',');
    Strings.SplitPiecesFree(raw, ',');
    Config(Getenv(env, "MONGO_URI"), brokers,
           Getenv(env, "SMS_API_ACCOUNT_SID"), Getenv(env, "SMS_API_AUTH_TOKEN"))
  }

  /** Empty pieces are kept and pieces are not trimmed of white space. */
  lemma BrokersKeptVerbatim()
    ensures LoadConfig(map["KAFKA_BROKERS" := "a,, b"]).kafkaBrokers == ["a", "", " b"]
  {
    assert Strings.Split(" b", ',') == [" b"] by { Strings.SplitWhole(" b", ','); }
    assert "a,, b" == "a" + [','] + ("" + [','] + " b");
    Strings.SplitAfterPiece("a", ',', "" + [','] + " b");
    Strings.SplitAfterPiece("", ',', " b");
  }
}
