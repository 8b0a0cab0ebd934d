// headscale-init/main.go: setConfigFromEnv patches the decoded Headscale
// config.yml in place from the environment before it is written back.
// The environment is a map (a key is present exactly when LookupEnv
// reports it), and URL parsing is a parameter that gives the port of a URL
// it accepts and None for one it rejects.
module HeadscaleInit {
  import opened Wrappers

  /** A value of the YAML config: the strings and tables this code writes, or anything else decoded from the file. */
  datatype Value = Text(s: string) | Table(fields: map<string, string>) | Decoded(yaml: string)

  datatype ConfigError = ServerUrlNotSet | InvalidServerUrl | EmptyTlsPath

  datatype Patched = Patched(config: map<string, Value>, err: Option<ConfigError>)

  const ServerUrlVar := "HEADSCALE_SERVER_URL"
  const LogLevelVar := "HEADSCALE_LOG_LEVEL"

  /** The keys this code may write. */
  const Written: set<string> := {"server_url", "listen_addr", "tls_key_path", "tls_cert_path", "policy", "log"}

  function PolicyTable(aclPath: string): Value {
    Table(map["mode" := "file", "path" := aclPath])
  }

  /** The log table, written only when the log level variable exists. */
  function WithLogLevel(config: map<string, Value>, env: map<string, string>): map<string, Value> {
    if LogLevelVar in env then config["log" := Table(map["level" := env[LogLevelVar]])] else config
  }

  /**
   * setConfigFromEnv on a config: the URL is checked first (nothing is
   * written when it is missing or rejected); then server_url and
   * listen_addr are written; then empty TLS paths are an error; then the
   * TLS paths, the policy and the optional log level are written.
   */
  function Patch(config: map<string, Value>, env: map<string, string>, certPath: string, keyPath: string,
                 aclPath: string, urlPort: string -> Option<string>): Patched
  {
    if ServerUrlVar !in env then Patched(config, Some(ServerUrlNotSet))
    else
      var url := env[ServerUrlVar];
      match urlPort(url)
      case None => Patched(config, Some(InvalidServerUrl))
      case Some(port) =>
        var withUrl := config["server_url" := Text(url)]["listen_addr" := Text("0.0.0.0:" + port)];
        if keyPath == "" || certPath == "" then Patched(withUrl, Some(EmptyTlsPath))
        else
          var withTls := withUrl["tls_key_path" := Text(keyPath)]["tls_cert_path" := Text(certPath)]["policy" := PolicyTable(aclPath)];
          Patched(WithLogLevel(withTls, env), None)
  }

  /** A missing or rejected server URL is an error and leaves the config as it was. */
  lemma {:induction false} UrlErrorUnchanged(config: map<string, Value>, env: map<string, string>, certPath: string,
                                             keyPath: string, aclPath: string, urlPort: string -> Option<string>)
    ensures var r := Patch(config, env, certPath, keyPath, aclPath, urlPort);
      (ServerUrlVar !in env ==> r == Patched(config, Some(ServerUrlNotSet))) &&
      (ServerUrlVar in env && urlPort(env[ServerUrlVar]).None? ==> r == Patched(config, Some(InvalidServerUrl)))
  {
  }

  /**
   * With an accepted URL, server_url holds the URL and listen_addr binds
   * every interface on the URL's port, whether or not the TLS paths are
   * then rejected: those two keys are written before the check.
   */
  lemma {:induction false} UrlWritten(config: map<string, Value>, env: map<string, string>, certPath: string,
                                      keyPath: string, aclPath: string, urlPort: string -> Option<string>)
    requires ServerUrlVar in env && urlPort(env[ServerUrlVar]).Some?
    ensures var r := Patch(config, env, certPath, keyPath, aclPath, urlPort);
      r.config["server_url"] == Text(env[ServerUrlVar]) &&
      r.config["listen_addr"] == Text("0.0.0.0:" + urlPort(env[ServerUrlVar]).value)
    ensures (keyPath == "" || certPath == "") ==>
      Patch(config, env, certPath, keyPath, aclPath, urlPort) ==
        Patched(config["server_url" := Text(env[ServerUrlVar])]["listen_addr" := Text("0.0.0.0:" + urlPort(env[ServerUrlVar]).value)],
                Some(EmptyTlsPath))
  {
  }

  /** The error is reported exactly when the URL is missing or rejected or a TLS path is empty. */
  lemma {:induction false} PatchErrorIff(config: map<string, Value>, env: map<string, string>, certPath: string,
                                         keyPath: string, aclPath: string, urlPort: string -> Option<string>)
    ensures Patch(config, env, certPath, keyPath, aclPath, urlPort).err.None? <==>
      ServerUrlVar in env && urlPort(env[ServerUrlVar]).Some? && keyPath != "" && certPath != ""
  {
  }

  /**
   * On success the TLS paths and the file policy on the ACL path are set,
   * log holds the level exactly when the variable exists, and every key
   * this code does not write keeps its value.
   */
  lemma {:induction false} PatchSuccess(config: map<string, Value>, env: map<string, string>, certPath: string,
                                        keyPath: string, aclPath: string, urlPort: string -> Option<string>)
    requires ServerUrlVar in env && urlPort(env[ServerUrlVar]).Some? && keyPath != "" && certPath != ""
    ensures var r := Patch(config, env, certPath, keyPath, aclPath, urlPort).config;
      r["tls_key_path"] == Text(keyPath) && r["tls_cert_path"] == Text(certPath) &&
      r["policy"] == Table(map["mode" := "file", "path" := aclPath])
    ensures var r := Patch(config, env, certPath, keyPath, aclPath, urlPort).config;
      LogLevelVar in env ==> r["log"] == Table(map["level" := env[LogLevelVar]])
    ensures var r := Patch(config, env, certPath, keyPath, aclPath, urlPort).config;
      LogLevelVar !in env ==> ("log" in r <==> "log" in config) && ("log" in config ==> r["log"] == config["log"])
    ensures var r := Patch(config, env, certPath, keyPath, aclPath, urlPort).config;
      r.Keys == config.Keys + (Written - (if LogLevelVar in env then {} else {"log"}))
  {
  }

  /** Whatever happens, the keys outside the written set keep their values and no other key appears. */
  lemma {:induction false} OthersUntouched(config: map<string, Value>, env: map<string, string>, certPath: string,
                                           keyPath: string, aclPath: string, urlPort: string -> Option<string>, k: string)
    requires k !in Written
    ensures var r := Patch(config, env, certPath, keyPath, aclPath, urlPort).config;
      (k in r <==> k in config) && (k in config ==> r[k] == config[k])
    ensures Patch(config, env, certPath, keyPath, aclPath, urlPort).config.Keys <= config.Keys + Written
  {
  }

  /** Patching twice from the same environment gives the config of patching once. */
  lemma {:induction false} PatchIdempotent(config: map<string, Value>, env: map<string, string>, certPath: string,
                                           keyPath: string, aclPath: string, urlPort: string -> Option<string>)
    ensures var once := Patch(config, env, certPath, keyPath, aclPath, urlPort);
      Patch(once.config, env, certPath, keyPath, aclPath, urlPort) == once
  {
    var once := Patch(config, env, certPath, keyPath, aclPath, urlPort);
    var twice := Patch(once.config, env, certPath, keyPath, aclPath, urlPort);
    if ServerUrlVar in env && urlPort(env[ServerUrlVar]).Some? {
      // The same extensional equality, taken separately for each way the patch can end.
      if keyPath == "" || certPath == "" {
        assert twice.config.Keys == once.config.Keys;
        assert forall k :: k in twice.config ==> twice.config[k] == once.config[k];
      } else if LogLevelVar in env {
        assert twice.config.Keys == once.config.Keys;
        assert forall k :: k in twice.config ==> twice.config[k] == once.config[k];
      } else {
        assert twice.config.Keys == once.config.Keys;
        assert forall k :: k in twice.config ==> twice.config[k] == once.config[k];
      }
    }
  }

  /** main passes fixed, non-empty TLS and ACL paths, so only the URL can make the patch fail. */
  lemma {:induction false} MainPathsNeverEmpty(config: map<string, Value>, env: map<string, string>, urlPort: string -> Option<string>)
    ensures var r := Patch(config, env, "./tls.crt", "./tls.key", "./acl.json", urlPort);
      r.err != Some(EmptyTlsPath) &&
      (r.err.None? <==> ServerUrlVar in env && urlPort(env[ServerUrlVar]).Some?)
  {
  }

  /** The decoded config.yml, patched in place. */
  class Config {
    var entries: map<string, Value>

    constructor(decoded: map<string, Value>)
      ensures entries == decoded
    {
      entries := decoded;
    }

    /** setConfigFromEnv: writes into entries step by step, returning early on an error. */
    method SetFromEnv(env: map<string, string>, certPath: string, keyPath: string, aclPath: string,
                      urlPort: string -> Option<string>) returns (err: Option<ConfigError>)
      modifies this
      ensures entries == Patch(old(entries), env, certPath, keyPath, aclPath, urlPort).config
      ensures err == Patch(old(entries), env, certPath, keyPath, aclPath, urlPort).err
    {
      if ServerUrlVar !in env {
        return Some(ServerUrlNotSet);
      }
      var url := env[ServerUrlVar];
      if urlPort(url).None? {
        return Some(InvalidServerUrl);
      }
      entries := entries["server_url" := Text(url)];
      var port := urlPort(url).value;
      entries := entries["listen_addr" := Text("0.0.0.0:" + port)];
      if keyPath == "" || certPath == "" {
        return Some(EmptyTlsPath);
      }
      entries := entries["tls_key_path" := Text(keyPath)];
      entries := entries["tls_cert_path" := Text(certPath)];
      entries := entries["policy" := Table(map["mode" := "file", "path" := aclPath])];
      if LogLevelVar in env {
        entries := entries["log" := Table(map["level" := env[LogLevelVar]])];
      }
      err := None;
    }
  }
}
