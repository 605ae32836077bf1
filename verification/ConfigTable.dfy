/** The mapping from environment variables to configuration fields, and what it makes of any file and
    any environment. */
module ConfigTable {
  import opened ConfigMerge

  const ENV_MAP: seq<Entry> := [
    Entry("AGENT_HOST", ["server", "host"]),
    Entry("AGENT_PORT", ["server", "port"]),
    Entry("AGENT_HTTP_ENABLED", ["http", "enabled"]),
    Entry("AGENT_HTTP_HOST", ["http", "host"]),
    Entry("AGENT_HTTP_PORT", ["http", "port"]),
    Entry("LLM_PROVIDER", ["llm", "provider"]),
    Entry("LLM_API_KEY", ["llm", "api_key"]),
    Entry("LLM_BASE_URL", ["llm", "base_url"]),
    Entry("LLM_MODEL", ["llm", "model"]),
    Entry("LLM_SYSTEM_PROMPT", ["llm", "system_prompt"]),
    Entry("LLM_MAX_TOKENS", ["llm", "max_tokens"]),
    Entry("LLM_TEMPERATURE", ["llm", "temperature"]),
    Entry("LLM_REQUEST_TIMEOUT", ["llm", "request_timeout"]),
    Entry("SESSION_TTL_SECONDS", ["session", "ttl_seconds"]),
    Entry("SESSION_MAX_HISTORY", ["session", "max_history"]),
    Entry("SESSION_MAX_SESSIONS", ["session", "max_sessions"]),
    Entry("STRATEGY", ["strategy"]),
    Entry("TOOLS_ENABLED", ["tools", "enabled"]),
    Entry("TOOLS_MAX_ROUNDS", ["tools", "max_rounds"]),
    Entry("TOOLS_TIMEOUT", ["tools", "tool_timeout"]),
    Entry("MEMORY_BACKEND", ["memory", "backend"]),
    Entry("MEMORY_SQLITE_PATH", ["memory", "sqlite_path"]),
    Entry("SEARCH_API_KEY", ["search", "api_key"]),
    Entry("SEARCH_BASE_URL", ["search", "base_url"]),
    Entry("SEARCH_TIMEOUT", ["search", "timeout"]),
    Entry("LOGGING_LEVEL", ["logging", "level"]),
    Entry("LOGGING_DIR", ["logging", "dir"]),
    Entry("LOGGING_RETENTION_DAYS", ["logging", "retention_days"]),
    Entry("OTEL_ENABLED", ["observability", "enabled"]),
    Entry("OBSERVABILITY_SERVICE_NAME", ["observability", "service_name"]),
    Entry("OTEL_EXPORTER_OTLP_ENDPOINT", ["observability", "otlp_endpoint"]),
    Entry("OTEL_TRACES_SAMPLER_ARG", ["observability", "trace_sample_rate"]),
    Entry("OBSERVABILITY_CAPTURE_CONTENT", ["observability", "capture_content"]),
    Entry("OBSERVABILITY_METRICS_INTERVAL", ["observability", "metrics_export_interval"]),
    Entry("OBSERVABILITY_LOGS_ENABLED", ["observability", "logs_enabled"]),
    Entry("OBSERVABILITY_LOGS_MIN_LEVEL", ["observability", "logs_min_level"]),
    Entry("OBSERVABILITY_LOGS_INTERVAL", ["observability", "logs_export_interval"])
  ]

  /** The row of a path of the table. */
  function Row(path: Path): int
  {
    if |path| == 1 then 16
    else if |path| != 2 then -1
    else
      var section, key := path[0], path[1];
      if section == "server" then
        if key == "host" then 0 else if key == "port" then 1 else -1
      else if section == "http" then
        if key == "enabled" then 2 else if key == "host" then 3 else if key == "port" then 4 else -1
      else if section == "llm" then
        if key == "provider" then 5 else if key == "api_key" then 6
        else if key == "base_url" then 7
        else if key == "model" then 8 else if key == "system_prompt" then 9
        else if key == "max_tokens" then 10 else if key == "temperature" then 11
        else if key == "request_timeout" then 12 else -1
      else if section == "session" then
        if key == "ttl_seconds" then 13 else if key == "max_history" then 14
        else if key == "max_sessions" then 15 else -1
      else if section == "tools" then
        if key == "enabled" then 17 else if key == "max_rounds" then 18 else if key == "tool_timeout" then 19 else -1
      else if section == "memory" then
        if key == "backend" then 20 else if key == "sqlite_path" then 21 else -1
      else if section == "search" then
        if key == "api_key" then 22 else if key == "base_url" then 23 else if key == "timeout" then 24 else -1
      else if section == "logging" then
        if key == "level" then 25 else if key == "dir" then 26 else if key == "retention_days" then 27 else -1
      else if section == "observability" then
        if key == "enabled" then 28 else if key == "service_name" then 29 else if key == "otlp_endpoint" then 30
        else if key == "trace_sample_rate" then 31 else if key == "capture_content" then 32
        else if key == "metrics_export_interval" then 33 else if key == "logs_enabled" then 34
        else if key == "logs_min_level" then 35 else if key == "logs_export_interval" then 36 else -1
      else -1
  }

  lemma RowOf(i: nat)
    requires i < |ENV_MAP|
    ensures Row(ENV_MAP[i].path) == i
  {
  }

  /** No path of the table runs through another, and no two entries share one. */
  lemma TableIsPrefixFree()
    ensures PrefixFree(ENV_MAP)
  {
    forall i | 0 <= i < |ENV_MAP| ensures ENV_MAP[i].path != [] {
      RowOf(i);
    }
    forall i, j | 0 <= i < |ENV_MAP| && 0 <= j < |ENV_MAP| && i != j ensures !(ENV_MAP[i].path <= ENV_MAP[j].path) {
      RowOf(i);
      RowOf(j);
      PathsApart(i, j);
    }
  }

  lemma PathsApart(i: nat, j: nat)
    requires i < |ENV_MAP| && j < |ENV_MAP| && i != j
    requires Row(ENV_MAP[i].path) == i && Row(ENV_MAP[j].path) == j
    ensures !(ENV_MAP[i].path <= ENV_MAP[j].path)
  {
    var p, q := ENV_MAP[i].path, ENV_MAP[j].path;
    assert p != q;
    if |p| == 1 {
      assert i == 16 && p[0] == "strategy";
      assert |q| == 2 ==> q[0] != "strategy";
    }
  }

  /** The dictionaries a configuration is built from. */
  method Load(file: map<string, Value>, env: Environment) returns (merged: map<string, Value>)
    ensures Precedence(ENV_MAP, env, file, merged)
  {
    TableIsPrefixFree();
    merged := MergeEnvironment(ENV_MAP, file, env);
  }
}
