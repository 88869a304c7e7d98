/**
 * The Loki checks on `loki-config.yml` (static values) and on the
 * configuration a running Loki echoes at `/config` (retention and the latest
 * storage schema). The live checks are skipped, and so pass, when `/config`
 * does not answer 200.
 */
module LokiChecks {

  import opened Values
  import opened Durations

  const ListenPort: int := 3100
  const SchemaVersion: string := "v13"
  const StoreEngine: string := "tsdb"
  /** Retention as the configuration file declares it. */
  const DeclaredRetention: string := "744h"
  /** Retention as a running Loki reports it; compared as text, never normalised. */
  const ReportedRetention: string := "744h0m0s"

  /**
   * `config["schema_config"]["configs"][0][field]`: present exactly when the
   * schema list is a non-empty list whose first entry is a mapping holding
   * `field`.
   */
  function FirstSchemaField(config: Value, field: string): (r: Option<Value>)
    ensures r.Some? <==>
      && config.Map? && "schema_config" in config.fields && config.fields["schema_config"].Map?
      && "configs" in config.fields["schema_config"].fields
      && var configs := config.fields["schema_config"].fields["configs"];
         && configs.List? && |configs.items| > 0
         && configs.items[0].Map? && field in configs.items[0].fields
    ensures r.Some? ==> r.value == config.fields["schema_config"].fields["configs"].items[0].fields[field]
  {
    LookupPair(config, "schema_config", "configs");
    var configs :- Lookup(config, ["schema_config", "configs"]);
    var first :- At(configs, 0);
    Item(first, field)
  }

  /**
   * The static check: `auth_enabled` is the boolean false itself (not 0, not
   * null), `server.http_listen_port` equals 3100, the first schema entry has
   * schema "v13" and store "tsdb", `limits_config.retention_period` is the
   * string "744h", and `compactor.retention_enabled` is the boolean true itself.
   */
  function StaticConfigPasses(config: Value): (ok: bool)
    ensures ok <==>
      && config.Map?
      && "auth_enabled" in config.fields && config.fields["auth_enabled"] == Bool(false)
      && Lookup(config, ["server", "http_listen_port"]).Some?
      && EqualsInt(Lookup(config, ["server", "http_listen_port"]).value, ListenPort)
      && Lookup(config, ["schema_config", "configs"]).Some?
      && Lookup(config, ["schema_config", "configs"]).value.List?
      && |Lookup(config, ["schema_config", "configs"]).value.items| > 0
      && Item(Lookup(config, ["schema_config", "configs"]).value.items[0], "schema") == Some(Str(SchemaVersion))
      && Item(Lookup(config, ["schema_config", "configs"]).value.items[0], "store") == Some(Str(StoreEngine))
      && Lookup(config, ["limits_config", "retention_period"]) == Some(Str(DeclaredRetention))
      && Lookup(config, ["compactor", "retention_enabled"]) == Some(Bool(true))
  {
    && HasMember(config, "auth_enabled") == Some(true)
    && Item(config, "auth_enabled") == Some(Bool(false))
    && HasMember(config, "server") == Some(true)
    && (match Lookup(config, ["server", "http_listen_port"])
        case None => false
        case Some(port) => EqualsInt(port, ListenPort))
    && HasMember(config, "schema_config") == Some(true)
    && FirstSchemaField(config, "schema") == Some(Str(SchemaVersion))
    && FirstSchemaField(config, "store") == Some(Str(StoreEngine))
    && HasMember(config, "limits_config") == Some(true)
    && Lookup(config, ["limits_config", "retention_period"]) == Some(Str(DeclaredRetention))
    && HasMember(config, "compactor") == Some(true)
    && Lookup(config, ["compactor", "retention_enabled"]) == Some(Bool(true))
  }

  /**
   * The live retention check. The request to `/config` is not guarded, so a
   * transport failure fails the check, while an answer other than 200 skips
   * it. On a 200 answer the JSON has `limits_config.retention_period` equal to
   * the text "744h0m0s" and `compactor.retention_enabled` equal to the boolean
   * true itself. A missing section reads as an empty mapping; a section that
   * is present but not a mapping raises. Neither default can lead to a pass,
   * so both sections must be present.
   */
  function LiveRetentionPasses(fetched: Fetch): (ok: bool)
    ensures fetched.TransportFailure? ==> !ok
    ensures fetched.Answer? && fetched.resp.status != 200 ==> ok
    ensures fetched.Answer? && fetched.resp.status == 200 ==>
      var resp := fetched.resp;
      (ok <==>
         && resp.json.Some? && resp.json.value.Map?
         && Lookup(resp.json.value, ["limits_config", "retention_period"]) == Some(Str(ReportedRetention))
         && Lookup(resp.json.value, ["compactor", "retention_enabled"]) == Some(Bool(true)))
  {
    match fetched
    case TransportFailure => false
    case Answer(resp) =>
      if resp.status != 200 then true
      else
        match resp.json
        case None => false
        case Some(config) =>
          && (match GetOr(config, "limits_config", Map(map[]))
              case None => false
              case Some(limits) => Get(limits, "retention_period") == Some(Str(ReportedRetention)))
          && (match GetOr(config, "compactor", Map(map[]))
              case None => false
              case Some(compactor) => Get(compactor, "retention_enabled") == Some(Bool(true)))
  }

  /**
   * No normalisation between the two forms: a running Loki that echoes the
   * declared text "744h" fails the live check, although the declared text
   * parses to 2678400 seconds while the reported form does not parse at all.
   */
  lemma DeclaredRetentionFormRejectedLive()
    ensures !LiveRetentionPasses(Answer(Response(200, "", Some(Map(map[
              "limits_config" := Map(map["retention_period" := Str(DeclaredRetention)]),
              "compactor" := Map(map["retention_enabled" := Bool(true)])])))))
    ensures ParseDuration(DeclaredRetention) == Parsed(2678400)
    ensures ParseDuration(ReportedRetention).Rejected?
  {
    DeclaredForms();
    UnsupportedForms();
  }

  /** A schema entry whose store is "tsdb" and whose schema is "v13", read with `.get`. */
  function SchemaEntryCurrent(entry: Value): (ok: bool)
    ensures ok <==> entry.Map?
                    && "store" in entry.fields && entry.fields["store"] == Str(StoreEngine)
                    && "schema" in entry.fields && entry.fields["schema"] == Str(SchemaVersion)
  {
    Get(entry, "store") == Some(Str(StoreEngine)) && Get(entry, "schema") == Some(Str(SchemaVersion))
  }

  /** `schema_configs` is non-empty and its last entry, `schema_configs[-1]`, is current. */
  function LatestSchemaCurrent(configs: Value): (ok: bool)
    ensures ok <==> configs.List? && |configs.items| > 0 && SchemaEntryCurrent(configs.items[|configs.items| - 1])
  {
    match Len(configs)
    case None => false
    case Some(n) =>
      && n > 0
      && match At(configs, -1)
         case None => false
         case Some(latest) => SchemaEntryCurrent(latest)
  }

  /** Only the last schema entry counts: entries before it, superseded ones, never change the verdict. */
  lemma LatestSchemaDecides(earlier: seq<Value>, latest: Value)
    ensures LatestSchemaCurrent(List(earlier + [latest])) == SchemaEntryCurrent(latest)
  {
  }

  /**
   * The live schema check. As for retention, a transport failure fails it and
   * an answer other than 200 skips it. On a 200 answer its
   * `schema_config.configs` has a current last entry. The empty defaults
   * for a missing section or list lead to an empty list, which fails.
   */
  function LiveSchemaPasses(fetched: Fetch): (ok: bool)
    ensures fetched.TransportFailure? ==> !ok
    ensures fetched.Answer? && fetched.resp.status != 200 ==> ok
    ensures fetched.Answer? && fetched.resp.status == 200 ==>
      var resp := fetched.resp;
      (ok <==>
         && resp.json.Some? && resp.json.value.Map?
         && Lookup(resp.json.value, ["schema_config", "configs"]).Some?
         && LatestSchemaCurrent(Lookup(resp.json.value, ["schema_config", "configs"]).value))
  {
    match fetched
    case TransportFailure => false
    case Answer(resp) =>
      if resp.status != 200 then true
      else
        match resp.json
        case None => false
        case Some(config) =>
          match GetOr(config, "schema_config", Map(map[]))
          case None => false
          case Some(schemaConfig) =>
            match GetOr(schemaConfig, "configs", List([]))
            case None => false
            case Some(configs) => LatestSchemaCurrent(configs)
  }

  /** `config` with `schema_config.configs` replaced by the list `items`. */
  function WithSchemas(config: Value, items: seq<Value>): Value
    requires config.Map? && "schema_config" in config.fields && config.fields["schema_config"].Map?
  {
    var section := config.fields["schema_config"];
    Map(config.fields["schema_config" := Map(section.fields["configs" := List(items)])])
  }

  /**
   * The static check reads the first schema entry and the live check the
   * last: appending a newer, different entry to a configuration that passes
   * the file check leaves that check passing, while a running Loki that
   * echoes the result fails the live check.
   */
  lemma FirstAndLatestSchemaDiffer(config: Value, newer: Value)
    requires StaticConfigPasses(config)
    requires !SchemaEntryCurrent(newer)
    ensures config.fields["schema_config"].Map?
    ensures var items := config.fields["schema_config"].fields["configs"].items;
            var appended := WithSchemas(config, items + [newer]);
            StaticConfigPasses(appended) && !LiveSchemaPasses(Answer(Response(200, "", Some(appended))))
  {
    var items := config.fields["schema_config"].fields["configs"].items;
    var appended := WithSchemas(config, items + [newer]);
    assert (items + [newer])[0] == items[0];
    LatestSchemaDecides(items, newer);
  }
}
