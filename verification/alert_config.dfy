/** The alert engine's configuration: the built-in defaults and the two-level
    merge that overlays a user document onto them (dashboard/alerts.js). */
module AlertConfig {
  import opened Options
  import opened JsonValue

  /** The settings of one alert type or one notification channel. */
  type Settings = map<string, Json>

  /** A top-level section: alert types, or notification channels. */
  type Section = map<string, Settings>

  datatype Config = Config(alerts: Section, notifications: Section)

  /** The five alert types `checkAlerts` evaluates, in the order it does. */
  const AlertKinds: seq<string> :=
    ["docker_down", "cloudflare_down", "tailscale_down", "storage_full", "backup_failed"]

  /** Every alert type that `checkAlerts` dereferences has settings. */
  predicate HasAlertKinds(config: Config) {
    forall i :: 0 <= i < |AlertKinds| ==> AlertKinds[i] in config.alerts
  }

  function DefaultConfig(): (c: Config)
    ensures HasAlertKinds(c)
  {
    Config(
      map[
        "docker_down" := map["enabled" := JBool(true), "cooldown" := JNum(300.0)],
        "cloudflare_down" := map["enabled" := JBool(true), "cooldown" := JNum(300.0)],
        "tailscale_down" := map["enabled" := JBool(true), "cooldown" := JNum(300.0)],
        "storage_full" := map["enabled" := JBool(true), "threshold" := JNum(90.0)],
        "backup_failed" := map["enabled" := JBool(true), "cooldown" := JNum(600.0)]
      ],
      map[
        "email" := map["enabled" := JBool(false), "smtp" := JObj(map[]), "recipients" := JArr([])],
        "slack" := map["enabled" := JBool(false), "webhook_url" := JStr("")],
        "webhook" := map["enabled" := JBool(false), "url" := JStr("")]
      ])
  }

  /** `{ ...base, ...v }`: the own properties of an object `v` override
      those of `base`; null, booleans and numbers add nothing. */
  function Spread(base: Settings, v: Json): (r: Settings)
    ensures r.Keys == base.Keys + (if v.JObj? then v.fields.Keys else {})
  {
    if v.JObj? then base + v.fields else base
  }

  /** The fields a user document gives for `key` of `section`. */
  function UserFields(user: Json, section: string, key: string): (r: Settings)
  {
    match Property(user, section)
    case Some(JObj(entries)) =>
      if key in entries && entries[key].JObj? then entries[key].fields else map[]
    case _ => map[]
  }

  /** One section of the merge: each key of the defaults that the user
      section also names becomes the spread of the two; no other key of the
      user section is taken over. */
  function Overlay(defaults: Section, user: Option<Json>): (r: Section)
    ensures r.Keys == defaults.Keys
  {
    match user
    case Some(JObj(entries)) =>
      map k | k in defaults :: if k in entries then Spread(defaults[k], entries[k]) else defaults[k]
    case _ => defaults
  }

  /** `mergeConfig(defaultConfig, userConfig)`: fails with the TypeError of
      reading `.alerts` of null when the user document is null. */
  function MergeConfig(defaults: Config, user: Json): (r: Result<Config>)
    ensures r.Failure? <==> user.JNull?
    ensures r.Success? ==> r.value.alerts.Keys == defaults.alerts.Keys
    ensures r.Success? ==> r.value.notifications.Keys == defaults.notifications.Keys
  {
    if user.JNull? then Failure("TypeError: Cannot read properties of null (reading 'alerts')")
    else Success(Config(
      Overlay(defaults.alerts, Property(user, "alerts")),
      Overlay(defaults.notifications, Property(user, "notifications"))))
  }

  /** Field by field: a field the user gives for a known key wins, every
      other default field survives, and no field appears from nowhere. */
  lemma MergeFieldValues(defaults: Config, user: Json, key: string, field: string)
    requires !user.JNull?
    requires key in defaults.alerts
    ensures var merged := MergeConfig(defaults, user).value.alerts[key];
      var given := UserFields(user, "alerts", key);
      && merged.Keys == defaults.alerts[key].Keys + given.Keys
      && (field in given ==> merged[field] == given[field])
      && (field !in given && field in defaults.alerts[key] ==> merged[field] == defaults.alerts[key][field])
  {
  }

  lemma MergeNotificationFieldValues(defaults: Config, user: Json, key: string, field: string)
    requires !user.JNull?
    requires key in defaults.notifications
    ensures var merged := MergeConfig(defaults, user).value.notifications[key];
      var given := UserFields(user, "notifications", key);
      && merged.Keys == defaults.notifications[key].Keys + given.Keys
      && (field in given ==> merged[field] == given[field])
      && (field !in given && field in defaults.notifications[key] ==> merged[field] == defaults.notifications[key][field])
  {
  }

  /** Merging the same user document twice changes nothing more: applying
      `updateConfig` again with the same document is harmless. */
  lemma MergeIdempotent(defaults: Config, user: Json)
    requires !user.JNull?
    ensures MergeConfig(MergeConfig(defaults, user).value, user) == MergeConfig(defaults, user)
  {
    var once := MergeConfig(defaults, user).value;
    var twice := MergeConfig(once, user).value;
    OverlayIdempotent(defaults.alerts, Property(user, "alerts"));
    OverlayIdempotent(defaults.notifications, Property(user, "notifications"));
  }

  lemma OverlayIdempotent(defaults: Section, user: Option<Json>)
    ensures Overlay(Overlay(defaults, user), user) == Overlay(defaults, user)
  {
    var once := Overlay(defaults, user);
    var twice := Overlay(once, user);
    if user.Some? && user.value.JObj? {
      var entries := user.value.fields;
      forall k | k in once ensures twice[k] == once[k] {
        if k in entries && entries[k].JObj? {
          assert defaults[k] + entries[k].fields + entries[k].fields == defaults[k] + entries[k].fields;
        }
      }
    }
  }

  /** `loadConfig()`: the defaults when the file is missing, unreadable or
      its document cannot be merged; the merge otherwise. */
  function LoadAlertConfig(file: FileRead): (c: Config)
    ensures c.alerts.Keys == DefaultConfig().alerts.Keys
    ensures HasAlertKinds(c)
    ensures !file.Parsed? ==> c == DefaultConfig()
    ensures file.Parsed? && file.doc.JNull? ==> c == DefaultConfig()
    ensures file.Parsed? && !file.doc.JNull? ==> c == MergeConfig(DefaultConfig(), file.doc).value
  {
    match file
    case Parsed(doc) =>
      (match MergeConfig(DefaultConfig(), doc)
       case Success(merged) => merged
       case Failure(_) => DefaultConfig())
    case _ => DefaultConfig()
  }

  // ---------------------------------------------------------------------
  // The merge as the source writes it

  /** Names every plain JavaScript object inherits from `Object.prototype`
      whose value is a function, so that `merged.alerts[name]` is truthy
      although the defaults never define it. */
  const InheritedNames: set<string> := {
    "constructor", "hasOwnProperty", "isPrototypeOf", "propertyIsEnumerable",
    "toLocaleString", "toString", "valueOf", "__defineGetter__",
    "__defineSetter__", "__lookupGetter__", "__lookupSetter__"
  }

  /** The section merge as written: the guard `if (merged.alerts[key])` also
      passes for inherited names, and the assignment then adds that name as
      a new own key holding the spread of the user value. */
  function OverlayAsWritten(defaults: Section, user: Option<Json>): (r: Section)
    ensures defaults.Keys <= r.Keys
  {
    match user
    case Some(JObj(entries)) =>
      map k | k in defaults.Keys + (entries.Keys * InheritedNames) ::
        if k in entries then Spread(if k in defaults then defaults[k] else map[], entries[k])
        else defaults[k]
    case _ => defaults
  }

  function MergeConfigAsWritten(defaults: Config, user: Json): (r: Result<Config>)
    ensures r.Failure? <==> user.JNull?
  {
    if user.JNull? then Failure("TypeError: Cannot read properties of null (reading 'alerts')")
    else Success(Config(
      OverlayAsWritten(defaults.alerts, Property(user, "alerts")),
      OverlayAsWritten(defaults.notifications, Property(user, "notifications"))))
  }

  /** The discrepancy: a user document naming an alert type "constructor"
      adds that type to the merged configuration. */
  lemma AsWrittenAdmitsInheritedKey()
    ensures var user := JObj(map["alerts" := JObj(map["constructor" := JObj(map["enabled" := JBool(true)])])]);
      var merged := MergeConfigAsWritten(DefaultConfig(), user);
      && merged.Success?
      && "constructor" in merged.value.alerts
      && "constructor" !in DefaultConfig().alerts
      && merged.value.alerts.Keys != DefaultConfig().alerts.Keys
  {
    var user := JObj(map["alerts" := JObj(map["constructor" := JObj(map["enabled" := JBool(true)])])]);
    var entries := map["constructor" := JObj(map["enabled" := JBool(true)])];
    assert Property(user, "alerts") == Some(JObj(entries));
    assert "constructor" in entries.Keys * InheritedNames;
  }

  /** Away from inherited names the written merge and the intended one agree.
      A `__proto__` key is excluded as well: assigning it re-parents the
      merged section, which the map model of a section does not capture. */
  lemma AsWrittenAgreesOffInheritedNames(defaults: Config, user: Json)
    requires !user.JNull?
    requires NotNamed(user, "alerts", "__proto__") && NotNamed(user, "notifications", "__proto__")
    requires forall k :: k in InheritedNames ==>
      && (k in defaults.alerts || NotNamed(user, "alerts", k))
      && (k in defaults.notifications || NotNamed(user, "notifications", k))
    ensures MergeConfigAsWritten(defaults, user) == MergeConfig(defaults, user)
  {
    AgreeSection(defaults.alerts, user, "alerts");
    AgreeSection(defaults.notifications, user, "notifications");
  }

  /** The user section does not name `key` at all. */
  predicate NotNamed(user: Json, section: string, key: string) {
    match Property(user, section)
    case Some(JObj(entries)) => key !in entries
    case _ => true
  }

  lemma AgreeSection(d: Section, user: Json, section: string)
    requires forall k :: k in InheritedNames ==> k in d || NotNamed(user, section, k)
    ensures OverlayAsWritten(d, Property(user, section)) == Overlay(d, Property(user, section))
  {
    var u := Property(user, section);
    if u.Some? && u.value.JObj? {
      var entries := u.value.fields;
      assert (d.Keys + (entries.Keys * InheritedNames)) == d.Keys;
    }
  }
}
