/** The dashboard's alert engine (`AlertSystem` in dashboard/alerts.js): a
    per-type cooldown rate limiter, a bounded buffer of current alerts, a
    bounded history, acknowledgement by id and the queries over them. The
    clock is a parameter: every `Date.now()` and `new Date()` of one call
    reads the same instant `now`, in milliseconds. */
module Alerts {
  import opened Options
  import opened Text
  import opened Seqs
  import opened JsonValue
  import opened AlertConfig

  datatype Alert = Alert(
    id: string,
    kind: string,        // the `type` field
    message: string,
    severity: string,
    timestamp: int,      // creation instant (an ISO string in the source)
    acknowledged: bool)

  /** `{ ...alert, sent_at }`: a copy of the alert with its sending instant. */
  datatype HistoryEntry = HistoryEntry(alert: Alert, sentAt: int)

  /** The `status` of each service in the health record `checkAlerts` reads. */
  datatype Health = Health(docker: string, cloudflare: string, tailscale: string)

  const CurrentCapacity: nat := 50
  const HistoryCapacity: nat := 1000
  const DefaultCooldown: real := 300.0

  /** `createAlert(type, message, severity)`: the id joins the type and the
      creation instant with an underscore. */
  function CreateAlert(kind: string, message: string, severity: string, now: int): (a: Alert)
    ensures a.kind == kind && a.message == message && a.severity == severity
    ensures a.timestamp == now && !a.acknowledged
    ensures |a.id| > |kind| + 1 && a.id[..|kind|] == kind && a.id[|kind|] == '_'
    ensures a.id[|kind| + 1..] == IntText(now)
  {
    Alert(kind + "_" + IntText(now), kind, message, severity, now, false)
  }

  /** Two alerts of one type created at different instants get different ids,
      so acknowledging one never touches the other. */
  lemma AlertIdsDifferAcrossTime(kind: string, m: int, n: int, msg: string, msg': string, sev: string, sev': string)
    requires m != n
    ensures CreateAlert(kind, msg, sev, m).id != CreateAlert(kind, msg', sev', n).id
  {
    var p := kind + "_";
    if CreateAlert(kind, msg, sev, m).id == CreateAlert(kind, msg', sev', n).id {
      assert (p + IntText(m))[|p|..] == IntText(m);
      assert (p + IntText(n))[|p|..] == IntText(n);
      IntTextInjective(m, n);
    }
  }

  // ---------------------------------------------------------------------
  // Rate limiting

  /** `config.alerts[type]?.[name]`. */
  function Setting(config: Config, kind: string, name: string): (r: Option<Json>)
    ensures r.Some? <==> kind in config.alerts && name in config.alerts[kind]
  {
    if kind in config.alerts && name in config.alerts[kind] then Some(config.alerts[kind][name]) else None
  }

  predicate Enabled(config: Config, kind: string) {
    Truthy(Setting(config, kind, "enabled"))
  }

  /** `config.alerts[type]?.cooldown || 300`, in seconds; `None` is NaN. */
  function Cooldown(config: Config, kind: string): (r: Option<real>)
    ensures !Truthy(Setting(config, kind, "cooldown")) ==> r == Some(DefaultCooldown)
    ensures r.None? ==> Truthy(Setting(config, kind, "cooldown"))
  {
    var v := Setting(config, kind, "cooldown");
    if Truthy(v) then ToNumber(v) else Some(DefaultCooldown)
  }

  /** A missing, zero or otherwise falsy cooldown means 300 seconds; any
      other number is taken as given. */
  lemma CooldownFallsBack(config: Config, kind: string)
    ensures !Truthy(Setting(config, kind, "cooldown")) ==> Cooldown(config, kind) == Some(DefaultCooldown)
    ensures forall x :: x != 0.0 && Setting(config, kind, "cooldown") == Some(JNum(x)) ==> Cooldown(config, kind) == Some(x)
  {
  }

  /** `this.lastAlerts.get(type)`, with 0 for a type never recorded: both
      are falsy. */
  function Recorded(last: map<string, int>, kind: string): int {
    if kind in last then last[kind] else 0
  }

  /** `shouldSendAlert(type, now)`. */
  function ShouldSendAlert(config: Config, last: map<string, int>, kind: string, now: int): (ok: bool)
    ensures Recorded(last, kind) == 0 ==> ok
    ensures Recorded(last, kind) != 0 && Cooldown(config, kind).None? ==> !ok
  {
    SendAllowed(Cooldown(config, kind), Recorded(last, kind), now)
  }

  /** The decision itself, given the cooldown in seconds (`None` is NaN)
      and the recorded instant in milliseconds. */
  function SendAllowed(cooldown: Option<real>, lastSent: int, now: int): bool {
    if lastSent == 0 then true
    else
      match cooldown
      case None => false
      case Some(c) => (now - lastSent) as real / 1000.0 > c
  }

  /** A type never sent (or recorded at instant 0) may always be sent;
      otherwise sending is allowed exactly when strictly more than the
      cooldown has elapsed, and never with a NaN cooldown. */
  lemma ShouldSendAlertMeaning(config: Config, last: map<string, int>, kind: string, now: int)
    ensures kind !in last ==> ShouldSendAlert(config, last, kind, now)
    ensures kind in last && last[kind] != 0 ==>
      (ShouldSendAlert(config, last, kind, now) <==>
        Cooldown(config, kind).Some? && (now - last[kind]) as real > Cooldown(config, kind).value * 1000.0)
  {
  }

  /** The cooldowns the built-in defaults give; `storage_full` has none and
      falls back to 300 seconds. */
  lemma DefaultCooldowns()
    ensures Cooldown(DefaultConfig(), "docker_down") == Some(300.0)
    ensures Cooldown(DefaultConfig(), "cloudflare_down") == Some(300.0)
    ensures Cooldown(DefaultConfig(), "tailscale_down") == Some(300.0)
    ensures Cooldown(DefaultConfig(), "storage_full") == Some(300.0)
    ensures Cooldown(DefaultConfig(), "backup_failed") == Some(600.0)
  {
  }

  /** Once sending is allowed it stays allowed as time goes on. */
  lemma SendStaysAllowed(config: Config, last: map<string, int>, kind: string, now: int, later: int)
    requires now <= later
    requires ShouldSendAlert(config, last, kind, now)
    ensures ShouldSendAlert(config, last, kind, later)
  {
  }

  /** Right after a send at a non-zero instant, the same type is suppressed
      for its whole (non-negative) cooldown, and allowed strictly after it. */
  lemma SuppressedDuringCooldown(config: Config, last: map<string, int>, kind: string, sent: int, now: int)
    requires sent != 0
    requires Cooldown(config, kind).Some? && 0.0 <= Cooldown(config, kind).value
    ensures ShouldSendAlert(config, last[kind := sent], kind, now)
      <==> (now - sent) as real > Cooldown(config, kind).value * 1000.0
    ensures now == sent ==> !ShouldSendAlert(config, last[kind := sent], kind, now)
  {
  }

  // ---------------------------------------------------------------------
  // One evaluation of the health and metrics records

  /** One block of `checkAlerts`: the alert type it checks, whether its
      condition holds (the type's `enabled` flag included), and the alert
      it would raise. */
  datatype Probe = Probe(kind: string, firing: bool, message: string, severity: string)

  /** The state one evaluation builds up: the alerts chosen so far, the
      send instants, and whether a TypeError interrupted it. */
  datatype Scan = Scan(emitted: seq<Alert>, last: map<string, int>, threw: bool)

  /** `(metrics.storage_used_gb / 10) * 100`, exactly. */
  function StoragePercentage(metrics: Json): Option<real> {
    match ToNumber(Property(metrics, "storage_used_gb"))
    case Some(gb) => Some(gb / 10.0 * 100.0)
    case None => None
  }

  /** `storagePercentage >= threshold`; false when either side is NaN. */
  predicate StorageFiring(config: Config, pct: Option<real>) {
    var threshold := ToNumber(Setting(config, "storage_full", "threshold"));
    pct.Some? && threshold.Some? && pct.value >= threshold.value
  }

  predicate BackupFailed(metrics: Json) {
    Property(metrics, "status") == Some(JStr("cloud_error"))
  }

  /** The condition of the block for `kind`. */
  predicate Firing(config: Config, health: Health, metrics: Json, kind: string) {
    && Enabled(config, kind)
    && if kind == "docker_down" then health.docker != "running"
       else if kind == "cloudflare_down" then health.cloudflare != "running"
       else if kind == "tailscale_down" then health.tailscale != "running"
       else if kind == "storage_full" then StorageFiring(config, StoragePercentage(metrics))
       else kind == "backup_failed" && BackupFailed(metrics)
  }

  function Message(metrics: Json, kind: string): string {
    if kind == "docker_down" then "Docker container is not running"
    else if kind == "cloudflare_down" then "Cloudflare tunnels are not running"
    else if kind == "tailscale_down" then "Tailscale VPN is not connected"
    else if kind == "storage_full" then
      var pct := StoragePercentage(metrics);
      "Storage usage is " + (if pct.Some? then Fixed1(pct.value) else "NaN") + "%"
    else "Backup synchronization failed"
  }

  function Severity(kind: string): string {
    if kind == "docker_down" || kind == "backup_failed" then "critical" else "warning"
  }

  function ProbeFor(config: Config, health: Health, metrics: Json, kind: string): Probe {
    Probe(kind, Firing(config, health, metrics, kind), Message(metrics, kind), Severity(kind))
  }

  /** The five blocks, in the order `checkAlerts` runs them. */
  function Plan(config: Config, health: Health, metrics: Json): (ps: seq<Probe>)
    ensures |ps| == |AlertKinds|
  {
    seq(|AlertKinds|, i requires 0 <= i < |AlertKinds| => ProbeFor(config, health, metrics, AlertKinds[i]))
  }

  /** How many blocks run before a null metrics record throws: the storage
      block reads it when storage alerts are enabled, the backup block when
      backup alerts are. */
  function Reach(config: Config, metrics: Json): (n: nat)
    ensures 3 <= n <= |AlertKinds|
  {
    if Enabled(config, "storage_full") && metrics.JNull? then 3
    else if Enabled(config, "backup_failed") && metrics.JNull? then 4
    else 5
  }

  /** One block run: when the condition holds and the type is not cooling
      down, the alert is chosen and its instant recorded. */
  function Raise(config: Config, s: Scan, p: Probe, now: int): Scan {
    if p.firing && ShouldSendAlert(config, s.last, p.kind, now) then
      Scan(s.emitted + [CreateAlert(p.kind, p.message, p.severity, now)], s.last[p.kind := now], s.threw)
    else s
  }

  /** Running a sequence of blocks in order. */
  function Run(config: Config, s: Scan, ps: seq<Probe>, now: int): Scan {
    if ps == [] then s else Raise(config, Run(config, s, ps[..|ps| - 1], now), ps[|ps| - 1], now)
  }

  lemma RunStep(config: Config, s: Scan, ps: seq<Probe>, k: nat, now: int)
    requires k < |ps|
    ensures Run(config, s, ps[..k + 1], now) == Raise(config, Run(config, s, ps[..k], now), ps[k], now)
  {
    assert ps[..k + 1][..k] == ps[..k];
  }

  /** `checkAlerts(health, metrics)` up to the sending: the blocks that run
      before any throw; the instants they record stay recorded. */
  function Check(config: Config, last: map<string, int>, health: Health, metrics: Json, now: int): (s: Scan)
    ensures s.threw ==> metrics.JNull?
  {
    var n := Reach(config, metrics);
    Run(config, Scan([], last, false), Plan(config, health, metrics)[..n], now).(threw := n < |AlertKinds|)
  }

  /** The position of each alert type in the order `checkAlerts` tests them. */
  function Rank(kind: string): (r: nat)
    ensures r <= |AlertKinds|
    ensures r < |AlertKinds| ==> AlertKinds[r] == kind
    ensures forall i :: 0 <= i < |AlertKinds| && AlertKinds[i] == kind ==> r == i
  {
    if kind == "docker_down" then 0
    else if kind == "cloudflare_down" then 1
    else if kind == "tailscale_down" then 2
    else if kind == "storage_full" then 3
    else if kind == "backup_failed" then 4
    else 5
  }

  /** The types of a sequence of alerts. */
  function Kinds(alerts: seq<Alert>): (r: set<string>)
    ensures forall i :: 0 <= i < |alerts| ==> alerts[i].kind in r
  {
    if alerts == [] then {} else Kinds(alerts[..|alerts| - 1]) + {alerts[|alerts| - 1].kind}
  }

  lemma {:induction false} KindsBelow(alerts: seq<Alert>, bound: nat)
    requires forall i :: 0 <= i < |alerts| ==> Rank(alerts[i].kind) < bound
    ensures forall k :: k in Kinds(alerts) ==> Rank(k) < bound
  {
    if alerts != [] {
      KindsBelow(alerts[..|alerts| - 1], bound);
    }
  }

  /** The send instants after sending `alerts` at `now`. */
  function Stamp(last: map<string, int>, alerts: seq<Alert>, now: int): map<string, int> {
    if alerts == [] then last
    else Stamp(last, alerts[..|alerts| - 1], now)[alerts[|alerts| - 1].kind := now]
  }

  /** Recording the sends: the types sent now carry the instant `now`, every
      other type keeps its old record, and no other type gains one. */
  lemma {:induction false} StampRecords(last: map<string, int>, alerts: seq<Alert>, now: int)
    ensures Stamp(last, alerts, now).Keys == last.Keys + Kinds(alerts)
    ensures forall k :: k in Stamp(last, alerts, now) ==>
      Stamp(last, alerts, now)[k] == if k in Kinds(alerts) then now else last[k]
  {
    if alerts != [] {
      StampRecords(last, alerts[..|alerts| - 1], now);
    }
  }

  /** What holds after running blocks of rank below `bound`: the chosen
      alerts come in rank order, each of an enabled type that was not
      cooling down at the start, created now and unacknowledged, and the
      send instants are the old ones stamped with the chosen types. */
  ghost predicate ScanSound(config: Config, last: map<string, int>, now: int, s: Scan, bound: nat) {
    && (forall i :: 0 <= i < |s.emitted| ==> Rank(s.emitted[i].kind) < bound)
    && (forall i, j :: 0 <= i < j < |s.emitted| ==> Rank(s.emitted[i].kind) < Rank(s.emitted[j].kind))
    && (forall i :: 0 <= i < |s.emitted| ==> AlertSound(config, last, now, s.emitted[i]))
    && s.last == Stamp(last, s.emitted, now)
  }

  ghost predicate AlertSound(config: Config, last: map<string, int>, now: int, a: Alert) {
    Enabled(config, a.kind) && ShouldSendAlert(config, last, a.kind, now) && a.timestamp == now && !a.acknowledged
  }

  /** The types whose block fires and which are not cooling down. */
  function Fired(config: Config, last: map<string, int>, ps: seq<Probe>, now: int): set<string> {
    if ps == [] then {}
    else
      var p := ps[|ps| - 1];
      Fired(config, last, ps[..|ps| - 1], now) + if p.firing && ShouldSendAlert(config, last, p.kind, now) then {p.kind} else {}
  }

  lemma RaiseSound(config: Config, last: map<string, int>, now: int, s: Scan, p: Probe, bound: nat)
    requires bound <= Rank(p.kind) < |AlertKinds|
    requires ScanSound(config, last, now, s, bound)
    requires p.firing ==> Enabled(config, p.kind)
    ensures ScanSound(config, last, now, Raise(config, s, p, now), Rank(p.kind) + 1)
  {
    RaiseDecision(config, last, now, s, p, bound);
    if p.firing && ShouldSendAlert(config, s.last, p.kind, now) {
      var a := CreateAlert(p.kind, p.message, p.severity, now);
      assert Raise(config, s, p, now) == Scan(s.emitted + [a], s.last[a.kind := now], s.threw);
      AppendSound(config, last, now, s, a, bound);
    } else {
      assert Raise(config, s, p, now) == s;
      ScanSoundWeaken(config, last, now, s, bound, Rank(p.kind) + 1);
    }
  }

  lemma RaiseKinds(config: Config, last: map<string, int>, now: int, s: Scan, p: Probe, bound: nat)
    requires bound <= Rank(p.kind) < |AlertKinds|
    requires ScanSound(config, last, now, s, bound)
    ensures Kinds(Raise(config, s, p, now).emitted)
      == Kinds(s.emitted) + if p.firing && ShouldSendAlert(config, last, p.kind, now) then {p.kind} else {}
  {
    RaiseDecision(config, last, now, s, p, bound);
    if p.firing && ShouldSendAlert(config, s.last, p.kind, now) {
      var a := CreateAlert(p.kind, p.message, p.severity, now);
      assert Raise(config, s, p, now).emitted == s.emitted + [a];
      AppendStamp(last, s.emitted, a, now);
    }
  }

  /** A type not chosen yet is judged on its record from before the
      evaluation. */
  lemma RaiseDecision(config: Config, last: map<string, int>, now: int, s: Scan, p: Probe, bound: nat)
    requires bound <= Rank(p.kind)
    requires ScanSound(config, last, now, s, bound)
    ensures ShouldSendAlert(config, s.last, p.kind, now) == ShouldSendAlert(config, last, p.kind, now)
  {
    KindsBelow(s.emitted, bound);
    StampKeepsOthers(last, s.emitted, now, p.kind);
    SameRecordSameDecision(config, s.last, last, p.kind, now);
  }

  lemma SameRecordSameDecision(config: Config, m: map<string, int>, m': map<string, int>, kind: string, now: int)
    requires Recorded(m, kind) == Recorded(m', kind)
    ensures ShouldSendAlert(config, m, kind, now) == ShouldSendAlert(config, m', kind, now)
  {
  }

  lemma StampKeepsOthers(last: map<string, int>, alerts: seq<Alert>, now: int, kind: string)
    requires kind !in Kinds(alerts)
    ensures Recorded(Stamp(last, alerts, now), kind) == Recorded(last, kind)
  {
    StampRecords(last, alerts, now);
  }

  lemma ScanSoundWeaken(config: Config, last: map<string, int>, now: int, s: Scan, bound: nat, bound': nat)
    requires bound <= bound'
    requires ScanSound(config, last, now, s, bound)
    ensures ScanSound(config, last, now, s, bound')
  {
  }

  /** Appending an alert of a type not yet chosen, of higher rank, sound
      itself, keeps the evaluation sound. */
  lemma AppendSound(config: Config, last: map<string, int>, now: int, s: Scan, a: Alert, bound: nat)
    requires bound <= Rank(a.kind) < |AlertKinds|
    requires ScanSound(config, last, now, s, bound)
    requires AlertSound(config, last, now, a)
    ensures ScanSound(config, last, now, Scan(s.emitted + [a], s.last[a.kind := now], s.threw), Rank(a.kind) + 1)
    ensures Kinds(s.emitted + [a]) == Kinds(s.emitted) + {a.kind}
  {
    AppendRanks(s.emitted, a, bound);
    AppendAlertsSound(config, last, now, s.emitted, a);
    AppendStamp(last, s.emitted, a, now);
  }

  lemma AppendStamp(last: map<string, int>, emitted: seq<Alert>, a: Alert, now: int)
    ensures Stamp(last, emitted + [a], now) == Stamp(last, emitted, now)[a.kind := now]
    ensures Kinds(emitted + [a]) == Kinds(emitted) + {a.kind}
  {
    assert (emitted + [a])[..|emitted|] == emitted;
  }

  lemma AppendRanks(emitted: seq<Alert>, a: Alert, bound: nat)
    requires bound <= Rank(a.kind)
    requires forall i :: 0 <= i < |emitted| ==> Rank(emitted[i].kind) < bound
    requires forall i, j :: 0 <= i < j < |emitted| ==> Rank(emitted[i].kind) < Rank(emitted[j].kind)
    ensures forall i :: 0 <= i < |emitted + [a]| ==> Rank((emitted + [a])[i].kind) < Rank(a.kind) + 1
    ensures forall i, j :: 0 <= i < j < |emitted + [a]| ==> Rank((emitted + [a])[i].kind) < Rank((emitted + [a])[j].kind)
  {
    var e := emitted + [a];
    assert forall i :: 0 <= i < |emitted| ==> e[i] == emitted[i];
  }

  lemma AppendAlertsSound(config: Config, last: map<string, int>, now: int, emitted: seq<Alert>, a: Alert)
    requires forall i :: 0 <= i < |emitted| ==> AlertSound(config, last, now, emitted[i])
    requires AlertSound(config, last, now, a)
    ensures forall i :: 0 <= i < |emitted + [a]| ==> AlertSound(config, last, now, (emitted + [a])[i])
  {
    var e := emitted + [a];
    assert forall i :: 0 <= i < |emitted| ==> e[i] == emitted[i];
  }

  /** Blocks in the order `checkAlerts` runs them, the `i`-th testing the
      type of rank `i`, and firing only for an enabled type. */
  ghost predicate InOrder(config: Config, ps: seq<Probe>) {
    && |ps| <= |AlertKinds|
    && forall i :: 0 <= i < |ps| ==> Rank(ps[i].kind) == i && (ps[i].firing ==> Enabled(config, ps[i].kind))
  }

  lemma PlanInOrder(config: Config, health: Health, metrics: Json, n: nat)
    requires n <= |AlertKinds|
    ensures InOrder(config, Plan(config, health, metrics)[..n])
  {
  }

  /** Running blocks in order. */
  lemma {:induction false} RunSound(config: Config, last: map<string, int>, now: int, ps: seq<Probe>)
    requires InOrder(config, ps)
    ensures ScanSound(config, last, now, Run(config, Scan([], last, false), ps, now), |ps|)
    ensures !Run(config, Scan([], last, false), ps, now).threw
    ensures Kinds(Run(config, Scan([], last, false), ps, now).emitted) == Fired(config, last, ps, now)
  {
    if ps != [] {
      var init := ps[..|ps| - 1];
      assert forall i :: 0 <= i < |init| ==> init[i] == ps[i];
      RunSound(config, last, now, init);
      var prev := Run(config, Scan([], last, false), init, now);
      RaiseSound(config, last, now, prev, ps[|ps| - 1], |ps| - 1);
      RaiseKinds(config, last, now, prev, ps[|ps| - 1], |ps| - 1);
    }
  }

  lemma {:induction false} FiredPlan(config: Config, last: map<string, int>, health: Health, metrics: Json, now: int, n: nat, kind: string)
    requires n <= |AlertKinds|
    ensures kind in Fired(config, last, Plan(config, health, metrics)[..n], now)
      <==> Rank(kind) < n && Firing(config, health, metrics, kind) && ShouldSendAlert(config, last, kind, now)
  {
    var ps := Plan(config, health, metrics);
    if n > 0 {
      FiredPlan(config, last, health, metrics, now, n - 1, kind);
      assert ps[..n][..n - 1] == ps[..n - 1];
    }
  }

  /** The guarantees of one evaluation: no alert of a disabled type or of a
      type still cooling down, every alert created now and unacknowledged,
      the fixed order docker, cloudflare, tailscale, storage, backup with
      each type at most once, and a type's send instant recorded exactly
      when it was chosen. */
  lemma CheckSound(config: Config, last: map<string, int>, health: Health, metrics: Json, now: int)
    ensures var s := Check(config, last, health, metrics, now);
      && (forall i :: 0 <= i < |s.emitted| ==>
            Enabled(config, s.emitted[i].kind) && ShouldSendAlert(config, last, s.emitted[i].kind, now)
            && s.emitted[i].timestamp == now && !s.emitted[i].acknowledged)
      && (forall i, j :: 0 <= i < j < |s.emitted| ==> Rank(s.emitted[i].kind) < Rank(s.emitted[j].kind))
      && s.last.Keys == last.Keys + Kinds(s.emitted)
      && (forall k :: k in s.last ==> s.last[k] == if k in Kinds(s.emitted) then now else last[k])
  {
    var s := Check(config, last, health, metrics, now);
    PlanInOrder(config, health, metrics, Reach(config, metrics));
    RunSound(config, last, now, Plan(config, health, metrics)[..Reach(config, metrics)]);
    StampRecords(last, s.emitted, now);
  }

  /** Which alerts one evaluation raises: a type is alerted exactly when its
      block runs before any throw, its condition holds (its type enabled)
      and it is not cooling down. */
  lemma CheckDecides(config: Config, last: map<string, int>, health: Health, metrics: Json, now: int, kind: string)
    ensures kind in Kinds(Check(config, last, health, metrics, now).emitted)
      <==> Rank(kind) < Reach(config, metrics) && Firing(config, health, metrics, kind) && ShouldSendAlert(config, last, kind, now)
    ensures Check(config, last, health, metrics, now).threw <==> metrics.JNull? && (Enabled(config, "storage_full") || Enabled(config, "backup_failed"))
  {
    PlanInOrder(config, health, metrics, Reach(config, metrics));
    RunSound(config, last, now, Plan(config, health, metrics)[..Reach(config, metrics)]);
    FiredPlan(config, last, health, metrics, now, Reach(config, metrics), kind);
  }

  /** Each type appears at most once among the alerts of one evaluation. */
  lemma CheckTypesDistinct(config: Config, last: map<string, int>, health: Health, metrics: Json, now: int)
    ensures var s := Check(config, last, health, metrics, now);
      forall i, j :: 0 <= i < j < |s.emitted| ==> s.emitted[i].kind != s.emitted[j].kind
  {
    CheckSound(config, last, health, metrics, now);
  }

  // ---------------------------------------------------------------------
  // Bounded buffers

  /** `buf.push(x); if (buf.length > cap) buf.shift();` */
  function Pushed<T>(buf: seq<T>, x: T, cap: nat): (r: seq<T>)
    ensures |buf| <= cap ==> |r| <= cap
    ensures cap != 0 ==> r != [] && r[|r| - 1] == x
  {
    var b := buf + [x];
    if |b| > cap then b[1..] else b
  }

  /** Pushing a sequence of elements one at a time. */
  function PushAll<T>(buf: seq<T>, xs: seq<T>, cap: nat): (r: seq<T>)
    ensures |buf| <= cap ==> |r| <= cap
    ensures cap != 0 && xs != [] ==> r != [] && r[|r| - 1] == xs[|xs| - 1]
  {
    if xs == [] then buf else Pushed(PushAll(buf, xs[..|xs| - 1], cap), xs[|xs| - 1], cap)
  }

  /** A bounded buffer keeps exactly the newest `cap` elements of everything
      pushed into it, oldest first, the new element last. */
  lemma {:induction false} PushAllKeepsNewest<T>(buf: seq<T>, xs: seq<T>, cap: nat)
    requires 1 <= cap && |buf| <= cap
    ensures PushAll(buf, xs, cap) == Newest(buf + xs, cap)
  {
    if xs != [] {
      var init := xs[..|xs| - 1];
      var x := xs[|xs| - 1];
      PushAllKeepsNewest(buf, init, cap);
      var before := Newest(buf + init, cap);
      assert buf + xs == (buf + init) + [x];
      if |before + [x]| > cap {
        assert |before| == cap;
        assert (before + [x])[1..] == Newest((buf + init) + [x], cap);
      } else {
        assert before == buf + init;
      }
    }
  }

  lemma PushedKeepsNewest<T>(buf: seq<T>, x: T, cap: nat)
    requires 1 <= cap && |buf| <= cap
    ensures var r := Pushed(buf, x, cap);
      && |r| == Min(|buf| + 1, cap)
      && r[|r| - 1] == x
      && r[..|r| - 1] == buf[|buf| + 1 - |r|..]
  {
  }

  /** The history entries written for alerts sent at `now`. */
  function Sent(xs: seq<Alert>, now: int): (r: seq<HistoryEntry>)
    ensures |r| == |xs|
    ensures forall i :: 0 <= i < |xs| ==> r[i] == HistoryEntry(xs[i], now)
  {
    if xs == [] then [] else Sent(xs[..|xs| - 1], now) + [HistoryEntry(xs[|xs| - 1], now)]
  }

  // ---------------------------------------------------------------------
  // Queries

  /** `alerts.filter(alert => !alert.acknowledged)`. */
  function Unacknowledged(s: seq<Alert>): (r: seq<Alert>)
    ensures |r| <= |s|
    ensures forall i :: 0 <= i < |r| ==> !r[i].acknowledged
  {
    if s == [] then []
    else if s[0].acknowledged then Unacknowledged(s[1..])
    else [s[0]] + Unacknowledged(s[1..])
  }

  /** The filter keeps exactly the unacknowledged alerts. */
  lemma {:induction false} UnacknowledgedMembers(s: seq<Alert>)
    ensures forall a :: a in Unacknowledged(s) <==> a in s && !a.acknowledged
  {
    if s != [] {
      UnacknowledgedMembers(s[1..]);
      assert s == [s[0]] + s[1..];
    }
  }

  /** The filter keeps buffer order: it distributes over concatenation. */
  lemma {:induction false} UnacknowledgedAppend(s: seq<Alert>, t: seq<Alert>)
    ensures Unacknowledged(s + t) == Unacknowledged(s) + Unacknowledged(t)
  {
    if s != [] {
      var st := s + t;
      assert st != [] && st[0] == s[0];
      assert st[1..] == s[1..] + t;
      UnacknowledgedAppend(s[1..], t);
      var a := Unacknowledged(s[1..]);
      var b := Unacknowledged(t);
      if s[0].acknowledged {
        assert Unacknowledged(st) == Unacknowledged(s[1..] + t);
        assert Unacknowledged(s) == a;
      } else {
        assert Unacknowledged(st) == [s[0]] + (a + b);
        assert Unacknowledged(s) == [s[0]] + a;
        assert [s[0]] + (a + b) == ([s[0]] + a) + b;
      }
    } else {
      assert s + t == t;
    }
  }

  /** The position of the first alert with the given id, `|s|` if none. */
  function FindById(s: seq<Alert>, id: string): (k: nat)
    ensures k <= |s|
    ensures k < |s| ==> s[k].id == id
    ensures forall j :: 0 <= j < k ==> s[j].id != id
  {
    if s == [] || s[0].id == id then 0 else 1 + FindById(s[1..], id)
  }

  lemma {:induction false} FindByIdIsFirst(s: seq<Alert>, id: string, k: nat)
    requires k <= |s|
    requires k < |s| ==> s[k].id == id
    requires forall j :: 0 <= j < k ==> s[j].id != id
    ensures FindById(s, id) == k
  {
    if s != [] && s[0].id != id {
      FindByIdIsFirst(s[1..], id, k - 1);
    }
  }

  /** `alerts.find(a => a.id === alertId).acknowledged = true`. */
  function AcknowledgeFirst(s: seq<Alert>, id: string): (r: seq<Alert>)
    ensures |r| == |s|
    ensures forall i :: 0 <= i < |s| ==>
      r[i] == if i == FindById(s, id) then s[i].(acknowledged := true) else s[i]
  {
    var k := FindById(s, id);
    if k < |s| then s[k := s[k].(acknowledged := true)] else s
  }

  // ---------------------------------------------------------------------
  // The component

  class AlertSystem {
    var alerts: seq<Alert>
    var alertHistory: seq<HistoryEntry>
    var lastAlerts: map<string, int>
    var config: Config

    ghost predicate Valid()
      reads this
    {
      && |alerts| <= CurrentCapacity
      && |alertHistory| <= HistoryCapacity
      && HasAlertKinds(config)
    }

    /** `new AlertSystem()`, given how reading `config.json` ended. */
    constructor (file: FileRead)
      ensures Valid()
      ensures alerts == [] && alertHistory == [] && lastAlerts == map[]
      ensures config == LoadAlertConfig(file)
    {
      alerts := [];
      alertHistory := [];
      lastAlerts := map[];
      config := LoadAlertConfig(file);
    }

    /** One block of `checkAlerts` on the live state. */
    method Consider(p: Probe, now: int, chosen: seq<Alert>) returns (chosen': seq<Alert>)
      modifies this`lastAlerts
      ensures Scan(chosen', lastAlerts, false) == Raise(config, Scan(chosen, old(lastAlerts), false), p, now)
    {
      chosen' := chosen;
      if p.firing {
        var alert := CreateAlert(p.kind, p.message, p.severity, now);
        if ShouldSendAlert(config, lastAlerts, p.kind, now) {
          chosen' := chosen + [alert];
          lastAlerts := lastAlerts[p.kind := now];
        }
      }
    }

    /** The three service blocks of `checkAlerts`, which read only the
        health record. */
    method CheckServices(health: Health, metrics: Json, now: int) returns (chosen: seq<Alert>)
      modifies this`lastAlerts
      ensures Scan(chosen, lastAlerts, false)
        == Run(config, Scan([], old(lastAlerts), false), Plan(config, health, metrics)[..3], now)
    {
      ghost var s0 := Scan([], lastAlerts, false);
      ghost var ps := Plan(config, health, metrics);
      chosen := [];
      assert ps[..0] == [];
      RunStep(config, s0, ps, 0, now);
      chosen := Consider(ProbeFor(config, health, metrics, "docker_down"), now, chosen);
      RunStep(config, s0, ps, 1, now);
      chosen := Consider(ProbeFor(config, health, metrics, "cloudflare_down"), now, chosen);
      RunStep(config, s0, ps, 2, now);
      chosen := Consider(ProbeFor(config, health, metrics, "tailscale_down"), now, chosen);
    }

    /** The five blocks of `checkAlerts`, recording send instants as they
        go; `threw` reports the TypeError of a null metrics record. */
    method Evaluate(health: Health, metrics: Json, now: int) returns (chosen: seq<Alert>, threw: bool)
      modifies this`lastAlerts
      ensures Scan(chosen, lastAlerts, threw) == Check(config, old(lastAlerts), health, metrics, now)
    {
      ghost var s0 := Scan([], lastAlerts, false);
      ghost var ps := Plan(config, health, metrics);
      chosen := CheckServices(health, metrics, now);
      if Enabled(config, "storage_full") {
        if metrics.JNull? {
          return chosen, true;
        }
      }
      RunStep(config, s0, ps, 3, now);
      chosen := Consider(ProbeFor(config, health, metrics, "storage_full"), now, chosen);
      if Enabled(config, "backup_failed") && metrics.JNull? {
        return chosen, true;
      }
      RunStep(config, s0, ps, 4, now);
      chosen := Consider(ProbeFor(config, health, metrics, "backup_failed"), now, chosen);
      assert ps[..5] == ps;
      threw := false;
    }

    /** `newAlerts.forEach(alert => this.sendAlert(alert))`. */
    method SendAll(xs: seq<Alert>, now: int)
      requires Valid()
      modifies this
      ensures Valid()
      ensures alerts == PushAll(old(alerts), xs, CurrentCapacity)
      ensures alertHistory == PushAll(old(alertHistory), Sent(xs, now), HistoryCapacity)
      ensures lastAlerts == old(lastAlerts) && config == old(config)
    {
      var i := 0;
      while i < |xs|
        invariant 0 <= i <= |xs|
        invariant Valid() && config == old(config) && lastAlerts == old(lastAlerts)
        invariant alerts == PushAll(old(alerts), xs[..i], CurrentCapacity)
        invariant alertHistory == PushAll(old(alertHistory), Sent(xs[..i], now), HistoryCapacity)
      {
        assert xs[..i + 1][..i] == xs[..i];
        SendAlert(xs[i], now);
        i := i + 1;
      }
      assert xs[..i] == xs;
    }

    /** `checkAlerts(health, metrics)`: evaluates the five checks, then
        sends the chosen alerts in order and returns them. When reading the
        null metrics record throws, nothing is sent, `threw` is set and the
        instants recorded before the throw stay recorded. */
    method CheckAlerts(health: Health, metrics: Json, now: int) returns (newAlerts: seq<Alert>, threw: bool)
      requires Valid()
      modifies this
      ensures Valid() && config == old(config)
      ensures var s := Check(old(config), old(lastAlerts), health, metrics, now);
        && lastAlerts == s.last
        && threw == s.threw
        && (threw ==> newAlerts == [] && alerts == old(alerts) && alertHistory == old(alertHistory))
        && (!threw ==>
              && newAlerts == s.emitted
              && alerts == PushAll(old(alerts), s.emitted, CurrentCapacity)
              && alertHistory == PushAll(old(alertHistory), Sent(s.emitted, now), HistoryCapacity))
    {
      var chosen;
      chosen, threw := Evaluate(health, metrics, now);
      if threw {
        return [], true;
      }
      SendAll(chosen, now);
      newAlerts := chosen;
    }

    /** The buffer part of `sendAlert(alert)`: append to the current alerts
        and to the history, dropping the oldest entry past the cap. */
    method SendAlert(alert: Alert, now: int)
      requires Valid()
      modifies this
      ensures Valid()
      ensures alerts == Pushed(old(alerts), alert, CurrentCapacity)
      ensures alertHistory == Pushed(old(alertHistory), HistoryEntry(alert, now), HistoryCapacity)
      ensures lastAlerts == old(lastAlerts) && config == old(config)
    {
      alerts := alerts + [alert];
      if |alerts| > CurrentCapacity {
        alerts := alerts[1..];
      }
      alertHistory := alertHistory + [HistoryEntry(alert, now)];
      if |alertHistory| > HistoryCapacity {
        alertHistory := alertHistory[1..];
      }
    }

    /** `getActiveAlerts()`. */
    function GetActiveAlerts(): (r: seq<Alert>)
      reads this
      ensures forall i :: 0 <= i < |r| ==> !r[i].acknowledged
      ensures forall a :: a in r <==> a in alerts && !a.acknowledged
      ensures r == Unacknowledged(alerts)
    {
      UnacknowledgedMembers(alerts);
      Unacknowledged(alerts)
    }

    /** `getAlertHistory(limit = 100)`, i.e. `alertHistory.slice(-limit)`. */
    function GetAlertHistory(limit: int := 100): (r: seq<HistoryEntry>)
      reads this
      ensures 0 < limit ==> |r| == Min(limit, |alertHistory|) && r == alertHistory[|alertHistory| - |r|..]
      ensures limit == 0 ==> r == alertHistory
      ensures limit < 0 ==> r == alertHistory[Min(-limit, |alertHistory|)..]
    {
      SliceFromEnd(alertHistory, limit);
      JsSlice(alertHistory, -limit)
    }

    /** `acknowledgeAlert(alertId)`: marks the first alert with that id. */
    method AcknowledgeAlert(alertId: string) returns (found: bool)
      requires Valid()
      modifies this
      ensures Valid()
      ensures found <==> exists i :: 0 <= i < |old(alerts)| && old(alerts)[i].id == alertId
      ensures alerts == AcknowledgeFirst(old(alerts), alertId)
      ensures alertHistory == old(alertHistory) && lastAlerts == old(lastAlerts) && config == old(config)
    {
      var i := 0;
      while i < |alerts| && alerts[i].id != alertId
        invariant 0 <= i <= |alerts|
        invariant forall j :: 0 <= j < i ==> alerts[j].id != alertId
      {
        i := i + 1;
      }
      FindByIdIsFirst(alerts, alertId, i);
      found := i < |alerts|;
      if found {
        alerts := alerts[i := alerts[i].(acknowledged := true)];
      }
    }

    /** `clearAlerts()`: the current alerts and the cooldown records go,
        the history stays. */
    method ClearAlerts()
      requires Valid()
      modifies this
      ensures Valid()
      ensures alerts == [] && lastAlerts == map[]
      ensures alertHistory == old(alertHistory) && config == old(config)
    {
      alerts := [];
      lastAlerts := map[];
    }

    /** `updateConfig(newConfig)` without the file write: the merge of the
        current configuration with the new document, or no change when the
        merge throws. */
    method UpdateConfig(newConfig: Json) returns (ok: bool)
      requires Valid()
      modifies this
      ensures Valid()
      ensures ok <==> !newConfig.JNull?
      ensures config == if ok then MergeConfig(old(config), newConfig).value else old(config)
      ensures alerts == old(alerts) && alertHistory == old(alertHistory) && lastAlerts == old(lastAlerts)
    {
      var merged := MergeConfig(config, newConfig);
      ok := merged.Success?;
      if ok {
        config := merged.value;
      }
    }
  }
}
