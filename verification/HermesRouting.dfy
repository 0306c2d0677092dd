/** The hermes plugin's lifecycle: load, unload, environment routing, tool registration and recovery under one lock. */
module HermesRouting {
  import opened Texts

  type Key = string

  type Env = map<Key, string>

  const HTTPS_PROXY: Key := "HTTPS_PROXY"
  const LOWER_PROXY: Key := "https_proxy"
  const CA_BUNDLE: Key := "HERMES_CA_BUNDLE"
  const CERT_FILE: Key := "SSL_CERT_FILE"

  predicate Routed(k: Key) {
    k == HTTPS_PROXY || k == LOWER_PROXY || k == CA_BUNDLE || k == CERT_FILE
  }

  /** What looking for a certificate file gives: none, a path, or an error that leaves the caller. */
  datatype Probe = Absent | Found(path: string) | Raises

  /** The effects other parts of the process can see. */
  datatype Effect = Loaded | Unloaded | EnvRouted | ToolRegistered(name: string) | ToolsReady

  /** The process environment and the plugin's state; backup is empty unless a routing overwrote something. */
  datatype Host = Host(env: Env, applied: bool, backup: map<Key, Option<string>>, stopped: bool, loaded: bool,
                       toolsReady: bool, toolNames: seq<string>, gen: nat, origin: Option<string>, recovering: bool,
                       log: seq<Effect>)

  function Start(env: Env): Host {
    Host(env, false, map[], false, false, false, [], 0, None, false, [])
  }

  function Read(env: Env, k: Key): Option<string> {
    if k in env then Some(env[k]) else None
  }

  function Write(env: Env, k: Key, v: Option<string>): Env {
    if v.Some? then env[k := v.value] else env - {k}
  }

  // ---- routing ----

  function Snapshot(env: Env): map<Key, Option<string>> {
    map[HTTPS_PROXY := Read(env, HTTPS_PROXY), LOWER_PROXY := Read(env, LOWER_PROXY),
        CA_BUNDLE := Read(env, CA_BUNDLE), CERT_FILE := Read(env, CERT_FILE)]
  }

  /** apply_env up to its release of the lock: an error while looking for a file leaves the rest undone. */
  function ApplyEnv(h: Host, origin: string, root: Probe, combined: Probe): Host {
    if h.stopped then h
    else
      var backup := if !h.applied && h.backup == map[] then Snapshot(h.env) else h.backup;
      var env1 := h.env[HTTPS_PROXY := origin][LOWER_PROXY := origin];
      var h1 := h.(env := env1, backup := backup, log := h.log + [EnvRouted]);
      if root.Raises? then h1
      else
        var h2 := if root.Found? then h1.(env := h1.env[CA_BUNDLE := root.path]) else h1;
        if combined.Raises? then h2
        else (if combined.Found? then h2.(env := h2.env[CERT_FILE := combined.path]) else h2).(applied := true)
  }

  function Original(backup: map<Key, Option<string>>, k: Key): Option<string> {
    if k in backup then backup[k] else None
  }

  /** _unroute_env. */
  function Unroute(h: Host): Host {
    var e1 := Write(h.env, HTTPS_PROXY, Original(h.backup, HTTPS_PROXY));
    var e2 := Write(e1, LOWER_PROXY, Original(h.backup, LOWER_PROXY));
    var e3 := Write(e2, CA_BUNDLE, Original(h.backup, CA_BUNDLE));
    var e4 := Write(e3, CERT_FILE, Original(h.backup, CERT_FILE));
    h.(env := e4, applied := false, backup := map[])
  }

  /** The watchdog's verdict, re-checked under the lock against the current generation and origin. */
  function Recover(h: Host, gen: nat, origin: string): Host {
    if h.stopped || h.gen != gen then h
    else if h.origin != Some(origin) || !h.applied || h.recovering then h
    else Unroute(h).(toolsReady := false, origin := None, recovering := true)
  }

  // ---- tools and lifecycle ----

  function Registrations(names: seq<string>): seq<Effect> {
    if names == [] then [] else [ToolRegistered(names[0])] + Registrations(names[1..])
  }

  /** _register_tools: check and commit in one critical section. */
  function RegisterTools(h: Host, names: seq<string>): Host {
    if h.stopped then h
    else h.(toolNames := names, toolsReady := true, log := h.log + Registrations(names) + [ToolsReady])
  }

  /** The recovery path re-arms the tools the session already carries. */
  function RearmTools(h: Host): Host {
    if h.stopped then h else h.(toolsReady := true, log := h.log + [ToolsReady])
  }

  /** _shutdown. */
  function Unload(h: Host): Host {
    h.(stopped := true, loaded := false, toolsReady := false, toolNames := [], gen := h.gen + 1,
       log := h.log + [Unloaded])
  }

  /** The committing part of register: a stale stop is cleared, older watchdogs are invalidated. */
  function Load(h: Host): Host {
    if h.loaded then h else h.(stopped := false, gen := h.gen + 1, loaded := true, log := h.log + [Loaded])
  }

  // ---- runs ----

  datatype Event =
    | Registers
    | Unloads
    | Routes(origin: string, root: Probe, combined: Probe)
    | OriginFound(origin: string)
    | Installs(names: seq<string>)
    | Rearms
    | OriginDies(gen: nat, origin: string)
    | RecoveryEnds
    | Elsewhere(key: Key, val: Option<string>)

  function Apply(h: Host, e: Event): Host {
    match e
    case Registers => Load(h)
    case Unloads => Unload(h)
    case Routes(origin, root, combined) => ApplyEnv(h, origin, root, combined)
    case OriginFound(origin) => h.(origin := Some(origin))
    case Installs(names) => RegisterTools(h, names)
    case Rearms => RearmTools(h)
    case OriginDies(gen, origin) => Recover(h, gen, origin)
    case RecoveryEnds => h.(recovering := false)
    case Elsewhere(k, v) => h.(env := Write(h.env, k, v))
  }

  function Run(env: Env, events: seq<Event>): Host {
    if events == [] then Start(env) else Apply(Run(env, events[..|events| - 1]), events[|events| - 1])
  }

  /** The environment with the writes of everybody else only. */
  function Unrouted(env: Env, events: seq<Event>): Env {
    if events == [] then env
    else
      var before, e := Unrouted(env, events[..|events| - 1]), events[|events| - 1];
      if e.Elsewhere? then Write(before, e.key, e.val) else before
  }

  /** Nobody else writes a routed variable while the plugin has overwritten it. */
  predicate Undisturbed(env: Env, events: seq<Event>) {
    events == [] ||
    (Undisturbed(env, events[..|events| - 1])
     && var e := events[|events| - 1];
        e.Elsewhere? && Routed(e.key) ==> Run(env, events[..|events| - 1]).backup == map[])
  }

  // ---- routing is undone ----

  /** Apart from the routed variables the environment is untouched, and the backup is what they held. */
  ghost predicate Restorable(h: Host, base: Env) {
    && (forall k :: !Routed(k) ==> Read(h.env, k) == Read(base, k))
    && (h.applied ==> h.backup != map[])
    && (h.backup == map[] ==> h.env == base)
    && (h.backup != map[] ==> h.backup == Snapshot(base))
  }

  lemma SnapshotIsFull(env: Env)
    ensures Snapshot(env) != map[] && forall k :: Routed(k) ==> Original(Snapshot(env), k) == Read(env, k)
  {
    assert HTTPS_PROXY in Snapshot(env);
    assert HTTPS_PROXY[0] == 'H' && LOWER_PROXY[0] == 'h' && CA_BUNDLE[1] == 'E' && CERT_FILE[0] == 'S';
    assert HTTPS_PROXY[1] == 'T';
  }

  lemma SameEnv(a: Env, b: Env)
    requires forall k :: Read(a, k) == Read(b, k)
    ensures a == b
  {
    forall k ensures k in a <==> k in b {
      assert Read(a, k) == Read(b, k);
    }
    forall k | k in a ensures a[k] == b[k] {
      assert Read(a, k) == Read(b, k);
    }
  }

  lemma RouteRestorable(h: Host, base: Env, origin: string, root: Probe, combined: Probe)
    requires Restorable(h, base)
    ensures Restorable(ApplyEnv(h, origin, root, combined), base)
  {
    hide Snapshot;
    SnapshotIsFull(base);
  }

  lemma UnrouteRestores(h: Host, base: Env)
    requires Restorable(h, base) && h.backup != map[]
    ensures Unroute(h).env == base && Restorable(Unroute(h), base)
  {
    SnapshotIsFull(base);
    hide Snapshot;
    var e := Unroute(h).env;
    forall k ensures Read(e, k) == Read(base, k) {
    }
    SameEnv(e, base);
  }

  lemma ForeignRestorable(h: Host, base: Env, k: Key, v: Option<string>)
    requires Restorable(h, base) && (Routed(k) ==> h.backup == map[])
    ensures Restorable(h.(env := Write(h.env, k, v)), Write(base, k, v))
  {
    if h.backup != map[] {
      assert Snapshot(Write(base, k, v)) == Snapshot(base);
    }
  }

  lemma {:induction false} RunRestorable(env: Env, events: seq<Event>)
    requires Undisturbed(env, events)
    ensures Restorable(Run(env, events), Unrouted(env, events))
  {
    if events != [] {
      hide Restorable, ApplyEnv, Unroute, Write;
      var before, e := events[..|events| - 1], events[|events| - 1];
      RunRestorable(env, before);
      var h, base := Run(env, before), Unrouted(env, before);
      match e
      case Routes(origin, root, combined) => RouteRestorable(h, base, origin, root, combined);
      case OriginDies(gen, origin) => RecoverRestorable(h, base, gen, origin);
      case Elsewhere(k, v) => ForeignRestorable(h, base, k, v);
      case _ => OtherRestorable(h, base, e);
    }
  }

  lemma RecoverRestorable(h: Host, base: Env, gen: nat, origin: string)
    requires Restorable(h, base)
    ensures Restorable(Recover(h, gen, origin), base)
  {
    if h.applied {
      UnrouteRestores(h, base);
    }
    hide Unroute;
  }

  lemma OtherRestorable(h: Host, base: Env, e: Event)
    requires Restorable(h, base) && !e.Routes? && !e.OriginDies? && !e.Elsewhere?
    ensures Restorable(Apply(h, e), base)
  {
  }

  /**
   * In every interleaving, whenever routing is not applied the environment is what everybody else made it,
   * exactly the pre-routing values included, unless a routing broke off half way and nothing has undone it yet.
   */
  lemma UnappliedMeansUnrouted(env: Env, events: seq<Event>)
    requires Undisturbed(env, events) && !Run(env, events).applied
    ensures Run(env, events).backup == map[] ==> Run(env, events).env == Unrouted(env, events)
    ensures forall k :: !Routed(k) ==> Read(Run(env, events).env, k) == Read(Unrouted(env, events), k)
  {
    hide Run, Unrouted;
    RunRestorable(env, events);
  }

  /** A backup is left behind without applied routing only when looking for a certificate file raised. */
  lemma {:induction false} BackupMeansRouting(env: Env, events: seq<Event>)
    requires forall e :: e in events && e.Routes? ==> !e.root.Raises? && !e.combined.Raises?
    ensures Run(env, events).backup != map[] ==> Run(env, events).applied
  {
    if events != [] {
      hide Unload, Load, RegisterTools, Snapshot;
      var before, e := events[..|events| - 1], events[|events| - 1];
      assert e in events && forall x :: x in before ==> x in events;
      BackupMeansRouting(env, before);
      OthersKeepRouting(Run(env, before), e);
    }
  }

  lemma OthersKeepRouting(h: Host, e: Event)
    ensures !e.Routes? && !e.OriginDies? ==> Apply(h, e).backup == h.backup && Apply(h, e).applied == h.applied
  {
  }

  /** With no such error, unapplied means exactly what everybody else left. */
  lemma UnappliedMeansRestored(env: Env, events: seq<Event>)
    requires Undisturbed(env, events) && !Run(env, events).applied
    requires forall e :: e in events && e.Routes? ==> !e.root.Raises? && !e.combined.Raises?
    ensures Run(env, events).env == Unrouted(env, events)
  {
    hide Run, Unrouted;
    UnappliedMeansUnrouted(env, events);
    BackupMeansRouting(env, events);
  }

  /** An error while looking for the root certificate leaves the proxy variables routed and nothing applied. */
  lemma InterruptedRouting(env: Env, origin: string)
    ensures var h := Run(env, [Routes(origin, Raises, Absent)]);
      !h.applied && Read(h.env, HTTPS_PROXY) == Some(origin) && Read(h.env, LOWER_PROXY) == Some(origin)
  {
    assert [Routes(origin, Raises, Absent)][..0] == [];
    assert HTTPS_PROXY[0] == 'H' && LOWER_PROXY[0] == 'h';
  }

  // ---- exactly when routing is undone ----

  /** While a backup is kept, the proxy variable holds the origin of some routing. */
  ghost predicate HoldsOrigin(h: Host, events: seq<Event>) {
    h.backup != map[] ==> exists e :: e in events && e.Routes? && Read(h.env, HTTPS_PROXY) == Some(e.origin)
  }

  lemma StepHoldsOrigin(h: Host, before: seq<Event>, e: Event)
    requires HoldsOrigin(h, before) && (e.Elsewhere? && Routed(e.key) ==> h.backup == map[])
    ensures HoldsOrigin(Apply(h, e), before + [e])
  {
    hide Snapshot, Registrations;
    assert forall x :: x in before ==> x in before + [e];
    assert e in before + [e];
    if e.Routes? && !h.stopped {
      RouteSetsProxy(h, e.origin, e.root, e.combined);
    }
  }

  lemma RouteSetsProxy(h: Host, origin: string, root: Probe, combined: Probe)
    requires !h.stopped
    ensures Read(ApplyEnv(h, origin, root, combined).env, HTTPS_PROXY) == Some(origin)
  {
    assert HTTPS_PROXY[0] == 'H' && LOWER_PROXY[0] == 'h' && CA_BUNDLE[1] == 'E' && CERT_FILE[0] == 'S';
    assert HTTPS_PROXY[1] == 'T';
  }

  lemma LastEvent(env: Env, events: seq<Event>)
    requires events != [] && Undisturbed(env, events)
    ensures var before, e := events[..|events| - 1], events[|events| - 1];
      && Undisturbed(env, before) && Run(env, events) == Apply(Run(env, before), e)
      && (e.Elsewhere? && Routed(e.key) ==> Run(env, before).backup == map[])
  {
    hide Apply, Routed;
  }

  lemma StartsWithoutOrigin(env: Env)
    ensures HoldsOrigin(Run(env, []), [])
  {
  }

  lemma {:induction false} RunHoldsOrigin(env: Env, events: seq<Event>)
    requires Undisturbed(env, events)
    ensures HoldsOrigin(Run(env, events), events)
  {
    hide Apply, HoldsOrigin, Run, Undisturbed, Routed;
    if events != [] {
      var before, e := events[..|events| - 1], events[|events| - 1];
      LastEvent(env, events);
      RunHoldsOrigin(env, before);
      StepHoldsOrigin(Run(env, before), before, e);
      assert before + [e] == events;
    } else {
      StartsWithoutOrigin(env);
    }
  }

  /** The plugin's origins are its own: none of them is the proxy that everybody else left. */
  ghost predicate OwnOrigins(env: Env, events: seq<Event>) {
    forall e :: e in events && e.Routes? ==> Read(Unrouted(env, events), HTTPS_PROXY) != Some(e.origin)
  }

  /** The routing of event k broke off, nothing had been applied, and no later one went through. */
  ghost predicate BrokeOff(env: Env, events: seq<Event>, k: nat)
    requires k < |events|
  {
    && Breaks(Run(env, events[..k]), events[k]) && !Run(env, events[..k]).applied
    && forall m :: k < m < |events| ==> !GoesThrough(Run(env, events[..m]), events[m])
  }

  predicate Breaks(h: Host, e: Event) {
    e.Routes? && !h.stopped && (e.root.Raises? || e.combined.Raises?)
  }

  predicate GoesThrough(h: Host, e: Event) {
    e.Routes? && !h.stopped && !e.root.Raises? && !e.combined.Raises?
  }

  /** Nothing is applied but a backup is kept. */
  predicate LeftOver(h: Host) {
    !h.applied && h.backup != map[]
  }

  lemma RouteLeftOver(h: Host, origin: string, root: Probe, combined: Probe)
    requires h.applied ==> h.backup != map[]
    ensures var e, next := Routes(origin, root, combined), ApplyEnv(h, origin, root, combined);
      && (LeftOver(next) <==> (Breaks(h, e) && !h.applied) || (LeftOver(h) && !GoesThrough(h, e)))
      && (next.applied ==> next.backup != map[])
  {
    SnapshotIsFull(h.env);
    hide Snapshot;
  }

  lemma StepLeftOver(h: Host, e: Event)
    requires h.applied ==> h.backup != map[]
    ensures LeftOver(Apply(h, e)) <==>
            (Breaks(h, e) && !h.applied) || (LeftOver(h) && !GoesThrough(h, e))
    ensures Apply(h, e).applied ==> Apply(h, e).backup != map[]
  {
    hide ApplyEnv, Registrations, Write;
    if e.Routes? {
      RouteLeftOver(h, e.origin, e.root, e.combined);
    }
  }

  lemma {:induction false} RunLeftOver(env: Env, events: seq<Event>)
    ensures Run(env, events).applied ==> Run(env, events).backup != map[]
    ensures LeftOver(Run(env, events)) <==> exists k :: 0 <= k < |events| && BrokeOff(env, events, k)
  {
    hide Apply, LeftOver, Breaks, GoesThrough, BrokeOff;
    if events == [] {
      StartsClean(env);
    } else {
      var n := |events| - 1;
      RunLeftOver(env, events[..n]);
      StepLeftOver(Run(env, events[..n]), events[n]);
      forall k | 0 <= k < n
        ensures BrokeOff(env, events, k) <==>
                BrokeOff(env, events[..n], k) && !GoesThrough(Run(env, events[..n]), events[n])
      {
        BrokeOffBefore(env, events, k);
      }
      BrokeOffNow(env, events);
    }
  }

  lemma StartsClean(env: Env)
    ensures !LeftOver(Start(env)) && !Start(env).applied
  {
  }

  lemma BrokeOffNow(env: Env, events: seq<Event>)
    requires events != []
    ensures var n := |events| - 1;
      BrokeOff(env, events, n) <==> Breaks(Run(env, events[..n]), events[n]) && !Run(env, events[..n]).applied
  {
  }

  lemma BrokeOffBefore(env: Env, events: seq<Event>, k: nat)
    requires k < |events| - 1
    ensures var n := |events| - 1;
      BrokeOff(env, events, k) <==>
      BrokeOff(env, events[..n], k) && !GoesThrough(Run(env, events[..n]), events[n])
  {
    hide Run, Breaks, GoesThrough;
    var n := |events| - 1;
    assert forall m :: 0 <= m < n ==> events[..n][..m] == events[..m] && events[..n][m] == events[m];
  }

  /**
   * In every interleaving in which nobody else writes a routed variable meanwhile: when routing is not applied, the
   * environment is what everybody else made it exactly when no routing that broke off is still left over.
   */
  lemma RestoredUnlessBrokenOff(env: Env, events: seq<Event>)
    requires Undisturbed(env, events) && OwnOrigins(env, events) && !Run(env, events).applied
    ensures Run(env, events).env == Unrouted(env, events) <==> Run(env, events).backup == map[]
    ensures Run(env, events).env == Unrouted(env, events) <==>
            !exists k :: 0 <= k < |events| && BrokeOff(env, events, k)
  {
    hide Run, Unrouted, BrokeOff, Undisturbed;
    UnappliedMeansUnrouted(env, events);
    RunHoldsOrigin(env, events);
    RunLeftOver(env, events);
  }

  // ---- nothing is committed while unloaded ----

  predicate Commits(x: Effect) {
    x.EnvRouted? || x.ToolRegistered? || x.ToolsReady?
  }

  /** Between an unload and the next load no effect is committed. */
  ghost predicate Silent(log: seq<Effect>) {
    forall i, j :: 0 <= i < j < |log| && log[i].Unloaded? && Commits(log[j]) ==> LoadedBetween(log, i, j)
  }

  predicate LoadedBetween(log: seq<Effect>, i: nat, j: nat)
    requires j <= |log|
  {
    exists k :: i < k < j && log[k].Loaded?
  }

  /** Every unload of the log has a load after it. */
  ghost predicate LoadedSince(log: seq<Effect>) {
    forall i :: 0 <= i < |log| && log[i].Unloaded? ==> LoadedBetween(log, i, |log|)
  }

  ghost predicate Orderly(h: Host) {
    Silent(h.log) && (!h.stopped ==> LoadedSince(h.log))
  }

  /** Effects that are no unload may follow as long as every unload has a load after it. */
  lemma CommitKeepsOrder(log: seq<Effect>, x: Effect)
    requires Silent(log) && LoadedSince(log) && !x.Unloaded?
    ensures Silent(log + [x]) && LoadedSince(log + [x])
  {
    var more := log + [x];
    forall i, j | 0 <= i < j <= |log| && LoadedBetween(log, i, j) ensures LoadedBetween(more, i, j) {
      var k :| i < k < j && log[k].Loaded?;
      assert more[k].Loaded?;
    }
    forall i | 0 <= i < |log| && LoadedBetween(log, i, |log|) ensures LoadedBetween(more, i, |more|) {
      var k :| i < k < |log| && log[k].Loaded?;
      assert more[k].Loaded?;
    }
  }

  lemma LoadRestoresOrder(log: seq<Effect>)
    requires Silent(log)
    ensures Silent(log + [Loaded]) && LoadedSince(log + [Loaded])
  {
    var more := log + [Loaded];
    forall i, j | 0 <= i < j <= |log| && LoadedBetween(log, i, j) ensures LoadedBetween(more, i, j) {
      var k :| i < k < j && log[k].Loaded?;
      assert more[k].Loaded?;
    }
    forall i | 0 <= i < |log| ensures LoadedBetween(more, i, |more|) {
      assert more[|log|].Loaded?;
    }
  }

  lemma UnloadKeepsSilence(log: seq<Effect>)
    requires Silent(log)
    ensures Silent(log + [Unloaded])
  {
    var more := log + [Unloaded];
    forall i, j | 0 <= i < j <= |log| && LoadedBetween(log, i, j) ensures LoadedBetween(more, i, j) {
      var k :| i < k < j && log[k].Loaded?;
      assert more[k].Loaded?;
    }
  }

  lemma {:induction false} RegistrationsKeepOrder(log: seq<Effect>, names: seq<string>)
    requires Silent(log) && LoadedSince(log)
    ensures Silent(log + Registrations(names)) && LoadedSince(log + Registrations(names))
    decreases |names|
  {
    hide Silent, LoadedSince;
    if names == [] {
      assert log + Registrations(names) == log;
    } else {
      CommitKeepsOrder(log, ToolRegistered(names[0]));
      RegistrationsKeepOrder(log + [ToolRegistered(names[0])], names[1..]);
      assert log + Registrations(names) == log + [ToolRegistered(names[0])] + Registrations(names[1..]);
    }
  }

  lemma ApplyKeepsOrder(h: Host, e: Event)
    requires Orderly(h)
    ensures Orderly(Apply(h, e))
  {
    hide Silent, LoadedSince, Snapshot, Write, Registrations;
    match e
    case Registers => LoadRestoresOrder(h.log);
    case Unloads => UnloadKeepsSilence(h.log);
    case Routes(_, _, _) =>
      if !h.stopped {
        CommitKeepsOrder(h.log, EnvRouted);
      }
    case Installs(names) =>
      if !h.stopped {
        RegistrationsKeepOrder(h.log, names);
        CommitKeepsOrder(h.log + Registrations(names), ToolsReady);
      }
    case Rearms =>
      if !h.stopped {
        CommitKeepsOrder(h.log, ToolsReady);
      }
    case _ =>
  }

  lemma {:induction false} RunOrderly(env: Env, events: seq<Event>)
    ensures Orderly(Run(env, events))
  {
    if events != [] {
      hide Apply, Orderly;
      RunOrderly(env, events[..|events| - 1]);
      ApplyKeepsOrder(Run(env, events[..|events| - 1]), events[|events| - 1]);
    } else {
      assert Orderly(Start(env));
    }
  }

  /** No tool registration and no routing is committed after an unload until the plugin is loaded again. */
  lemma NothingWhileUnloaded(env: Env, events: seq<Event>, i: nat, j: nat)
    requires i < j < |Run(env, events).log| && Run(env, events).log[i].Unloaded?
    requires forall k :: i < k < j ==> !Run(env, events).log[k].Loaded?
    ensures !Commits(Run(env, events).log[j])
  {
    hide Run, Commits;
    RunOrderly(env, events);
    assert Commits(Run(env, events).log[j]) ==> LoadedBetween(Run(env, events).log, i, j);
  }

  // ---- the plugin's own state ----

  /** os.environ and the module state; every method body is one critical section. */
  class Plugin {
    var env: Env
    var applied: bool
    var backup: map<Key, Option<string>>
    var stopped: bool
    var loaded: bool
    var toolsReady: bool
    var toolNames: seq<string>
    var gen: nat
    var origin: Option<string>
    var recovering: bool
    var log: seq<Effect>

    function Value(): Host
      reads this
    {
      Host(env, applied, backup, stopped, loaded, toolsReady, toolNames, gen, origin, recovering, log)
    }

    constructor (environ: Env)
      ensures Value() == Start(environ)
    {
      env, applied, backup, stopped, loaded := environ, false, map[], false, false;
      toolsReady, toolNames, gen, origin, recovering, log := false, [], 0, None, false, [];
    }

    method RouteEnv(target: string, root: Probe, combined: Probe) returns (ok: bool)
      modifies this
      ensures Value() == ApplyEnv(old(Value()), target, root, combined)
      ensures ok <==> !stopped && !root.Raises? && !combined.Raises?
    {
      hide Snapshot;
      if stopped {
        return false;
      }
      if !applied && backup == map[] {
        backup := Snapshot(env);
      }
      log := log + [EnvRouted];
      env := env[HTTPS_PROXY := target];
      env := env[LOWER_PROXY := target];
      match root {
        case Raises => return false;
        case Found(path) => env := env[CA_BUNDLE := path];
        case Absent =>
      }
      match combined {
        case Raises => return false;
        case Found(path) => env := env[CERT_FILE := path];
        case Absent =>
      }
      applied := true;
      return true;
    }

    method UnrouteEnv()
      modifies this
      ensures Value() == Unroute(old(Value()))
    {
      var keys := [HTTPS_PROXY, LOWER_PROXY, CA_BUNDLE, CERT_FILE];
      env := Write(env, keys[0], Original(backup, keys[0]));
      env := Write(env, keys[1], Original(backup, keys[1]));
      env := Write(env, keys[2], Original(backup, keys[2]));
      env := Write(env, keys[3], Original(backup, keys[3]));
      applied := false;
      backup := map[];
    }

    method CommitTools(names: seq<string>)
      modifies this
      ensures Value() == RegisterTools(old(Value()), names)
    {
      if stopped {
        return;
      }
      for i := 0 to |names|
        invariant log == old(log) + Registrations(names[..i])
        invariant Value() == old(Value()).(log := log)
      {
        RegistrationsGrow(names[..i], names[i]);
        assert names[..i + 1] == names[..i] + [names[i]];
        log := log + [ToolRegistered(names[i])];
      }
      assert names[..|names|] == names;
      toolNames := names;
      toolsReady := true;
      log := log + [ToolsReady];
    }

    method WatchdogVerdict(watched: nat, dead: string)
      modifies this
      ensures Value() == Recover(old(Value()), watched, dead)
    {
      if stopped || gen != watched || origin != Some(dead) || !applied || recovering {
        return;
      }
      UnrouteEnv();
      toolsReady, origin, recovering := false, None, true;
    }

    method Shutdown()
      modifies this
      ensures Value() == Unload(old(Value()))
    {
      stopped := true;
      loaded, toolsReady, toolNames := false, false, [];
      gen := gen + 1;
      log := log + [Unloaded];
    }

    method Register()
      modifies this
      ensures Value() == Load(old(Value()))
    {
      if loaded {
        return;
      }
      if stopped {
        stopped := false;
      }
      gen := gen + 1;
      loaded := true;
      log := log + [Loaded];
    }
  }

  lemma {:induction false} RegistrationsGrow(names: seq<string>, name: string)
    ensures Registrations(names + [name]) == Registrations(names) + [ToolRegistered(name)]
  {
    if names != [] {
      assert (names + [name])[1..] == names[1..] + [name];
      RegistrationsGrow(names[1..], name);
    }
  }
}
