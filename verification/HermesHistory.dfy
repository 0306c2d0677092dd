/** What the plugin's routing, tools and lifecycle are at any moment, told by the events of the run alone. */
module HermesHistory {
  import opened Texts
  import opened HermesRouting

  // ---- lifecycle ----

  predicate Lifecycle(e: Event) {
    e.Registers? || e.Unloads?
  }

  /** The last load or unload of the run. */
  function LastLife(events: seq<Event>): Option<Event> {
    if events == [] then None
    else if Lifecycle(events[|events| - 1]) then Some(events[|events| - 1])
    else LastLife(events[..|events| - 1])
  }

  /** Unloads, and loads that do not repeat a load. */
  function Turnovers(events: seq<Event>): nat {
    if events == [] then 0
    else
      var before, e := events[..|events| - 1], events[|events| - 1];
      Turnovers(before) + if e.Unloads? || (e.Registers? && LastLife(before) != Some(Registers)) then 1 else 0
  }

  lemma LifeStep(h: Host, e: Event)
    ensures var next := Apply(h, e);
      && (e.Unloads? ==> next.stopped && !next.loaded && next.gen == h.gen + 1)
      && (e.Registers? && !h.loaded ==> !next.stopped && next.loaded && next.gen == h.gen + 1)
      && (!Lifecycle(e) || (e.Registers? && h.loaded) ==>
            next.stopped == h.stopped && next.loaded == h.loaded && next.gen == h.gen)
  {
    hide Write, ApplyEnv, Registrations;
    if e.Routes? {
      RouteKeepsTools(h, e.origin, e.root, e.combined);
    }
  }

  /**
   * The plugin is stopped exactly when the last thing that happened to it was an unload, loaded exactly when it
   * was a load, and its generation counts the turnovers.
   */
  lemma {:induction false} LifeIsLast(env: Env, events: seq<Event>)
    ensures var h := Run(env, events);
      && (h.stopped <==> LastLife(events) == Some(Unloads)) && (h.loaded <==> LastLife(events) == Some(Registers))
      && h.gen == Turnovers(events)
  {
    if events != [] {
      hide Apply, Lifecycle;
      LifeIsLast(env, events[..|events| - 1]);
      LifeStep(Run(env, events[..|events| - 1]), events[|events| - 1]);
      LifeKinds(events[|events| - 1]);
      LastLifeIsLife(events[..|events| - 1]);
    }
  }

  lemma LifeKinds(e: Event)
    ensures Lifecycle(e) <==> e == Registers || e == Unloads
  {
  }

  lemma {:induction false} LastLifeIsLife(events: seq<Event>)
    ensures LastLife(events).Some? ==> LastLife(events).value == Registers || LastLife(events).value == Unloads
  {
    if events != [] {
      LastLifeIsLife(events[..|events| - 1]);
    }
  }

  // ---- routing ----

  lemma KeysApart()
    ensures HTTPS_PROXY == "HTTPS_PROXY" && LOWER_PROXY == "https_proxy"
    ensures CA_BUNDLE == "HERMES_CA_BUNDLE" && CERT_FILE == "SSL_CERT_FILE"
    ensures HTTPS_PROXY != LOWER_PROXY && HTTPS_PROXY != CA_BUNDLE && HTTPS_PROXY != CERT_FILE
    ensures LOWER_PROXY != CA_BUNDLE && LOWER_PROXY != CERT_FILE && CA_BUNDLE != CERT_FILE
  {
    assert HTTPS_PROXY[0] == 'H' && LOWER_PROXY[0] == 'h' && CA_BUNDLE[1] == 'E' && CERT_FILE[0] == 'S';
    assert HTTPS_PROXY[1] == 'T';
  }

  /** The value the variable has once a probe was taken: the file found, or what it was. */
  function Probed(env: Env, k: Key, probe: Probe): Option<string> {
    if probe.Found? then Some(probe.path) else Read(env, k)
  }

  /**
   * Routing a running plugin sets both proxy variables to the origin, then each certificate variable to the file
   * its probe finds; a probe that raises leaves the rest undone and nothing newly applied. No other variable
   * moves, and a stopped plugin routes nothing.
   */
  lemma RouteWrites(env: Env, events: seq<Event>, origin: string, root: Probe, combined: Probe)
    ensures var h, next := Run(env, events), Run(env, events + [Routes(origin, root, combined)]);
      if h.stopped then next == h
      else
        && Read(next.env, "HTTPS_PROXY") == Some(origin) && Read(next.env, "https_proxy") == Some(origin)
        && Read(next.env, "HERMES_CA_BUNDLE") == Probed(h.env, "HERMES_CA_BUNDLE", root)
        && Read(next.env, "SSL_CERT_FILE") ==
             Probed(h.env, "SSL_CERT_FILE", if root.Raises? then Absent else combined)
        && (forall k :: !Routed(k) ==> Read(next.env, k) == Read(h.env, k))
        && (next.applied <==> h.applied || (!root.Raises? && !combined.Raises?))
        && next.log == h.log + [EnvRouted]
  {
    hide Run, ApplyEnv;
    OneMore(env, events, Routes(origin, root, combined));
    if Run(env, events).stopped {
      RefusedRoute(Run(env, events), origin, root, combined);
    } else {
      var h := Run(env, events);
      RouteStep(h, origin, root, combined);
      hide Overwritten, Probed, Read;
      forall k ensures Read(Overwritten(h.env, origin, root, combined), k) ==
        if k == HTTPS_PROXY || k == LOWER_PROXY then Some(origin)
        else if k == CA_BUNDLE then Probed(h.env, k, root)
        else if k == CERT_FILE then Probed(h.env, k, if root.Raises? then Absent else combined)
        else Read(h.env, k)
      {
        OverwrittenReads(h.env, origin, root, combined, k);
      }
    }
    KeysApart();
  }

  /** The environment a routing leaves, one variable after the other. */
  function Overwritten(env: Env, origin: string, root: Probe, combined: Probe): Env {
    var e1 := Write(Write(env, HTTPS_PROXY, Some(origin)), LOWER_PROXY, Some(origin));
    var e2 := if root.Found? then Write(e1, CA_BUNDLE, Some(root.path)) else e1;
    if !root.Raises? && combined.Found? then Write(e2, CERT_FILE, Some(combined.path)) else e2
  }

  lemma WriteReads(env: Env, k: Key, v: Option<string>, q: Key)
    ensures Read(Write(env, k, v), q) == if q == k then v else Read(env, q)
  {
  }

  lemma OverwrittenReads(env: Env, origin: string, root: Probe, combined: Probe, q: Key)
    ensures Read(Overwritten(env, origin, root, combined), q) ==
      if q == HTTPS_PROXY || q == LOWER_PROXY then Some(origin)
      else if q == CA_BUNDLE then Probed(env, q, root)
      else if q == CERT_FILE then Probed(env, q, if root.Raises? then Absent else combined)
      else Read(env, q)
  {
    hide Read, Write;
    KeysApart();
    var e0 := Write(env, HTTPS_PROXY, Some(origin));
    var e1 := Write(e0, LOWER_PROXY, Some(origin));
    WriteReads(env, HTTPS_PROXY, Some(origin), q);
    WriteReads(e0, LOWER_PROXY, Some(origin), q);
    var e2 := e1;
    if root.Found? {
      e2 := Write(e1, CA_BUNDLE, Some(root.path));
      WriteReads(e1, CA_BUNDLE, Some(root.path), q);
    }
    if combined.Found? {
      WriteReads(e2, CERT_FILE, Some(combined.path), q);
    }
  }

  lemma RouteStep(h: Host, origin: string, root: Probe, combined: Probe)
    requires !h.stopped
    ensures var next := ApplyEnv(h, origin, root, combined);
      && next.env == Overwritten(h.env, origin, root, combined)
      && (next.applied <==> h.applied || (!root.Raises? && !combined.Raises?))
      && next.log == h.log + [EnvRouted]
  {
    hide Snapshot;
  }

  lemma RefusedRoute(h: Host, origin: string, root: Probe, combined: Probe)
    requires h.stopped
    ensures ApplyEnv(h, origin, root, combined) == h
  {
  }

  lemma OneMore(env: Env, events: seq<Event>, e: Event)
    ensures Run(env, events + [e]) == Apply(Run(env, events), e)
  {
    hide Apply;
    assert (events + [e])[..|events|] == events;
  }

  /** A death verdict that is acted on: of the current generation and origin, while routed and not recovering. */
  predicate Acted(h: Host, e: Event) {
    e.OriginDies? && !h.stopped && h.gen == e.gen && h.origin == Some(e.origin) && h.applied && !h.recovering
  }

  /**
   * A verdict that is acted on gives the environment back to everybody else and starts a recovery; any other does
   * nothing.
   */
  lemma VerdictActs(env: Env, events: seq<Event>, gen: nat, origin: string)
    requires Undisturbed(env, events)
    ensures var h, next := Run(env, events), Run(env, events + [OriginDies(gen, origin)]);
      if Acted(h, OriginDies(gen, origin)) then
        next == h.(env := Unrouted(env, events), applied := false, backup := map[], toolsReady := false, origin := None,
                   recovering := true)
      else next == h
  {
    hide Run, Unroute, Unrouted, Undisturbed;
    OneMore(env, events, OriginDies(gen, origin));
    RunRestorable(env, events);
    var h, base := Run(env, events), Unrouted(env, events);
    if Acted(h, OriginDies(gen, origin)) {
      UnrouteRestores(h, base);
      UnrouteKeeps(h);
    }
  }

  lemma UnrouteKeeps(h: Host)
    ensures Unroute(h) == h.(env := Unroute(h).env, applied := false, backup := map[])
  {
    hide Write;
  }

  /** The last routing that was not refused, unless a verdict was acted on since. */
  predicate LastRoute(env: Env, events: seq<Event>, k: nat) {
    && k < |events| && events[k].Routes? && !Run(env, events[..k]).stopped
    && forall m :: k < m < |events| ==>
         !Acted(Run(env, events[..m]), events[m]) && !(events[m].Routes? && !Run(env, events[..m]).stopped)
  }

  lemma LastRouteGrows(env: Env, events: seq<Event>, k: nat)
    requires events != [] && k < |events| - 1
    ensures var n := |events| - 1;
      var h := Run(env, events[..n]);
      LastRoute(env, events, k) <==>
        LastRoute(env, events[..n], k) && !Acted(h, events[n]) && !(events[n].Routes? && !h.stopped)
  {
    hide Run, Acted;
    var n := |events| - 1;
    assert events[..n][..k] == events[..k];
    assert forall m :: 0 <= m < n ==> events[..n][..m] == events[..m] && events[..n][m] == events[m];
  }

  predicate ProxiesAre(h: Host, origin: string) {
    Read(h.env, "HTTPS_PROXY") == Some(origin) && Read(h.env, "https_proxy") == Some(origin)
  }

  lemma OthersKeepProxies(h: Host, e: Event, origin: string)
    requires ProxiesAre(h, origin) && !Acted(h, e) && !(e.Routes? && !h.stopped)
    requires e.Elsewhere? ==> !Routed(e.key)
    ensures ProxiesAre(Apply(h, e), origin) && Apply(h, e).applied == h.applied && Apply(h, e).backup == h.backup
  {
    hide Snapshot, Registrations, Unroute;
    KeysApart();
  }

  lemma RouteSets(h: Host, e: Event)
    requires e.Routes? && !h.stopped
    ensures ProxiesAre(Apply(h, e), e.origin)
  {
    hide ApplyEnv, Overwritten, Read;
    RouteStep(h, e.origin, e.root, e.combined);
    OverwrittenReads(h.env, e.origin, e.root, e.combined, HTTPS_PROXY);
    OverwrittenReads(h.env, e.origin, e.root, e.combined, LOWER_PROXY);
    KeysApart();
  }

  lemma ActedUnapplies(h: Host, e: Event)
    requires Acted(h, e)
    ensures !Apply(h, e).applied
  {
    hide Write;
  }

  /** The proxy variables hold the origin of this routing, the last that was not refused. */
  predicate RoutedBy(env: Env, events: seq<Event>, k: nat)
    requires k < |events|
  {
    events[k].Routes? && LastRoute(env, events, k) && ProxiesAre(Run(env, events), events[k].origin)
  }

  /** Whenever routing is applied, both proxy variables hold the origin of the last routing that was not refused. */
  lemma {:induction false} AppliedMeansRouted(env: Env, events: seq<Event>)
    requires Undisturbed(env, events) && Run(env, events).applied
    ensures exists k :: 0 <= k < |events| && RoutedBy(env, events, k)
  {
    hide Apply, Acted, LastRoute, ProxiesAre;
    if events != [] {
      var n := |events| - 1;
      var h, e := Run(env, events[..n]), events[n];
      LastEvent(env, events);
      if Acted(h, e) {
        ActedUnapplies(h, e);
      } else if e.Routes? && !h.stopped {
        RouteSets(h, e);
        RouteIsLast(env, events);
        assert RoutedBy(env, events, n);
      } else {
        UnchangedApplied(h, e);
        AppliedMeansRouted(env, events[..n]);
        var k :| 0 <= k < n && RoutedBy(env, events[..n], k);
        LastRouteGrows(env, events, k);
        RunLeftOver(env, events[..n]);
        OthersKeepProxies(h, e, events[k].origin);
        assert RoutedBy(env, events, k);
      }
    }
  }

  lemma RouteIsLast(env: Env, events: seq<Event>)
    requires events != [] && events[|events| - 1].Routes? && !Run(env, events[..|events| - 1]).stopped
    ensures LastRoute(env, events, |events| - 1)
  {
    hide Run, Acted;
  }

  lemma UnchangedApplied(h: Host, e: Event)
    requires !Acted(h, e) && !(e.Routes? && !h.stopped)
    ensures Apply(h, e).applied == h.applied
  {
    hide Registrations, Write;
  }

  // ---- tools ----

  /** Tools are installed or armed again while the plugin runs. */
  predicate Arms(h: Host, e: Event) {
    (e.Installs? || e.Rearms?) && !h.stopped
  }

  predicate Disarms(h: Host, e: Event) {
    e.Unloads? || Acted(h, e)
  }

  lemma ToolsStep(h: Host, e: Event)
    ensures Apply(h, e).toolsReady <==> Arms(h, e) || (h.toolsReady && !Disarms(h, e))
    ensures Apply(h, e).toolNames ==
      if e.Installs? && !h.stopped then e.names else if e.Unloads? then [] else h.toolNames
  {
    hide Registrations, Write, ApplyEnv;
    if e.Routes? {
      RouteKeepsTools(h, e.origin, e.root, e.combined);
    }
  }

  lemma RouteKeepsTools(h: Host, origin: string, root: Probe, combined: Probe)
    ensures var next := ApplyEnv(h, origin, root, combined);
      && next.toolsReady == h.toolsReady && next.toolNames == h.toolNames
      && next.stopped == h.stopped && next.loaded == h.loaded && next.gen == h.gen
  {
    hide Snapshot;
  }

  /** The tools were armed at k and nothing has disarmed them since. */
  predicate ArmedSince(env: Env, events: seq<Event>, k: nat) {
    && k < |events| && Arms(Run(env, events[..k]), events[k])
    && forall m :: k < m < |events| ==> !Disarms(Run(env, events[..m]), events[m])
  }

  lemma ArmedSinceGrows(env: Env, events: seq<Event>, k: nat)
    requires events != [] && k < |events| - 1
    ensures var n := |events| - 1;
      ArmedSince(env, events, k) <==>
        ArmedSince(env, events[..n], k) && !Disarms(Run(env, events[..n]), events[n])
  {
    hide Run, Arms, Disarms;
    var n := |events| - 1;
    assert forall m :: 0 <= m < n ==> events[..n][..m] == events[..m] && events[..n][m] == events[m];
  }

  /** The tools are ready exactly when they were armed and neither an unload nor a verdict has come since. */
  lemma {:induction false} ReadyMeansArmed(env: Env, events: seq<Event>)
    ensures Run(env, events).toolsReady <==> exists k :: 0 <= k < |events| && ArmedSince(env, events, k)
  {
    hide Apply, Arms, Disarms, ArmedSince;
    if events == [] {
      assert !Start(env).toolsReady;
    } else {
      var n := |events| - 1;
      ReadyMeansArmed(env, events[..n]);
      ToolsStep(Run(env, events[..n]), events[n]);
      NowArmed(env, events);
      forall k | 0 <= k < n
        ensures ArmedSince(env, events, k) <==>
                ArmedSince(env, events[..n], k) && !Disarms(Run(env, events[..n]), events[n])
      {
        ArmedSinceGrows(env, events, k);
      }
    }
  }

  lemma NowArmed(env: Env, events: seq<Event>)
    requires events != []
    ensures var n := |events| - 1; ArmedSince(env, events, n) <==> Arms(Run(env, events[..n]), events[n])
  {
    hide Run, Arms, Disarms;
  }

  /** Installing tools into a running plugin registers each of them once, in order, and then announces them. */
  lemma InstallRegisters(env: Env, events: seq<Event>, names: seq<string>)
    ensures var h, next := Run(env, events), Run(env, events + [Installs(names)]);
      if h.stopped then next == h
      else
        && next.toolNames == names && next.toolsReady && |next.log| == |h.log| + |names| + 1
        && next.log[..|h.log|] == h.log && next.log[|next.log| - 1] == ToolsReady
        && forall i :: 0 <= i < |names| ==> next.log[|h.log| + i] == ToolRegistered(names[i])
  {
    hide Run;
    OneMore(env, events, Installs(names));
    RegistrationsAre(names);
  }

  lemma {:induction false} RegistrationsAre(names: seq<string>)
    ensures |Registrations(names)| == |names|
    ensures forall i :: 0 <= i < |names| ==> Registrations(names)[i] == ToolRegistered(names[i])
  {
    if names != [] {
      RegistrationsAre(names[1..]);
    }
  }
}
