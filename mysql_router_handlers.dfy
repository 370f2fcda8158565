/** The reactive handlers of the charm (src/reactive/mysql_router_handlers.py):
    five handlers, each guarded by flags that must be set (`@when`) and flags
    that must be clear (`@when_not`), run against the charm instance. Together
    with the flags the instance sets, the guards fix the order bootstrap, then
    start, then the proxying of requests and responses. */
module Handlers {
  import opened PyValues
  import opened OrderedDicts
  import opened MySQLRouter

  /** Flags raised by the framework and the relation endpoints. */
  const CharmInstalled := "charm.installed"
  const DbRouterConnected := "db-router.connected"
  const SharedDbAvailable := "shared-db.available"

  /** The flags only the charm sets. */
  const CharmFlags := {MysqlRouterBootstrapped, MysqlRouterStarted}

  /** The five handlers. */
  datatype Hook =
    | DbRouterRequestHook    // db_router_request
    | BootstrapHook          // bootstrap_mysqlrouter
    | StartHook              // start_mysqlrouter
    | SharedDbRequestsHook   // proxy_shared_db_requests
    | SharedDbResponsesHook  // proxy_shared_db_responses

  /** The `@when` flags of each handler. */
  function When(h: Hook): set<string>
  {
    match h
    case DbRouterRequestHook => {CharmInstalled, DbRouterConnected}
    case BootstrapHook => {CharmInstalled, DbRouterAvailable}
    case StartHook => {CharmInstalled, DbRouterAvailable, MysqlRouterBootstrapped}
    case SharedDbRequestsHook => {MysqlRouterStarted, DbRouterAvailable, SharedDbAvailable}
    case SharedDbResponsesHook => {MysqlRouterStarted, DbRouterProxyAvailable, SharedDbAvailable}
  }

  /** The `@when_not` flags of each handler. */
  function WhenNot(h: Hook): (r: set<string>)
    ensures r !! When(h)
  {
    match h
    case BootstrapHook => {MysqlRouterBootstrapped}
    case StartHook => {MysqlRouterStarted}
    case _ => {}
  }

  /** A handler may fire: all its `@when` flags set, none of its `@when_not`. */
  predicate Enabled(h: Hook, flags: set<string>)
  {
    When(h) <= flags && WhenNot(h) !! flags
  }

  /** What the outside world answers while a handler runs: the relation
      snapshots, this unit's address on db-router, and whether the bootstrap
      process exits with status 0. */
  datatype World = World(dbRouter: DbRouterView, sharedDb: SharedDbView, dbRouterAddress: string, commandSucceeds: bool)

  /** The bootstrap command could be built and it succeeded. */
  predicate BootstrapSucceeds(w: World, env: Env)
  {
    BootstrapArgv(w.dbRouter, env).Some? && w.commandSucceeds
  }

  /** The flags after handler `h` ran: only bootstrap and start add a flag, and
      no handler clears one. */
  function FlagEffect(h: Hook, flags: set<string>, w: World, env: Env): (r: set<string>)
    ensures flags <= r && r - flags <= CharmFlags
    ensures MysqlRouterBootstrapped in r - flags <==> h == BootstrapHook && MysqlRouterBootstrapped !in flags && BootstrapSucceeds(w, env)
    ensures MysqlRouterStarted in r - flags <==> h == StartHook && MysqlRouterStarted !in flags
  {
    match h
    case BootstrapHook => if BootstrapSucceeds(w, env) then flags + {MysqlRouterBootstrapped} else flags
    case StartHook => flags + {MysqlRouterStarted}
    case _ => flags
  }

  // ---------------------------------------------------------------------------
  // The handlers

  /** `db_router_request`: announce the prefix, ask the cluster for the
      router's own user, then assess the status. */
  method DbRouterRequest(charm: MySQLRouterCharm, dbRouterAddress: string)
    requires Enabled(DbRouterRequestHook, charm.flags)
    modifies charm
    ensures charm.calls == old(charm.calls) +
      [SetPrefix(DbPrefix), ConfigureDbRouter(DbRouterUser, dbRouterAddress, DbPrefix), AssessStatus]
    ensures charm.flags == old(charm.flags)
  {
    charm.Record(SetPrefix(DbPrefix));
    charm.Record(ConfigureDbRouter(DbRouterUser, dbRouterAddress, DbPrefix));
    charm.Record(AssessStatus);
  }

  /** `bootstrap_mysqlrouter`: when reading the password or the address raises,
      the hook fails before the status is assessed. */
  method BootstrapMysqlrouter(charm: MySQLRouterCharm, w: World)
    requires Enabled(BootstrapHook, charm.flags)
    modifies charm
    ensures charm.flags == FlagEffect(BootstrapHook, old(charm.flags), w, charm.env)
    ensures BootstrapArgv(w.dbRouter, charm.env).None? ==> charm.calls == old(charm.calls)
    ensures BootstrapArgv(w.dbRouter, charm.env).Some? ==>
      charm.calls == old(charm.calls) + [RunCommand(BootstrapArgv(w.dbRouter, charm.env).value), AssessStatus]
  {
    var outcome := charm.BootstrapMysqlrouter(w.dbRouter, w.commandSucceeds);
    if outcome != BootstrapRaised {
      charm.Record(AssessStatus);
    }
  }

  /** `start_mysqlrouter`. */
  method StartMysqlrouter(charm: MySQLRouterCharm)
    requires Enabled(StartHook, charm.flags)
    modifies charm
    ensures charm.flags == old(charm.flags) + {MysqlRouterStarted}
    ensures charm.calls == old(charm.calls) + [ServiceStart(charm.env.serviceName), AssessStatus]
  {
    charm.StartMysqlrouter();
    charm.Record(AssessStatus);
  }

  /** `proxy_shared_db_requests`: the client's settings are received on
      shared-db and forwarded on db-router. */
  method ProxySharedDbRequests(charm: MySQLRouterCharm, sharedDb: SharedDbView)
    requires Enabled(SharedDbRequestsHook, charm.flags)
    requires UniqueKeys(sharedDb.received)
    modifies charm
    ensures charm.flags == old(charm.flags)
    ensures charm.calls == old(charm.calls) + ConfigureCalls(ProxyRequests(sharedDb.received)) + [AssessStatus]
  {
    charm.ProxyDbAndUserRequests(sharedDb);
    charm.Record(AssessStatus);
  }

  /** `proxy_shared_db_responses`: the endpoints are passed in the other order,
      so the cluster's answers are received on db-router and published on
      shared-db. A pass that raised fails the hook before the status is
      assessed. */
  method ProxySharedDbResponses(charm: MySQLRouterCharm, dbRouter: DbRouterView, sharedDb: SharedDbView)
    requires Enabled(SharedDbResponsesHook, charm.flags)
    modifies charm
    ensures charm.flags == old(charm.flags)
    ensures var pass := ProxyResponses(dbRouter, sharedDb, charm.env);
      charm.calls == old(charm.calls) + PublishCalls(pass.published) + (if pass.end.Raised? then [] else [AssessStatus])
  {
    var end := charm.ProxyDbAndUserResponses(dbRouter, sharedDb);
    if !end.Raised? {
      charm.Record(AssessStatus);
    }
  }

  /** The framework runs an enabled handler; its effect on the flags is
      `FlagEffect`, and it only appends to the calls made so far. */
  method Dispatch(charm: MySQLRouterCharm, h: Hook, w: World)
    requires Enabled(h, charm.flags)
    requires UniqueKeys(w.sharedDb.received)
    modifies charm
    ensures charm.flags == FlagEffect(h, old(charm.flags), w, charm.env)
    ensures old(charm.calls) <= charm.calls
  {
    match h
    case DbRouterRequestHook => DbRouterRequest(charm, w.dbRouterAddress);
    case BootstrapHook => BootstrapMysqlrouter(charm, w);
    case StartHook => StartMysqlrouter(charm);
    case SharedDbRequestsHook => ProxySharedDbRequests(charm, w.sharedDb);
    case SharedDbResponsesHook => ProxySharedDbResponses(charm, w.dbRouter, w.sharedDb);
  }

  // ---------------------------------------------------------------------------
  // Runs of the handlers over time

  /** Something that changes the flags: an enabled handler fires, or the
      framework and the relation endpoints raise and lower their own flags. */
  datatype Event =
    | Fire(hook: Hook, world: World)
    | Relation(raised: set<string>, lowered: set<string>)

  /** One event. A handler whose guard does not hold is not run; the endpoints
      never touch the charm's flags. */
  function Step(flags: set<string>, e: Event, env: Env): (r: set<string>)
    ensures flags * CharmFlags <= r
    ensures r * CharmFlags - flags <= (if e.Fire? then WhenNot(e.hook) else {})
  {
    match e
    case Fire(h, w) => if Enabled(h, flags) then FlagEffect(h, flags, w, env) else flags
    case Relation(raised, lowered) => (flags - (lowered - CharmFlags)) + (raised - CharmFlags)
  }

  /** The flags after a sequence of events. */
  function After(flags: set<string>, es: seq<Event>, env: Env): set<string>
    decreases |es|
  {
    if es == [] then flags else Step(After(flags, es[..|es| - 1], env), es[|es| - 1], env)
  }

  /** Event `i` runs handler `h`, whose guard holds at that point. */
  predicate Fires(flags: set<string>, es: seq<Event>, env: Env, i: int, h: Hook)
  {
    0 <= i < |es| && es[i].Fire? && es[i].hook == h && Enabled(h, After(flags, es[..i], env))
  }

  /** Bootstrap and start are never enabled together: one needs the
      bootstrapped flag clear, the other needs it set. */
  lemma BootstrapStartExclusive(flags: set<string>)
    ensures !(Enabled(BootstrapHook, flags) && Enabled(StartHook, flags))
  {
  }

  /** A bootstrap that fails leaves its own guard true, so it runs again. */
  lemma FailedBootstrapRetries(flags: set<string>, w: World, env: Env)
    requires Enabled(BootstrapHook, flags) && !BootstrapSucceeds(w, env)
    ensures Step(flags, Fire(BootstrapHook, w), env) == flags
    ensures Enabled(BootstrapHook, Step(flags, Fire(BootstrapHook, w), env))
  {
  }

  /** The state after event `i` is one step from the state before it. */
  lemma AfterSnoc(flags: set<string>, es: seq<Event>, env: Env, i: int)
    requires 0 <= i < |es|
    ensures After(flags, es[..i + 1], env) == Step(After(flags, es[..i], env), es[i], env)
  {
    assert es[..i + 1][..i] == es[..i];
  }

  /** No event clears a charm flag. */
  lemma {:induction false} CharmFlagsGrow(flags: set<string>, es: seq<Event>, env: Env, i: int)
    requires 0 <= i <= |es|
    ensures After(flags, es[..i], env) * CharmFlags <= After(flags, es, env)
    decreases |es|
  {
    if i < |es| {
      var init := es[..|es| - 1];
      assert init[..i] == es[..i];
      CharmFlagsGrow(flags, init, env, i);
    } else {
      assert es[..i] == es;
    }
  }

  /** The charm flags held at event `i` are still held at any later event `j`. */
  lemma CharmFlagsKept(flags: set<string>, es: seq<Event>, env: Env, i: int, j: int)
    requires 0 <= i <= j <= |es|
    ensures After(flags, es[..i], env) * CharmFlags <= After(flags, es[..j], env)
  {
    assert es[..j][..i] == es[..i];
    CharmFlagsGrow(flags, es[..j], env, i);
  }

  /** The started flag appears only through an enabled start handler. */
  lemma {:induction false} StartedHistory(flags: set<string>, es: seq<Event>, env: Env)
    requires MysqlRouterStarted !in flags && MysqlRouterStarted in After(flags, es, env)
    ensures exists j :: Fires(flags, es, env, j, StartHook)
    decreases |es|
  {
    var n := |es| - 1;
    var init := es[..n];
    assert es[..n + 1] == es;
    AfterSnoc(flags, es, env, n);
    if MysqlRouterStarted in After(flags, init, env) {
      StartedHistory(flags, init, env);
      var j :| Fires(flags, init, env, j, StartHook);
      assert init[..j] == es[..j];
      assert Fires(flags, es, env, j, StartHook);
    } else {
      assert Fires(flags, es, env, n, StartHook);
    }
  }

  /** The bootstrapped flag appears only through an enabled bootstrap handler
      whose command succeeded. */
  lemma {:induction false} BootstrappedHistory(flags: set<string>, es: seq<Event>, env: Env)
    requires MysqlRouterBootstrapped !in flags && MysqlRouterBootstrapped in After(flags, es, env)
    ensures exists i :: Fires(flags, es, env, i, BootstrapHook) && BootstrapSucceeds(es[i].world, env)
    decreases |es|
  {
    var n := |es| - 1;
    var init := es[..n];
    assert es[..n + 1] == es;
    AfterSnoc(flags, es, env, n);
    if MysqlRouterBootstrapped in After(flags, init, env) {
      BootstrappedHistory(flags, init, env);
      var i :| Fires(flags, init, env, i, BootstrapHook) && BootstrapSucceeds(init[i].world, env);
      assert init[..i] == es[..i];
      assert Fires(flags, es, env, i, BootstrapHook);
    } else {
      assert Fires(flags, es, env, n, BootstrapHook);
    }
  }

  /** From a state without the charm flags, the router is started only after a
      successful bootstrap followed by an enabled start. */
  lemma OrderHistory(flags: set<string>, es: seq<Event>, env: Env)
    requires flags !! CharmFlags && MysqlRouterStarted in After(flags, es, env)
    ensures exists i, j ::
      && 0 <= i < j
      && Fires(flags, es, env, i, BootstrapHook) && BootstrapSucceeds(es[i].world, env)
      && Fires(flags, es, env, j, StartHook)
  {
    StartedHistory(flags, es, env);
    var j :| Fires(flags, es, env, j, StartHook);
    var before := es[..j];
    BootstrappedHistory(flags, before, env);
    var i :| Fires(flags, before, env, i, BootstrapHook) && BootstrapSucceeds(before[i].world, env);
    assert before[..i] == es[..i] && before[i] == es[i];
    assert Fires(flags, es, env, i, BootstrapHook);
  }

  /** A proxy handler can only be enabled after a successful bootstrap followed
      by a start. */
  lemma ProxyNeedsBootstrapThenStart(flags: set<string>, es: seq<Event>, env: Env, h: Hook)
    requires flags !! CharmFlags
    requires h == SharedDbRequestsHook || h == SharedDbResponsesHook
    requires Enabled(h, After(flags, es, env))
    ensures exists i, j ::
      && 0 <= i < j
      && Fires(flags, es, env, i, BootstrapHook) && BootstrapSucceeds(es[i].world, env)
      && Fires(flags, es, env, j, StartHook)
  {
    OrderHistory(flags, es, env);
  }

  /** The start handler runs at most once. */
  lemma StartFiresOnce(flags: set<string>, es: seq<Event>, env: Env, i: int, j: int)
    requires Fires(flags, es, env, i, StartHook)
    requires i < j
    ensures !Fires(flags, es, env, j, StartHook)
  {
    if j < |es| {
      AfterSnoc(flags, es, env, i);
      CharmFlagsKept(flags, es, env, i + 1, j);
      assert MysqlRouterStarted in After(flags, es[..j], env);
    }
  }

  /** Once a bootstrap has succeeded, the bootstrap handler never runs again. */
  lemma NoBootstrapAfterSuccess(flags: set<string>, es: seq<Event>, env: Env, i: int, j: int)
    requires Fires(flags, es, env, i, BootstrapHook) && BootstrapSucceeds(es[i].world, env)
    requires i < j
    ensures !Fires(flags, es, env, j, BootstrapHook)
  {
    if j < |es| {
      AfterSnoc(flags, es, env, i);
      CharmFlagsKept(flags, es, env, i + 1, j);
      assert MysqlRouterBootstrapped in After(flags, es[..j], env);
    }
  }
}
