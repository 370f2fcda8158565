/** The router charm's class `MySQLRouterCharm`: its constants and derived
    properties, the bootstrap command, the status decision, and the broker that
    forwards database requests from the client relation (`shared-db`) to the
    cluster relation (`db-router`) and the cluster's answers back.

    The relation endpoints, the subprocess, the service manager and the flag
    store are outside the model: what the charm reads from a relation is a
    snapshot value (`DbRouterView`, `SharedDbView`), and every call it makes to
    the outside is appended to the `calls` log of a `MySQLRouterCharm` object. */
module MySQLRouter {
  import opened PyValues
  import opened OrderedDicts
  import PyStrings
  import DbData

  // Flag strings.
  const MysqlRouterBootstrapped := "charm.mysqlrouter.bootstrapped"
  const MysqlRouterStarted := "charm.mysqlrouter.started"
  const DbRouterAvailable := "db-router.available"
  const DbRouterProxyAvailable := "db-router.available.proxy"

  const MysqlrouterBin := "/usr/bin/mysqlrouter"
  /** The prefix of the router's own credentials on the cluster relation. */
  const DbPrefix := "mysqlrouter"
  /** `"{}user".format(db_prefix)`. */
  const DbRouterUser := DbPrefix + "user"
  /** The internal prefix under which a bare client request is forwarded. */
  const Unprefixed := "MRUP"
  /** The charm is a subordinate: clients reach the router over localhost. */
  const SharedDbAddress := "127.0.0.1"
  const MysqlrouterHomeDir := "/var/lib/mysql"
  const MysqlrouterUser := "mysql"
  const MysqlConnectTimeout := 30

  /** What the charm learns from its host: `service_name()`, `local_unit()`, the
      `base-port` option, and the decoder behind `json.loads`. */
  datatype Env = Env(serviceName: string, localUnit: string, basePort: nat, loads: Decoder)

  /** `"{}/{}".format(mysqlrouter_home_dir, name)`. */
  function MysqlrouterWorkingDir(name: string): string
  {
    MysqlrouterHomeDir + "/" + name
  }

  // ---------------------------------------------------------------------------
  // Relation snapshots

  /** What the `db-router` endpoint returns: the prefixes the cluster answered
      for, the raw per-prefix `password` and `allowed_units` settings, and the
      raw un-prefixed `db_host`, `wait_timeout` and `ssl_ca` settings. A setting
      the cluster did not send is absent from the map (`None`). */
  datatype DbRouterView = DbRouterView(
    prefixes: seq<string>,
    passwords: map<string, string>,
    allowedUnits: map<string, string>,
    dbHost: Option<string>,
    waitTimeout: Option<string>,
    sslCa: Option<string>)

  /** A unit joined on the client relation. */
  datatype JoinedUnit = JoinedUnit(unitName: string, relationId: string)

  /** What the `shared-db` endpoint returns: its joined units in order, and the
      settings the (single) client unit sent. */
  datatype SharedDbView = SharedDbView(joinedUnits: seq<JoinedUnit>, received: DbData.Bag)

  /** A per-prefix setting of the cluster relation. */
  function Setting(m: map<string, string>, prefix: string): Option<string>
  {
    if prefix in m then Some(m[prefix]) else None
  }

  /** `db_router_password`: the router's own password, decoded. */
  function DbRouterPassword(router: DbRouterView, env: Env): (r: Option<Json>)
    ensures r.None? <==> DbPrefix !in router.passwords || env.loads(router.passwords[DbPrefix]).None?
  {
    Loads(env.loads, Setting(router.passwords, DbPrefix))
  }

  /** `cluster_address`: the cluster's address, decoded. */
  function ClusterAddress(router: DbRouterView, env: Env): (r: Option<Json>)
    ensures r.None? <==> router.dbHost.None? || env.loads(router.dbHost.value).None?
  {
    Loads(env.loads, router.dbHost)
  }

  // ---------------------------------------------------------------------------
  // Calls to the outside world

  /** The arguments of one `configure_proxy_db(database, username, hostname,
      prefix=...)` call. */
  datatype ProxyDbRequest = ProxyDbRequest(
    database: Option<string>, username: Option<string>, hostname: Option<string>, prefix: string)

  /** The arguments of one `set_db_connection_info(...)` call. */
  datatype ConnectionInfo = ConnectionInfo(
    relationId: string,
    address: string,
    password: Json,
    allowedUnits: Option<string>,
    prefix: Option<string>,
    waitTimeout: Json,
    dbPort: nat,
    sslCa: Json)

  datatype Call =
    | RunCommand(argv: seq<string>)             // subprocess.check_output
    | ServiceStart(service: string)
    | ServiceStop(service: string)
    | ServiceRestart(service: string)
    | ConfigureProxyDb(request: ProxyDbRequest) // on db-router
    | SetDbConnectionInfo(info: ConnectionInfo) // on shared-db
    | SetPrefix(prefix: string)                 // on db-router
    | ConfigureDbRouter(username: string, address: string, prefix: string)
    | AssessStatus

  // ---------------------------------------------------------------------------
  // Request direction

  /** One call per group of the client's settings. */
  function RequestFor(group: (string, Dict<string>)): ProxyDbRequest
  {
    ProxyDbRequest(Get(group.1, "database"), Get(group.1, "username"), Get(group.1, "hostname"), group.0)
  }

  function Requests(dbs: DbData.Databases): (rs: seq<ProxyDbRequest>)
    ensures |rs| == |dbs|
    ensures forall i :: 0 <= i < |dbs| ==> rs[i] == RequestFor(dbs[i])
    decreases |dbs|
  {
    if dbs == [] then [] else Requests(dbs[..|dbs| - 1]) + [RequestFor(dbs[|dbs| - 1])]
  }

  /** The requests forwarded for a client's settings, in order. */
  function ProxyRequests(bag: DbData.Bag): seq<ProxyDbRequest>
    requires UniqueKeys(bag)
  {
    Requests(DbData.DbData(bag, Unprefixed))
  }

  function ConfigureCalls(rs: seq<ProxyDbRequest>): (cs: seq<Call>)
    ensures |cs| == |rs| && forall i :: 0 <= i < |rs| ==> cs[i] == ConfigureProxyDb(rs[i])
    decreases |rs|
  {
    if rs == [] then [] else ConfigureCalls(rs[..|rs| - 1]) + [ConfigureProxyDb(rs[|rs| - 1])]
  }

  lemma RequestsSnoc(dbs: DbData.Databases, i: int)
    requires 0 <= i < |dbs|
    ensures Requests(dbs[..i + 1]) == Requests(dbs[..i]) + [RequestFor(dbs[i])]
  {
    assert dbs[..i + 1][..i] == dbs[..i];
  }

  lemma ConfigureCallsSnoc(rs: seq<ProxyDbRequest>, r: ProxyDbRequest)
    ensures ConfigureCalls(rs + [r]) == ConfigureCalls(rs) + [ConfigureProxyDb(r)]
  {
    assert (rs + [r])[..|rs|] == rs;
  }

  /** One more group adds its call at the end. */
  lemma ConfigureStep(earlier: seq<Call>, dbs: DbData.Databases, i: int)
    requires 0 <= i < |dbs|
    ensures earlier + ConfigureCalls(Requests(dbs[..i + 1])) ==
      earlier + ConfigureCalls(Requests(dbs[..i])) + [ConfigureProxyDb(RequestFor(dbs[i]))]
  {
    RequestsSnoc(dbs, i);
    ConfigureCallsSnoc(Requests(dbs[..i]), RequestFor(dbs[i]));
  }

  /** The prefixes of a request list. */
  function RequestPrefixes(rs: seq<ProxyDbRequest>): set<string>
  {
    set i | 0 <= i < |rs| :: rs[i].prefix
  }

  /** Over a dict of groups without repeated keys, the requests carry distinct
      prefixes, and their prefixes are exactly the dict's keys. */
  lemma RequestPrefixesOf(dbs: DbData.Databases)
    requires UniqueKeys(dbs)
    ensures var rs := Requests(dbs);
      && (forall i, j :: 0 <= i < j < |rs| ==> rs[i].prefix != rs[j].prefix)
      && (forall p :: p in RequestPrefixes(rs) <==> Has(dbs, p))
  {
    var rs := Requests(dbs);
    forall p ensures p in RequestPrefixes(rs) <==> Has(dbs, p) {
      if Has(dbs, p) {
        var i := IndexOf(dbs, p);
        assert rs[i].prefix == p;
      }
      if p in RequestPrefixes(rs) {
        var i :| 0 <= i < |rs| && rs[i].prefix == p;
        GetAt(dbs, i);
      }
    }
  }

  /** Grouping settings without repeated keys yields one request per distinct key
      prefix, each prefix once. */
  lemma GroupRequestPrefixes(s: DbData.Bag)
    requires UniqueKeys(s)
    ensures var rs := Requests(DbData.Group(s));
      && (forall i, j :: 0 <= i < j < |rs| ==> rs[i].prefix != rs[j].prefix)
      && RequestPrefixes(rs) == DbData.KeyPrefixes(s)
  {
    DbData.GroupPrefixes(s);
    RequestPrefixesOf(DbData.Group(s));
  }

  /** Each request carries, for each field, the value of `<prefix>_<field>`, or
      `None` when the client did not send it. */
  lemma GroupRequestFields(s: DbData.Bag, i: int)
    requires UniqueKeys(s)
    requires 0 <= i < |DbData.Group(s)|
    ensures var r := Requests(DbData.Group(s))[i];
      && r.database == Get(s, DbData.Key(r.prefix, "database"))
      && r.username == Get(s, DbData.Key(r.prefix, "username"))
      && r.hostname == Get(s, DbData.Key(r.prefix, "hostname"))
  {
    var dbs := DbData.Group(s);
    var p := dbs[i].0;
    DbData.GroupPrefixes(s);
    GetAt(dbs, i);
    assert p in DbData.KeyPrefixes(s);
    var j :| 0 <= j < |s| && PyStrings.SplitFirst(s[j].0, '_').0 == p;
    assert '_' !in p;
    var group := dbs[i].1;
    assert Requests(dbs)[i] == ProxyDbRequest(Get(group, "database"), Get(group, "username"), Get(group, "hostname"), p);
    DbData.GroupLookup(s, p, "database");
    DbData.GroupLookup(s, p, "username");
    DbData.GroupLookup(s, p, "hostname");
  }

  /** Grouping settings without repeated keys yields one request per distinct key
      prefix, each prefix once, each field the value of `<prefix>_<field>` (or
      `None` when the client did not send it). */
  lemma GroupRequests(s: DbData.Bag)
    requires UniqueKeys(s)
    ensures var rs := Requests(DbData.Group(s));
      && (forall i, j :: 0 <= i < j < |rs| ==> rs[i].prefix != rs[j].prefix)
      && RequestPrefixes(rs) == DbData.KeyPrefixes(s)
      && (forall i :: 0 <= i < |rs| ==>
            && rs[i].database == Get(s, DbData.Key(rs[i].prefix, "database"))
            && rs[i].username == Get(s, DbData.Key(rs[i].prefix, "username"))
            && rs[i].hostname == Get(s, DbData.Key(rs[i].prefix, "hostname")))
  {
    GroupRequestPrefixes(s);
    forall i | 0 <= i < |Requests(DbData.Group(s))|
      ensures var r := Requests(DbData.Group(s))[i];
        && r.database == Get(s, DbData.Key(r.prefix, "database"))
        && r.username == Get(s, DbData.Key(r.prefix, "username"))
        && r.hostname == Get(s, DbData.Key(r.prefix, "hostname"))
    {
      GroupRequestFields(s, i);
    }
  }

  /** A prefixed request (not all three bare keys present) is forwarded as one
      call per distinct key prefix, each carrying only its own prefix's fields. */
  lemma PrefixedRequests(bag: DbData.Bag)
    requires UniqueKeys(bag) && !DbData.IsBare(bag)
    ensures var rs := ProxyRequests(bag);
      && (forall i, j :: 0 <= i < j < |rs| ==> rs[i].prefix != rs[j].prefix)
      && RequestPrefixes(rs) == DbData.KeyPrefixes(bag)
      && (forall i :: 0 <= i < |rs| ==>
            && rs[i].database == Get(bag, DbData.Key(rs[i].prefix, "database"))
            && rs[i].username == Get(bag, DbData.Key(rs[i].prefix, "username"))
            && rs[i].hostname == Get(bag, DbData.Key(rs[i].prefix, "hostname")))
  {
    GroupRequests(bag);
  }

  /** A bare request `{database, username, hostname}` is forwarded as exactly one
      call carrying those three values under the internal prefix. */
  lemma BareRequest(bag: DbData.Bag)
    requires UniqueKeys(bag) && DbData.IsBare(bag) && DbData.OnlyBare(bag)
    ensures ProxyRequests(bag) ==
      [ProxyDbRequest(Get(bag, "database"), Get(bag, "username"), Get(bag, "hostname"), Unprefixed)]
  {
    var s := DbData.Renamed(bag, Unprefixed);
    UnprefixedIsPrefix();
    DbData.BarePrefixes(bag, Unprefixed);
    DbData.BareRenamedFields(bag, Unprefixed);
    SinglePrefixRequest(s, Unprefixed);
  }

  /** The internal prefix holds no `_`, so it is a whole key prefix. */
  lemma UnprefixedIsPrefix()
    ensures '_' !in Unprefixed
  {
    assert Unprefixed == ['M', 'R', 'U', 'P'];
    assert forall i :: 0 <= i < |Unprefixed| ==> Unprefixed[i] != '_';
  }

  /** Settings whose keys all share one prefix yield exactly one request, for that
      prefix. */
  lemma SinglePrefixRequest(s: DbData.Bag, p: string)
    requires UniqueKeys(s) && DbData.KeyPrefixes(s) == {p}
    ensures Requests(DbData.Group(s)) ==
      [ProxyDbRequest(Get(s, DbData.Key(p, "database")), Get(s, DbData.Key(p, "username")), Get(s, DbData.Key(p, "hostname")), p)]
  {
    var rs := Requests(DbData.Group(s));
    GroupRequests(s);
    SingleRequest(rs, p);
  }

  /** Requests with distinct prefixes and a single prefix between them are one
      request. */
  lemma SingleRequest(rs: seq<ProxyDbRequest>, p: string)
    requires forall i, j :: 0 <= i < j < |rs| ==> rs[i].prefix != rs[j].prefix
    requires RequestPrefixes(rs) == {p}
    ensures |rs| == 1 && rs[0].prefix == p
  {
    DistinctPrefixCount(rs);
    assert rs[0].prefix in RequestPrefixes(rs);
  }

  /** Distinct prefixes: as many prefixes as requests. */
  lemma {:induction false} DistinctPrefixCount(rs: seq<ProxyDbRequest>)
    requires forall i, j :: 0 <= i < j < |rs| ==> rs[i].prefix != rs[j].prefix
    ensures |RequestPrefixes(rs)| == |rs|
    decreases |rs|
  {
    if rs != [] {
      var init := rs[..|rs| - 1];
      forall i, j | 0 <= i < j < |init| ensures init[i].prefix != init[j].prefix {
        assert init[i] == rs[i] && init[j] == rs[j];
      }
      DistinctPrefixCount(init);
      LastPrefixNew(rs);
      RequestPrefixesSnoc(rs);
    }
  }

  /** The last request's prefix is not among the earlier ones. */
  lemma LastPrefixNew(rs: seq<ProxyDbRequest>)
    requires rs != []
    requires forall i, j :: 0 <= i < j < |rs| ==> rs[i].prefix != rs[j].prefix
    ensures rs[|rs| - 1].prefix !in RequestPrefixes(rs[..|rs| - 1])
  {
    var init := rs[..|rs| - 1];
    forall x | x in RequestPrefixes(init) ensures x != rs[|rs| - 1].prefix {
      var i :| 0 <= i < |init| && init[i].prefix == x;
      assert init[i] == rs[i];
    }
  }

  /** Appending a request adds its prefix. */
  lemma RequestPrefixesSnoc(rs: seq<ProxyDbRequest>)
    requires rs != []
    ensures RequestPrefixes(rs) == RequestPrefixes(rs[..|rs| - 1]) + {rs[|rs| - 1].prefix}
  {
    var init := rs[..|rs| - 1];
    forall x | x in RequestPrefixes(rs) ensures x in RequestPrefixes(init) + {rs[|rs| - 1].prefix} {
      var i :| 0 <= i < |rs| && rs[i].prefix == x;
      if i < |init| {
        assert init[i] == rs[i];
      }
    }
    forall x | x in RequestPrefixes(init) ensures x in RequestPrefixes(rs) {
      var i :| 0 <= i < |init| && init[i].prefix == x;
      assert rs[i] == init[i];
    }
  }

  // ---------------------------------------------------------------------------
  // Response direction

  /** `prefix in self.db_prefix`: a SUBSTRING test, so every prefix contained in
      `"mysqlrouter"` (such as `"router"` or `""`) is treated as the router's own. */
  predicate IsRouterPrefix(p: string)
  {
    PyStrings.Contains(DbPrefix, p)
  }

  /** `prefix in self._unprefixed`: likewise a substring test of `"MRUP"`. */
  predicate IsUnprefixed(p: string)
  {
    PyStrings.Contains(Unprefixed, p)
  }

  /** Because the test is a substring test, `"router"` and the empty prefix
      count as the router's own and are skipped, while a client prefix such as
      `"nova"` does not. */
  lemma RouterPrefixSubstrings()
    ensures IsRouterPrefix("router") && IsRouterPrefix("")
    ensures !IsRouterPrefix("nova")
  {
    PyStrings.ContainsIffOccurs(DbPrefix, "router");
    assert PyStrings.OccursAt(DbPrefix, "router", 5);
    assert PyStrings.StartsWith(DbPrefix, "");
    assert 'n' !in DbPrefix;
    PyStrings.FirstCharAbsent(DbPrefix, "nova");
  }

  /** Likewise `"M"` and `"RUP"` go out as `None`, while `"nova"` keeps its
      prefix. */
  lemma UnprefixedSubstrings()
    ensures IsUnprefixed("M") && IsUnprefixed("RUP")
    ensures !IsUnprefixed("nova")
  {
    assert PyStrings.StartsWith(Unprefixed, "M");
    PyStrings.ContainsIffOccurs(Unprefixed, "RUP");
    assert PyStrings.OccursAt(Unprefixed, "RUP", 1);
    assert 'n' !in Unprefixed;
    PyStrings.FirstCharAbsent(Unprefixed, "nova");
  }

  /** An optional setting (`wait_timeout`, `ssl_ca`): decoded when truthy, else
      passed on as it is (`None` or `""`); `None` here is a decoding exception. */
  function OptionalSetting(loads: Decoder, raw: Option<string>): (r: Option<Json>)
    ensures Truthy(raw) ==> r == Loads(loads, raw)
    ensures !Truthy(raw) ==> r == Some(RawValue(raw))
  {
    if Truthy(raw) then Loads(loads, raw) else Some(RawValue(raw))
  }

  /** Reading an optional setting raises exactly when the setting is truthy and
      the decoder rejects it; an absent setting stays `None` and an empty one
      stays `""`. */
  lemma OptionalSettingMeaning(loads: Decoder, raw: Option<string>)
    ensures OptionalSetting(loads, raw).None? <==> Truthy(raw) && loads(raw.value).None?
    ensures raw == None ==> OptionalSetting(loads, raw) == Some(JNull)
    ensures raw == Some("") ==> OptionalSetting(loads, raw) == Some(JStr(""))
    ensures Truthy(raw) ==> OptionalSetting(loads, raw) == loads(raw.value)
  {
  }

  /** What the loop body does with one prefix. */
  datatype PrefixOutcome =
    | Skipped                         // the router's own credentials
    | NoPassword                      // the early `return` on a departing relation
    | Failed                          // an exception from `json.loads` or `in`
    | Published(info: ConnectionInfo)

  /** One pass of the response loop's body for `prefix`. */
  function ResponseFor(p: string, router: DbRouterView, unit: JoinedUnit, env: Env): PrefixOutcome
  {
    if IsRouterPrefix(p) then Skipped
    else if !Truthy(Setting(router.passwords, p)) then NoPassword
    else
      var password := Loads(env.loads, Setting(router.passwords, p));
      var waitTimeout := OptionalSetting(env.loads, router.waitTimeout);
      var sslCa := OptionalSetting(env.loads, router.sslCa);
      var allowed := Loads(env.loads, Setting(router.allowedUnits, p));
      if password.None? || waitTimeout.None? || sslCa.None? || allowed.None? then Failed
      else
        var member := In(env.localUnit, allowed.value);
        if member.None? then Failed
        else
          Published(ConnectionInfo(
            unit.relationId, SharedDbAddress, password.value,
            if member.value then Some(unit.unitName) else None,
            if IsUnprefixed(p) then None else Some(p),
            waitTimeout.value, env.basePort, sslCa.value))
  }

  /** What the body does with one prefix: it skips exactly the prefixes
      contained in `"mysqlrouter"`, stops exactly at a falsy password, raises
      exactly when a decoding or the `in` test raises, and otherwise publishes a
      record for the joined unit's relation, at `127.0.0.1`, on the base port,
      with the decoded password, the decoded (or falsy) wait timeout and CA,
      the unit's name as allowed unit exactly when the local unit is `in` the
      decoded allowed units, and the prefix, or `None` for a prefix contained in
      `"MRUP"`. */
  lemma ResponseForSpec(p: string, router: DbRouterView, unit: JoinedUnit, env: Env)
    ensures var o := ResponseFor(p, router, unit, env);
      && (o.Skipped? <==> IsRouterPrefix(p))
      && (o.NoPassword? <==> !IsRouterPrefix(p) && !Truthy(Setting(router.passwords, p)))
      && (o.Failed? <==>
            && !IsRouterPrefix(p) && Truthy(Setting(router.passwords, p))
            && (|| Loads(env.loads, Setting(router.passwords, p)).None?
                || OptionalSetting(env.loads, router.waitTimeout).None?
                || OptionalSetting(env.loads, router.sslCa).None?
                || Loads(env.loads, Setting(router.allowedUnits, p)).None?
                || In(env.localUnit, Loads(env.loads, Setting(router.allowedUnits, p)).value).None?))
      && (o.Published? ==>
            var info := o.info;
            var allowed := Loads(env.loads, Setting(router.allowedUnits, p));
            && info.relationId == unit.relationId
            && info.address == SharedDbAddress
            && info.dbPort == env.basePort
            && Loads(env.loads, Setting(router.passwords, p)) == Some(info.password)
            && OptionalSetting(env.loads, router.waitTimeout) == Some(info.waitTimeout)
            && OptionalSetting(env.loads, router.sslCa) == Some(info.sslCa)
            && (info.prefix == None <==> IsUnprefixed(p))
            && (info.prefix != None ==> info.prefix == Some(p))
            && allowed.Some?
            && (info.allowedUnits != None <==> In(env.localUnit, allowed.value) == Some(true))
            && (info.allowedUnits != None ==> info.allowedUnits == Some(unit.unitName)))
  {
  }

  /** How a response pass ends. */
  datatype PassEnd =
    | Completed                       // every prefix was handled
    | Departed                        // no joined client unit
    | MissingPassword(prefix: string) // returned at a prefix without a password
    | Raised(prefix: string)          // an exception left the pass at this prefix

  /** The records a pass published, in order, and how it ended. */
  datatype Pass = Pass(published: seq<ConnectionInfo>, end: PassEnd)

  /** The response loop, driven by the outcome of the body for each prefix. */
  function Run(prefixes: seq<string>, outcomes: seq<PrefixOutcome>): (r: Pass)
    requires |outcomes| == |prefixes|
    ensures |r.published| <= |prefixes| && !r.end.Departed?
    decreases |prefixes|
  {
    if prefixes == [] then Pass([], Completed)
    else
      match outcomes[0]
      case Skipped => Run(prefixes[1..], outcomes[1..])
      case NoPassword => Pass([], MissingPassword(prefixes[0]))
      case Failed => Pass([], Raised(prefixes[0]))
      case Published(info) =>
        var rest := Run(prefixes[1..], outcomes[1..]);
        Pass([info] + rest.published, rest.end)
  }

  /** The body's outcome for each prefix. */
  function Outcomes(prefixes: seq<string>, router: DbRouterView, unit: JoinedUnit, env: Env): (os: seq<PrefixOutcome>)
    ensures |os| == |prefixes|
    decreases |prefixes|
  {
    if prefixes == [] then []
    else [ResponseFor(prefixes[0], router, unit, env)] + Outcomes(prefixes[1..], router, unit, env)
  }

  /** The outcome at position `i` is the body's result for the prefix there. */
  lemma {:induction false} OutcomeAt(prefixes: seq<string>, router: DbRouterView, unit: JoinedUnit, env: Env, i: int)
    requires 0 <= i < |prefixes|
    ensures Outcomes(prefixes, router, unit, env)[i] == ResponseFor(prefixes[i], router, unit, env)
    decreases |prefixes|
  {
    if i > 0 {
      OutcomeAt(prefixes[1..], router, unit, env, i - 1);
    }
  }

  /** The response loop over `prefixes` for the joined unit `unit`. */
  function PassOver(prefixes: seq<string>, router: DbRouterView, unit: JoinedUnit, env: Env): Pass
  {
    Run(prefixes, Outcomes(prefixes, router, unit, env))
  }

  /** `proxy_db_and_user_responses(router, shared)`: silent when no client unit
      is joined, else the loop for the first joined unit. */
  function ProxyResponses(router: DbRouterView, shared: SharedDbView, env: Env): (r: Pass)
    ensures r.end == Departed <==> |shared.joinedUnits| == 0
    ensures |r.published| <= |router.prefixes|
  {
    if |shared.joinedUnits| == 0 then Pass([], Departed)
    else PassOver(router.prefixes, router, shared.joinedUnits[0], env)
  }

  function PublishCalls(infos: seq<ConnectionInfo>): (cs: seq<Call>)
    ensures |cs| == |infos| && forall i :: 0 <= i < |infos| ==> cs[i] == SetDbConnectionInfo(infos[i])
    decreases |infos|
  {
    if infos == [] then [] else PublishCalls(infos[..|infos| - 1]) + [SetDbConnectionInfo(infos[|infos| - 1])]
  }

  lemma PublishCallsSnoc(infos: seq<ConnectionInfo>, info: ConnectionInfo)
    ensures PublishCalls(infos + [info]) == PublishCalls(infos) + [SetDbConnectionInfo(info)]
  {
    assert (infos + [info])[..|infos|] == infos;
  }

  /** The records of the published outcomes, in order. */
  function PublishedInfos(os: seq<PrefixOutcome>): (infos: seq<ConnectionInfo>)
    ensures forall r :: r in infos <==> Published(r) in os
    decreases |os|
  {
    if os == [] then []
    else
      var rest := PublishedInfos(os[1..]);
      assert forall o :: o in os <==> o == os[0] || o in os[1..];
      if os[0].Published? then [os[0].info] + rest else rest
  }

  /** The pass from position `i` on: the loop's step at that position. */
  lemma RunFrom(prefixes: seq<string>, os: seq<PrefixOutcome>, i: int)
    requires |os| == |prefixes| && 0 <= i < |prefixes|
    ensures Run(prefixes[i..], os[i..]) ==
      match os[i]
      case Skipped => Run(prefixes[i + 1..], os[i + 1..])
      case NoPassword => Pass([], MissingPassword(prefixes[i]))
      case Failed => Pass([], Raised(prefixes[i]))
      case Published(info) =>
        var rest := Run(prefixes[i + 1..], os[i + 1..]);
        Pass([info] + rest.published, rest.end)
  {
    assert prefixes[i..][0] == prefixes[i] && prefixes[i..][1..] == prefixes[i + 1..];
    assert os[i..][0] == os[i] && os[i..][1..] == os[i + 1..];
  }

  /** The loop's invariant: the records published over the first `i` prefixes,
      followed by the pass over the rest, make up the whole pass. */
  ghost predicate RunSoFar(prefixes: seq<string>, os: seq<PrefixOutcome>, i: int, published: seq<ConnectionInfo>)
    requires |os| == |prefixes| && 0 <= i <= |prefixes|
  {
    var rest := Run(prefixes[i..], os[i..]);
    Run(prefixes, os) == Pass(published + rest.published, rest.end)
  }

  /** One step of the loop keeps the invariant, or ends the pass. */
  lemma RunAdvance(prefixes: seq<string>, os: seq<PrefixOutcome>, i: int, published: seq<ConnectionInfo>)
    requires |os| == |prefixes| && 0 <= i < |prefixes|
    requires RunSoFar(prefixes, os, i, published)
    ensures os[i].Skipped? ==> RunSoFar(prefixes, os, i + 1, published)
    ensures os[i].Published? ==> RunSoFar(prefixes, os, i + 1, published + [os[i].info])
    ensures os[i].NoPassword? ==> Run(prefixes, os) == Pass(published, MissingPassword(prefixes[i]))
    ensures os[i].Failed? ==> Run(prefixes, os) == Pass(published, Raised(prefixes[i]))
  {
    RunFrom(prefixes, os, i);
    if os[i].Published? {
      var rest := Run(prefixes[i + 1..], os[i + 1..]).published;
      assert published + ([os[i].info] + rest) == (published + [os[i].info]) + rest;
    }
  }

  /** After the last prefix, the records published are the whole pass. */
  lemma RunDone(prefixes: seq<string>, os: seq<PrefixOutcome>, published: seq<ConnectionInfo>)
    requires |os| == |prefixes|
    requires RunSoFar(prefixes, os, |prefixes|, published)
    ensures Run(prefixes, os) == Pass(published, Completed)
  {
    assert prefixes[|prefixes|..] == [];
  }

  /** A pass over `a + b` is the pass over `a` followed, if that one completed,
      by the pass over `b`. */
  lemma {:induction false} RunConcat(a: seq<string>, oa: seq<PrefixOutcome>, b: seq<string>, ob: seq<PrefixOutcome>)
    requires |oa| == |a| && |ob| == |b|
    ensures var pa, pb := Run(a, oa), Run(b, ob);
      Run(a + b, oa + ob) == if pa.end == Completed then Pass(pa.published + pb.published, pb.end) else pa
    decreases |a|
  {
    if a != [] {
      assert (a + b)[0] == a[0] && (a + b)[1..] == a[1..] + b;
      assert (oa + ob)[0] == oa[0] && (oa + ob)[1..] == oa[1..] + ob;
      RunConcat(a[1..], oa[1..], b, ob);
    } else {
      assert a + b == b && oa + ob == ob;
    }
  }

  /** A pass whose outcomes publish nothing publishes nothing. */
  lemma {:induction false} RunNothingPublished(prefixes: seq<string>, os: seq<PrefixOutcome>)
    requires |os| == |prefixes|
    requires forall i :: 0 <= i < |os| ==> !os[i].Published?
    ensures Run(prefixes, os).published == []
    decreases |prefixes|
  {
    if prefixes != [] {
      assert !os[0].Published?;
      RunNothingPublished(prefixes[1..], os[1..]);
    }
  }

  /** Every record a pass publishes is the published outcome of one prefix. */
  lemma {:induction false} RunPublishedFrom(prefixes: seq<string>, os: seq<PrefixOutcome>)
    requires |os| == |prefixes|
    ensures forall r :: r in Run(prefixes, os).published ==> Published(r) in os
    decreases |prefixes|
  {
    if prefixes != [] {
      RunPublishedFrom(prefixes[1..], os[1..]);
      assert forall o :: o in os[1..] ==> o in os;
    }
  }

  /** A pass that completes met only skipped and published outcomes, and
      published all of them in order. */
  lemma {:induction false} RunCompleted(prefixes: seq<string>, os: seq<PrefixOutcome>)
    requires |os| == |prefixes| && Run(prefixes, os).end == Completed
    ensures forall i :: 0 <= i < |os| ==> os[i].Skipped? || os[i].Published?
    ensures Run(prefixes, os).published == PublishedInfos(os)
    decreases |prefixes|
  {
    if prefixes != [] {
      RunCompleted(prefixes[1..], os[1..]);
      forall i | 0 < i < |os| ensures os[i].Skipped? || os[i].Published? {
        assert os[i] == os[1..][i - 1];
      }
    }
  }

  /** Outcomes distribute over a concatenation of prefix lists. */
  lemma OutcomesConcat(a: seq<string>, b: seq<string>, router: DbRouterView, unit: JoinedUnit, env: Env)
    ensures Outcomes(a + b, router, unit, env) == Outcomes(a, router, unit, env) + Outcomes(b, router, unit, env)
  {
    var o, oa, ob := Outcomes(a + b, router, unit, env), Outcomes(a, router, unit, env), Outcomes(b, router, unit, env);
    forall i | 0 <= i < |a + b| ensures o[i] == (oa + ob)[i] {
      OutcomeAt(a + b, router, unit, env, i);
      if i < |a| {
        assert (a + b)[i] == a[i];
        OutcomeAt(a, router, unit, env, i);
      } else {
        assert (a + b)[i] == b[i - |a|];
        OutcomeAt(b, router, unit, env, i - |a|);
      }
    }
  }

  /** At the first handled prefix without a password the pass returns: the
      records for earlier prefixes stand, nothing is published for it or for any
      later prefix. */
  lemma MissingPasswordStops(a: seq<string>, p: string, b: seq<string>, router: DbRouterView, unit: JoinedUnit, env: Env)
    requires PassOver(a, router, unit, env).end == Completed
    requires !IsRouterPrefix(p) && !Truthy(Setting(router.passwords, p))
    ensures PassOver(a + [p] + b, router, unit, env) ==
      Pass(PassOver(a, router, unit, env).published, MissingPassword(p))
  {
    var tail := [p] + b;
    assert a + [p] + b == a + tail;
    OutcomesConcat(a, tail, router, unit, env);
    RunConcat(a, Outcomes(a, router, unit, env), tail, Outcomes(tail, router, unit, env));
    ResponseForSpec(p, router, unit, env);
    assert tail[0] == p;
    OutcomeAt(tail, router, unit, env, 0);
  }

  /** When no prefix has a password, nothing is published. */
  lemma AllPasswordsMissing(prefixes: seq<string>, router: DbRouterView, unit: JoinedUnit, env: Env)
    requires forall i :: 0 <= i < |prefixes| ==> !Truthy(Setting(router.passwords, prefixes[i]))
    ensures PassOver(prefixes, router, unit, env).published == []
  {
    var os := Outcomes(prefixes, router, unit, env);
    forall i | 0 <= i < |os| ensures !os[i].Published? {
      OutcomeAt(prefixes, router, unit, env, i);
      ResponseForSpec(prefixes[i], router, unit, env);
    }
    RunNothingPublished(prefixes, os);
  }

  /** Every published record is the body's result for one of the pass's
      prefixes that is not the router's own, and it goes to the joined unit's
      relation, at `127.0.0.1`, on the base port. */
  lemma PublishedRecords(prefixes: seq<string>, router: DbRouterView, unit: JoinedUnit, env: Env)
    ensures forall r :: r in PassOver(prefixes, router, unit, env).published ==>
      && r.relationId == unit.relationId && r.address == SharedDbAddress && r.dbPort == env.basePort
      && exists q :: q in prefixes && !IsRouterPrefix(q) && ResponseFor(q, router, unit, env) == Published(r)
  {
    var os := Outcomes(prefixes, router, unit, env);
    RunPublishedFrom(prefixes, os);
    forall r | r in PassOver(prefixes, router, unit, env).published
      ensures && r.relationId == unit.relationId && r.address == SharedDbAddress && r.dbPort == env.basePort
              && exists q :: q in prefixes && !IsRouterPrefix(q) && ResponseFor(q, router, unit, env) == Published(r)
    {
      var i :| 0 <= i < |os| && os[i] == Published(r);
      OutcomeAt(prefixes, router, unit, env, i);
      ResponseForSpec(prefixes[i], router, unit, env);
    }
  }

  /** The router's credentials never reach a client: no record carries a prefix
      contained in `"mysqlrouter"` (in particular not `"mysqlrouter"` itself),
      and no record carries a prefix contained in `"MRUP"` (those go out as
      `None`). */
  lemma NoRouterCredentials(router: DbRouterView, shared: SharedDbView, env: Env)
    ensures forall r :: r in ProxyResponses(router, shared, env).published ==>
      && r.prefix != Some(DbPrefix)
      && (r.prefix.Some? ==> !IsRouterPrefix(r.prefix.value) && !IsUnprefixed(r.prefix.value))
  {
    PyStrings.ContainsSelf(DbPrefix);
    if |shared.joinedUnits| > 0 {
      var unit := shared.joinedUnits[0];
      PublishedRecords(router.prefixes, router, unit, env);
      forall r | r in ProxyResponses(router, shared, env).published
        ensures r.prefix.Some? ==> !IsRouterPrefix(r.prefix.value) && !IsUnprefixed(r.prefix.value)
      {
        var q :| q in router.prefixes && !IsRouterPrefix(q) && ResponseFor(q, router, unit, env) == Published(r);
        ResponseForSpec(q, router, unit, env);
      }
    }
  }

  /** With no joined client unit, or when every password is missing, the pass
      publishes nothing. */
  lemma DepartedPublishesNothing(router: DbRouterView, shared: SharedDbView, env: Env)
    requires |shared.joinedUnits| == 0 ||
      forall i :: 0 <= i < |router.prefixes| ==> !Truthy(Setting(router.passwords, router.prefixes[i]))
    ensures ProxyResponses(router, shared, env).published == []
  {
    if |shared.joinedUnits| > 0 {
      AllPasswordsMissing(router.prefixes, router, shared.joinedUnits[0], env);
    }
  }

  /** A pass that completes published, in the order of the prefixes, a record
      for every prefix that is not the router's own. */
  lemma CompletedPass(prefixes: seq<string>, router: DbRouterView, unit: JoinedUnit, env: Env)
    requires PassOver(prefixes, router, unit, env).end == Completed
    ensures forall i :: 0 <= i < |prefixes| && !IsRouterPrefix(prefixes[i]) ==>
      ResponseFor(prefixes[i], router, unit, env).Published?
    ensures PassOver(prefixes, router, unit, env).published == PublishedInfos(Outcomes(prefixes, router, unit, env))
  {
    var os := Outcomes(prefixes, router, unit, env);
    RunCompleted(prefixes, os);
    forall i | 0 <= i < |prefixes| && !IsRouterPrefix(prefixes[i])
      ensures ResponseFor(prefixes[i], router, unit, env).Published?
    {
      OutcomeAt(prefixes, router, unit, env, i);
      ResponseForSpec(prefixes[i], router, unit, env);
    }
  }

  // ---------------------------------------------------------------------------
  // Bootstrap command

  /** The `mysqlrouter --bootstrap` command line for the given decoded password
      and cluster address. */
  function BootstrapCommand(serviceName: string, password: string, clusterAddress: string, basePort: nat): seq<string>
  {
    [MysqlrouterBin,
     "--user", MysqlrouterUser,
     "--bootstrap", DbRouterUser + ":" + password + "@" + clusterAddress,
     "--directory", MysqlrouterWorkingDir(serviceName),
     "--conf-use-sockets",
     "--conf-bind-address", SharedDbAddress,
     "--conf-base-port", PyStrings.NatToDecimal(basePort)]
  }

  /** The command `bootstrap_mysqlrouter` runs, or `None` when reading the
      password or the cluster address raises. */
  function BootstrapArgv(router: DbRouterView, env: Env): (r: Option<seq<string>>)
    ensures r.Some? <==> DbRouterPassword(router, env).Some? && ClusterAddress(router, env).Some?
  {
    match (DbRouterPassword(router, env), ClusterAddress(router, env))
    case (Some(password), Some(host)) =>
      Some(BootstrapCommand(env.serviceName, Str(password), Str(host), env.basePort))
    case _ => None
  }

  /** The first position of `arg` in `argv`, or -1. */
  function ArgIndex(argv: seq<string>, arg: string): (i: int)
    ensures -1 <= i < |argv|
    ensures 0 <= i ==> argv[i] == arg && forall j :: 0 <= j < i ==> argv[j] != arg
    ensures i < 0 ==> forall j :: 0 <= j < |argv| ==> argv[j] != arg
    decreases |argv|
  {
    if argv == [] then -1
    else if argv[0] == arg then 0
    else
      var j := ArgIndex(argv[1..], arg);
      if j < 0 then -1 else j + 1
  }

  /** `arg` first occurs at `i` when it is there and nowhere before. */
  lemma ArgIndexIs(argv: seq<string>, arg: string, i: int)
    requires 0 <= i < |argv| && argv[i] == arg
    requires forall j :: 0 <= j < i ==> argv[j] != arg
    ensures ArgIndex(argv, arg) == i
  {
  }

  /** The value a command-line parser reads for `--option value`: the argument
      after the option's first occurrence. */
  function OptionValue(argv: seq<string>, option: string): Option<string>
  {
    var i := ArgIndex(argv, option);
    if 0 <= i < |argv| - 1 then Some(argv[i + 1]) else None
  }

  /** The options up to the working directory read back as the argument placed
      after each. */
  lemma BootstrapLeadingOptions(serviceName: string, password: string, clusterAddress: string, basePort: nat)
    ensures var argv := BootstrapCommand(serviceName, password, clusterAddress, basePort);
      && OptionValue(argv, "--user") == Some(argv[2])
      && OptionValue(argv, "--bootstrap") == Some(argv[4])
      && OptionValue(argv, "--directory") == Some(argv[6])
  {
    var argv := BootstrapCommand(serviceName, password, clusterAddress, basePort);
    var uri := DbRouterUser + ":" + password + "@" + clusterAddress;
    assert argv[4] == uri && uri[0] == 'm';
    ArgIndexIs(argv, "--user", 1);
    ArgIndexIs(argv, "--bootstrap", 3);
    ArgIndexIs(argv, "--directory", 5);
  }

  /** The binding options read back as the argument placed after each. */
  lemma BootstrapBindingOptions(serviceName: string, password: string, clusterAddress: string, basePort: nat)
    ensures var argv := BootstrapCommand(serviceName, password, clusterAddress, basePort);
      && OptionValue(argv, "--conf-bind-address") == Some(argv[9])
      && OptionValue(argv, "--conf-base-port") == Some(argv[11])
  {
    var argv := BootstrapCommand(serviceName, password, clusterAddress, basePort);
    var uri := DbRouterUser + ":" + password + "@" + clusterAddress;
    var dir := MysqlrouterWorkingDir(serviceName);
    assert argv[4] == uri && argv[6] == dir;
    assert uri[0] == 'm' && dir[0] == '/';
    ArgIndexIs(argv, "--conf-bind-address", 8);
    ArgIndexIs(argv, "--conf-base-port", 10);
  }

  /** The working directory is `/var/lib/mysql/<name>`. */
  lemma WorkingDirPath(name: string)
    ensures MysqlrouterWorkingDir(name) == "/var/lib/mysql/" + name
  {
    assert MysqlrouterHomeDir + "/" == "/var/lib/mysql/";
  }

  /** The bootstrap URI names the user before its first `:`. */
  lemma BootstrapUri(password: string, clusterAddress: string)
    ensures DbRouterUser + ":" + password + "@" + clusterAddress == "mysqlrouteruser:" + password + "@" + clusterAddress
    ensures PyStrings.SplitFirst(DbRouterUser + ":" + password + "@" + clusterAddress, ':') ==
      ("mysqlrouteruser", password + "@" + clusterAddress)
  {
    var rest := password + "@" + clusterAddress;
    assert DbRouterUser + ":" == "mysqlrouteruser:";
    assert DbRouterUser + ":" + password + "@" + clusterAddress == "mysqlrouteruser" + [':'] + rest;
    assert ':' !in "mysqlrouteruser";
    PyStrings.SplitFirstJoin("mysqlrouteruser", ':', rest);
  }

  /** The bootstrap command runs the router binary as `mysql`, bootstraps as
      `mysqlrouteruser` (the text before the first `:` of the URI) with the
      given password and address, in the service's working directory. */
  lemma BootstrapCommandOptions(serviceName: string, password: string, clusterAddress: string, basePort: nat)
    ensures var argv := BootstrapCommand(serviceName, password, clusterAddress, basePort);
      && |argv| == 12 && argv[0] == MysqlrouterBin
      && OptionValue(argv, "--user") == Some("mysql")
      && OptionValue(argv, "--bootstrap") == Some("mysqlrouteruser:" + password + "@" + clusterAddress)
      && PyStrings.SplitFirst(OptionValue(argv, "--bootstrap").value, ':') ==
           ("mysqlrouteruser", password + "@" + clusterAddress)
      && OptionValue(argv, "--directory") == Some("/var/lib/mysql/" + serviceName)
  {
    BootstrapLeadingOptions(serviceName, password, clusterAddress, basePort);
    BootstrapUri(password, clusterAddress);
    WorkingDirPath(serviceName);
  }

  /** The bootstrapped router uses sockets, binds to localhost, and listens
      from the base port, whose decimal text reads back as the number. */
  lemma BootstrapCommandBinding(serviceName: string, password: string, clusterAddress: string, basePort: nat)
    ensures var argv := BootstrapCommand(serviceName, password, clusterAddress, basePort);
      && "--conf-use-sockets" in argv
      && OptionValue(argv, "--conf-bind-address") == Some("127.0.0.1")
      && OptionValue(argv, "--conf-base-port").Some?
      && PyStrings.ParseDecimal(OptionValue(argv, "--conf-base-port").value) == basePort
  {
    var argv := BootstrapCommand(serviceName, password, clusterAddress, basePort);
    BootstrapBindingOptions(serviceName, password, clusterAddress, basePort);
    assert argv[7] == "--conf-use-sockets";
    PyStrings.DecimalRoundTrip(basePort);
  }

  // ---------------------------------------------------------------------------
  // Status

  /** A `(state, message)` pair; `(None, None)` is "all is well". */
  datatype Status = Status(state: Option<string>, message: Option<string>)

  const Healthy := Status(None, None)
  const ConnectionFailed := Status(Some("blocked"), Some("Failed to connect to MySQL"))

  /** `custom_assess_status_check`: the results of `check_if_paused`,
      `check_interfaces` and `check_mandatory_config` are tried in that order and
      the first with a state wins; only when none has one is the connection
      probed, and `connected` is what `check_mysql_connection` returns then.
      `probed` says whether the probe was made. */
  method CustomAssessStatusCheck(paused: Status, interfaces: Status, mandatoryConfig: Status, connected: bool)
    returns (status: Status, probed: bool)
    ensures paused.state.Some? ==> status == paused && !probed
    ensures paused.state.None? && interfaces.state.Some? ==> status == interfaces && !probed
    ensures paused.state.None? && interfaces.state.None? && mandatoryConfig.state.Some? ==>
      status == mandatoryConfig && !probed
    ensures paused.state.None? && interfaces.state.None? && mandatoryConfig.state.None? ==>
      probed && status == if connected then Healthy else ConnectionFailed
  {
    var checks := [paused, interfaces, mandatoryConfig];
    assert checks[0] == paused && checks[1] == interfaces && checks[2] == mandatoryConfig;
    var i := 0;
    while i < |checks|
      invariant 0 <= i <= |checks|
      invariant forall j :: 0 <= j < i ==> checks[j].state.None?
    {
      var result := checks[i];
      if result.state.Some? {
        return result, false;
      }
      i := i + 1;
    }
    probed := true;
    if !connected {
      return ConnectionFailed, probed;
    }
    return Healthy, probed;
  }

  // ---------------------------------------------------------------------------
  // The charm object

  /** The result of `bootstrap_mysqlrouter`. */
  datatype BootstrapOutcome =
    | Bootstrapped         // the command succeeded and the flag was set
    | CommandFailed        // `CalledProcessError`, logged and swallowed
    | BootstrapRaised      // reading the password or the address raised

  /** The charm with the flag store it writes and the log of the calls it makes. */
  class MySQLRouterCharm {
    const env: Env
    var flags: set<string>
    var calls: seq<Call>

    constructor (env: Env, flags: set<string>)
      ensures this.env == env && this.flags == flags && calls == []
    {
      this.env := env;
      this.flags := flags;
      calls := [];
    }

    /** Runs the bootstrap command; `commandSucceeds` is whether the process
        exits with status 0. The flag is set exactly when the command ran and
        succeeded; a failure changes no flag. */
    method BootstrapMysqlrouter(router: DbRouterView, commandSucceeds: bool) returns (outcome: BootstrapOutcome)
      modifies this
      ensures BootstrapArgv(router, env).None? ==>
        outcome == BootstrapRaised && calls == old(calls) && flags == old(flags)
      ensures BootstrapArgv(router, env).Some? ==>
        && calls == old(calls) + [RunCommand(BootstrapArgv(router, env).value)]
        && outcome == (if commandSucceeds then Bootstrapped else CommandFailed)
        && flags == if commandSucceeds then old(flags) + {MysqlRouterBootstrapped} else old(flags)
    {
      var password := DbRouterPassword(router, env);
      if password.None? {
        return BootstrapRaised;
      }
      var host := ClusterAddress(router, env);
      if host.None? {
        return BootstrapRaised;
      }
      var cmd := BootstrapCommand(env.serviceName, Str(password.value), Str(host.value), env.basePort);
      calls := calls + [RunCommand(cmd)];
      if !commandSucceeds {
        return CommandFailed;
      }
      flags := flags + {MysqlRouterBootstrapped};
      return Bootstrapped;
    }

    /** Starts the service and sets the started flag. */
    method StartMysqlrouter()
      modifies this
      ensures calls == old(calls) + [ServiceStart(env.serviceName)]
      ensures flags == old(flags) + {MysqlRouterStarted}
    {
      calls := calls + [ServiceStart(env.serviceName)];
      flags := flags + {MysqlRouterStarted};
    }

    /** Stops the service; no flag changes. */
    method StopMysqlrouter()
      modifies this
      ensures calls == old(calls) + [ServiceStop(env.serviceName)]
      ensures flags == old(flags)
    {
      calls := calls + [ServiceStop(env.serviceName)];
    }

    /** Restarts the service; no flag changes. */
    method RestartMysqlrouter()
      modifies this
      ensures calls == old(calls) + [ServiceRestart(env.serviceName)]
      ensures flags == old(flags)
    {
      calls := calls + [ServiceRestart(env.serviceName)];
    }

    /** Appends one call made by a handler to an endpoint. */
    method Record(c: Call)
      modifies this
      ensures calls == old(calls) + [c]
      ensures flags == old(flags)
    {
      calls := calls + [c];
    }

    /** Forwards the client's settings: one `configure_proxy_db` call per group,
        in the order `get_db_data` built the groups. */
    method ProxyDbAndUserRequests(receiving: SharedDbView)
      requires UniqueKeys(receiving.received)
      modifies this
      ensures calls == old(calls) + ConfigureCalls(ProxyRequests(receiving.received))
      ensures flags == old(flags)
    {
      var dbData := DbData.GetDbData(receiving.received, Unprefixed);
      ConfigureProxyDbs(dbData);
    }

    /** The loop `for prefix in db_data`: one `configure_proxy_db` call per
        group, with the group's `database`, `username` and `hostname`. */
    method ConfigureProxyDbs(dbData: DbData.Databases)
      modifies this
      ensures calls == old(calls) + ConfigureCalls(Requests(dbData))
      ensures flags == old(flags)
    {
      var i := 0;
      while i < |dbData|
        invariant 0 <= i <= |dbData|
        invariant calls == old(calls) + ConfigureCalls(Requests(dbData[..i]))
        invariant flags == old(flags)
      {
        var prefix := dbData[i].0;
        var group := dbData[i].1;
        var request := ProxyDbRequest(Get(group, "database"), Get(group, "username"), Get(group, "hostname"), prefix);
        ConfigureStep(old(calls), dbData, i);
        calls := calls + [ConfigureProxyDb(request)];
        i := i + 1;
      }
      assert dbData[..i] == dbData;
    }

    /** The loop body for one prefix, up to the publish call: the prefix is
        skipped, ends the pass, raises, or yields the record to publish. */
    method ResponseForPrefix(prefix: string, receiving: DbRouterView, unit: JoinedUnit) returns (outcome: PrefixOutcome)
      ensures outcome == ResponseFor(prefix, receiving, unit, env)
    {
      if IsRouterPrefix(prefix) {
        return Skipped;
      }
      var rawPassword := Setting(receiving.passwords, prefix);
      if !Truthy(rawPassword) {
        return NoPassword;
      }
      var password := Loads(env.loads, rawPassword);
      var waitTimeout := OptionalSetting(env.loads, receiving.waitTimeout);
      var sslCa := OptionalSetting(env.loads, receiving.sslCa);
      var allowed := Loads(env.loads, Setting(receiving.allowedUnits, prefix));
      if password.None? || waitTimeout.None? || sslCa.None? || allowed.None? {
        return Failed;
      }
      var member := In(env.localUnit, allowed.value);
      if member.None? {
        return Failed;
      }
      var allowedHosts := if member.value then Some(unit.unitName) else None;
      var outPrefix := if IsUnprefixed(prefix) then None else Some(prefix);
      var info := ConnectionInfo(unit.relationId, SharedDbAddress, password.value, allowedHosts,
                                 outPrefix, waitTimeout.value, env.basePort, sslCa.value);
      return Published(info);
    }

    /** The body's outcome for the prefix at position `i`. */
    method NextOutcome(prefixes: seq<string>, i: int, receiving: DbRouterView, unit: JoinedUnit) returns (outcome: PrefixOutcome)
      requires 0 <= i < |prefixes|
      ensures outcome == Outcomes(prefixes, receiving, unit, env)[i]
    {
      outcome := ResponseForPrefix(prefixes[i], receiving, unit);
      OutcomeAt(prefixes, receiving, unit, env, i);
    }

    /** Forwards the cluster's answers to the client unit: one
        `set_db_connection_info` call per published record, and how the pass
        ended. With no joined unit it gives up silently. */
    method ProxyDbAndUserResponses(receiving: DbRouterView, sending: SharedDbView) returns (end: PassEnd)
      modifies this
      ensures calls == old(calls) + PublishCalls(ProxyResponses(receiving, sending, env).published)
      ensures end == ProxyResponses(receiving, sending, env).end
      ensures flags == old(flags)
    {
      if |sending.joinedUnits| == 0 {
        return Departed;
      }
      end := PublishResponses(receiving, sending.joinedUnits[0]);
    }

    /** The loop over the cluster's prefixes for the joined unit `unit`. */
    method PublishResponses(receiving: DbRouterView, unit: JoinedUnit) returns (end: PassEnd)
      modifies this
      ensures calls == old(calls) + PublishCalls(PassOver(receiving.prefixes, receiving, unit, env).published)
      ensures end == PassOver(receiving.prefixes, receiving, unit, env).end
      ensures flags == old(flags)
    {
      var prefixes := receiving.prefixes;
      ghost var os := Outcomes(prefixes, receiving, unit, env);
      ghost var published: seq<ConnectionInfo> := [];
      var i := 0;
      while i < |prefixes|
        invariant 0 <= i <= |prefixes|
        invariant calls == old(calls) + PublishCalls(published)
        invariant flags == old(flags)
        invariant RunSoFar(prefixes, os, i, published)
      {
        var prefix := prefixes[i];
        var outcome := NextOutcome(prefixes, i, receiving, unit);
        RunAdvance(prefixes, os, i, published);
        i := i + 1;
        match outcome
        case Skipped =>
        case NoPassword =>
          return MissingPassword(prefix);
        case Failed =>
          return Raised(prefix);
        case Published(info) =>
          calls := calls + [SetDbConnectionInfo(info)];
          PublishCallsSnoc(published, info);
          published := published + [info];
      }
      RunDone(prefixes, os, published);
      end := Completed;
    }
  }
}
