# mysql-router charm: broker and lifecycle model

This project models the core of the MySQL Router subordinate charm. The charm
sits between a client application (the `shared-db` relation) and a MySQL InnoDB
Cluster (the `db-router` relation) and does three things:

- It bootstraps and starts a local `mysqlrouter` daemon.
- It forwards the client's database and user requests to the cluster.
- It publishes the cluster's answers (password, allowed units, wait timeout, CA)
  back to the client.

The model follows the charm class `MySQLRouterCharm`
(`src/lib/charm/openstack/mysql_router.py`) and the reactive handlers
(`src/reactive/mysql_router_handlers.py`).

Modules:

- `PyStrings` (`py_strings.dfy`): the Python string operations the charm relies
  on.
  - `in` between strings is a substring test.
  - `str.split("_")[0]` with the rest rejoined is a split at the first
    separator.
  - `str()` of a natural number is its decimal form, with a round-trip proof.
- `PyValues` (`py_values.dfy`): the kinds of document `json.loads` returns
  (null, booleans, integers, strings, lists, objects; not floats), and Python's
  `in` on each of them.
  - `json.loads` itself is a parameter, a decoder that may fail.
  - Truthiness of a raw relation setting.
- `OrderedDicts` (`ordered_dicts.dfy`): Python's insertion-ordered `dict` as a
  sequence of pairs with unique keys, with `get`, `__setitem__` and `pop`.
- `DbData` (`db_data.dfy`): charmhelpers' `get_db_data`, which is not part of
  this model's source. It follows the reference behaviour the unit tests give
  for it. A bag holding all of `database`, `username` and `hostname` has those
  keys renamed under the internal prefix. Every key is then split at its first
  `_` into a prefix and a field. A loop over the settings files each one into
  the nested ordered dictionary (`GroupInPlace`), and it is proved equal to its
  functional definition `Group`. The dictionary is a value that the loop
  reassigns, not an object it mutates.
- `MySQLRouter` (`mysql_router.dfy`):
  - the constants and derived properties;
  - the bootstrap command line;
  - `custom_assess_status_check`;
  - the request pass and the response pass;
  - the class `MySQLRouterCharm`. It holds the flag store (`flags`) and a log of
    every call the charm makes to the outside (`calls`), and its methods
    bootstrap, start, stop and restart the daemon and run both passes as loops.
- `Handlers` (`mysql_router_handlers.dfy`): the five reactive handlers.
  - Their `@when`/`@when_not` guards are predicates over the flag set.
  - Their bodies are methods on a `MySQLRouterCharm` object.
  - A run of the charm is a sequence of events, over which the ordering
    bootstrap → start → proxying is proved.

The relation endpoints are snapshot values:

- `DbRouterView` holds what `get_prefixes`, `password`, `allowed_units`,
  `db_host`, `wait_timeout` and `ssl_ca` return.
- `SharedDbView` holds the joined units and the settings the client sent.

The host is the value `Env`: `service_name()`, `local_unit()`, the `base-port`
option and the JSON decoder. The subprocess outcome and the MySQL connection
check are boolean inputs.

Three of the response pass's membership tests are Python `in` on strings, and
the model keeps them as substring tests:

- `prefix in self.db_prefix`: a prefix is skipped when it is contained in
  `"mysqlrouter"`, which includes `"router"` and `""`.
- `prefix in self._unprefixed`: a prefix contained in `"MRUP"` is published
  without a prefix.
- `local_unit() in json.loads(...)` when the decoded value is a string.

`RouterPrefixSubstrings` and `UnprefixedSubstrings` show concrete cases. The
`ssl_ca` keyword that the code passes to `set_db_connection_info` is modelled,
although the unit tests predate it.

## Model

| member | source | states |
|---|---|---|
| PyStrings.Contains | src/lib/charm/openstack/mysql_router.py:492 | Python's `needle in hay` on two strings; the empty string is in every string, and a contained string is no longer than the haystack (its meaning as an occurrence is `ContainsIffOccurs`) |
| PyStrings.ContainsIffOccurs | src/lib/charm/openstack/mysql_router.py:492 | the recursive substring test used for Python's `in` on strings holds exactly when the needle occurs at some position of the haystack |
| PyStrings.SplitFirst | unit_tests/test_lib_charm_openstack_mysql_router.py:152-153 | the head has no separator; with a separator in the key, head + separator + rest is the key; without one, the rest is empty |
| PyStrings.SplitFirstJoin | unit_tests/test_lib_charm_openstack_mysql_router.py:152-153 | splitting `head + "_" + tail` (head without `_`) gives back `head` and `tail` |
| PyStrings.NatToDecimal | src/lib/charm/openstack/mysql_router.py:383 | `str(n)` of a natural is a non-empty digit string without a leading zero unless n is 0 |
| PyStrings.DecimalRoundTrip | src/lib/charm/openstack/mysql_router.py:383 | parsing `str(n)` as a decimal gives back n |
| PyValues.In | src/lib/charm/openstack/mysql_router.py:514-515 | `x in v` is defined exactly for a decoded string, list or object and raises (None) for numbers, booleans and null |
| PyValues.InMeaning | src/lib/charm/openstack/mysql_router.py:514-515 | on a string `in` is a substring occurrence, on a list it is membership of the string element, on an object it is key membership; each in both directions |
| PyValues.ListHasIff | src/lib/charm/openstack/mysql_router.py:514-515 | the recursive list membership holds exactly when some element equals the string |
| PyValues.ObjectHasIff | src/lib/charm/openstack/mysql_router.py:514-515 | the recursive key membership holds exactly when some key equals the string |
| OrderedDicts.IndexOf | unit_tests/test_lib_charm_openstack_mysql_router.py:154 | the index is the first position holding the key, or -1 when no position does |
| OrderedDicts.Get | src/lib/charm/openstack/mysql_router.py:460-462 | `d.get(k)` is present exactly when the key is in the dictionary |
| OrderedDicts.GetAt | src/lib/charm/openstack/mysql_router.py:460-462 | with unique keys, looking up the key stored at a position yields the value stored there |
| OrderedDicts.KeysOrder | src/lib/charm/openstack/mysql_router.py:458 | `d.keys()` holds exactly the keys `k in d`, each once when the keys are unique, in insertion order |
| OrderedDicts.Set | unit_tests/test_lib_charm_openstack_mysql_router.py:155-156 | assignment keeps keys unique, stores the value, leaves every other key unchanged, keeps the key order of an existing key and appends a new key at the end |
| OrderedDicts.Pop | unit_tests/test_lib_charm_openstack_mysql_router.py:141-149 | `pop` removes exactly the key, shrinks the dictionary by one and leaves every other key unchanged |
| OrderedDicts.Move | unit_tests/test_lib_charm_openstack_mysql_router.py:141-149 | copying a value under a new key and popping the old key leaves the value under the new key only and changes nothing else |
| OrderedDicts.SetOverNew | unit_tests/test_lib_charm_openstack_mysql_router.py:154-156 | creating an empty group for a new prefix and then filling it is the same as inserting the filled group |
| DbData.Renamed | unit_tests/test_lib_charm_openstack_mysql_router.py:139-149 | a bag without all three bare keys is unchanged; a bag with them has each bare key moved under the internal prefix, every other key untouched; keys stay unique |
| DbData.KeyPrefixesSnoc | unit_tests/test_lib_charm_openstack_mysql_router.py:151-156 | the prefixes of a bag are those of its earlier entries plus the prefix of its last key |
| DbData.AddSettingEffect | unit_tests/test_lib_charm_openstack_mysql_router.py:152-156 | filing one setting keeps the grouping well formed, adds its prefix as a group and stores the value under its field in that group only |
| DbData.GroupPrefixes | unit_tests/test_lib_charm_openstack_mysql_router.py:151-158 | the grouped settings have exactly one group per distinct key prefix |
| DbData.GroupLookup | unit_tests/test_lib_charm_openstack_mysql_router.py:151-158 | `databases[prefix][field]` is the setting stored under `prefix_field` in the bag, and is absent exactly when that key is |
| DbData.AddSettingTo | unit_tests/test_lib_charm_openstack_mysql_router.py:152-156 | the in-place update (create the group if missing, then set the field) equals the functional `AddSetting` |
| DbData.GroupInPlace | unit_tests/test_lib_charm_openstack_mysql_router.py:152-158 | the loop over the settings builds exactly `Group` of the bag |
| DbData.AddSetting | unit_tests/test_lib_charm_openstack_mysql_router.py:152-156 | one pass of the grouping loop: split the key at its first `_`, create the prefix's group when new, set the field; its effect is `AddSettingEffect` |
| DbData.Group | unit_tests/test_lib_charm_openstack_mysql_router.py:151-158 | the grouping loop over all settings in order; its groups and lookups are `GroupPrefixes` and `GroupLookup` |
| DbData.DbData | unit_tests/test_lib_charm_openstack_mysql_router.py:132-158 | `get_db_data(bag, unprefixed)`: the rename followed by the grouping |
| DbData.GetDbData | unit_tests/test_lib_charm_openstack_mysql_router.py:132-158 | `get_db_data(relation_data, unprefixed)` is the rename followed by the grouping loop |
| DbData.BarePrefixes | unit_tests/test_lib_charm_openstack_mysql_router.py:139-149 | a bag of only the three bare keys has exactly one prefix after renaming, the internal one |
| DbData.BareRenamedFields | unit_tests/test_lib_charm_openstack_mysql_router.py:139-149 | after renaming, `database`, `username` and `hostname` are found under the internal prefix with their original values |
| MySQLRouter.ProxyRequests | src/lib/charm/openstack/mysql_router.py:454-463 | the requests `proxy_db_and_user_requests` sends for a client bag: one per group of `get_db_data(bag, unprefixed="MRUP")`; proved per case in `PrefixedRequests`, `BareRequest` and `GroupRequests` |
| MySQLRouter.Requests | src/lib/charm/openstack/mysql_router.py:458-463 | one request per group, in group order, each carrying that group's `database`, `username` and `hostname` (None when missing) and the group's prefix |
| MySQLRouter.ConfigureCalls | src/lib/charm/openstack/mysql_router.py:459-463 | one `configure_proxy_db` call per request, in order |
| MySQLRouter.RequestPrefixesOf | src/lib/charm/openstack/mysql_router.py:458 | the requests carry pairwise distinct prefixes, and a prefix is requested exactly when it is a group of the dictionary |
| MySQLRouter.GroupRequests | src/lib/charm/openstack/mysql_router.py:454-463 | for any bag: distinct prefixes, exactly the bag's key prefixes, and each request's fields are the bag's `prefix_database`, `prefix_username` and `prefix_hostname` settings |
| MySQLRouter.PrefixedRequests | src/lib/charm/openstack/mysql_router.py:454-463 | a bag without the bare keys yields one call per distinct key prefix, each carrying only that prefix's fields, a missing one as None |
| MySQLRouter.BareRequest | src/lib/charm/openstack/mysql_router.py:454-463 | a bag of the bare `database`, `username`, `hostname` yields exactly one call with those values and prefix `"MRUP"` |
| MySQLRouter.UnprefixedIsPrefix | src/lib/charm/openstack/mysql_router.py:76 | the internal prefix `"MRUP"` has no underscore, so it survives the split at the first `_` |
| MySQLRouter.SingleRequest | src/lib/charm/openstack/mysql_router.py:458-463 | requests with distinct prefixes whose set of prefixes is one prefix are exactly one request |
| MySQLRouter.DistinctPrefixCount | src/lib/charm/openstack/mysql_router.py:458-463 | requests with pairwise distinct prefixes have as many prefixes as requests |
| MySQLRouter.IsRouterPrefix | src/lib/charm/openstack/mysql_router.py:492 | `prefix in self.db_prefix`, a substring test of `"mysqlrouter"` |
| MySQLRouter.IsUnprefixed | src/lib/charm/openstack/mysql_router.py:519 | `prefix in self._unprefixed`, a substring test of `"MRUP"` |
| MySQLRouter.RouterPrefixSubstrings | src/lib/charm/openstack/mysql_router.py:492 | the skip test is a substring test: `"router"` and `""` are skipped like `"mysqlrouter"`, `"nova"` is not |
| MySQLRouter.UnprefixedSubstrings | src/lib/charm/openstack/mysql_router.py:519 | the un-prefix test is a substring test: `"M"` and `"RUP"` lose their prefix, `"nova"` keeps it |
| MySQLRouter.ResponseFor | src/lib/charm/openstack/mysql_router.py:492-530 | the loop body for one prefix: skip, early return, exception or the record to publish; its meaning is `ResponseForSpec` |
| MySQLRouter.OptionalSettingMeaning | src/lib/charm/openstack/mysql_router.py:507-513 | reading `wait_timeout`/`ssl_ca` raises exactly when the setting is truthy and `json.loads` rejects it; a truthy one becomes its decoding; an absent one stays `None` and an empty one stays `""` |
| MySQLRouter.ResponseForSpec | src/lib/charm/openstack/mysql_router.py:490-530 | the loop body skips exactly prefixes contained in `"mysqlrouter"`, returns exactly at a falsy password, raises exactly when a decode or the `in` test raises, and otherwise publishes the unit's relation id, `127.0.0.1`, the base port, the decoded password, timeout and CA, the unit name as allowed unit exactly when the local unit is `in` the decoded allowed units, and the prefix, None exactly for a prefix contained in `"MRUP"` |
| MySQLRouter.Run | src/lib/charm/openstack/mysql_router.py:490-501 | the loop over the prefixes driven by the body's outcomes: it publishes at most one record per prefix, stops at the first missing password or exception, and never ends as a departure |
| MySQLRouter.PassOver | src/lib/charm/openstack/mysql_router.py:490-530 | the loop over the cluster's prefixes for one joined client unit |
| MySQLRouter.ProxyResponses | src/lib/charm/openstack/mysql_router.py:482-530 | `proxy_db_and_user_responses`: the pass ends as a departure exactly when no client unit is joined, and publishes at most one record per prefix |
| MySQLRouter.Outcomes | src/lib/charm/openstack/mysql_router.py:490 | one loop-body outcome per prefix |
| MySQLRouter.OutcomeAt | src/lib/charm/openstack/mysql_router.py:490 | the outcome at position i is the loop body's result for the i-th prefix |
| MySQLRouter.PublishCalls | src/lib/charm/openstack/mysql_router.py:522-530 | one `set_db_connection_info` call per published record, in order |
| MySQLRouter.PublishedInfos | src/lib/charm/openstack/mysql_router.py:522-530 | a record is listed exactly when some prefix's outcome publishes it |
| MySQLRouter.RunConcat | src/lib/charm/openstack/mysql_router.py:490-501 | a pass over a + b is the pass over a, continued over b only when a completed; publishes of a come first |
| MySQLRouter.RunNothingPublished | src/lib/charm/openstack/mysql_router.py:490-530 | a pass in which no prefix publishes publishes nothing |
| MySQLRouter.RunPublishedFrom | src/lib/charm/openstack/mysql_router.py:522-530 | every published record is the outcome of some prefix |
| MySQLRouter.RunCompleted | src/lib/charm/openstack/mysql_router.py:490-530 | a completed pass skipped or published every prefix and published exactly their records, in order |
| MySQLRouter.OutcomesConcat | src/lib/charm/openstack/mysql_router.py:490 | the outcomes over a + b are those over a followed by those over b |
| MySQLRouter.MissingPasswordStops | src/lib/charm/openstack/mysql_router.py:496-501 | at the first non-skipped prefix without a password the pass returns: the records of the earlier prefixes stand and nothing is published for it or any later prefix |
| MySQLRouter.AllPasswordsMissing | src/lib/charm/openstack/mysql_router.py:496-501 | when no prefix has a password, nothing is published |
| MySQLRouter.PublishedRecords | src/lib/charm/openstack/mysql_router.py:490-530 | every published record carries the unit's relation id, `127.0.0.1` and the base port, and comes from a non-skipped prefix of the pass |
| MySQLRouter.NoRouterCredentials | src/lib/charm/openstack/mysql_router.py:492-494 | no record is published for the router's own prefix, nor for any prefix contained in `"mysqlrouter"` or `"MRUP"` |
| MySQLRouter.DepartedPublishesNothing | src/lib/charm/openstack/mysql_router.py:482-501 | with no joined client unit, or with no password for any prefix, the response pass publishes nothing |
| MySQLRouter.CompletedPass | src/lib/charm/openstack/mysql_router.py:490-530 | a pass that ran to the end published every non-skipped prefix's record, in prefix order |
| MySQLRouter.DbRouterPassword | src/lib/charm/openstack/mysql_router.py:123-135 | `db_router_password` raises exactly when the router's own password is absent (`json.loads(None)`) or does not decode |
| MySQLRouter.ClusterAddress | src/lib/charm/openstack/mysql_router.py:152-163 | `cluster_address` raises exactly when `db_host` is absent or does not decode |
| MySQLRouter.MysqlrouterWorkingDir | src/lib/charm/openstack/mysql_router.py:184-203 | `mysqlrouter_working_dir`, the home directory joined with the service name; its value is `WorkingDirPath` |
| MySQLRouter.BootstrapCommand | src/lib/charm/openstack/mysql_router.py:374-383 | the bootstrap argv for a decoded password and address; its content is `BootstrapCommandOptions` and `BootstrapCommandBinding` |
| MySQLRouter.BootstrapArgv | src/lib/charm/openstack/mysql_router.py:374-383 | building the argv raises exactly when the router password or the cluster address raises |
| MySQLRouter.ArgIndex | src/lib/charm/openstack/mysql_router.py:374-383 | the first position of an argument on the command line, or -1 when it is absent |
| MySQLRouter.ArgIndexIs | src/lib/charm/openstack/mysql_router.py:374-383 | an argument found at i and nowhere before has first position i |
| MySQLRouter.BootstrapLeadingOptions | src/lib/charm/openstack/mysql_router.py:374-380 | `--user`, `--bootstrap` and `--directory` each read back the argument placed after it |
| MySQLRouter.BootstrapBindingOptions | src/lib/charm/openstack/mysql_router.py:381-383 | `--conf-bind-address` and `--conf-base-port` each read back the argument placed after it |
| MySQLRouter.WorkingDirPath | src/lib/charm/openstack/mysql_router.py:184-203 | the working directory is `/var/lib/mysql/` followed by the service name |
| MySQLRouter.BootstrapUri | src/lib/charm/openstack/mysql_router.py:112-120 | the bootstrap URI is `mysqlrouteruser:password@host`, and its user part before the first `:` is `mysqlrouteruser` |
| MySQLRouter.BootstrapCommandOptions | src/lib/charm/openstack/mysql_router.py:374-380 | the command has 12 arguments and starts with `/usr/bin/mysqlrouter`; `--user` is `mysql`, `--bootstrap` is `mysqlrouteruser:password@host`, `--directory` is `/var/lib/mysql/<name>` |
| MySQLRouter.BootstrapCommandBinding | src/lib/charm/openstack/mysql_router.py:381-383 | the command asks for sockets, binds to `127.0.0.1` and its `--conf-base-port` value parses back to the base port |
| MySQLRouter.CustomAssessStatusCheck | src/lib/charm/openstack/mysql_router.py:345-358 | the first of paused, interfaces and mandatory config that has a state wins and the connection is not probed; otherwise the connection is probed and the result is `("blocked", "Failed to connect to MySQL")` when it fails, `(None, None)` when it succeeds |
| MySQLRouter.MySQLRouterCharm.constructor | src/lib/charm/openstack/mysql_router.py:54-76 | a charm instance over a host environment and a flag store, with no calls made yet |
| MySQLRouter.MySQLRouterCharm.BootstrapMysqlrouter | src/lib/charm/openstack/mysql_router.py:360-392 | when the password and address decode, the command is run once and the bootstrapped flag is added exactly when it succeeds; a failed command changes no flag and returns normally; a decoding error raises before any call |
| MySQLRouter.MySQLRouterCharm.StartMysqlrouter | src/lib/charm/openstack/mysql_router.py:394-406 | the service named after the charm is started and then the started flag is added |
| MySQLRouter.MySQLRouterCharm.StopMysqlrouter | src/lib/charm/openstack/mysql_router.py:408-419 | the service is stopped and no flag changes |
| MySQLRouter.MySQLRouterCharm.RestartMysqlrouter | src/lib/charm/openstack/mysql_router.py:421-433 | the service is restarted and no flag changes |
| MySQLRouter.MySQLRouterCharm.ProxyDbAndUserRequests | src/lib/charm/openstack/mysql_router.py:435-463 | the calls made are exactly one `configure_proxy_db` per group of `get_db_data` of the client's settings, in order; no flag changes |
| MySQLRouter.MySQLRouterCharm.ConfigureProxyDbs | src/lib/charm/openstack/mysql_router.py:458-463 | the loop over the groups appends exactly their `configure_proxy_db` calls |
| MySQLRouter.MySQLRouterCharm.ResponseForPrefix | src/lib/charm/openstack/mysql_router.py:492-530 | the loop body for one prefix computes `ResponseFor` |
| MySQLRouter.MySQLRouterCharm.ProxyDbAndUserResponses | src/lib/charm/openstack/mysql_router.py:465-530 | the calls made are exactly the `set_db_connection_info` calls of the pass, and the pass ends as `ProxyResponses` says; no flag changes |
| MySQLRouter.MySQLRouterCharm.PublishResponses | src/lib/charm/openstack/mysql_router.py:490-530 | the loop over the prefixes appends exactly the publishes of `PassOver` and ends as it does |
| Handlers.When | src/reactive/mysql_router_handlers.py:18-60 | the `@when` flags of each handler |
| Handlers.WhenNot | src/reactive/mysql_router_handlers.py:32-42 | the `@when_not` flags of each handler; they never overlap its `@when` flags, so every guard can be met |
| Handlers.Enabled | src/reactive/mysql_router_handlers.py:18-64 | a handler may fire exactly when its `@when` flags are set and its `@when_not` flags are clear |
| Handlers.FlagEffect | src/reactive/mysql_router_handlers.py:30-46 | handlers only add flags, and only the charm's two; bootstrapped is added exactly by a successful bootstrap, started exactly by start |
| Handlers.DbRouterRequest | src/reactive/mysql_router_handlers.py:18-27 | `set_prefix("mysqlrouter")`, then `configure_db_router("mysqlrouteruser", address, prefix="mysqlrouter")`, then `assess_status()`; no flag changes |
| Handlers.BootstrapMysqlrouter | src/reactive/mysql_router_handlers.py:30-36 | runs the bootstrap and then `assess_status()`; the flags change as `FlagEffect` says |
| Handlers.StartMysqlrouter | src/reactive/mysql_router_handlers.py:39-46 | starts the service, adds the started flag, then `assess_status()` |
| Handlers.ProxySharedDbRequests | src/reactive/mysql_router_handlers.py:49-55 | forwards the client's requests (shared-db received, db-router sent) and then `assess_status()`; no flag changes |
| Handlers.ProxySharedDbResponses | src/reactive/mysql_router_handlers.py:58-64 | with the endpoints swapped, publishes the cluster's answers on shared-db and then `assess_status()` unless the pass raised; no flag changes |
| Handlers.Dispatch | src/reactive/mysql_router_handlers.py:18-64 | running any enabled handler changes the flags as `FlagEffect` says and only appends calls |
| Handlers.Step | src/reactive/mysql_router_handlers.py:18-64 | one event of a run: a handler runs only when enabled, and an endpoint raises or lowers only its own flags; the charm's flags are never cleared, and a handler only sets flags named in its own `@when_not` |
| Handlers.After | src/reactive/mysql_router_handlers.py:18-64 | the flags after a sequence of events |
| Handlers.BootstrapStartExclusive | src/reactive/mysql_router_handlers.py:32-41 | no flag set enables both bootstrap and start |
| Handlers.FailedBootstrapRetries | src/lib/charm/openstack/mysql_router.py:384-392 | a failed bootstrap leaves the flags as they were, so bootstrap is enabled again |
| Handlers.CharmFlagsGrow | src/reactive/mysql_router_handlers.py:18-64 | once set, the bootstrapped and started flags stay set for the rest of any run |
| Handlers.CharmFlagsKept | src/reactive/mysql_router_handlers.py:18-64 | the charm's flags at any point of a run are still set at every later point |
| Handlers.StartedHistory | src/reactive/mysql_router_handlers.py:39-46 | the started flag appears only by the start handler firing |
| Handlers.BootstrappedHistory | src/reactive/mysql_router_handlers.py:30-36 | the bootstrapped flag appears only by a bootstrap handler firing with a successful command |
| Handlers.OrderHistory | src/reactive/mysql_router_handlers.py:30-46 | from a state without the charm's flags, the started flag implies a successful bootstrap fired strictly before a start |
| Handlers.ProxyNeedsBootstrapThenStart | src/reactive/mysql_router_handlers.py:49-64 | when either proxy handler is enabled, a successful bootstrap and then a start have fired before |
| Handlers.StartFiresOnce | src/reactive/mysql_router_handlers.py:39-46 | after start has fired, it never fires again |
| Handlers.NoBootstrapAfterSuccess | src/reactive/mysql_router_handlers.py:30-36 | after a successful bootstrap, bootstrap never fires again |

## Left out

- `install` (src/lib/charm/openstack/mysql_router.py:213-259) is not modelled. It configures packages, creates the user, group and home directory, and renders and enables the systemd unit, all of which is operating-system work.
- `get_db_helper` and the MySQL connection inside `check_mysql_connection` are not modelled, because they are network I/O through foreign libraries. The connection outcome is the boolean `connected` of `CustomAssessStatusCheck`.
- `states_to_check` is not modelled, because it defers to the framework's superclass. The results of `check_if_paused`, `check_interfaces` and `check_mandatory_config` are inputs.
- Logging and `status_set` are not modelled.
- `assess_status()` is recorded as one call; what it computes is the framework's.
- JSON floats are not represented: a decoded number is an integer (`JNum`), so a value such as `90.5` has no counterpart.
- JSON decoding is not modelled: `json.loads` is the decoder parameter `Env.loads`. `json.loads(None)` raises, as in Python. `str()` of a decoded value uses the model's own rendering (`PyValues.Str`), which covers strings, integers, lists and objects.
- `service_name()`, `local_unit()` and `options.base_port` are fields of `Env`. The port is a natural number.
- `db_router_address` is a parameter of `Handlers.DbRouterRequest`, because `get_relation_ip` is network lookup. `shared_db_address` is the constant `127.0.0.1` that its adapter returns.
- The relation endpoints are snapshots. The case where `endpoint_from_flag` returns no endpoint is not modelled.
- The reactive framework's own scheduling is left out:
  - Flags raised and lowered by the endpoints are `Relation` events that never touch the charm's two flags.
  - Handler order within a dispatch is free.
  - Juju's rollback of a failed hook is not modelled: flags and relation data written before an exception are kept.
- `MySQLRouter.BareRequest`: stated only for a bag that holds nothing but the three bare keys. A bare bag with extra prefixed keys is covered by `MySQLRouter.GroupRequests` applied after the rename.
- `DbData.GetDbData` follows the unit tests' reference behaviour for charmhelpers' `get_db_data`, whose own code is not part of this model.
- `MySQLRouter.MySQLRouterCharm.BootstrapMysqlrouter`: the command's output, and the error text logged on failure, are not modelled. Only success or failure is. The source catches only `CalledProcessError`. An `OSError` from starting the command, or a `UnicodeDecodeError` from decoding its output, would escape and fail the hook. The model has no such outcome.
- `DbData.GroupInPlace`: the nested `OrderedDict` is a value the loop reassigns. Its in-place mutation, and any aliasing of the inner dictionaries, are not captured.
