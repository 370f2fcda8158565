/** `get_db_data` of the charm helpers' MySQL library, as the repository's unit
    tests reproduce it (unit_tests/test_lib_charm_openstack_mysql_router.py,
    `_fake_get_db_data`): it turns a client's flat relation settings into one
    group of fields per database prefix. */
module DbData {
  import opened PyValues
  import opened OrderedDicts
  import PyStrings

  /** The settings a client unit sent on its relation. */
  type Bag = Dict<string>

  /** The result: prefix -> (field -> value), both levels in insertion order. */
  type Databases = Dict<Dict<string>>

  /** The bare singular schema: `{"database", "username", "hostname"}` is a subset
      of the bag's keys. */
  predicate IsBare(bag: Bag)
  {
    Has(bag, "database") && Has(bag, "username") && Has(bag, "hostname")
  }

  /** The relation key `<prefix>_<field>`. */
  function Key(prefix: string, field: string): string
  {
    prefix + "_" + field
  }

  /** What a key holds after the bare keys were renamed under `unprefixed`: the
      reference definition of the renaming step. */
  function RenamedValue(bag: Bag, unprefixed: string, k: string): Option<string>
  {
    if k == Key(unprefixed, "hostname") then Get(bag, "hostname")
    else if k == Key(unprefixed, "database") then Get(bag, "database")
    else if k == Key(unprefixed, "username") then Get(bag, "username")
    else if k == "hostname" || k == "database" || k == "username" then None
    else Get(bag, k)
  }

  /** The three renamed keys differ from each other and from the bare keys. */
  lemma RenamedKeysDistinct(unprefixed: string)
    ensures var h, d, u := Key(unprefixed, "hostname"), Key(unprefixed, "database"), Key(unprefixed, "username");
      && h != d && d != u && h != u
      && h != "hostname" && h != "database" && h != "username"
      && d != "hostname" && d != "database" && d != "username"
      && u != "hostname" && u != "database" && u != "username"
  {
    var h, d, u := Key(unprefixed, "hostname"), Key(unprefixed, "database"), Key(unprefixed, "username");
    assert |h| == |d| == |u| == |unprefixed| + 9;
    assert h[|unprefixed| + 1] == 'h' && d[|unprefixed| + 1] == 'd' && u[|unprefixed| + 1] == 'u';
  }

  /** The renaming step: a bare bag has `hostname`, `database` and `username`
      moved, in that order, to `<unprefixed>_hostname` and so on; any other bag is
      left as it is. */
  function Renamed(bag: Bag, unprefixed: string): (s: Bag)
    requires UniqueKeys(bag)
    ensures UniqueKeys(s)
    ensures !IsBare(bag) ==> s == bag
    ensures IsBare(bag) ==> forall k :: Get(s, k) == RenamedValue(bag, unprefixed, k)
  {
    if !IsBare(bag) then bag
    else
      var h, d, u := Key(unprefixed, "hostname"), Key(unprefixed, "database"), Key(unprefixed, "username");
      RenamedKeysDistinct(unprefixed);
      var s1 := Move(bag, "hostname", h);
      assert Get(s1, "database") == Get(bag, "database");
      var s2 := Move(s1, "database", d);
      assert Get(s2, "username") == Get(bag, "username");
      var s3 := Move(s2, "username", u);
      assert forall k :: Get(s3, k) == RenamedValue(bag, unprefixed, k) by {
        forall k ensures Get(s3, k) == RenamedValue(bag, unprefixed, k) {
          assert Get(s3, k) == if k == u then Get(s2, "username") else if k == "username" then None else Get(s2, k);
          assert Get(s2, k) == if k == d then Get(s1, "database") else if k == "database" then None else Get(s1, k);
          assert Get(s1, k) == if k == h then Get(bag, "hostname") else if k == "hostname" then None else Get(bag, k);
        }
      }
      s3
  }

  /** One pass of the grouping loop: split the key at its first `_` into
      (prefix, field) and set the field in the prefix's group, creating the group
      at the end when the prefix is new. */
  function AddSetting(dbs: Databases, k: string, v: string): Databases
  {
    var split := PyStrings.SplitFirst(k, '_');
    var group := match Get(dbs, split.0) case Some(g) => g case None => [];
    Set(dbs, split.0, Set(group, split.1, v))
  }

  /** The grouping loop over all settings, in order. */
  function Group(s: Bag): Databases
    decreases |s|
  {
    if s == [] then [] else AddSetting(Group(s[..|s| - 1]), s[|s| - 1].0, s[|s| - 1].1)
  }

  /** What `get_db_data(bag, unprefixed=unprefixed)` returns. */
  function DbData(bag: Bag, unprefixed: string): Databases
    requires UniqueKeys(bag)
  {
    Group(Renamed(bag, unprefixed))
  }

  /** The value of `field` in the group of `prefix`, if both exist. */
  function Lookup(dbs: Databases, prefix: string, field: string): Option<string>
  {
    match Get(dbs, prefix)
    case None => None
    case Some(group) => Get(group, field)
  }

  /** The prefixes of a bag's keys: the text before each key's first `_`. */
  function KeyPrefixes(s: Bag): set<string>
  {
    set j | 0 <= j < |s| :: PyStrings.SplitFirst(s[j].0, '_').0
  }

  /** Appending one setting adds its prefix. */
  lemma KeyPrefixesSnoc(s: Bag)
    requires s != []
    ensures KeyPrefixes(s) == KeyPrefixes(s[..|s| - 1]) + {PyStrings.SplitFirst(s[|s| - 1].0, '_').0}
  {
    var init := s[..|s| - 1];
    forall p | p in KeyPrefixes(s) ensures p in KeyPrefixes(init) || p == PyStrings.SplitFirst(s[|s| - 1].0, '_').0 {
      var j :| 0 <= j < |s| && PyStrings.SplitFirst(s[j].0, '_').0 == p;
      if j < |init| {
        assert init[j] == s[j];
      }
    }
    forall p | p in KeyPrefixes(init) ensures p in KeyPrefixes(s) {
      var j :| 0 <= j < |init| && PyStrings.SplitFirst(init[j].0, '_').0 == p;
      assert s[j] == init[j];
    }
  }

  /** Every group has unique keys, as does the dict of groups. */
  ghost predicate WellFormed(dbs: Databases)
  {
    UniqueKeys(dbs) && forall p :: Get(dbs, p).Some? ==> UniqueKeys(Get(dbs, p).value)
  }

  /** The effect of one setting on the groups: it creates at most its own prefix,
      and it sets exactly one (prefix, field) pair. */
  lemma AddSettingEffect(dbs: Databases, k: string, v: string)
    requires WellFormed(dbs)
    ensures var split := PyStrings.SplitFirst(k, '_');
      && WellFormed(AddSetting(dbs, k, v))
      && (forall p :: Has(AddSetting(dbs, k, v), p) <==> Has(dbs, p) || p == split.0)
      && (forall p, f :: Lookup(AddSetting(dbs, k, v), p, f) ==
            if (p, f) == split then Some(v) else Lookup(dbs, p, f))
  {
    var split := PyStrings.SplitFirst(k, '_');
    var group := match Get(dbs, split.0) case Some(g) => g case None => [];
    var group' := Set(group, split.1, v);
    var r := Set(dbs, split.0, group');
    assert r == AddSetting(dbs, k, v);
    forall p ensures Has(r, p) <==> Has(dbs, p) || p == split.0 {
      if p != split.0 {
        assert Get(r, p) == Get(dbs, p);
      }
    }
    forall p | Get(r, p).Some? ensures UniqueKeys(Get(r, p).value) {
      if p != split.0 {
        assert Get(r, p) == Get(dbs, p);
      }
    }
    forall p, f ensures Lookup(r, p, f) == if (p, f) == split then Some(v) else Lookup(dbs, p, f) {
      if p != split.0 {
        assert Get(r, p) == Get(dbs, p);
      } else {
        assert Get(r, p) == Some(group');
      }
    }
  }

  /** The groups are well formed, and their prefixes are exactly the prefixes of
      the settings' keys. */
  lemma {:induction false} GroupPrefixes(s: Bag)
    ensures WellFormed(Group(s))
    ensures forall p :: Has(Group(s), p) <==> p in KeyPrefixes(s)
    decreases |s|
  {
    if s != [] {
      var init := s[..|s| - 1];
      GroupPrefixes(init);
      AddSettingEffect(Group(init), s[|s| - 1].0, s[|s| - 1].1);
      KeyPrefixesSnoc(s);
    }
  }

  /** In a dict without repeated keys, the group of a separator-free prefix holds,
      under a non-empty field, exactly the value of the key `prefix_field`; in
      particular a field the client did not send is `None`. */
  lemma {:induction false} GroupLookup(s: Bag, prefix: string, field: string)
    requires UniqueKeys(s)
    requires '_' !in prefix && field != ""
    ensures Lookup(Group(s), prefix, field) == Get(s, Key(prefix, field))
    decreases |s|
  {
    if s != [] {
      var init, last := s[..|s| - 1], s[|s| - 1];
      assert s == init + [last];
      UniqueInit(s);
      GroupLookup(init, prefix, field);
      GroupPrefixes(init);
      AddSettingEffect(Group(init), last.0, last.1);
      GetSnoc(init, last.0, last.1, Key(prefix, field));
      PyStrings.SplitFirstIsKey(last.0, '_', prefix, field);
    }
  }

  /** The loop body as the fake writes it (create the group when the prefix is
      new, then set the field in it) is one `AddSetting`. */
  lemma AddSettingInPlace(dbs: Databases, k: string, v: string)
    ensures var split := PyStrings.SplitFirst(k, '_');
      var created := if Has(dbs, split.0) then dbs else Set(dbs, split.0, []);
      Set(created, split.0, Set(Get(created, split.0).value, split.1, v)) == AddSetting(dbs, k, v)
  {
    var split := PyStrings.SplitFirst(k, '_');
    if !Has(dbs, split.0) {
      SetOverNew(dbs, split.0, [], Set([], split.1, v));
    }
  }

  /** The body of the grouping loop: create the prefix's group when it is new,
      then set the field in it. */
  method AddSettingTo(databases: Databases, k: string, v: string) returns (updated: Databases)
    ensures updated == AddSetting(databases, k, v)
  {
    var split := PyStrings.SplitFirst(k, '_');
    updated := databases;
    if !Has(updated, split.0) {
      updated := Set(updated, split.0, []);
    }
    var group := Get(updated, split.0).value;
    updated := Set(updated, split.0, Set(group, split.1, v));
    AddSettingInPlace(databases, k, v);
  }

  /** The grouping loop of the fake, filling the nested ordered dict. */
  method GroupInPlace(settings: Bag) returns (databases: Databases)
    ensures databases == Group(settings)
  {
    databases := [];
    var i := 0;
    while i < |settings|
      invariant 0 <= i <= |settings|
      invariant databases == Group(settings[..i])
    {
      databases := AddSettingTo(databases, settings[i].0, settings[i].1);
      GroupStep(settings, i);
      i := i + 1;
    }
    assert settings[..i] == settings;
  }

  /** One more setting is one more `AddSetting`. */
  lemma GroupStep(s: Bag, i: int)
    requires 0 <= i < |s|
    ensures Group(s[..i + 1]) == AddSetting(Group(s[..i]), s[i].0, s[i].1)
  {
    assert s[..i + 1][..i] == s[..i];
  }

  /** `get_db_data` as the fake computes it: the renaming, then the grouping loop. */
  method GetDbData(relationData: Bag, unprefixed: string) returns (databases: Databases)
    requires UniqueKeys(relationData)
    ensures databases == DbData(relationData, unprefixed)
  {
    var settings := Renamed(relationData, unprefixed);
    databases := GroupInPlace(settings);
  }

  /** The bag holds only the three bare keys. */
  predicate OnlyBare(bag: Bag)
  {
    forall i :: 0 <= i < |bag| ==> bag[i].0 == "database" || bag[i].0 == "username" || bag[i].0 == "hostname"
  }

  /** After renaming a bag of only bare keys, every key is one of the three
      renamed keys. */
  lemma BareRenamedKey(bag: Bag, unprefixed: string, j: int)
    requires UniqueKeys(bag) && IsBare(bag) && OnlyBare(bag)
    requires 0 <= j < |Renamed(bag, unprefixed)|
    ensures var k := Renamed(bag, unprefixed)[j].0;
      k == Key(unprefixed, "hostname") || k == Key(unprefixed, "database") || k == Key(unprefixed, "username")
  {
    var s := Renamed(bag, unprefixed);
    var k := s[j].0;
    GetAt(s, j);
    assert Get(s, k) == RenamedValue(bag, unprefixed, k);
    OnlyBareHas(bag, k);
  }

  /** A bag of only bare keys has no other key. */
  lemma OnlyBareHas(bag: Bag, k: string)
    requires OnlyBare(bag)
    ensures Has(bag, k) ==> k == "database" || k == "username" || k == "hostname"
  {
    var i := IndexOf(bag, k);
    if 0 <= i {
      assert bag[i].0 == k;
    }
  }

  /** Renaming a bag of only bare keys under a separator-free prefix leaves that
      prefix as the only key prefix. */
  lemma BarePrefixes(bag: Bag, unprefixed: string)
    requires UniqueKeys(bag) && IsBare(bag) && OnlyBare(bag)
    requires '_' !in unprefixed
    ensures KeyPrefixes(Renamed(bag, unprefixed)) == {unprefixed}
  {
    var s := Renamed(bag, unprefixed);
    forall j | 0 <= j < |s| ensures PyStrings.SplitFirst(s[j].0, '_').0 == unprefixed {
      BareRenamedPrefix(bag, unprefixed, j);
    }
    BareRenamedNonEmpty(bag, unprefixed);
    SinglePrefix(s, unprefixed);
  }

  /** A non-empty bag whose keys all have prefix `p` has `p` as its only prefix. */
  lemma SinglePrefix(s: Bag, p: string)
    requires s != []
    requires forall j :: 0 <= j < |s| ==> PyStrings.SplitFirst(s[j].0, '_').0 == p
    ensures KeyPrefixes(s) == {p}
  {
    assert PyStrings.SplitFirst(s[0].0, '_').0 == p;
  }

  /** Each renamed key of a bare bag splits to the prefix it was renamed under. */
  lemma BareRenamedPrefix(bag: Bag, unprefixed: string, j: int)
    requires UniqueKeys(bag) && IsBare(bag) && OnlyBare(bag)
    requires '_' !in unprefixed
    requires 0 <= j < |Renamed(bag, unprefixed)|
    ensures PyStrings.SplitFirst(Renamed(bag, unprefixed)[j].0, '_').0 == unprefixed
  {
    BareRenamedKey(bag, unprefixed, j);
    PyStrings.SplitFirstJoin(unprefixed, '_', "hostname");
    PyStrings.SplitFirstJoin(unprefixed, '_', "database");
    PyStrings.SplitFirstJoin(unprefixed, '_', "username");
  }

  /** The renamed bag of a bare bag is not empty. */
  lemma BareRenamedNonEmpty(bag: Bag, unprefixed: string)
    requires UniqueKeys(bag) && IsBare(bag)
    ensures Renamed(bag, unprefixed) != []
  {
    assert Get(Renamed(bag, unprefixed), Key(unprefixed, "hostname")) == Get(bag, "hostname");
  }

  /** The renamed keys of a bare bag hold the values of the bare keys. */
  lemma BareRenamedFields(bag: Bag, unprefixed: string)
    requires UniqueKeys(bag) && IsBare(bag)
    ensures var s := Renamed(bag, unprefixed);
      && Get(s, Key(unprefixed, "database")) == Get(bag, "database")
      && Get(s, Key(unprefixed, "username")) == Get(bag, "username")
      && Get(s, Key(unprefixed, "hostname")) == Get(bag, "hostname")
  {
    RenamedKeysDistinct(unprefixed);
  }
}
