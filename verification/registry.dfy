/** The agent's `plugins` dictionary and what `load_plugins` and
    `discover_applications` do with it. A Python dictionary keeps its keys
    in first-insertion order, and storing under a key already present
    replaces the value in place, so the registry is a list of entries with
    distinct keys. */
module Registry {
  import opened Wrappers
  import opened Probe
  import opened Discovery

  /** One dictionary entry: a plugin under its configuration's name. */
  datatype Entry = Entry(key: string, plugin: Descriptor)

  /** The keys in iteration order. */
  function Keys(reg: seq<Entry>): (ks: seq<string>)
    ensures |ks| == |reg|
    ensures forall i | 0 <= i < |reg| :: ks[i] == reg[i].key
  {
    if reg == [] then [] else [reg[0].key] + Keys(reg[1..])
  }

  /** No key occurs twice. */
  predicate Distinct(ks: seq<string>) {
    forall i, j | 0 <= i < j < |ks| :: ks[i] != ks[j]
  }

  /** A well-formed registry: distinct keys, each entry stored under its
      plugin's own name. */
  predicate Valid(reg: seq<Entry>) {
    Distinct(Keys(reg)) && forall i | 0 <= i < |reg| :: reg[i].plugin.name == Some(reg[i].key)
  }

  /** `plugins.get(k)`. */
  function Lookup(reg: seq<Entry>, k: string): Option<Descriptor> {
    if reg == [] then None
    else if reg[0].key == k then Some(reg[0].plugin)
    else Lookup(reg[1..], k)
  }

  /** `plugins[k] = d`. */
  function Put(reg: seq<Entry>, k: string, d: Descriptor): (r: seq<Entry>)
    ensures Keys(r) == if k in Keys(reg) then Keys(reg) else Keys(reg) + [k]
    ensures Lookup(r, k) == Some(d)
    ensures forall k' | k' != k :: Lookup(r, k') == Lookup(reg, k')
  {
    if reg == [] then [Entry(k, d)]
    else if reg[0].key == k then [Entry(k, d)] + reg[1..]
    else
      var rest := Put(reg[1..], k, d);
      assert Keys(reg) == [reg[0].key] + Keys(reg[1..]);
      [reg[0]] + rest
  }

  /** Storing a plugin under its own name keeps the registry well formed. */
  lemma PutValid(reg: seq<Entry>, d: Descriptor)
    requires Valid(reg) && d.name.Some?
    ensures Valid(Put(reg, d.name.value, d))
  {
    var k := d.name.value;
    var r := Put(reg, k, d);
    var ks := Keys(r);
    if k !in Keys(reg) {
      assert ks == Keys(reg) + [k];
      forall i, j | 0 <= i < j < |ks| ensures ks[i] != ks[j] {
        if j == |ks| - 1 {
          assert ks[i] == Keys(reg)[i];
        }
      }
    }
    forall i | 0 <= i < |r| ensures r[i].plugin.name == Some(r[i].key) {
      PutAt(reg, k, d, i);
    }
  }

  /** What entry `i` of `Put(reg, k, d)` holds. */
  lemma {:induction false} PutAt(reg: seq<Entry>, k: string, d: Descriptor, i: nat)
    requires i < |Put(reg, k, d)|
    ensures Put(reg, k, d)[i] == Entry(k, d) || (i < |reg| && Put(reg, k, d)[i] == reg[i])
    decreases |reg|
  {
    if reg != [] && reg[0].key != k && i > 0 {
      PutAt(reg[1..], k, d, i - 1);
    }
  }

  /** The registry after the loop of `load_plugins` over `configs`: each
      named configuration is stored under its name, and the first one
      without a name ends the loop (the `KeyError` it raises is caught by
      the handler around the whole loop). */
  function Load(reg: seq<Entry>, configs: seq<Descriptor>): seq<Entry>
    decreases |configs|
  {
    if configs == [] || configs[0].name.None? then reg
    else Load(Put(reg, configs[0].name.value, configs[0]), configs[1..])
  }

  /** The last configuration named `k` that `load_plugins` reaches. */
  function LastNamed(configs: seq<Descriptor>, k: string): Option<Descriptor> {
    if configs == [] || configs[0].name.None? then None
    else
      match LastNamed(configs[1..], k)
      case Some(d) => Some(d)
      case None => if configs[0].name == Some(k) then Some(configs[0]) else None
  }

  /** Last write wins: after loading, a key holds the last configuration of
      that name before the first unnamed one, or what it held before. */
  lemma {:induction false} LoadLastWins(reg: seq<Entry>, configs: seq<Descriptor>, k: string)
    ensures Lookup(Load(reg, configs), k) ==
            if LastNamed(configs, k).Some? then LastNamed(configs, k) else Lookup(reg, k)
    decreases |configs|
  {
    if configs != [] && configs[0].name.Some? {
      LoadLastWins(Put(reg, configs[0].name.value, configs[0]), configs[1..], k);
    }
  }

  /** An unnamed configuration ends loading: nothing after it is stored,
      and everything stored before it stays. */
  lemma {:induction false} LoadStopsAtUnnamed(reg: seq<Entry>, before: seq<Descriptor>, c: Descriptor, after: seq<Descriptor>)
    requires c.name.None?
    ensures Load(reg, before + [c] + after) == Load(reg, before)
    decreases |before|
  {
    if before == [] {
      assert before + [c] + after == [c] + after;
    } else {
      assert (before + [c] + after)[0] == before[0];
      assert (before + [c] + after)[1..] == before[1..] + [c] + after;
      if before[0].name.Some? {
        LoadStopsAtUnnamed(Put(reg, before[0].name.value, before[0]), before[1..], c, after);
      }
    }
  }

  /** Loading keeps the registry well formed, keeps the keys already present
      at their places and only appends the new ones. */
  lemma {:induction false} LoadKeepsOrder(reg: seq<Entry>, configs: seq<Descriptor>)
    requires Valid(reg)
    ensures Valid(Load(reg, configs))
    ensures Keys(reg) <= Keys(Load(reg, configs))
    decreases |configs|
  {
    if configs != [] && configs[0].name.Some? {
      var next := Put(reg, configs[0].name.value, configs[0]);
      PutValid(reg, configs[0]);
      LoadKeepsOrder(next, configs[1..]);
    }
  }

  /** What `discover_applications` returns: each plugin's records, plugin
      after plugin in registry order. */
  function DiscoverAll(reg: seq<Entry>, host: Host): seq<AppRecord> {
    if reg == [] then []
    else DiscoverAll(reg[..|reg| - 1], host) + Found(reg[|reg| - 1].plugin, host)
  }

  /** Every discovered record comes from one registered plugin, under whose
      key it is named, and is one of that plugin's findings. */
  lemma {:induction false} DiscoverAllSound(reg: seq<Entry>, host: Host)
    requires Valid(reg)
    ensures forall r | r in DiscoverAll(reg, host) ::
              exists i | 0 <= i < |reg| :: reg[i].key == r.name && r in Found(reg[i].plugin, host)
    decreases |reg|
  {
    if reg != [] {
      var init := reg[..|reg| - 1];
      var last := |reg| - 1;
      assert Valid(init) by {
        assert forall i | 0 <= i < |init| :: init[i] == reg[i];
        assert forall i | 0 <= i < |init| :: Keys(init)[i] == Keys(reg)[i];
      }
      DiscoverAllSound(init, host);
      FoundCharacterised(reg[last].plugin, host);
      forall r | r in DiscoverAll(reg, host)
        ensures exists i | 0 <= i < |reg| :: reg[i].key == r.name && r in Found(reg[i].plugin, host)
      {
        if r in DiscoverAll(init, host) {
          var i :| 0 <= i < |init| && init[i].key == r.name && r in Found(init[i].plugin, host);
          assert reg[i] == init[i];
        } else {
          assert r in Found(reg[last].plugin, host);
          assert reg[last].key == r.name;
        }
      }
    }
  }
}
