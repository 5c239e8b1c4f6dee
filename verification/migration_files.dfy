/** The trusted-device list and the device list, filled from the legacy configuration. */
module MigrationFiles {
  import opened MigrationConfig
  import opened Sorting
  import opened Wrappers
  import Text

  function Strings(items: seq<Toml>): set<string> {
    set v | v in items && v.Str? :: v.text
  }

  // ---------- the legacy peer allowlist ----------

  predicate IsStringList(value: Option<Toml>) {
    value.None? || (value.value.Array? && forall v <- value.value.items :: v.Str?)
  }

  function Get(t: TomlTable, key: string): Option<Toml> {
    if key in t then Some(t[key]) else None
  }

  function NetworkPeers(t: TomlTable): Option<Toml> {
    if GetTable(t, "network").Some? then Get(GetTable(t, "network").value, "incoming_allowed_peers") else None
  }

  ghost predicate Lists(value: Option<Toml>, peer: string) {
    peer != "" && value.Some? && value.value.Array?
    && exists v :: v in value.value.items && v.Str? && Text.Trim(v.text) == peer
  }

  /** The peers the legacy configuration lets in. */
  ghost predicate Allows(t: TomlTable, peer: string) {
    Lists(Get(t, "incoming_allowed_peers"), peer) || Lists(NetworkPeers(t), peer)
  }

  ghost predicate AreAllowed(t: TomlTable, peers: set<string>) {
    forall p :: p in peers <==> Allows(t, p)
  }

  /** The trimmed, nonempty strings among the items, in order. */
  function Texts(items: seq<Toml>): seq<string> {
    if items == [] then []
    else
      var rest := Texts(items[..|items| - 1]);
      var last := items[|items| - 1];
      if last.Str? && Text.Trim(last.text) != "" then rest + [Text.Trim(last.text)] else rest
  }

  lemma {:induction false} TextsMembers(items: seq<Toml>, peer: string)
    ensures peer in Texts(items) <==> peer != "" && exists v :: v in items && v.Str? && Text.Trim(v.text) == peer
    decreases |items|
  {
    if items != [] {
      var init, last := items[..|items| - 1], items[|items| - 1];
      TextsMembers(init, peer);
      assert items == init + [last];
      assert last in items;
    }
  }

  /** The strings an optional list holds. */
  function ListOf(value: Option<Toml>): seq<Toml> {
    if value.Some? && value.value.Array? then value.value.items else []
  }

  lemma ListedPeers(value: Option<Toml>, peer: string)
    ensures peer in Texts(ListOf(value)) <==> Lists(value, peer)
  {
    TextsMembers(ListOf(value), peer);
  }

  /** The strings are appended, trimmed and in order; the empty ones are left out. */
  method AppendStringArray(output: seq<string>, value: Option<Toml>) returns (r: Result<seq<string>>)
    ensures r.Ok? <==> IsStringList(value)
    ensures r.Ok? ==> r.value == output + Texts(ListOf(value))
  {
    if value.None? {
      return Ok(output);
    }
    if !value.value.Array? {
      return Err;
    }
    var items, peers := value.value.items, output;
    for i := 0 to |items|
      invariant forall v <- items[..i] :: v.Str?
      invariant peers == output + Texts(items[..i])
    {
      if !items[i].Str? {
        return Err;
      }
      assert items[..i + 1] == items[..i] + [items[i]];
      var peer := Text.Trim(items[i].text);
      if peer != "" {
        peers := peers + [peer];
      }
    }
    assert items[..|items|] == items;
    r := Ok(peers);
  }

  /** `as_str` compared as options: values that are no strings come first. */
  predicate DeviceLeq(a: Toml, b: Toml) {
    !a.Str? || (b.Str? && Text.Leq(a.text, b.text))
  }

  lemma DeviceOrder()
    ensures TotalPreorder(DeviceLeq)
  {
    forall a, b ensures DeviceLeq(a, b) || DeviceLeq(b, a) {
      if a.Str? && b.Str? { Text.LeqTotal(a.text, b.text); }
    }
    forall a, b, c | DeviceLeq(a, b) && DeviceLeq(b, c) ensures DeviceLeq(a, c) {
      if a.Str? { Text.LeqTransitive(a.text, b.text, c.text); }
    }
  }

  function Members(s: seq<string>): set<string> {
    set p | p in s
  }

  /** One string for each peer that is not there yet. */
  function Missing(items: seq<Toml>, peers: set<string>): set<Toml> {
    set p | p in peers && p !in Strings(items) :: Str(p)
  }

  ghost predicate Grew(before: seq<Toml>, after: seq<Toml>, peers: set<string>) {
    Strings(after) == Strings(before) + peers
    && multiset(after) == multiset(before) + multiset(Missing(before, peers))
  }

  method PushPeers(devices: seq<Toml>, incoming: seq<string>) returns (r: seq<Toml>)
    ensures Grew(devices, r, Members(incoming))
  {
    r := devices;
    var existing := Strings(devices);
    for i := 0 to |incoming|
      invariant existing == Strings(r) && Grew(devices, r, Members(incoming[..i]))
    {
      ghost var was, peers := r, Members(incoming[..i]);
      assert incoming[..i + 1] == incoming[..i] + [incoming[i]];
      assert Members(incoming[..i + 1]) == peers + {incoming[i]};
      if incoming[i] !in existing {
        r := r + [Str(incoming[i])];
        existing := existing + {incoming[i]};
      }
      OneMore(devices, was, r, peers, incoming[i]);
    }
    assert incoming[..|incoming|] == incoming;
  }

  lemma OneMore(devices: seq<Toml>, was: seq<Toml>, r: seq<Toml>, peers: set<string>, peer: string)
    requires Grew(devices, was, peers)
    requires r == if peer in Strings(was) then was else was + [Str(peer)]
    ensures Strings(r) == Strings(was) + {peer} && Grew(devices, r, peers + {peer})
  {
    MissingGrows(devices, peers, peer);
    if peer in Strings(was) {
      assert Strings(was) + {peer} == Strings(was);
    } else {
      StringsAppend(was, peer);
    }
  }

  lemma MissingGrows(devices: seq<Toml>, peers: set<string>, peer: string)
    ensures Missing(devices, peers + {peer}) ==
            if peer in Strings(devices) + peers then Missing(devices, peers) else Missing(devices, peers) + {Str(peer)}
    ensures peer !in peers ==> Str(peer) !in Missing(devices, peers)
  {
  }

  lemma StringsAppend(items: seq<Toml>, text: string)
    ensures Strings(items + [Str(text)]) == Strings(items) + {text}
  {
    var all := items + [Str(text)];
    forall t ensures t in Strings(all) <==> t in Strings(items) + {text} {
      if t in Strings(items) { assert Str(t) in items; }
      if t == text { assert all[|items|] == Str(t); }
    }
  }

  /** `ensure_toml_array_field`: the list under `key`, empty when there is none. */
  function ArrayField(file: Option<Toml>, key: string): Result<(TomlTable, seq<Toml>)> {
    match file
    case None => Ok((map[], []))
    case Some(root) =>
      if !root.Table? then Err
      else if key !in root.entries then Ok((root.entries, []))
      else if root.entries[key].Array? then Ok((root.entries, root.entries[key].items))
      else Err
  }

  /** The list holds what it held, and exactly the peers the configuration lets in; none is added twice. */
  ghost predicate TrustedMerged(config: Toml, trusted: Option<Toml>, result: Toml) {
    config.Table? && ArrayField(trusted, "trusted_devices").Ok?
    && var before := ArrayField(trusted, "trusted_devices").value;
    var after := ArrayField(Some(result), "trusted_devices");
    after.Ok? && after.value.0 == before.0["trusted_devices" := Array(after.value.1)]
    && Sorted(DeviceLeq, after.value.1)
    && exists peers :: AreAllowed(config.entries, peers) && Grew(before.1, after.value.1, peers)
  }

  predicate PeersAreStrings(t: TomlTable) {
    "incoming_allowed_peers" in t ==>
      t["incoming_allowed_peers"].Array? && forall v <- t["incoming_allowed_peers"].items :: v.Str?
  }

  /** The legacy lists of peers are lists of strings, and the trusted devices are a list. */
  predicate CanMergePeers(config: Toml, trusted: Option<Toml>) {
    config.Table? && PeersAreStrings(config.entries)
    && ("network" in config.entries && config.entries["network"].Table? ==> PeersAreStrings(config.entries["network"].entries))
    && IsTableOf(trusted, "trusted_devices")
  }

  /** There is no such file, or it is a table whose entry `key`, if it has one, is a list. */
  predicate IsTableOf(file: Option<Toml>, key: string) {
    file.Some? ==> file.value.Table? && (key in file.value.entries ==> file.value.entries[key].Array?)
  }

  /** The elements of the list under `key`. */
  function ElementsOf(file: Option<Toml>, key: string): seq<Toml>
    requires IsTableOf(file, key)
  {
    if file.Some? && key in file.value.entries then file.value.entries[key].items else []
  }

  /** A legacy list of peers names the peer. */
  ghost predicate NamesPeer(t: TomlTable, peer: string) {
    "incoming_allowed_peers" in t && t["incoming_allowed_peers"].Array?
    && exists v <- t["incoming_allowed_peers"].items :: v.Str? && Text.Trim(v.text) == peer
  }

  /**
   * What has been merged: nothing of the trusted list is lost and its strings are sorted; a string was in
   * the list before or it is a peer that the configuration names, and it is added once; the rest of the
   * file is as it was.
   */
  lemma TrustedFields(config: Toml, trusted: Option<Toml>, result: Toml)
    requires TrustedMerged(config, trusted, result)
    ensures config.Table? && IsTableOf(trusted, "trusted_devices") && IsTableOf(Some(result), "trusted_devices")
    ensures var before, after := ElementsOf(trusted, "trusted_devices"), ElementsOf(Some(result), "trusted_devices");
            && multiset(before) <= multiset(after)
            && (forall peer :: Str(peer) in after <==>
                  Str(peer) in before
                  || (peer != "" && (NamesPeer(config.entries, peer)
                                     || ("network" in config.entries && config.entries["network"].Table?
                                         && NamesPeer(config.entries["network"].entries, peer)))))
            && (forall peer :: Str(peer) !in before ==> multiset(after)[Str(peer)] <= 1)
            && (forall i, j :: 0 <= i < j < |after| && after[i].Str? && after[j].Str? ==> Text.Leq(after[i].text, after[j].text))
    ensures forall key :: key != "trusted_devices" ==>
              (key in result.entries <==> trusted.Some? && key in trusted.value.entries)
              && (key in result.entries ==> result.entries[key] == trusted.value.entries[key])
  {
    hide Text.Trim, Text.Leq, NamesPeer, Grew, Allows;
    TrustedRest(config, trusted, result);
    var before, after := ElementsOf(trusted, "trusted_devices"), ElementsOf(Some(result), "trusted_devices");
    var peers :| AreAllowed(config.entries, peers) && Grew(before, after, peers);
    forall i, j | 0 <= i < j < |after| && after[i].Str? && after[j].Str? ensures Text.Leq(after[i].text, after[j].text) {
      assert DeviceLeq(after[i], after[j]);
    }
    forall peer
      ensures Str(peer) in after <==>
                Str(peer) in before
                || (peer != "" && (NamesPeer(config.entries, peer)
                                   || ("network" in config.entries && config.entries["network"].Table?
                                       && NamesPeer(config.entries["network"].entries, peer))))
      ensures Str(peer) !in before ==> multiset(after)[Str(peer)] <= 1
    {
      StringAfter(before, after, peers, peer);
      assert peer in peers <==> Allows(config.entries, peer);
      AllowedNames(config.entries, peer);
    }
  }

  lemma TrustedRest(config: Toml, trusted: Option<Toml>, result: Toml)
    requires TrustedMerged(config, trusted, result)
    ensures config.Table? && IsTableOf(trusted, "trusted_devices") && IsTableOf(Some(result), "trusted_devices")
    ensures var before, after := ElementsOf(trusted, "trusted_devices"), ElementsOf(Some(result), "trusted_devices");
            Sorted(DeviceLeq, after) && (exists peers :: AreAllowed(config.entries, peers) && Grew(before, after, peers))
            && multiset(before) <= multiset(after)
    ensures forall key :: key != "trusted_devices" ==>
              (key in result.entries <==> trusted.Some? && key in trusted.value.entries)
              && (key in result.entries ==> result.entries[key] == trusted.value.entries[key])
  {
    hide AreAllowed, DeviceLeq, Strings, Missing;
  }

  lemma AllowedNames(t: TomlTable, peer: string)
    ensures Allows(t, peer) <==>
              peer != "" && (NamesPeer(t, peer) || ("network" in t && t["network"].Table? && NamesPeer(t["network"].entries, peer)))
  {
    hide Text.Trim;
  }

  lemma StringAfter(before: seq<Toml>, after: seq<Toml>, peers: set<string>, peer: string)
    requires Grew(before, after, peers)
    ensures Str(peer) in after <==> Str(peer) in before || peer in peers
    ensures Str(peer) !in before ==> multiset(after)[Str(peer)] <= 1
  {
    assert peer in Strings(after) <==> Str(peer) in after;
    assert peer in Strings(before) <==> Str(peer) in before;
    assert Str(peer) in before <==> multiset(before)[Str(peer)] > 0;
  }

  /** `migrate_legacy_incoming_allowed_peers`. */
  method MigrateIncomingAllowedPeers(config: Toml, trusted: Option<Toml>) returns (r: Result<Toml>)
    ensures r.Ok? <==> CanMergePeers(config, trusted)
    ensures r.Ok? ==> TrustedMerged(config, trusted, r.value)
  {
    hide PeersAreStrings, IsTableOf, IsStringList, Lists, Texts, Text.Leq, Dedup, DeviceLeq, Grew, Strings, ArrayField, Sort, GetTable;
    RefusedFields(config, trusted);
    if !config.Table? {
      return Err;
    }
    var atRoot := AppendStringArray([], Get(config.entries, "incoming_allowed_peers"));
    if atRoot.Err? {
      return Err;
    }
    var both := AppendStringArray(atRoot.value, NetworkPeers(config.entries));
    if both.Err? || ArrayField(trusted, "trusted_devices").Err? {
      return Err;
    }
    var incoming := Dedup(Sort(Text.Leq, both.value));
    SortPermutes(Text.Leq, both.value);
    SameMembers(both.value, Sort(Text.Leq, both.value));
    var (table, before) := ArrayField(trusted, "trusted_devices").value;
    var pushed := PushPeers(before, incoming);
    var after := Sort(DeviceLeq, pushed);
    DeviceOrder();
    SortSorts(DeviceLeq, pushed);
    SortPermutes(DeviceLeq, pushed);
    GrewSorted(before, pushed, after, Members(incoming));
    ghost var peers := Members(incoming);
    forall p ensures p in peers <==> Allows(config.entries, p) {
      ListedPeers(Get(config.entries, "incoming_allowed_peers"), p);
      ListedPeers(NetworkPeers(config.entries), p);
    }
    assert AreAllowed(config.entries, peers);
    r := Ok(Table(table["trusted_devices" := Array(after)]));
    FieldSet(table, "trusted_devices", after);
  }

  lemma FieldSet(table: TomlTable, key: string, items: seq<Toml>)
    ensures var root := Table(table[key := Array(items)]);
            ArrayField(Some(root), key) == Ok((root.entries, items))
  {
  }

  lemma GrewSorted(before: seq<Toml>, pushed: seq<Toml>, after: seq<Toml>, peers: set<string>)
    requires Grew(before, pushed, peers) && multiset(after) == multiset(pushed)
    ensures Grew(before, after, peers)
  {
    SameStrings(pushed, after);
  }

  lemma RefusedFields(config: Toml, trusted: Option<Toml>)
    ensures ArrayField(trusted, "trusted_devices").Ok? <==> IsTableOf(trusted, "trusted_devices")
    ensures config.Table? ==>
              (IsStringList(Get(config.entries, "incoming_allowed_peers")) <==> PeersAreStrings(config.entries))
              && (IsStringList(NetworkPeers(config.entries)) <==>
                    ("network" in config.entries && config.entries["network"].Table? ==>
                       PeersAreStrings(config.entries["network"].entries)))
  {
  }

  lemma SameMembers<T>(a: seq<T>, b: seq<T>)
    requires multiset(a) == multiset(b)
    ensures forall x :: x in a <==> x in b
  {
    assert forall x :: x in a <==> x in multiset(a);
    assert forall x :: x in b <==> x in multiset(b);
  }

  lemma SameStrings(a: seq<Toml>, b: seq<Toml>)
    requires multiset(a) == multiset(b)
    ensures Strings(a) == Strings(b)
  {
    SameMembers(a, b);
  }

  // ---------- the legacy address book ----------

  function PeerIdOf(v: Toml): Option<string> {
    if v.Table? then GetStr(v.entries, "peer_id") else None
  }

  function PeerIds(items: seq<Toml>): set<string> {
    set v | v in items && PeerIdOf(v).Some? :: PeerIdOf(v).value
  }

  function OrElse(value: Option<Toml>, default: Toml): Toml {
    if value.Some? then value.value else default
  }

  function With(t: TomlTable, key: string, value: Option<Toml>): TomlTable {
    if value.Some? then t[key := value.value] else t
  }

  predicate Complete(peer: TomlTable) {
    "peer_id" in peer && "created_at" in peer && "last_connected" in peer
  }

  /** The fields every device has. */
  function FixedFields(peer: TomlTable): TomlTable
    requires Complete(peer)
  {
    map[
      "peer_id" := peer["peer_id"],
      "multiaddrs" := Array([]),
      "private_ips" := OrElse(Get(peer, "private_ips"), Array([])),
      "os" := OrElse(Get(peer, "os"), Str("Unknown")),
      "version" := OrElse(Get(peer, "version"), Str("")),
      "created_at" := peer["created_at"],
      "last_connected" := peer["last_connected"]
    ]
  }

  /** `legacy_peer_to_device_table`. */
  function DeviceOf(peer: TomlTable): TomlTable
    requires Complete(peer)
  {
    var device := FixedFields(peer);
    With(With(With(device, "name", Get(peer, "alias")), "hostname", Get(peer, "hostname")), "public_ip", Get(peer, "public_ip"))
  }

  /** Peer `i` of the address book is not a known device, and no earlier peer has its id. */
  predicate IsNew(known: set<string>, peers: seq<Toml>, i: nat)
    requires i < |peers|
  {
    PeerIdOf(peers[i]).Some? && PeerIdOf(peers[i]).value !in known
    && forall j :: 0 <= j < i ==> PeerIdOf(peers[j]) != PeerIdOf(peers[i])
  }

  predicate Acceptable(known: set<string>, peers: seq<Toml>, i: nat)
    requires i < |peers|
  {
    PeerIdOf(peers[i]).Some? && (IsNew(known, peers, i) ==> Complete(peers[i].entries))
  }

  /** The indices of the new peers, in order. */
  function NewPeers(known: set<string>, peers: seq<Toml>, n: nat): (indices: seq<nat>)
    requires n <= |peers|
    ensures forall i: nat :: i in indices <==> i < n && IsNew(known, peers, i)
    ensures forall k :: 0 <= k < |indices| ==> indices[k] < n
    ensures forall a, b :: 0 <= a < b < |indices| ==> indices[a] < indices[b]
  {
    if n == 0 then []
    else
      var earlier := NewPeers(known, peers, n - 1);
      if IsNew(known, peers, n - 1) then earlier + [n - 1] else earlier
  }

  /** Each new peer became a device, after the devices already known. */
  ghost predicate Merged(before: seq<Toml>, peers: seq<Toml>, n: nat, after: seq<Toml>)
    requires n <= |peers|
  {
    var indices := NewPeers(PeerIds(before), peers, n);
    |after| == |before| + |indices| && before == after[..|before|]
    && forall k :: 0 <= k < |indices| ==>
         peers[indices[k]].Table? && Complete(peers[indices[k]].entries)
         && after[|before| + k].Table? && CopiesPeer(after[|before| + k].entries, peers[indices[k]].entries)
  }

  /** The device has what the address book has of the peer, field by field; no address, and nothing else. */
  predicate CopiesPeer(device: TomlTable, peer: TomlTable) {
    && {"peer_id", "created_at", "last_connected"} <= peer.Keys
    && device.Keys == {"peer_id", "multiaddrs", "private_ips", "os", "version", "created_at", "last_connected"}
                      + (if "alias" in peer then {"name"} else {})
                      + (if "hostname" in peer then {"hostname"} else {})
                      + (if "public_ip" in peer then {"public_ip"} else {})
    && device["peer_id"] == peer["peer_id"]
    && device["created_at"] == peer["created_at"] && device["last_connected"] == peer["last_connected"]
    && ("alias" in peer ==> device["name"] == peer["alias"])
    && ("hostname" in peer ==> device["hostname"] == peer["hostname"])
    && ("public_ip" in peer ==> device["public_ip"] == peer["public_ip"])
    && device["multiaddrs"] == Array([])
    && device["private_ips"] == (if "private_ips" in peer then peer["private_ips"] else Array([]))
    && device["os"] == (if "os" in peer then peer["os"] else Str("Unknown"))
    && device["version"] == (if "version" in peer then peer["version"] else Str(""))
  }

  /** `legacy_peer_to_device_table`, field by field. */
  lemma DeviceFields(peer: TomlTable)
    requires Complete(peer)
    ensures CopiesPeer(DeviceOf(peer), peer)
  {
    hide With, FixedFields;
    var device := FixedFields(peer);
    FixedOnes(peer);
    var named := With(device, "name", Get(peer, "alias"));
    var hosted := With(named, "hostname", Get(peer, "hostname"));
    WithFields(device, "name", Get(peer, "alias"));
    WithFields(named, "hostname", Get(peer, "hostname"));
    WithFields(hosted, "public_ip", Get(peer, "public_ip"));
  }

  lemma FixedOnes(peer: TomlTable)
    requires Complete(peer)
    ensures var device := FixedFields(peer);
            && device.Keys == {"peer_id", "multiaddrs", "private_ips", "os", "version", "created_at", "last_connected"}
            && device["peer_id"] == peer["peer_id"]
            && device["created_at"] == peer["created_at"] && device["last_connected"] == peer["last_connected"]
            && device["multiaddrs"] == Array([])
            && device["private_ips"] == (if "private_ips" in peer then peer["private_ips"] else Array([]))
            && device["os"] == (if "os" in peer then peer["os"] else Str("Unknown"))
            && device["version"] == (if "version" in peer then peer["version"] else Str(""))
  {
  }

  lemma WithFields(t: TomlTable, key: string, value: Option<Toml>)
    ensures With(t, key, value).Keys == t.Keys + if value.Some? then {key} else {}
    ensures value.Some? ==> With(t, key, value)[key] == value.value
    ensures forall other <- t :: other != key ==> With(t, key, value)[other] == t[other]
  {
  }

  lemma DevicePeerId(peer: Toml)
    requires peer.Table? && Complete(peer.entries)
    ensures PeerIdOf(Table(DeviceOf(peer.entries))) == PeerIdOf(peer)
  {
    hide DeviceOf;
    DeviceFields(peer.entries);
  }

  lemma PeerIdsAppend(items: seq<Toml>, v: Toml)
    requires PeerIdOf(v).Some?
    ensures PeerIds(items + [v]) == PeerIds(items) + {PeerIdOf(v).value}
  {
    var all := items + [v];
    forall id ensures id in PeerIds(all) <==> id in PeerIds(items) + {PeerIdOf(v).value} {
      if id in PeerIds(items) {
        var w :| w in items && PeerIdOf(w) == Some(id);
        assert w in all;
      }
      if PeerIdOf(v) == Some(id) { assert all[|items|] == v; }
    }
  }

  /** Every device is still there, and each peer of the book is a device, added once, in order. */
  ghost predicate DevicesMerged(book: Toml, devices: Option<Toml>, result: Toml) {
    ArrayField(devices, "devices").Ok?
    && var (peers, before) := (BookPeers(book), ArrayField(devices, "devices").value);
    var after := ArrayField(Some(result), "devices");
    after.Ok? && after.value.0 == before.0["devices" := Array(after.value.1)]
    && Merged(before.1, peers, |peers|, after.value.1)
    && PeerIds(after.value.1) == PeerIds(before.1) + PeerIds(peers)
  }

  /**
   * `migrate_legacy_address_book`: it fails exactly when a peer has no id, or is new and lacks a required
   * field.
   */
  method MigrateAddressBook(book: Toml, devices: Option<Toml>) returns (r: Result<Toml>)
    ensures r.Ok? <==> CanMergeBook(book, devices)
    ensures r.Ok? ==> DevicesMerged(book, devices, r.value)
  {
    hide DeviceOf, CopiesPeer, CanMergeBook, Acceptable;
    AcceptableFields(book, devices);
    var peers := BookPeers(book);
    if ArrayField(devices, "devices").Err? {
      return Err;
    }
    var (table, before) := ArrayField(devices, "devices").value;
    var merged := MergePeers(before, peers);
    if merged.Err? {
      return Err;
    }
    r := Ok(Table(table["devices" := Array(merged.value)]));
  }

  /** The `peers` list of the address book; anything else counts as empty. */
  function BookPeers(book: Toml): (peers: seq<Toml>)
    ensures peers == if book.Table? && IsListIn(book, "peers") then book.entries["peers"].items else []
  {
    if book.Table? && GetArray(book.entries, "peers").Some? then GetArray(book.entries, "peers").value else []
  }

  /** The devices are a list, and every peer of the book can be merged. */
  ghost predicate CanMergeBook(book: Toml, devices: Option<Toml>) {
    IsTableOf(devices, "devices")
    && forall i :: 0 <= i < |BookPeers(book)| ==> IsMergeable(ElementsOf(devices, "devices"), BookPeers(book), i)
  }

  /** The peer has an id and, unless a device or an earlier peer has that id, the two times. */
  ghost predicate IsMergeable(known: seq<Toml>, peers: seq<Toml>, i: nat)
    requires i < |peers|
  {
    var peer := peers[i];
    peer.Table? && "peer_id" in peer.entries && peer.entries["peer_id"].Str?
    && (SomeHas(known + peers[..i], peer.entries["peer_id"].text) || {"created_at", "last_connected"} <= peer.entries.Keys)
  }

  predicate IsListIn(file: Toml, key: string)
    requires file.Table?
  {
    key in file.entries && file.entries[key].Array?
  }

  predicate HasPeerId(v: Toml, id: string) {
    v.Table? && "peer_id" in v.entries && v.entries["peer_id"] == Str(id)
  }

  ghost predicate SomeHas(items: seq<Toml>, id: string) {
    exists d <- items :: HasPeerId(d, id)
  }

  lemma PeerIdFields(v: Toml, id: string)
    ensures PeerIdOf(v) == Some(id) <==> HasPeerId(v, id)
  {
  }

  lemma IdInFields(items: seq<Toml>, id: string)
    ensures id in PeerIds(items) <==> SomeHas(items, id)
  {
    hide PeerIdOf, HasPeerId;
    forall v ensures PeerIdOf(v) == Some(id) <==> HasPeerId(v, id) {
      PeerIdFields(v, id);
    }
  }

  lemma AcceptableFields(book: Toml, devices: Option<Toml>)
    ensures CanMergeBook(book, devices) <==>
              ArrayField(devices, "devices").Ok?
              && forall i :: 0 <= i < |BookPeers(book)| ==> Acceptable(PeerIds(ArrayField(devices, "devices").value.1), BookPeers(book), i)
  {
    hide Acceptable, IsMergeable, PeerIds;
    var peers := BookPeers(book);
    if IsTableOf(devices, "devices") {
      assert ArrayField(devices, "devices").value.1 == ElementsOf(devices, "devices");
      forall i | 0 <= i < |peers|
        ensures Acceptable(PeerIds(ElementsOf(devices, "devices")), peers, i) <==> IsMergeable(ElementsOf(devices, "devices"), peers, i)
      {
        MergeableIsAcceptable(ElementsOf(devices, "devices"), peers, i);
      }
    }
  }

  lemma MergeableIsAcceptable(known: seq<Toml>, peers: seq<Toml>, i: nat)
    requires i < |peers|
    ensures Acceptable(PeerIds(known), peers, i) <==> IsMergeable(known, peers, i)
  {
    hide SomeHas, PeerIds;
    if PeerIdOf(peers[i]).Some? {
      AcceptableAt(known, peers, i, PeerIdOf(peers[i]).value);
    }
  }

  lemma AcceptableAt(known: seq<Toml>, peers: seq<Toml>, i: nat, id: string)
    requires i < |peers| && PeerIdOf(peers[i]) == Some(id)
    ensures Acceptable(PeerIds(known), peers, i) <==>
              SomeHas(known + peers[..i], id) || {"created_at", "last_connected"} <= peers[i].entries.Keys
  {
    hide HasPeerId;
    IsNewWhenUnseen(PeerIds(known), peers, i);
    IdInFields(known, id);
    IdInFields(peers[..i], id);
    EitherHas(known, peers[..i], id);
  }

  /**
   * What has been merged: the devices known before are there as they were, and then each peer of the book
   * that has the id of none of them is added, once, field by field; the rest of the file is as it was.
   */
  lemma AddressBookFields(book: Toml, devices: Option<Toml>, result: Toml)
    requires DevicesMerged(book, devices, result)
    ensures IsTableOf(devices, "devices") && IsTableOf(Some(result), "devices")
    ensures var peers := if book.Table? && IsListIn(book, "peers") then book.entries["peers"].items else [];
            var before, after := ElementsOf(devices, "devices"), ElementsOf(Some(result), "devices");
            && before <= after
            && (forall k :: |before| <= k < |after| ==>
                  after[k].Table? && exists p <- peers :: p.Table? && CopiesPeer(after[k].entries, p.entries))
            && (forall id :: SomeHas(after, id) <==> SomeHas(before + peers, id))
            && (forall j, k, id :: 0 <= j < k < |after| && |before| <= k && HasPeerId(after[k], id) ==> !HasPeerId(after[j], id))
    ensures forall key :: key != "devices" ==>
              (key in result.entries <==> devices.Some? && key in devices.value.entries)
              && (key in result.entries ==> result.entries[key] == devices.value.entries[key])
  {
    hide CopiesPeer, HasPeerId, Merged, SomeHas, PeerIds;
    BookRest(book, devices, result);
    var peers, before, after := BookPeers(book), ElementsOf(devices, "devices"), ElementsOf(Some(result), "devices");
    MergedFields(before, peers, after);
    forall id ensures SomeHas(after, id) <==> SomeHas(before + peers, id) {
      IdInFields(after, id);
      IdInFields(before, id);
      IdInFields(peers, id);
      EitherHas(before, peers, id);
    }
  }

  lemma EitherHas(before: seq<Toml>, more: seq<Toml>, id: string)
    ensures SomeHas(before + more, id) <==> SomeHas(before, id) || SomeHas(more, id)
  {
    hide HasPeerId;
    assert forall d <- before + more :: d in before || d in more;
    assert forall d <- before :: d in before + more;
    assert forall d <- more :: d in before + more;
  }

  lemma BookRest(book: Toml, devices: Option<Toml>, result: Toml)
    requires DevicesMerged(book, devices, result)
    ensures IsTableOf(devices, "devices") && IsTableOf(Some(result), "devices")
    ensures var peers := if book.Table? && IsListIn(book, "peers") then book.entries["peers"].items else [];
            var before, after := ElementsOf(devices, "devices"), ElementsOf(Some(result), "devices");
            BookPeers(book) == peers && Merged(before, peers, |peers|, after) && PeerIds(after) == PeerIds(before) + PeerIds(peers)
    ensures forall key :: key != "devices" ==>
              (key in result.entries <==> devices.Some? && key in devices.value.entries)
              && (key in result.entries ==> result.entries[key] == devices.value.entries[key])
  {
    hide Merged, PeerIds;
  }

  lemma MergedFields(before: seq<Toml>, peers: seq<Toml>, after: seq<Toml>)
    requires Merged(before, peers, |peers|, after)
    ensures before <= after
    ensures forall k :: |before| <= k < |after| ==>
              after[k].Table? && exists p <- peers :: p.Table? && CopiesPeer(after[k].entries, p.entries)
    ensures forall j, k, id :: 0 <= j < k < |after| && |before| <= k && HasPeerId(after[k], id) ==> !HasPeerId(after[j], id)
  {
    hide CopiesPeer, HasPeerId, IsNew;
    var indices := NewPeers(PeerIds(before), peers, |peers|);
    forall k | |before| <= k < |after|
      ensures after[k].Table? && exists p <- peers :: p.Table? && CopiesPeer(after[k].entries, p.entries)
    {
      assert after[|before| + (k - |before|)] == after[k];
      assert peers[indices[k - |before|]] in peers;
    }
    forall j, k, id | 0 <= j < k < |after| && |before| <= k && HasPeerId(after[k], id) ensures !HasPeerId(after[j], id) {
      assert after[|before| + (k - |before|)] == after[k];
      NewIsDistinct(before, peers, after, indices, j, k, id);
    }
  }

  lemma NewIsDistinct(before: seq<Toml>, peers: seq<Toml>, after: seq<Toml>, indices: seq<nat>, j: nat, k: nat, id: string)
    requires Merged(before, peers, |peers|, after) && indices == NewPeers(PeerIds(before), peers, |peers|)
    requires j < k < |after| && |before| <= k && HasPeerId(after[k], id)
    ensures !HasPeerId(after[j], id)
  {
    hide NewPeers;
    var p := peers[indices[k - |before|]];
    assert after[|before| + (k - |before|)] == after[k];
    CopiedId(after[k], p, id);
    PeerIdFields(p, id);
    assert indices[k - |before|] in indices && IsNew(PeerIds(before), peers, indices[k - |before|]);
    if j < |before| {
      IdInFields(before, id);
      assert after[j] in before;
    } else {
      var q := peers[indices[j - |before|]];
      assert after[|before| + (j - |before|)] == after[j];
      if HasPeerId(after[j], id) {
        CopiedId(after[j], q, id);
        PeerIdFields(q, id);
      }
    }
  }

  lemma CopiedId(device: Toml, peer: Toml, id: string)
    requires device.Table? && peer.Table? && CopiesPeer(device.entries, peer.entries)
    ensures HasPeerId(device, id) <==> HasPeerId(peer, id)
  {
  }

  /** The first `n` peers are dealt with. */
  ghost predicate MergedSoFar(before: seq<Toml>, peers: seq<Toml>, n: nat, after: seq<Toml>, existing: set<string>)
    requires n <= |peers|
  {
    && Merged(before, peers, n, after) && (forall i :: 0 <= i < n ==> Acceptable(PeerIds(before), peers, i))
    && existing == PeerIds(after) && existing == PeerIds(before) + PeerIds(peers[..n])
  }

  method MergePeers(before: seq<Toml>, peers: seq<Toml>) returns (r: Result<seq<Toml>>)
    ensures r.Ok? <==> forall i :: 0 <= i < |peers| ==> Acceptable(PeerIds(before), peers, i)
    ensures r.Ok? ==> Merged(before, peers, |peers|, r.value) && PeerIds(r.value) == PeerIds(before) + PeerIds(peers)
  {
    var after, existing := before, PeerIds(before);
    for i := 0 to |peers|
      invariant MergedSoFar(before, peers, i, after, existing)
    {
      if PeerIdOf(peers[i]).None? {
        assert !Acceptable(PeerIds(before), peers, i);
        return Err;
      }
      var peerId := PeerIdOf(peers[i]).value;
      IsNewWhenUnseen(PeerIds(before), peers, i);
      if peerId in existing {
        SkipPeer(before, peers, i, after, existing);
      } else {
        if !Complete(peers[i].entries) {
          assert !Acceptable(PeerIds(before), peers, i);
          return Err;
        }
        AddPeer(before, peers, i, after, existing);
        after := after + [Table(DeviceOf(peers[i].entries))];
        existing := existing + {peerId};
      }
    }
    assert peers[..|peers|] == peers;
    r := Ok(after);
  }

  lemma AddPeer(before: seq<Toml>, peers: seq<Toml>, i: nat, after: seq<Toml>, existing: set<string>)
    requires i < |peers| && MergedSoFar(before, peers, i, after, existing)
    requires IsNew(PeerIds(before), peers, i) && Complete(peers[i].entries)
    ensures MergedSoFar(before, peers, i + 1, after + [Table(DeviceOf(peers[i].entries))], existing + {PeerIdOf(peers[i]).value})
  {
    DeviceAdded(before, peers, i, after);
    IdsAfter(peers, i, after);
  }

  lemma DeviceAdded(before: seq<Toml>, peers: seq<Toml>, i: nat, after: seq<Toml>)
    requires i < |peers| && Merged(before, peers, i, after) && IsNew(PeerIds(before), peers, i) && Complete(peers[i].entries)
    ensures Merged(before, peers, i + 1, after + [Table(DeviceOf(peers[i].entries))])
  {
    hide CopiesPeer, DeviceOf;
    DeviceFields(peers[i].entries);
  }

  lemma IdsAfter(peers: seq<Toml>, i: nat, after: seq<Toml>)
    requires i < |peers| && PeerIdOf(peers[i]).Some? && Complete(peers[i].entries)
    ensures PeerIds(after + [Table(DeviceOf(peers[i].entries))]) == PeerIds(after) + {PeerIdOf(peers[i]).value}
    ensures PeerIds(peers[..i + 1]) == PeerIds(peers[..i]) + {PeerIdOf(peers[i]).value}
  {
    DevicePeerId(peers[i]);
    PeerIdsAppend(after, Table(DeviceOf(peers[i].entries)));
    assert peers[..i + 1] == peers[..i] + [peers[i]];
    PeerIdsAppend(peers[..i], peers[i]);
  }

  lemma SkipPeer(before: seq<Toml>, peers: seq<Toml>, i: nat, after: seq<Toml>, existing: set<string>)
    requires i < |peers| && MergedSoFar(before, peers, i, after, existing)
    requires PeerIdOf(peers[i]).Some? && PeerIdOf(peers[i]).value in existing && !IsNew(PeerIds(before), peers, i)
    ensures MergedSoFar(before, peers, i + 1, after, existing)
  {
    hide CopiesPeer, PeerIdOf, IsNew, PeerIds;
    assert peers[..i + 1] == peers[..i] + [peers[i]];
    PeerIdsAppend(peers[..i], peers[i]);
    assert NewPeers(PeerIds(before), peers, i + 1) == NewPeers(PeerIds(before), peers, i);
    assert existing + {PeerIdOf(peers[i]).value} == existing;
    forall k | 0 <= k < i + 1 ensures Acceptable(PeerIds(before), peers, k) {
      assert k < i || k == i;
    }
  }

  lemma IsNewWhenUnseen(known: set<string>, peers: seq<Toml>, i: nat)
    requires i < |peers| && PeerIdOf(peers[i]).Some?
    ensures IsNew(known, peers, i) <==> PeerIdOf(peers[i]).value !in known + PeerIds(peers[..i])
  {
    if j: nat :| j < i && PeerIdOf(peers[j]) == PeerIdOf(peers[i]) {
      assert peers[j] in peers[..i];
    }
    if PeerIdOf(peers[i]).value in PeerIds(peers[..i]) {
      var v :| v in peers[..i] && PeerIdOf(v) == PeerIdOf(peers[i]);
    }
  }
}
