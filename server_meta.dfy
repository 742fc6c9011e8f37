// `ServerMetaSerializer.save`: what an agent's `commit` report changes. The
// server's own columns are refreshed, a clock report is stored, and the
// server's accounts, groups, interfaces, addresses and packages are
// replaced by the reported ones, each only when its part of the report is
// present.
module ServerMeta {
  import opened Common
  import opened ServerRows
  import opened IamRows
  import opened ProcRows
  import opened Store
  import Proc

  datatype GroupItem = GroupItem(gid: int, groupname: string)
  datatype UserItem = UserItem(uid: int, gid: int, username: string, description: string, directory: string, shell: string)
  datatype InterfaceItem = InterfaceItem(name: string, mac: string, kind: nat, flags: nat, mtu: nat, linkSpeed: nat)
  /** An address as reported; `broadcast` goes through `InterfaceAddressSerializer.to_internal_value`. */
  datatype AddressItem = AddressItem(interfaceName: string, address: string, mask: string, broadcast: Proc.Field<string>)
  /** An address once validated. */
  datatype Address = Address(interfaceName: string, address: string, mask: string, broadcast: Option<string>)
  datatype PackageItem = PackageItem(name: string, version: string)
  datatype TimeItem = TimeItem(datetime: Time, uptime: nat, timezone: string)

  /** The parts of a commit report; `None` is a part left out of the request. */
  datatype Report = Report(
    version: Proc.Field<string>,
    osqueryVersion: Proc.Field<string>,
    load: Option<real>,
    os: Option<Proc.OsReport>,
    time: Option<TimeItem>,
    users: Option<seq<UserItem>>,
    groups: Option<seq<GroupItem>>,
    interfaces: Option<seq<InterfaceItem>>,
    addresses: Option<seq<AddressItem>>,
    packages: Option<seq<PackageItem>>,
    pypackages: Option<seq<PackageItem>>)

  // ----- validation -----

  /** The addresses through `to_internal_value`, the first failure winning. */
  function ValidAddresses(items: seq<AddressItem>): (r: Result<seq<Address>, Failure>)
    ensures r.Ok? ==> |r.value| == |items|
    ensures r.Ok? ==>
      forall i :: 0 <= i < |items| ==>
        Proc.Broadcast(items[i].broadcast).Ok? &&
        r.value[i] == Address(items[i].interfaceName, items[i].address, items[i].mask, Proc.Broadcast(items[i].broadcast).value)
    ensures r.Err? ==> exists i :: 0 <= i < |items| && Proc.Broadcast(items[i].broadcast).Err?
  {
    if items == [] then Ok([])
    else
      var first := Proc.Broadcast(items[0].broadcast);
      if first.Err? then Err(first.error)
      else
        var rest := ValidAddresses(items[1..]);
        if rest.Err? then
          assert forall i :: 0 <= i < |items[1..]| ==> items[1..][i] == items[i + 1];
          Err(rest.error)
        else Ok([Address(items[0].interfaceName, items[0].address, items[0].mask, first.value)] + rest.value)
  }

  /** A report's validated form: its OS part and its addresses pass their serializers. */
  datatype Valid = Valid(os: Option<Proc.OsReport>, addresses: Option<seq<Address>>)

  function Validated(rep: Report): (r: Result<Valid, Failure>)
    ensures r.Ok? <==> (rep.os.Some? ==> Proc.ValidatedOs(rep.os.value).Ok?) &&
                       (rep.addresses.Some? ==> ValidAddresses(rep.addresses.value).Ok?)
    ensures r.Ok? ==> r.value.os == (if rep.os.Some? then Some(Proc.ValidatedOs(rep.os.value).value) else None)
    ensures r.Ok? ==> r.value.addresses.Some? == rep.addresses.Some?
  {
    if rep.os.Some? && Proc.ValidatedOs(rep.os.value).Err? then Err(Proc.ValidatedOs(rep.os.value).error)
    else if rep.addresses.Some? && ValidAddresses(rep.addresses.value).Err? then Err(ValidAddresses(rep.addresses.value).error)
    else Ok(Valid(if rep.os.Some? then Some(Proc.ValidatedOs(rep.os.value).value) else None,
                  if rep.addresses.Some? then Some(ValidAddresses(rep.addresses.value).value) else None))
  }

  // ----- the server's own columns -----

  function Assigned(f: Proc.Field<string>, current: Option<string>): Option<string>
  {
    match f
    case Absent => current
    case Null => None
    case Given(v) => Some(v)
  }

  /**
   * `updated_at` is always touched; `version`, `osquery_version` and `load`
   * (the report's average) only when present. A new OS record becomes the
   * server's latest, so its `platform_like` becomes the server's platform.
   */
  function Refreshed(s: Server, rep: Report, os: Option<Proc.OsReport>, now: Time): (r: Server)
    requires os.Some? ==> os.value.platformLike.Some?
    ensures r.updatedAt == now
    ensures rep.version.Absent? ==> r.version == s.version
    ensures rep.version.Null? ==> r.version.None?
    ensures rep.version.Given? ==> r.version == Some(rep.version.value)
    ensures rep.osqueryVersion.Absent? ==> r.osqueryVersion == s.osqueryVersion
    ensures rep.osqueryVersion.Null? ==> r.osqueryVersion.None?
    ensures rep.osqueryVersion.Given? ==> r.osqueryVersion == Some(rep.osqueryVersion.value)
    ensures r.load == (if rep.load.Some? then rep.load else s.load)
    ensures r.osPlatform == (if os.Some? then os.value.platformLike else s.osPlatform)
    ensures r.(updatedAt := s.updatedAt, version := s.version, osqueryVersion := s.osqueryVersion, load := s.load,
               osPlatform := s.osPlatform) == s
  {
    s.(updatedAt := now, version := Assigned(rep.version, s.version),
       osqueryVersion := Assigned(rep.osqueryVersion, s.osqueryVersion),
       load := if rep.load.Some? then rep.load else s.load,
       osPlatform := if os.Some? then os.value.platformLike else s.osPlatform)
  }

  // ----- new rows -----

  /** The `n` keys from `base` on. */
  function FreshKeys(base: nat, n: nat): (r: set<Id>)
    ensures forall k :: k in r <==> base <= k < base + n
  {
    if n == 0 then {} else FreshKeys(base, n - 1) + {base + n - 1}
  }

  /** `bulk_create`: row `i` under the fresh key `base + i`. */
  function Numbered<T>(rows: seq<T>, base: nat): (r: map<Id, T>)
    ensures forall k :: k in r <==> base <= k < base + |rows|
    ensures forall k :: k in r ==> r[k] == rows[k - base]
  {
    map k | k in FreshKeys(base, |rows|) :: rows[k - base]
  }

  predicate GroupMatches(g: Group, gid: int, name: string)
  {
    g.deletedAt.None? && g.gid.Some? && g.gid.value == gid && g.name == name
  }

  /** `Group.objects.get(gid=..., name=...)`, `None` when it does not exist; the unique gid leaves at most one match. */
  ghost function LinkedGroup(groups: map<Id, Group>, gid: int, name: string): (r: Option<Id>)
    requires GidsUnique(groups)
    ensures r.Some? ==> r.value in groups && GroupMatches(groups[r.value], gid, name)
    ensures r.None? ==> forall k :: k in groups ==> !GroupMatches(groups[k], gid, name)
    ensures forall k :: k in groups && GroupMatches(groups[k], gid, name) ==> r == Some(k)
  {
    if exists k :: k in groups && GroupMatches(groups[k], gid, name) then
      var k :| k in groups && GroupMatches(groups[k], gid, name);
      Some(k)
    else None
  }

  predicate UserMatches(u: User, uid: int, username: string)
  {
    u.deletedAt.None? && u.uid.Some? && u.uid.value == uid && u.username == username
  }

  /** `User.objects.get(uid=..., username=...)`, `None` on any failure; the unique uid leaves at most one match. */
  ghost function LinkedUser(users: map<Id, User>, uid: int, username: string): (r: Option<Id>)
    requires UidsUnique(users)
    ensures r.Some? ==> r.value in users && UserMatches(users[r.value], uid, username)
    ensures r.None? ==> forall k :: k in users ==> !UserMatches(users[k], uid, username)
    ensures forall k :: k in users && UserMatches(users[k], uid, username) ==> r == Some(k)
  {
    if exists k :: k in users && UserMatches(users[k], uid, username) then
      var k :| k in users && UserMatches(users[k], uid, username);
      Some(k)
    else None
  }

  /** The system group rows built from the report, each linked to the IAM group with the same gid and name. */
  ghost function GroupRows(server: Id, items: seq<GroupItem>, groups: map<Id, Group>): (r: seq<SystemGroup>)
    requires GidsUnique(groups)
    ensures |r| == |items|
    ensures forall i :: 0 <= i < |items| ==>
      r[i] == SystemGroup(server, items[i].gid, items[i].groupname, LinkedGroup(groups, items[i].gid, items[i].groupname))
  {
    if items == [] then []
    else GroupRows(server, items[..|items| - 1], groups) +
         [SystemGroup(server, items[|items| - 1].gid, items[|items| - 1].groupname,
                      LinkedGroup(groups, items[|items| - 1].gid, items[|items| - 1].groupname))]
  }

  /** The index of the first reported group with `gid`. */
  function FirstWithGid(items: seq<GroupItem>, gid: int): (r: Option<nat>)
    ensures r.Some? ==> r.value < |items| && items[r.value].gid == gid && forall j :: 0 <= j < r.value ==> items[j].gid != gid
    ensures r.None? ==> forall j :: 0 <= j < |items| ==> items[j].gid != gid
  {
    if items == [] then None
    else if items[0].gid == gid then Some(0)
    else
      var rest := FirstWithGid(items[1..], gid);
      if rest.None? then None else Some(rest.value + 1)
  }

  /** The system user row of one reported account: its primary group is the first new group with its gid. */
  ghost function UserRow(server: Id, item: UserItem, gitems: seq<GroupItem>, users: map<Id, User>, base: nat): SystemUser
    requires UidsUnique(users)
  {
    var g := FirstWithGid(gitems, item.gid);
    SystemUser(server, item.uid, item.gid, item.username, item.description, item.directory, item.shell,
               if g.Some? then Some(base + g.value) else None, LinkedUser(users, item.uid, item.username))
  }

  ghost function UserRows(server: Id, items: seq<UserItem>, gitems: seq<GroupItem>, users: map<Id, User>, base: nat)
    : (r: seq<SystemUser>)
    requires UidsUnique(users)
    ensures |r| == |items|
    ensures forall i :: 0 <= i < |items| ==> r[i] == UserRow(server, items[i], gitems, users, base)
  {
    if items == [] then []
    else UserRows(server, items[..|items| - 1], gitems, users, base) + [UserRow(server, items[|items| - 1], gitems, users, base)]
  }

  /**
   * Accounts are linked exactly: a system group to the live IAM group whose
   * gid and name both match, a system user to the live IAM user whose uid
   * and username both match, and to the first reported group with its gid.
   */
  lemma AccountsAreLinkedExactly(server: Id, uitems: seq<UserItem>, gitems: seq<GroupItem>, users: map<Id, User>,
                                 groups: map<Id, Group>, base: nat, i: nat, j: nat)
    requires UidsUnique(users) && GidsUnique(groups)
    requires i < |uitems| && j < |gitems|
    ensures GroupRows(server, gitems, groups)[j].iamGroup.Some? ==>
      var k := GroupRows(server, gitems, groups)[j].iamGroup.value;
      k in groups && groups[k].gid == Some(gitems[j].gid) && groups[k].name == gitems[j].groupname
    ensures UserRows(server, uitems, gitems, users, base)[i].iamUser.Some? ==>
      var k := UserRows(server, uitems, gitems, users, base)[i].iamUser.value;
      k in users && users[k].uid == Some(uitems[i].uid) && users[k].username == uitems[i].username
    ensures UserRows(server, uitems, gitems, users, base)[i].group == Some(base + j) <==>
      gitems[j].gid == uitems[i].gid && forall h :: 0 <= h < j ==> gitems[h].gid != uitems[i].gid
  {
    var g := FirstWithGid(gitems, uitems[i].gid);
    if g.Some? && g.value != j {
      assert g.value < j ==> gitems[g.value].gid == uitems[i].gid;
    }
  }

  // ----- building the account rows -----

  /** `Group.objects.get(gid=..., name=...)`, `ObjectDoesNotExist` caught. */
  method GetGroup(groups: map<Id, Group>, gid: int, name: string) returns (link: Option<Id>)
    requires GidsUnique(groups)
    ensures link == LinkedGroup(groups, gid, name)
  {
    link := None;
    if exists k :: k in groups && GroupMatches(groups[k], gid, name) {
      var k :| k in groups && GroupMatches(groups[k], gid, name);
      link := Some(k);
    }
  }

  /** `User.objects.get(uid=..., username=...)`, any failure caught. */
  method GetUser(users: map<Id, User>, uid: int, username: string) returns (link: Option<Id>)
    requires UidsUnique(users)
    ensures link == LinkedUser(users, uid, username)
  {
    link := None;
    if exists k :: k in users && UserMatches(users[k], uid, username) {
      var k :| k in users && UserMatches(users[k], uid, username);
      link := Some(k);
    }
  }

  /** The loop over the reported groups, looking each IAM group up. */
  method BuildGroups(server: Id, items: seq<GroupItem>, groups: map<Id, Group>) returns (rows: seq<SystemGroup>)
    requires GidsUnique(groups)
    ensures rows == GroupRows(server, items, groups)
  {
    rows := [];
    var i := 0;
    while i < |items|
      invariant i <= |items|
      invariant rows == GroupRows(server, items[..i], groups)
    {
      var item := items[i];
      var link := GetGroup(groups, item.gid, item.groupname);
      rows := rows + [SystemGroup(server, item.gid, item.groupname, link)];
      assert items[..i + 1][..i] == items[..i];
      i := i + 1;
    }
    assert items[..i] == items;
  }

  /** The inner loop: the first new group with `gid`. */
  method FindGroup(items: seq<GroupItem>, gid: int) returns (r: Option<nat>)
    ensures r == FirstWithGid(items, gid)
  {
    var i := 0;
    while i < |items|
      invariant i <= |items|
      invariant forall j :: 0 <= j < i ==> items[j].gid != gid
    {
      if items[i].gid == gid {
        FirstMatchIsFirstWithGid(items, gid, i);
        return Some(i);
      }
      i := i + 1;
    }
    FirstMatchIsFirstWithGid(items, gid, |items|);
    return None;
  }

  lemma {:induction false} FirstMatchIsFirstWithGid(items: seq<GroupItem>, gid: int, i: nat)
    requires i <= |items| && forall j :: 0 <= j < i ==> items[j].gid != gid
    requires i < |items| ==> items[i].gid == gid
    ensures FirstWithGid(items, gid) == if i < |items| then Some(i) else None
  {
  }

  /** One account's row: its IAM user looked up, then the inner loop for its primary group. */
  method BuildUser(server: Id, item: UserItem, gitems: seq<GroupItem>, users: map<Id, User>, base: nat) returns (row: SystemUser)
    requires UidsUnique(users)
    ensures row == UserRow(server, item, gitems, users, base)
  {
    var link := GetUser(users, item.uid, item.username);
    var g := FindGroup(gitems, item.gid);
    var group := if g.Some? then Some(base + g.value) else None;
    row := SystemUser(server, item.uid, item.gid, item.username, item.description, item.directory, item.shell, group, link);
  }

  /** The loop over the reported accounts. */
  method BuildUsers(server: Id, items: seq<UserItem>, gitems: seq<GroupItem>, users: map<Id, User>, base: nat)
    returns (rows: seq<SystemUser>)
    requires UidsUnique(users)
    ensures rows == UserRows(server, items, gitems, users, base)
  {
    rows := [];
    var i := 0;
    while i < |items|
      invariant i <= |items|
      invariant rows == UserRows(server, items[..i], gitems, users, base)
    {
      var row := BuildUser(server, items[i], gitems, users, base);
      rows := rows + [row];
      assert items[..i + 1][..i] == items[..i];
      i := i + 1;
    }
    assert items[..i] == items;
  }

  // ----- replaced tables -----

  function GroupsOf(gs: map<Id, SystemGroup>, server: Id): (r: set<Id>)
    ensures forall k :: k in r <==> k in gs && gs[k].server == server
  {
    set k | k in gs && gs[k].server == server
  }

  function UsersOf(us: map<Id, SystemUser>, server: Id): (r: set<Id>)
    ensures forall k :: k in r <==> k in us && us[k].server == server
  {
    set k | k in us && us[k].server == server
  }

  function InterfacesOf(ifs: map<Id, Interface>, server: Id): (r: set<Id>)
    ensures forall k :: k in r <==> k in ifs && ifs[k].server == server
  {
    set k | k in ifs && ifs[k].server == server
  }

  function PackagesOf(ps: map<Id, Package>, server: Id): (r: set<Id>)
    ensures forall k :: k in r <==> k in ps && ps[k].server == server
  {
    set k | k in ps && ps[k].server == server
  }

  /** The addresses of the given interfaces: deleting the interfaces deletes them too. */
  function AddressesOf(addresses: map<Id, InterfaceAddress>, ifaces: set<Id>): (r: set<Id>)
    ensures forall k :: k in r <==> k in addresses && addresses[k].iface in ifaces
  {
    set k | k in addresses && addresses[k].iface in ifaces
  }

  /** Every key of the table is below `base`, so `base` onwards are free. */
  predicate Below<T>(m: map<Id, T>, base: nat)
  {
    forall k :: k in m ==> k < base
  }

  /** Replacing some rows by new ones under fresh keys keeps every other row as it was. */
  lemma ReplacingKeepsTheRest<T>(before: map<Id, T>, gone: set<Id>, rows: seq<T>, base: nat, k: Id)
    requires Below(before, base) && k in before && k !in gone
    ensures k in (before - gone) + Numbered(rows, base) && ((before - gone) + Numbered(rows, base))[k] == before[k]
  {
  }

  // ----- interfaces and addresses -----

  /** The `interface_map` loop over the first `n` new interfaces: each name to the key of the last interface with it. */
  function NameIndex(items: seq<InterfaceItem>, base: nat, n: nat): map<string, Id>
    requires n <= |items|
  {
    if n == 0 then map[]
    else NameIndex(items, base, n - 1)[items[n - 1].name := base + n - 1]
  }

  /** The last of the first `n` new interfaces named `name`. */
  function LastNamed(items: seq<InterfaceItem>, n: nat, name: string): (r: Option<nat>)
    requires n <= |items|
    ensures r.Some? ==> r.value < n && items[r.value].name == name && forall i :: r.value < i < n ==> items[i].name != name
    ensures r.None? ==> forall i :: 0 <= i < n ==> items[i].name != name
  {
    if n == 0 then None
    else if items[n - 1].name == name then Some(n - 1)
    else LastNamed(items, n - 1, name)
  }

  /** `interface_map[name]` is the last new interface with that name, and a name no new interface has is missing. */
  lemma {:induction false} NameIndexFindsTheLast(items: seq<InterfaceItem>, base: nat, n: nat, name: string)
    requires n <= |items|
    ensures name in NameIndex(items, base, n) <==> LastNamed(items, n, name).Some?
    ensures name in NameIndex(items, base, n) ==> NameIndex(items, base, n)[name] == base + LastNamed(items, n, name).value
  {
    if n > 0 && items[n - 1].name != name {
      NameIndexFindsTheLast(items, base, n - 1, name);
    }
  }

  method BuildNameIndex(items: seq<InterfaceItem>, base: nat) returns (index: map<string, Id>)
    ensures index == NameIndex(items, base, |items|)
  {
    index := map[];
    var i := 0;
    while i < |items|
      invariant i <= |items|
      invariant index == NameIndex(items, base, i)
    {
      index := index[items[i].name := base + i];
      i := i + 1;
    }
  }

  const INTERFACE_ADDRESS_UNIQUE: string := "interface_address_unique"

  /**
   * The address rows: `interface_map[item['interface_name']]` raises
   * `KeyError` for an address naming no reported interface, and the
   * (interface, address) pair is unique.
   */
  function AddressRows(items: seq<Address>, index: map<string, Id>): (r: Result<seq<InterfaceAddress>, Failure>)
    ensures r.Ok? <==> forall i :: 0 <= i < |items| ==> items[i].interfaceName in index
    ensures r.Ok? ==> |r.value| == |items| && forall i :: 0 <= i < |items| ==>
      r.value[i] == InterfaceAddress(index[items[i].interfaceName], items[i].address, items[i].mask, items[i].broadcast)
    ensures r.Err? ==> exists i :: 0 <= i < |items| && items[i].interfaceName !in index && r.error == KeyError(items[i].interfaceName)
  {
    if items == [] then Ok([])
    else if items[0].interfaceName !in index then Err(KeyError(items[0].interfaceName))
    else
      var rest := AddressRows(items[1..], index);
      assert forall i :: 0 <= i < |items[1..]| ==> items[1..][i] == items[i + 1];
      if rest.Err? then Err(rest.error)
      else Ok([InterfaceAddress(index[items[0].interfaceName], items[0].address, items[0].mask, items[0].broadcast)] + rest.value)
  }

  predicate PairsUnique(rows: seq<InterfaceAddress>)
  {
    forall i, j :: 0 <= i < j < |rows| ==> rows[i].iface != rows[j].iface || rows[i].address != rows[j].address
  }

  /** An address reported for an interface the report does not list makes the commit raise `KeyError`. */
  lemma UnknownInterfaceRaises(ifaces: seq<InterfaceItem>, addrs: seq<Address>, base: nat, i: nat)
    requires i < |addrs| && forall j :: 0 <= j < |ifaces| ==> ifaces[j].name != addrs[i].interfaceName
    ensures AddressRows(addrs, NameIndex(ifaces, base, |ifaces|)).Err?
    ensures AddressRows(addrs, NameIndex(ifaces, base, |ifaces|)).error.KeyError?
  {
    NameIndexFindsTheLast(ifaces, base, |ifaces|, addrs[i].interfaceName);
  }

  function InterfaceRow(server: Id, item: InterfaceItem): Interface
  {
    Interface(server, item.name, item.mac, item.kind, item.flags, item.mtu, item.linkSpeed)
  }

  function InterfaceRows(server: Id, items: seq<InterfaceItem>): (r: seq<Interface>)
    ensures |r| == |items| && forall i :: 0 <= i < |items| ==> r[i] == InterfaceRow(server, items[i])
  {
    seq(|items|, i requires 0 <= i < |items| => InterfaceRow(server, items[i]))
  }

  function PackageRows(server: Id, items: seq<PackageItem>): (r: seq<Package>)
    ensures |r| == |items| && forall i :: 0 <= i < |items| ==> r[i] == Package(server, items[i].name, items[i].version)
  {
    seq(|items|, i requires 0 <= i < |items| => Package(server, items[i].name, items[i].version))
  }

  // ----- what a save leaves behind -----

  /** The server's accounts and groups deleted, the reported ones created in their place. */
  ghost predicate AccountsReplaced(before: (map<Id, SystemUser>, map<Id, SystemGroup>), after: (map<Id, SystemUser>, map<Id, SystemGroup>),
                                   server: Id, uitems: seq<UserItem>, gitems: seq<GroupItem>,
                                   users: map<Id, User>, groups: map<Id, Group>, base: nat)
    requires UidsUnique(users) && GidsUnique(groups)
  {
    after.1 == (before.1 - GroupsOf(before.1, server)) + Numbered(GroupRows(server, gitems, groups), base) &&
    after.0 == (before.0 - UsersOf(before.0, server)) + Numbered(UserRows(server, uitems, gitems, users, base), base)
  }

  /**
   * The server's interfaces deleted, and with them their addresses; the
   * reported interfaces created; then their addresses, unless building
   * them fails, which `r` reports.
   */
  predicate InterfacesReplaced(before: (map<Id, Interface>, map<Id, InterfaceAddress>), after: (map<Id, Interface>, map<Id, InterfaceAddress>),
                               server: Id, iitems: seq<InterfaceItem>, addrs: seq<Address>, base: nat, r: Result<bool, Failure>)
  {
    var rows := AddressRows(addrs, NameIndex(iitems, base, |iitems|));
    var emptied := before.1 - AddressesOf(before.1, InterfacesOf(before.0, server));
    after.0 == (before.0 - InterfacesOf(before.0, server)) + Numbered(InterfaceRows(server, iitems), base) &&
    if rows.Err? then r == Err(rows.error) && after.1 == emptied
    else if !PairsUnique(rows.value) then r == Err(IntegrityError(INTERFACE_ADDRESS_UNIQUE)) && after.1 == emptied
    else r == Ok(true) && after.1 == emptied + Numbered(rows.value, base)
  }

  /** One package table: replaced when reported, kept otherwise. */
  predicate PackagesSaved(before: map<Id, Package>, after: map<Id, Package>, server: Id, items: Option<seq<PackageItem>>, base: nat)
  {
    after == if items.None? then before else (before - PackagesOf(before, server)) + Numbered(PackageRows(server, items.value), base)
  }

  /**
   * The server's columns refreshed, and the clock report, if any, stored
   * with its boot time derived under the fresh key `base`.
   */
  predicate ColumnsSaved(before: (map<Id, Server>, map<Id, SystemTime>), after: (map<Id, Server>, map<Id, SystemTime>),
                         server: Id, rep: Report, os: Option<Proc.OsReport>, base: nat, now: Time)
    requires server in before.0 && (os.Some? ==> os.value.platformLike.Some?)
  {
    after.0 == before.0[server := Refreshed(before.0[server], rep, os, now)] &&
    after.1 == if rep.time.None? then before.1
               else before.1[base := Proc.WithBootTime(SystemTime(server, rep.time.value.datetime, None,
                                                                   rep.time.value.uptime, rep.time.value.timezone))]
  }

  /** Accounts and groups: replaced when both are reported, kept otherwise. */
  ghost predicate AccountsSaved(before: (map<Id, SystemUser>, map<Id, SystemGroup>), after: (map<Id, SystemUser>, map<Id, SystemGroup>),
                                server: Id, rep: Report, users: map<Id, User>, groups: map<Id, Group>, base: nat)
    requires UidsUnique(users) && GidsUnique(groups)
  {
    if rep.users.Some? && rep.groups.Some?
    then AccountsReplaced(before, after, server, rep.users.value, rep.groups.value, users, groups, base)
    else after == before
  }

  /**
   * Interfaces and addresses: replaced when both are reported, kept
   * otherwise; then the packages, unless building the addresses failed.
   */
  predicate NetworkSaved(before: (map<Id, Interface>, map<Id, InterfaceAddress>, map<Id, Package>, map<Id, Package>),
                         after: (map<Id, Interface>, map<Id, InterfaceAddress>, map<Id, Package>, map<Id, Package>),
                         server: Id, rep: Report, addrs: Option<seq<Address>>, base: nat, r: Result<bool, Failure>)
    requires addrs.Some? == rep.addresses.Some?
  {
    (if rep.interfaces.Some? && rep.addresses.Some?
     then InterfacesReplaced((before.0, before.1), (after.0, after.1), server, rep.interfaces.value, addrs.value, base, r)
     else after.0 == before.0 && after.1 == before.1 && r == Ok(true)) &&
    if r.Ok? then PackagesSaved(before.2, after.2, server, rep.packages, base) && PackagesSaved(before.3, after.3, server, rep.pypackages, base)
    else after.2 == before.2 && after.3 == before.3
  }

  // ----- the save, step by step -----

  /** Deleting the server's accounts and groups, then the two `bulk_create` loops. */
  method ReplaceAccounts(before: (map<Id, SystemUser>, map<Id, SystemGroup>), server: Id, uitems: seq<UserItem>, gitems: seq<GroupItem>,
                         users: map<Id, User>, groups: map<Id, Group>, base: nat)
    returns (after: (map<Id, SystemUser>, map<Id, SystemGroup>))
    requires UidsUnique(users) && GidsUnique(groups)
    ensures AccountsReplaced(before, after, server, uitems, gitems, users, groups, base)
  {
    var grows := BuildGroups(server, gitems, groups);
    var urows := BuildUsers(server, uitems, gitems, users, base);
    after := ((before.0 - UsersOf(before.0, server)) + Numbered(urows, base), (before.1 - GroupsOf(before.1, server)) + Numbered(grows, base));
  }

  /** Deleting the server's interfaces, creating the reported ones, building `interface_map`, then the addresses. */
  method ReplaceInterfaces(before: (map<Id, Interface>, map<Id, InterfaceAddress>), server: Id, iitems: seq<InterfaceItem>,
                           addrs: seq<Address>, base: nat)
    returns (after: (map<Id, Interface>, map<Id, InterfaceAddress>), r: Result<bool, Failure>)
    ensures InterfacesReplaced(before, after, server, iitems, addrs, base, r)
  {
    var gone := InterfacesOf(before.0, server);
    var interfaces := (before.0 - gone) + Numbered(InterfaceRows(server, iitems), base);
    var addresses := before.1 - AddressesOf(before.1, gone);
    var index := BuildNameIndex(iitems, base);
    var rows := AddressRows(addrs, index);
    if rows.Err? {
      return (interfaces, addresses), Err(rows.error);
    }
    if !PairsUnique(rows.value) {
      return (interfaces, addresses), Err(IntegrityError(INTERFACE_ADDRESS_UNIQUE));
    }
    return (interfaces, addresses + Numbered(rows.value, base)), Ok(true);
  }

  /** The server's own columns, then its clock report. */
  method SaveColumns(db: Db, server: Id, rep: Report, os: Option<Proc.OsReport>, base: nat, now: Time)
    requires server in db.servers && (os.Some? ==> os.value.platformLike.Some?)
    modifies db`servers, db`systemTimes
    ensures ColumnsSaved((old(db.servers), old(db.systemTimes)), (db.servers, db.systemTimes), server, rep, os, base, now)
  {
    db.servers := db.servers[server := Refreshed(db.servers[server], rep, os, now)];
    if rep.time.Some? {
      var t := rep.time.value;
      db.systemTimes := db.systemTimes[base := Proc.WithBootTime(SystemTime(server, t.datetime, None, t.uptime, t.timezone))];
    }
  }

  /** The accounts and groups, when both are reported. */
  method SaveAccounts(db: Db, server: Id, rep: Report, base: nat)
    requires UidsUnique(db.users) && GidsUnique(db.groups)
    modifies db`systemUsers, db`systemGroups
    ensures AccountsSaved((old(db.systemUsers), old(db.systemGroups)), (db.systemUsers, db.systemGroups), server, rep, db.users, db.groups, base)
  {
    if rep.groups.Some? && rep.users.Some? {
      var accounts := ReplaceAccounts((db.systemUsers, db.systemGroups), server, rep.users.value, rep.groups.value, db.users, db.groups, base);
      db.systemUsers, db.systemGroups := accounts.0, accounts.1;
    }
  }

  /** The interfaces and their addresses, then, unless building the addresses failed, the packages. */
  method SaveNetwork(db: Db, server: Id, rep: Report, addrs: Option<seq<Address>>, base: nat) returns (r: Result<bool, Failure>)
    requires addrs.Some? == rep.addresses.Some?
    modifies db`interfaces, db`addresses, db`packages, db`pyPackages
    ensures NetworkSaved((old(db.interfaces), old(db.addresses), old(db.packages), old(db.pyPackages)),
                         (db.interfaces, db.addresses, db.packages, db.pyPackages), server, rep, addrs, base, r)
  {
    r := Ok(true);
    if rep.interfaces.Some? && rep.addresses.Some? {
      var network;
      network, r := ReplaceInterfaces((db.interfaces, db.addresses), server, rep.interfaces.value, addrs.value, base);
      db.interfaces, db.addresses := network.0, network.1;
      if r.Err? {
        return;
      }
    }
    if rep.packages.Some? {
      db.packages := (db.packages - PackagesOf(db.packages, server)) + Numbered(PackageRows(server, rep.packages.value), base);
    }
    if rep.pypackages.Some? {
      db.pyPackages := (db.pyPackages - PackagesOf(db.pyPackages, server)) + Numbered(PackageRows(server, rep.pypackages.value), base);
    }
  }

  /**
   * The save of a validated report, in the source's order; a failure while
   * building the addresses stops it before the packages, and what was
   * written before it stays written.
   */
  method Save(db: Db, server: Id, rep: Report, v: Valid, base: nat, now: Time) returns (r: Result<bool, Failure>)
    requires server in db.servers && UidsUnique(db.users) && GidsUnique(db.groups)
    requires v.os.Some? ==> v.os.value.platformLike.Some?
    requires v.addresses.Some? == rep.addresses.Some?
    modifies db`servers, db`systemTimes, db`systemUsers, db`systemGroups, db`interfaces, db`addresses, db`packages, db`pyPackages
    ensures ColumnsSaved((old(db.servers), old(db.systemTimes)), (db.servers, db.systemTimes), server, rep, v.os, base, now)
    ensures AccountsSaved((old(db.systemUsers), old(db.systemGroups)), (db.systemUsers, db.systemGroups), server, rep, db.users, db.groups, base)
    ensures NetworkSaved((old(db.interfaces), old(db.addresses), old(db.packages), old(db.pyPackages)),
                         (db.interfaces, db.addresses, db.packages, db.pyPackages), server, rep, v.addresses, base, r)
  {
    SaveColumns(db, server, rep, v.os, base, now);
    r := SaveTables(db, server, rep, v.addresses, base);
  }

  /** The account and network tables of `save`, after the server's own columns. */
  method SaveTables(db: Db, server: Id, rep: Report, addrs: Option<seq<Address>>, base: nat) returns (r: Result<bool, Failure>)
    requires UidsUnique(db.users) && GidsUnique(db.groups) && addrs.Some? == rep.addresses.Some?
    modifies db`systemUsers, db`systemGroups, db`interfaces, db`addresses, db`packages, db`pyPackages
    ensures AccountsSaved((old(db.systemUsers), old(db.systemGroups)), (db.systemUsers, db.systemGroups), server, rep, db.users, db.groups, base)
    ensures NetworkSaved((old(db.interfaces), old(db.addresses), old(db.packages), old(db.pyPackages)),
                         (db.interfaces, db.addresses, db.packages, db.pyPackages), server, rep, addrs, base, r)
  {
    SaveAccounts(db, server, rep, base);
    r := SaveNetwork(db, server, rep, addrs, base);
  }

  const ONLY_FOR_AGENTS: string := "This action is only for alpamon."

  /**
   * The `commit` endpoint: only an agent may call it; the report is
   * validated as a whole before anything is written, then saved.
   */
  method Commit(db: Db, server: Id, fromAgent: bool, rep: Report, base: nat, now: Time) returns (r: Result<bool, Failure>)
    requires server in db.servers && UidsUnique(db.users) && GidsUnique(db.groups)
    modifies db`servers, db`systemTimes, db`systemUsers, db`systemGroups, db`interfaces, db`addresses, db`packages, db`pyPackages
    ensures !fromAgent ==> r == Err(ValidationError(ONLY_FOR_AGENTS))
    ensures fromAgent && Validated(rep).Err? ==> r == Err(Validated(rep).error)
    ensures !fromAgent || Validated(rep).Err? ==>
      db.servers == old(db.servers) && db.systemTimes == old(db.systemTimes) && db.systemUsers == old(db.systemUsers) &&
      db.systemGroups == old(db.systemGroups) && db.interfaces == old(db.interfaces) && db.addresses == old(db.addresses) &&
      db.packages == old(db.packages) && db.pyPackages == old(db.pyPackages)
    ensures fromAgent && Validated(rep).Ok? ==>
      ColumnsSaved((old(db.servers), old(db.systemTimes)), (db.servers, db.systemTimes), server, rep, Validated(rep).value.os, base, now) &&
      AccountsSaved((old(db.systemUsers), old(db.systemGroups)), (db.systemUsers, db.systemGroups), server, rep, db.users, db.groups, base) &&
      NetworkSaved((old(db.interfaces), old(db.addresses), old(db.packages), old(db.pyPackages)),
                   (db.interfaces, db.addresses, db.packages, db.pyPackages), server, rep, Validated(rep).value.addresses, base, r)
  {
    if !fromAgent {
      return Err(ValidationError(ONLY_FOR_AGENTS));
    }
    var valid := Validated(rep);
    if valid.Err? {
      return Err(valid.error);
    }
    r := Save(db, server, rep, valid.value, base, now);
  }

  // ----- what a commit promises -----

  /**
   * A commit touches only the committing server: every account and group
   * row of another server is kept as it was.
   */
  lemma AccountsOfOtherServersAreKept(accounts0: (map<Id, SystemUser>, map<Id, SystemGroup>), accounts1: (map<Id, SystemUser>, map<Id, SystemGroup>),
                                      server: Id, rep: Report, users: map<Id, User>, groups: map<Id, Group>, base: nat)
    requires UidsUnique(users) && GidsUnique(groups)
    requires AccountsSaved(accounts0, accounts1, server, rep, users, groups, base)
    requires Below(accounts0.0, base) && Below(accounts0.1, base)
    ensures forall k :: k in accounts0.0 && accounts0.0[k].server != server ==> k in accounts1.0 && accounts1.0[k] == accounts0.0[k]
    ensures forall k :: k in accounts0.1 && accounts0.1[k].server != server ==> k in accounts1.1 && accounts1.1[k] == accounts0.1[k]
  {
    if rep.users.Some? && rep.groups.Some? {
      forall k | k in accounts0.0 && accounts0.0[k].server != server
        ensures k in accounts1.0 && accounts1.0[k] == accounts0.0[k]
      {
        ReplacingKeepsTheRest(accounts0.0, UsersOf(accounts0.0, server),
                              UserRows(server, rep.users.value, rep.groups.value, users, base), base, k);
      }
      forall k | k in accounts0.1 && accounts0.1[k].server != server
        ensures k in accounts1.1 && accounts1.1[k] == accounts0.1[k]
      {
        ReplacingKeepsTheRest(accounts0.1, GroupsOf(accounts0.1, server), GroupRows(server, rep.groups.value, groups), base, k);
      }
    }
  }

  /**
   * Likewise for the network and the packages: every interface and
   * package row of another server is kept, and so is every address of
   * another server's interface.
   */
  lemma NetworkOfOtherServersIsKept(network0: (map<Id, Interface>, map<Id, InterfaceAddress>, map<Id, Package>, map<Id, Package>),
                                    network1: (map<Id, Interface>, map<Id, InterfaceAddress>, map<Id, Package>, map<Id, Package>),
                                    server: Id, rep: Report, addrs: Option<seq<Address>>, base: nat, r: Result<bool, Failure>)
    requires addrs.Some? == rep.addresses.Some?
    requires NetworkSaved(network0, network1, server, rep, addrs, base, r)
    requires Below(network0.0, base) && Below(network0.1, base) && Below(network0.2, base) && Below(network0.3, base)
    ensures forall k :: k in network0.0 && network0.0[k].server != server ==> k in network1.0 && network1.0[k] == network0.0[k]
    ensures forall k :: k in network0.1 && network0.1[k].iface in network0.0 && network0.0[network0.1[k].iface].server != server ==>
      k in network1.1 && network1.1[k] == network0.1[k]
    ensures forall k :: k in network0.2 && network0.2[k].server != server ==> k in network1.2 && network1.2[k] == network0.2[k]
    ensures forall k :: k in network0.3 && network0.3[k].server != server ==> k in network1.3 && network1.3[k] == network0.3[k]
  {
    if rep.interfaces.Some? && rep.addresses.Some? {
      var gone := InterfacesOf(network0.0, server);
      forall k | k in network0.0 && network0.0[k].server != server
        ensures k in network1.0 && network1.0[k] == network0.0[k]
      {
        ReplacingKeepsTheRest(network0.0, gone, InterfaceRows(server, rep.interfaces.value), base, k);
      }
      var rows := AddressRows(addrs.value, NameIndex(rep.interfaces.value, base, |rep.interfaces.value|));
      if rows.Ok? && PairsUnique(rows.value) {
        forall k | k in network0.1 && network0.1[k].iface in network0.0 && network0.0[network0.1[k].iface].server != server
          ensures k in network1.1 && network1.1[k] == network0.1[k]
        {
          ReplacingKeepsTheRest(network0.1, AddressesOf(network0.1, gone), rows.value, base, k);
        }
      }
    }
    if r.Ok? {
      forall k | k in network0.2 && network0.2[k].server != server
        ensures k in network1.2 && network1.2[k] == network0.2[k]
      {
        if rep.packages.Some? {
          ReplacingKeepsTheRest(network0.2, PackagesOf(network0.2, server), PackageRows(server, rep.packages.value), base, k);
        }
      }
      forall k | k in network0.3 && network0.3[k].server != server
        ensures k in network1.3 && network1.3[k] == network0.3[k]
      {
        if rep.pypackages.Some? {
          ReplacingKeepsTheRest(network0.3, PackagesOf(network0.3, server), PackageRows(server, rep.pypackages.value), base, k);
        }
      }
    }
  }

  /**
   * After a commit that reports both accounts and groups, the server's
   * groups are exactly the reported ones, in order under the fresh keys.
   */
  lemma {:induction false} ReportedGroupsReplaceTheOldOnes(before: map<Id, SystemGroup>, after: map<Id, SystemGroup>, server: Id,
                                                          gitems: seq<GroupItem>, groups: map<Id, Group>, base: nat)
    requires GidsUnique(groups)
    requires after == (before - GroupsOf(before, server)) + Numbered(GroupRows(server, gitems, groups), base)
    ensures forall k :: k in after && after[k].server == server <==> base <= k < base + |gitems|
    ensures forall i :: 0 <= i < |gitems| ==>
      after[base + i] == SystemGroup(server, gitems[i].gid, gitems[i].groupname, LinkedGroup(groups, gitems[i].gid, gitems[i].groupname))
  {
    var rows := GroupRows(server, gitems, groups);
    var kept := before - GroupsOf(before, server);
    forall k | k in after
      ensures after[k].server == server <==> base <= k < base + |rows|
    {
      if k !in Numbered(rows, base) {
        assert k in kept;
      } else {
        assert rows[k - base].server == server;
      }
    }
    forall k | base <= k < base + |rows|
      ensures k in after
    {
      assert k in Numbered(rows, base);
    }
    forall i | 0 <= i < |gitems|
      ensures after[base + i] == SystemGroup(server, gitems[i].gid, gitems[i].groupname, LinkedGroup(groups, gitems[i].gid, gitems[i].groupname))
    {
      assert base + i in Numbered(rows, base) && Numbered(rows, base)[base + i] == rows[i];
    }
  }

  /** Likewise the server's accounts are exactly the reported ones. */
  lemma {:induction false} ReportedUsersReplaceTheOldOnes(before: map<Id, SystemUser>, after: map<Id, SystemUser>, server: Id,
                                                         uitems: seq<UserItem>, gitems: seq<GroupItem>, users: map<Id, User>, base: nat)
    requires UidsUnique(users)
    requires after == (before - UsersOf(before, server)) + Numbered(UserRows(server, uitems, gitems, users, base), base)
    ensures forall k :: k in after && after[k].server == server <==> base <= k < base + |uitems|
    ensures forall i :: 0 <= i < |uitems| ==> after[base + i] == UserRow(server, uitems[i], gitems, users, base)
  {
    var rows := UserRows(server, uitems, gitems, users, base);
    var kept := before - UsersOf(before, server);
    forall k | k in after
      ensures after[k].server == server <==> base <= k < base + |rows|
    {
      if k !in Numbered(rows, base) {
        assert k in kept;
      } else {
        assert rows[k - base].server == server;
      }
    }
    forall k | base <= k < base + |rows|
      ensures k in after
    {
      assert k in Numbered(rows, base);
    }
    forall i | 0 <= i < |uitems|
      ensures after[base + i] == UserRow(server, uitems[i], gitems, users, base)
    {
      assert base + i in Numbered(rows, base) && Numbered(rows, base)[base + i] == rows[i];
    }
  }

  /** Likewise the server's interfaces are exactly the reported ones. */
  lemma {:induction false} ReportedInterfacesReplaceTheOldOnes(before: map<Id, Interface>, after: map<Id, Interface>, server: Id,
                                                              iitems: seq<InterfaceItem>, base: nat)
    requires after == (before - InterfacesOf(before, server)) + Numbered(InterfaceRows(server, iitems), base)
    ensures forall k :: k in after && after[k].server == server <==> base <= k < base + |iitems|
    ensures forall i :: 0 <= i < |iitems| ==> after[base + i] == InterfaceRow(server, iitems[i])
  {
    var rows := InterfaceRows(server, iitems);
    var kept := before - InterfacesOf(before, server);
    forall k | k in after
      ensures after[k].server == server <==> base <= k < base + |rows|
    {
      if k !in Numbered(rows, base) {
        assert k in kept;
      } else {
        assert rows[k - base].server == server;
      }
    }
    forall k | base <= k < base + |rows|
      ensures k in after
    {
      assert k in Numbered(rows, base);
    }
    forall i | 0 <= i < |iitems|
      ensures after[base + i] == InterfaceRow(server, iitems[i])
    {
      assert base + i in Numbered(rows, base) && Numbered(rows, base)[base + i] == rows[i];
    }
  }

  /** Likewise a reported package list replaces the server's packages of that kind. */
  lemma {:induction false} ReportedPackagesReplaceTheOldOnes(before: map<Id, Package>, after: map<Id, Package>, server: Id,
                                                            items: seq<PackageItem>, base: nat)
    requires after == (before - PackagesOf(before, server)) + Numbered(PackageRows(server, items), base)
    ensures forall k :: k in after && after[k].server == server <==> base <= k < base + |items|
    ensures forall i :: 0 <= i < |items| ==> after[base + i] == Package(server, items[i].name, items[i].version)
  {
    var rows := PackageRows(server, items);
    var kept := before - PackagesOf(before, server);
    forall k | k in after
      ensures after[k].server == server <==> base <= k < base + |rows|
    {
      if k !in Numbered(rows, base) {
        assert k in kept;
      } else {
        assert rows[k - base].server == server;
      }
    }
    forall k | base <= k < base + |rows|
      ensures k in after
    {
      assert k in Numbered(rows, base);
    }
    forall i | 0 <= i < |items|
      ensures after[base + i] == Package(server, items[i].name, items[i].version)
    {
      assert base + i in Numbered(rows, base) && Numbered(rows, base)[base + i] == rows[i];
    }
  }

  /**
   * The save is not one transaction: when building the addresses fails,
   * the new interfaces stay, without any address, and the old ones are
   * gone with theirs.
   */
  lemma {:induction false} FailedAddressesLeaveInterfacesBare(network0: (map<Id, Interface>, map<Id, InterfaceAddress>),
                                                             network1: (map<Id, Interface>, map<Id, InterfaceAddress>),
                                                             server: Id, iitems: seq<InterfaceItem>, addrs: seq<Address>,
                                                             base: nat, r: Result<bool, Failure>)
    requires InterfacesReplaced(network0, network1, server, iitems, addrs, base, r) && r.Err?
    requires forall k :: k in network0.1 ==> network0.1[k].iface in network0.0
    requires Below(network0.0, base)
    ensures forall i :: 0 <= i < |iitems| ==> base + i in network1.0 && network1.0[base + i] == InterfaceRow(server, iitems[i])
    ensures forall k :: k in network1.1 ==> network1.1[k].iface < base && network0.0[network1.1[k].iface].server != server
  {
    forall i | 0 <= i < |iitems|
      ensures base + i in network1.0 && network1.0[base + i] == InterfaceRow(server, iitems[i])
    {
      assert base + i in Numbered(InterfaceRows(server, iitems), base);
    }
  }
}
