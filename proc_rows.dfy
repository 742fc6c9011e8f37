// Rows of the proc app: what an agent reports about its host (accounts,
// groups, network interfaces, packages, clock).
module ProcRows {
  import opened Common

  /** A local account on a server; `group` is its primary system group, `iamUser` the matching IAM user. */
  datatype SystemUser = SystemUser(server: Id, uid: int, gid: int, username: string, description: string,
                                   directory: string, shell: string, group: Option<Id>, iamUser: Option<Id>)

  /** A local group on a server; `iamGroup` is the IAM group with the same gid and name. */
  datatype SystemGroup = SystemGroup(server: Id, gid: int, groupname: string, iamGroup: Option<Id>)

  /** A network interface; `flags` holds the kernel's IFF_* bits. */
  datatype Interface = Interface(server: Id, name: string, mac: string, kind: nat, flags: nat, mtu: nat, linkSpeed: nat)

  datatype InterfaceAddress = InterfaceAddress(iface: Id, address: string, mask: string, broadcast: Option<string>)

  datatype Package = Package(server: Id, name: string, version: string)

  /** A clock report; `bootTime` is derived from `datetime` and `uptime` when missing. */
  datatype SystemTime = SystemTime(server: Id, datetime: Time, bootTime: Option<Time>, uptime: nat, timezone: string)
}
