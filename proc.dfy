// The proc app: what the reported host data means (interface flags, the
// boot time derived from a clock report, a system user's IAM group), the
// package uninstall commands, and the normalisation the serializers apply
// to an agent's OS version and interface address reports.
module Proc {
  import opened Common
  import opened Sessions
  import opened Commands
  import opened ServerRows
  import opened ProcRows
  import opened Store
  import ServerOps

  // ----- interface flags -----

  /** The bit positions of the kernel flags the model reads. */
  const IFF_UP: nat := 0
  const IFF_LOOPBACK: nat := 3
  const IFF_POINTOPOINT: nat := 4
  const IFF_RUNNING: nat := 6

  /** `1 << k`. */
  function Pow2(k: nat): (r: nat)
    ensures r >= 1
  {
    if k == 0 then 1 else 2 * Pow2(k - 1)
  }

  /** `bool(n & (1 << k))`: bit `k` of `n` is set. */
  predicate Bit(n: nat, k: nat)
    decreases k
  {
    if k == 0 then n % 2 == 1 else Bit(n / 2, k - 1)
  }

  /** The four link properties of an interface. */
  datatype LinkState = LinkState(up: bool, running: bool, loopback: bool, p2p: bool)

  /** `Interface.is_up`, `is_running`, `is_loopback` and `is_p2p`. */
  function State(i: Interface): LinkState
  {
    LinkState(Bit(i.flags, IFF_UP), Bit(i.flags, IFF_RUNNING), Bit(i.flags, IFF_LOOPBACK), Bit(i.flags, IFF_POINTOPOINT))
  }

  /**
   * The flags are independent: raising one bit that was clear turns on the
   * property it stands for and changes no other.
   */
  lemma {:induction false} RaisingOneFlag(n: nat, k: nat, j: nat)
    requires !Bit(n, k)
    ensures Bit(n + Pow2(k), j) <==> j == k || Bit(n, j)
    decreases k
  {
    if k == 0 {
      assert (n + 1) % 2 == 1;
      if j > 0 {
        assert (n + 1) / 2 == n / 2;
      }
    } else {
      var p := Pow2(k - 1);
      assert Pow2(k) == 2 * p;
      assert (n + 2 * p) % 2 == n % 2;
      assert (n + 2 * p) / 2 == n / 2 + p;
      if j > 0 {
        RaisingOneFlag(n / 2, k - 1, j - 1);
      }
    }
  }

  /** An interface with no flags set is down, not running, not a loopback and not point-to-point. */
  lemma {:induction false} NoFlagsNoProperty(k: nat)
    ensures !Bit(0, k)
    decreases k
  {
    if k > 0 {
      NoFlagsNoProperty(k - 1);
    }
  }

  /**
   * Typical reports: an Ethernet card (0x1043) is up and running, a
   * loopback device (0x49) is up, running and a loopback, and a tunnel
   * (0x10d1) is up, running and point-to-point.
   */
  lemma FlagExamples(server: Id)
    ensures State(Interface(server, "eth0", "", 1, 0x1043, 1500, 0)) == LinkState(true, true, false, false)
    ensures State(Interface(server, "lo", "", 772, 0x49, 65536, 0)) == LinkState(true, true, true, false)
    ensures State(Interface(server, "tun0", "", 65534, 0x10d1, 1500, 0)) == LinkState(true, true, false, true)
  {
  }

  // ----- clock reports -----

  /**
   * `SystemTime.save`: a report without a boot time gets `datetime` minus
   * `uptime` seconds; one that has a boot time keeps it. No other field
   * changes.
   */
  function WithBootTime(t: SystemTime): (r: SystemTime)
    ensures r.bootTime.Some?
    ensures t.bootTime.None? ==> r.bootTime.value + t.uptime == t.datetime
    ensures t.bootTime.Some? ==> r == t
    ensures r.(bootTime := t.bootTime) == t
  {
    if t.bootTime.None? then t.(bootTime := Some(t.datetime - t.uptime)) else t
  }

  /** Saving a clock report again changes nothing: the boot time is derived once. */
  lemma BootTimeIsDerivedOnce(t: SystemTime)
    ensures WithBootTime(WithBootTime(t)) == WithBootTime(t)
  {
  }

  // ----- a system user's IAM group -----

  /**
   * `SystemUser.iam_group` as written: `None` without a primary group,
   * otherwise `self.group.iam_group.id`, which raises `AttributeError` when
   * the primary group is linked to no IAM group.
   */
  function IamGroupAsWritten(groups: map<Id, SystemGroup>, u: SystemUser): (r: Result<Option<Id>, Failure>)
    ensures u.group.None? ==> r == Ok(None)
    ensures r.Ok? && u.group.Some? ==> u.group.value in groups && r.value == groups[u.group.value].iamGroup && r.value.Some?
  {
    match u.group
    case None => Ok(None)
    case Some(g) =>
      if g !in groups then Err(DoesNotExist)
      else match groups[g].iamGroup
        case None => Err(AttributeError(NO_ID))
        case Some(iam) => Ok(Some(iam))
  }

  const NO_ID: string := "'NoneType' object has no attribute 'id'"

  /** A user whose primary group has no IAM counterpart, such as the `root` group, makes the property raise. */
  lemma UnlinkedPrimaryGroupRaises(groups: map<Id, SystemGroup>, u: SystemUser)
    requires u.group.Some? && u.group.value in groups && groups[u.group.value].iamGroup.None?
    ensures IamGroupAsWritten(groups, u) == Err(AttributeError(NO_ID))
  {
  }

  /** The evident intent: the IAM group of the primary group, `None` when either is missing. */
  function IamGroup(groups: map<Id, SystemGroup>, u: SystemUser): (r: Result<Option<Id>, Failure>)
    ensures u.group.None? ==> r == Ok(None)
    ensures u.group.Some? && u.group.value in groups ==> r == Ok(groups[u.group.value].iamGroup)
    ensures u.group.Some? && u.group.value !in groups ==> r == Err(DoesNotExist)
  {
    match u.group
    case None => Ok(None)
    case Some(g) => if g in groups then Ok(groups[g].iamGroup) else Err(DoesNotExist)
  }

  /** The corrected property agrees with the written one wherever that one succeeds, and never raises on a stored group. */
  lemma IamGroupAgreesWhereDefined(groups: map<Id, SystemGroup>, u: SystemUser)
    ensures IamGroupAsWritten(groups, u).Ok? ==> IamGroup(groups, u) == IamGroupAsWritten(groups, u)
    ensures u.group.Some? && u.group.value in groups ==> IamGroup(groups, u).Ok?
    ensures IamGroup(groups, u) == Ok(None) <==> u.group.None? || (u.group.value in groups && groups[u.group.value].iamGroup.None?)
  {
  }

  // ----- package uninstall -----

  /** `'package uninstall %s'` or `'pypackage uninstall %s'`. */
  function UninstallLine(name: string, python: bool): (r: string)
    ensures r == (if python then "pypackage" else "package") + " uninstall " + name
  {
    (if python then "pypackage" else "package") + " uninstall " + name
  }

  /**
   * `SystemPackage.uninstall` and `PythonPackage.uninstall`: an internal
   * command to the package's server on behalf of the requester. The system
   * package variant returns the command; the Python one returns `None`.
   */
  method Uninstall(db: Db, pkg: Package, python: bool, requestedBy: Option<Id>, now: Time) returns (r: Result<Option<Id>, Failure>)
    requires db.ValidCommands() && pkg.server in db.servers
    modifies db`commands, db`outbox, db`nextCommand
    ensures db.ValidCommands()
    ensures !Usable(db.servers[pkg.server]) ==> r == Err(ValidationError("Invalid server.")) && db.commands == old(db.commands)
    ensures Usable(db.servers[pkg.server]) ==>
      r == Ok(if python then None else Some(old(db.nextCommand))) &&
      db.commands == old(db.commands)[old(db.nextCommand) := ServerOps.Created(pkg.server, Internal, UninstallLine(pkg.name, python),
                                                                              None, requestedBy, [], IsConnected(db.sessions, pkg.server), now)]
    ensures old(db.outbox) <= db.outbox &&
      ServerOps.PushedOnCreation(db.outbox[|old(db.outbox)|..], db.sessions, db.commands, old(db.nextCommand), db.nextCommand)
  {
    var issued := ServerOps.Execute(db, pkg.server, UninstallLine(pkg.name, python), Internal, None, requestedBy, [], now);
    ServerOps.PushedByExecute(db.outbox[|old(db.outbox)|..], db.sessions, old(db.commands), db.commands, old(db.nextCommand),
                              db.nextCommand, pkg.server, Internal, UninstallLine(pkg.name, python), None, requestedBy, [], now);
    if issued.Err? {
      return Err(issued.error);
    }
    r := Ok(if python then None else Some(issued.value));
  }

  /** The two kinds of package never share a command line, whatever their names. */
  lemma UninstallLinesTellKindsApart(a: string, b: string)
    ensures UninstallLine(a, true) != UninstallLine(b, false)
  {
    assert UninstallLine(a, true)[0..2] == "py";
    assert UninstallLine(b, false)[0..2] == "pa";
  }

  // ----- OS version reports -----

  /** A key of the request data that may be missing, given as `null`, or given with a value. */
  datatype Field<T> = Absent | Null | Given(value: T)

  /** The fields of an OS version report that `OsVersionSerializer.validate` reads. */
  datatype OsReport = OsReport(name: string, version: string, major: Field<int>, minor: Field<int>, platform: string,
                               platformLike: Option<string>)

  /** `validate_name`: three distribution names are shortened; every other name is kept. */
  function NormalizedName(name: string): (r: string)
    ensures r == "Debian" <==> name == "Debian GNU/Linux" || name == "Debian"
    ensures r == "CentOS" <==> name == "CentOS Linux" || name == "CentOS"
    ensures r == "RHEL" <==> name == "Red Hat Enterprise Linux" || name == "RHEL"
    ensures name != "Debian GNU/Linux" && name != "CentOS Linux" && name != "Red Hat Enterprise Linux" ==> r == name
  {
    if name == "Debian GNU/Linux" then "Debian"
    else if name == "CentOS Linux" then "CentOS"
    else if name == "Red Hat Enterprise Linux" then "RHEL"
    else name
  }

  /** Normalising a normalised name changes nothing. */
  lemma NormalizedNameIsIdempotent(name: string)
    ensures NormalizedName(NormalizedName(name)) == NormalizedName(name)
  {
  }

  /** `s.rsplit(c)[0]`: the text before the first `c`, or all of `s`. */
  function BeforeFirst(s: string, c: char): (r: string)
    ensures r <= s && c !in r
    ensures |r| < |s| ==> s[|r|] == c
    decreases |s|
  {
    if s == [] || s[0] == c then [] else [s[0]] + BeforeFirst(s[1..], c)
  }

  /** `s.replace(pattern, '')`: every occurrence found scanning left to right is removed. */
  function RemoveAll(s: string, pattern: string): (r: string)
    requires pattern != []
    ensures |r| <= |s|
    ensures |s| < |pattern| ==> r == s
    decreases |s|
  {
    if |s| < |pattern| then s
    else if s[..|pattern|] == pattern then RemoveAll(s[|pattern|..], pattern)
    else [s[0]] + RemoveAll(s[1..], pattern)
  }

  /** `'%d' % n`. */
  function IntText(n: int): string
  {
    if n < 0 then "-" + DecimalText(-n) else DecimalText(n)
  }

  const NOT_A_NUMBER: string := "%d format: a real number is required, not NoneType"

  /** The `'%d.%d' % (major, minor)` of CentOS and RHEL: a missing key raises `KeyError`, a `None` one `TypeError`. */
  function MajorMinor(major: Field<int>, minor: Field<int>): (r: Result<string, Failure>)
    ensures r.Ok? <==> major.Given? && minor.Given?
    ensures r.Ok? ==> r.value == IntText(major.value) + "." + IntText(minor.value)
    ensures major.Absent? ==> r == Err(KeyError("major"))
    ensures major.Given? && minor.Absent? ==> r == Err(KeyError("minor"))
  {
    if major.Absent? then Err(KeyError("major"))
    else if minor.Absent? then Err(KeyError("minor"))
    else if major.Null? || minor.Null? then Err(TypeError(NOT_A_NUMBER))
    else Ok(IntText(major.value) + "." + IntText(minor.value))
  }

  /** The version text `validate` keeps for a distribution name that is not CentOS or RHEL. */
  function ReportedVersion(name: string, version: string): (r: string)
  {
    if name == "Ubuntu" then RemoveAll(ServerOps.Strip(BeforeFirst(version, '(')), " LTS")
    else if name == "Debian" then ServerOps.Strip(BeforeFirst(version, '('))
    else version
  }

  /**
   * `OsVersionSerializer.validate_name` and `validate`: the name is
   * normalised; CentOS and RHEL get the version `<major>.<minor>`, Ubuntu
   * and Debian keep the text before the first `(`, stripped (Ubuntu also
   * without " LTS"), and other systems keep their version; a missing or empty
   * `platform_like` becomes the platform, a missing key raising `KeyError`.
   */
  function ValidatedOs(a: OsReport): (r: Result<OsReport, Failure>)
    ensures r.Ok? ==> r.value.name == NormalizedName(a.name) && r.value.platform == a.platform
    ensures r.Ok? ==> r.value.major == a.major && r.value.minor == a.minor
    ensures r.Ok? ==> a.platformLike.Some?
    ensures r.Ok? ==> r.value.platformLike == Some(if a.platformLike.value == "" then a.platform else a.platformLike.value)
    ensures r.Ok? && NormalizedName(a.name) in {"CentOS", "RHEL"} ==>
      MajorMinor(a.major, a.minor).Ok? && r.value.version == MajorMinor(a.major, a.minor).value
    ensures r.Ok? && NormalizedName(a.name) !in {"CentOS", "RHEL"} ==> r.value.version == ReportedVersion(NormalizedName(a.name), a.version)
    ensures NormalizedName(a.name) !in {"CentOS", "RHEL"} ==> (r.Ok? <==> a.platformLike.Some?)
    ensures NormalizedName(a.name) in {"CentOS", "RHEL"} ==> (r.Ok? <==> MajorMinor(a.major, a.minor).Ok? && a.platformLike.Some?)
  {
    var name := NormalizedName(a.name);
    var version :=
      if name == "CentOS" || name == "RHEL" then MajorMinor(a.major, a.minor)
      else Ok(ReportedVersion(name, a.version));
    if version.Err? then Err(version.error)
    else if a.platformLike.None? then Err(KeyError("platform_like"))
    else
      var like := if a.platformLike.value == "" then a.platform else a.platformLike.value;
      Ok(a.(name := name, version := version.value, platformLike := Some(like)))
  }

  lemma {:induction false} BeforeFirstAt(s: string, c: char, i: nat)
    requires i < |s| && s[i] == c && c !in s[..i]
    ensures BeforeFirst(s, c) == s[..i]
    decreases i
  {
    if i > 0 {
      assert s[0] in s[..i];
      assert s[1..][..i - 1] == s[1..i];
      assert c !in s[1..][..i - 1];
      BeforeFirstAt(s[1..], c, i - 1);
      assert s[..i] == [s[0]] + s[1..i];
    }
  }

  /** A text with no space at either end but one trailing space strips to the text before it. */
  lemma StripOneTrailingSpace(s: string)
    requires |s| >= 2 && !ServerOps.IsSpace(s[0]) && !ServerOps.IsSpace(s[|s| - 2]) && ServerOps.IsSpace(s[|s| - 1])
    ensures ServerOps.Strip(s) == s[..|s| - 1]
  {
    var t := s[..|s| - 1];
    assert t[0] == s[0] && t[|t| - 1] == s[|s| - 2];
  }

  lemma {:induction false} RemoveTrailingPattern(a: string, pattern: string)
    requires pattern != [] && forall i :: 0 <= i < |a| ==> a[i] != pattern[0]
    ensures RemoveAll(a + pattern, pattern) == a
    decreases |a|
  {
    var s := a + pattern;
    if a == [] {
      assert s[..|pattern|] == pattern;
      assert s[|pattern|..] == [];
    } else {
      assert s[..|pattern|][0] == a[0];
      assert s[1..] == a[1..] + pattern;
      RemoveTrailingPattern(a[1..], pattern);
      assert s == [a[0]] + s[1..];
    }
  }

  /**
   * Ubuntu reports its version as `<release> LTS (<code name>)`: the model
   * keeps the release alone, whatever the code name.
   */
  lemma UbuntuKeepsTheRelease(release: string, codename: string)
    requires release != [] && forall i :: 0 <= i < |release| ==> !ServerOps.IsSpace(release[i]) && release[i] != '('
    ensures ReportedVersion("Ubuntu", release + " LTS (" + codename + ")") == release
  {
    var s := release + " LTS (" + codename + ")";
    var n := |release|;
    assert s[..n + 5] == release + " LTS ";
    BeforeFirstAt(s, '(', n + 5);
    var t := release + " LTS ";
    StripOneTrailingSpace(t);
    assert t[..|t| - 1] == release + " LTS";
    RemoveTrailingPattern(release, " LTS");
  }

  /** Debian reports its version as `<release> (<code name>)`: the model keeps the release alone. */
  lemma DebianKeepsTheRelease(release: string, codename: string)
    requires release != [] && forall i :: 0 <= i < |release| ==> !ServerOps.IsSpace(release[i]) && release[i] != '('
    ensures ReportedVersion("Debian", release + " (" + codename + ")") == release
  {
    var s := release + " (" + codename + ")";
    var n := |release|;
    assert s[..n + 1] == release + " ";
    BeforeFirstAt(s, '(', n + 1);
    var t := release + " ";
    StripOneTrailingSpace(t);
    assert t[..|t| - 1] == release;
  }

  /** A CentOS report is renamed and its version rebuilt from the major and minor numbers; a RHEL one without a minor number raises. */
  lemma RedHatExamples()
    ensures ValidatedOs(OsReport("CentOS Linux", "7 (Core)", Given(7), Given(9), "centos", Some("rhel")))
            == Ok(OsReport("CentOS", "7.9", Given(7), Given(9), "centos", Some("rhel")))
    ensures ValidatedOs(OsReport("Red Hat Enterprise Linux", "8.6 (Ootpa)", Given(8), Null, "rhel", Some("fedora")))
            == Err(TypeError(NOT_A_NUMBER))
  {
    assert IntText(7) + "." + IntText(9) == "7.9";
  }

  // ----- interface address reports -----

  /** `InterfaceAddressSerializer.to_internal_value`: a falsy broadcast becomes `None`; a missing one raises `KeyError`. */
  function Broadcast(b: Field<string>): (r: Result<Option<string>, Failure>)
    ensures r.Ok? <==> !b.Absent?
    ensures r.Ok? ==> (r.value.None? <==> b.Null? || b.value == "")
    ensures r.Ok? && r.value.Some? ==> b == Given(r.value.value)
  {
    match b
    case Absent => Err(KeyError("broadcast"))
    case Null => Ok(None)
    case Given(s) => if s == "" then Ok(None) else Ok(Some(s))
  }
}
