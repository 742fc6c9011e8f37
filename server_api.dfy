// The server endpoints: the object permissions on servers and notes, the
// agent actions a user may trigger, starring, the pinned-note quota and the
// key update.
module ServerApi {
  import opened Common
  import opened Permissions
  import opened Sessions
  import opened Commands
  import opened ServerRows
  import opened IamRows
  import opened Store
  import ServerOps

  // ----- object permissions -----

  /** DRF's reading of `has_object_permission`'s result: `True` grants, `None` (falling off the end) refuses. */
  predicate Granted(r: Option<bool>)
  {
    r == Some(true)
  }

  /**
   * `ServerObjectPermission.has_object_permission` on the server `server`:
   * `True` for a safe method, for the agent of that very server, for staff
   * and superusers and for the owner; otherwise the method returns `None`.
   */
  function ServerObjectPermission(u: RequestUser, m: HttpMethod, server: Id, s: Server): (r: Option<bool>)
    ensures r != Some(false)
    ensures Safe(m) ==> Granted(r)
  {
    if Safe(m) || (u.AgentUser? && u.client == server) || Staff(u) || Superuser(u) || Pk(u) == Some(s.owner)
    then Some(true)
    else None
  }

  /**
   * Writing to a server: an agent only to its own server, an ordinary user
   * only to a server they own, an anonymous caller never; staff and
   * superusers may write to every server.
   */
  lemma ServerAccessRules(u: RequestUser, m: HttpMethod, server: Id, s: Server)
    requires !Safe(m)
    ensures u.AgentUser? ==> (Granted(ServerObjectPermission(u, m, server, s)) <==> u.client == server)
    ensures u.Person? && !u.isStaff && !u.isSuperuser ==> (Granted(ServerObjectPermission(u, m, server, s)) <==> u.pk == s.owner)
    ensures u.Anonymous? ==> !Granted(ServerObjectPermission(u, m, server, s))
    ensures Staff(u) || Superuser(u) ==> Granted(ServerObjectPermission(u, m, server, s))
  {
  }

  /**
   * `NoteObjectPermission.has_object_permission`: `True` for a safe method,
   * for staff and superusers on a note that is not private, and for the
   * note's author; otherwise `None`.
   */
  function NoteObjectPermission(u: RequestUser, m: HttpMethod, note: Note): (r: Option<bool>)
    ensures r != Some(false)
    ensures Safe(m) || Pk(u) == Some(note.author) ==> Granted(r)
  {
    if Safe(m) || (!note.private && (Staff(u) || Superuser(u))) || Pk(u) == Some(note.author)
    then Some(true)
    else None
  }

  /** A private note is writable by its author alone: not by staff, not by a superuser. */
  lemma PrivateNoteIsWritableOnlyByItsAuthor(u: RequestUser, m: HttpMethod, note: Note)
    requires note.private && !Safe(m)
    ensures Granted(NoteObjectPermission(u, m, note)) <==> Pk(u) == Some(note.author)
  {
  }

  /** On a note that is not private, staff and superusers may write as its author may; nobody else may. */
  lemma PublicNoteWriters(u: RequestUser, m: HttpMethod, note: Note)
    requires !note.private && !Safe(m)
    ensures Granted(NoteObjectPermission(u, m, note)) <==> Staff(u) || Superuser(u) || Pk(u) == Some(note.author)
  {
  }

  // ----- reach -----

  /**
   * The servers a non-staff user may pick (`RelatedServerField`) and whose
   * notes they may see: the ones they own and the ones authorized for a group
   * they have a membership row in. The join reads the membership table
   * directly, so a soft-deleted membership still counts.
   */
  predicate ServerReachable(u: RequestUser, s: Server, ms: map<Id, Membership>)
  {
    Staff(u) || Superuser(u) ||
    (u.Person? && (s.owner == u.pk || exists k :: k in ms && ms[k].user == u.pk && ms[k].group in s.groups))
  }

  /** Nobody but a signed-in user reaches a server through these fields. */
  lemma OnlyUsersReachServers(u: RequestUser, s: Server, ms: map<Id, Membership>)
    requires ServerReachable(u, s, ms)
    ensures u.Person?
  {
  }

  // ----- actions -----

  const NOT_COMMISSIONED: string := "Requested server is not commisioned yet. Please finish the installation steps first."
  const NOT_CONNECTED: string := "Requested server is not connected now. Please try again later."

  /** `ServerActionSerializer.validate`: commissioning is checked before the connection. */
  function ActionCheck(commissioned: bool, connected: bool): (r: Result<bool, Failure>)
    ensures r.Ok? <==> commissioned && connected
    ensures !commissioned ==> r == Err(ValidationError(NOT_COMMISSIONED))
    ensures commissioned && !connected ==> r == Err(ValidationError(NOT_CONNECTED))
  {
    if !commissioned then Err(ValidationError(NOT_COMMISSIONED))
    else if !connected then Err(ValidationError(NOT_CONNECTED))
    else Ok(true)
  }

  /**
   * The `actions` endpoint: the check, then the named action issued on
   * behalf of the requester. A refused request creates no command; an
   * accepted one on a usable server creates its action command, delivered at
   * once since the server is connected.
   */
  method RunAction(db: Db, server: Id, a: ServerOps.Action, requestedBy: Option<Id>, now: Time) returns (r: Result<Id, Failure>)
    requires db.ValidCommands() && server in db.servers
    modifies db`commands, db`outbox, db`nextCommand
    ensures db.ValidCommands()
    ensures ActionCheck(db.servers[server].commissioned, IsConnected(db.sessions, server)).Err? ==>
      r == Err(ActionCheck(db.servers[server].commissioned, IsConnected(db.sessions, server)).error) &&
      db.commands == old(db.commands) && db.outbox == old(db.outbox) && db.nextCommand == old(db.nextCommand)
    ensures ActionCheck(db.servers[server].commissioned, IsConnected(db.sessions, server)).Ok? && Usable(db.servers[server]) ==>
      r == Ok(old(db.nextCommand)) &&
      db.commands == old(db.commands)[r.value := ServerOps.Created(server, Internal, ServerOps.ActionLine(a), None, requestedBy, [], true, now)]
    ensures !Usable(db.servers[server]) && db.servers[server].commissioned && IsConnected(db.sessions, server) ==>
      r == Err(ValidationError("Invalid server.")) && db.commands == old(db.commands)
  {
    var check := ActionCheck(db.servers[server].commissioned, IsConnected(db.sessions, server));
    if check.Err? {
      return Err(check.error);
    }
    r := ServerOps.Act(db, server, a, requestedBy, now);
  }

  // ----- stars -----

  const ALREADY_STARRED: string := "You already have starred this server."
  const ALREADY_UNSTARRED: string := "You already have unstarred this server."
  const STAR_LIMIT: string := "You can star up to 5 servers. Please unstar one first."

  /** The star rows of `user`. */
  function StarsOf(stars: map<Id, Star>, user: Id): (r: set<Id>)
    ensures forall k :: k in r <==> k in stars && stars[k].user == user
  {
    set k | k in stars && stars[k].user == user
  }

  /**
   * `ServerStarStatusSerializer.validate`: starring a starred server and
   * unstarring an unstarred one are refused, and so is a sixth star. The
   * accepted value is the new starred status.
   */
  function StarCheck(status: bool, starred: bool, count: nat): (r: Result<bool, Failure>)
    ensures r.Ok? <==> (if status then !starred && count < MAX_STARRED_SERVERS else starred)
    ensures r.Ok? ==> r.value == status
    ensures status && starred ==> r == Err(ValidationError(ALREADY_STARRED))
    ensures !status && !starred ==> r == Err(ValidationError(ALREADY_UNSTARRED))
    ensures status && !starred && count >= MAX_STARRED_SERVERS ==> r == Err(ValidationError(STAR_LIMIT))
  {
    if status && starred then Err(ValidationError(ALREADY_STARRED))
    else if !status && !starred then Err(ValidationError(ALREADY_UNSTARRED))
    else if status && count >= MAX_STARRED_SERVERS then Err(ValidationError(STAR_LIMIT))
    else Ok(status)
  }

  /** `instance` is what the view found: the star row of this user on this server, or `None` when there is none. */
  predicate StarLookup(stars: map<Id, Star>, user: Id, server: Id, instance: Option<Id>)
  {
    match instance
    case Some(k) => k in stars && stars[k] == Star(user, server)
    case None => forall k :: k in stars ==> stars[k] != Star(user, server)
  }

  /** The star table after an accepted request: `get_or_create` adds the row under `slot`, unstarring deletes the row found. */
  function Starred(stars: map<Id, Star>, user: Id, server: Id, status: bool, instance: Option<Id>, slot: Id): (r: map<Id, Star>)
    requires status || instance.Some?
    ensures status ==> r == stars[slot := Star(user, server)]
    ensures !status ==> r.Keys == stars.Keys - {instance.value} && forall k :: k in r ==> r[k] == stars[k]
  {
    if status then stars[slot := Star(user, server)] else stars - {instance.value}
  }

  /**
   * The `star` endpoint's POST: the check, then the save. The result is the
   * representation `status = (instance is not None)` after the save.
   */
  method SetStar(db: Db, user: Id, server: Id, status: bool, instance: Option<Id>, slot: Id) returns (r: Result<bool, Failure>)
    requires StarLookup(db.stars, user, server, instance) && slot !in db.stars
    modifies db`stars
    ensures r == StarCheck(status, instance.Some?, |StarsOf(old(db.stars), user)|)
    ensures r.Err? ==> db.stars == old(db.stars)
    ensures r.Ok? ==> db.stars == Starred(old(db.stars), user, server, status, instance, slot)
  {
    r := StarCheck(status, instance.Some?, |StarsOf(db.stars, user)|);
    if r.Ok? {
      db.stars := Starred(db.stars, user, server, status, instance, slot);
    }
  }

  /**
   * Stars go through the check, so a user who has at most five stars still
   * has at most five after any accepted request, and no other user's stars
   * change.
   */
  lemma StarQuotaIsKept(stars: map<Id, Star>, user: Id, server: Id, status: bool, instance: Option<Id>, slot: Id, other: Id)
    requires StarLookup(stars, user, server, instance) && slot !in stars
    requires StarCheck(status, instance.Some?, |StarsOf(stars, user)|).Ok?
    requires |StarsOf(stars, user)| <= MAX_STARRED_SERVERS
    ensures |StarsOf(Starred(stars, user, server, status, instance, slot), user)| <= MAX_STARRED_SERVERS
    ensures other != user ==> StarsOf(Starred(stars, user, server, status, instance, slot), other) == StarsOf(stars, other)
  {
    var after := Starred(stars, user, server, status, instance, slot);
    if status {
      assert StarsOf(after, user) == StarsOf(stars, user) + {slot};
    } else {
      assert StarsOf(after, user) == StarsOf(stars, user) - {instance.value};
    }
  }

  /** Starring a server and then unstarring it leaves the star table as it was. */
  lemma StarThenUnstarRestores(stars: map<Id, Star>, user: Id, server: Id, slot: Id, slot2: Id)
    requires StarLookup(stars, user, server, None) && slot !in stars
    ensures StarLookup(Starred(stars, user, server, true, None, slot), user, server, Some(slot))
    ensures Starred(Starred(stars, user, server, true, None, slot), user, server, false, Some(slot), slot2) == stars
  {
    var after := Starred(stars, user, server, true, None, slot);
    assert Starred(after, user, server, false, Some(slot), slot2).Keys == stars.Keys;
  }

  // ----- notes -----

  const PIN_LIMIT: string := "There can be at most 3 pinned notes. Please remove another one first."
  const CONTENT_TOO_LONG: string := "Ensure this field has no more than 512 characters."
  const CONTENT_MAX_LENGTH: nat := 512

  /** The keys of the pinned notes of `server`. */
  function PinnedOn(notes: map<Id, Note>, server: Id): (r: set<Id>)
    ensures forall k :: k in r <==> k in notes && notes[k].server == server && notes[k].pinned
  {
    set k | k in notes && notes[k].server == server && notes[k].pinned
  }

  /** Every server has at most three pinned notes. */
  predicate PinQuota(notes: map<Id, Note>)
  {
    forall k :: k in notes ==> |PinnedOn(notes, notes[k].server)| <= MAX_PINNED_NOTES
  }

  /**
   * `NoteViewSet.get_queryset`: a private note is seen by its author only,
   * and a note at all only by staff, superusers and those who reach its
   * server. The view's own `permission_classes` leave out
   * `IsAuthenticated`, and for an anonymous caller the queryset's
   * `groups__membership__user__pk=None` would match servers whose groups
   * have no membership; the model gives an anonymous caller no note at all.
   */
  predicate NoteVisible(servers: map<Id, Server>, ms: map<Id, Membership>, u: RequestUser, note: Note)
  {
    (!note.private || Pk(u) == Some(note.author)) &&
    note.server in servers && ServerReachable(u, servers[note.server], ms)
  }

  datatype NewNote = NewNote(server: Id, content: string, private: bool, pinned: bool)

  /**
   * Note creation: the server field accepts only a server the requester
   * reaches, then the content must be non-blank (the column has no
   * `blank=True`) and within its length, then `NoteCreateSerializer.validate`'s
   * quota on a pinned note; the author is the requester.
   */
  function NoteCreation(notes: map<Id, Note>, servers: map<Id, Server>, ms: map<Id, Membership>, u: RequestUser, n: NewNote)
    : (r: Result<Note, Failure>)
    ensures r.Ok? ==> u.Person? && r.value == Note(n.server, u.pk, n.content, n.private, n.pinned)
    ensures r.Ok? <==>
      n.server in servers && ServerReachable(u, servers[n.server], ms) && n.content != "" && |n.content| <= CONTENT_MAX_LENGTH &&
      (n.pinned ==> |PinnedOn(notes, n.server)| < MAX_PINNED_NOTES)
    ensures n.server in servers && ServerReachable(u, servers[n.server], ms) && n.content == "" ==>
      r == Err(ValidationError(FIELD_BLANK))
    ensures n.server in servers && ServerReachable(u, servers[n.server], ms) && n.content != "" && |n.content| <= CONTENT_MAX_LENGTH &&
            n.pinned && |PinnedOn(notes, n.server)| >= MAX_PINNED_NOTES ==>
      r == Err(ValidationError(PIN_LIMIT))
  {
    if n.server !in servers || !ServerReachable(u, servers[n.server], ms) then Err(ValidationError(InvalidPk(n.server)))
    else if n.content == "" then Err(ValidationError(FIELD_BLANK))
    else if |n.content| > CONTENT_MAX_LENGTH then Err(ValidationError(CONTENT_TOO_LONG))
    else if n.pinned && |PinnedOn(notes, n.server)| >= MAX_PINNED_NOTES then Err(ValidationError(PIN_LIMIT))
    else Ok(Note(n.server, u.pk, n.content, n.private, n.pinned))
  }

  /** `NoteViewSet.create`: the row of `NoteCreation` saved under the unused key `slot`. */
  method CreateNote(db: Db, u: RequestUser, n: NewNote, slot: Id) returns (r: Result<Id, Failure>)
    requires slot !in db.notes
    modifies db`notes
    ensures NoteCreation(old(db.notes), db.servers, db.memberships, u, n).Err? ==>
      r == Err(NoteCreation(old(db.notes), db.servers, db.memberships, u, n).error) && db.notes == old(db.notes)
    ensures NoteCreation(old(db.notes), db.servers, db.memberships, u, n).Ok? ==>
      r == Ok(slot) && db.notes == old(db.notes)[slot := NoteCreation(old(db.notes), db.servers, db.memberships, u, n).value]
  {
    var created := NoteCreation(db.notes, db.servers, db.memberships, u, n);
    if created.Err? {
      return Err(created.error);
    }
    db.notes := db.notes[slot := created.value];
    r := Ok(slot);
  }

  datatype NotePatch = NotePatch(content: Option<string>, private: Option<bool>, pinned: Option<bool>)

  function OrKeep<T>(given: Option<T>, current: T): T
  {
    if given.Some? then given.value else current
  }

  /**
   * `NoteViewSet.update`: a note the requester cannot see is not found, a
   * note they may not write is refused, then a blank content, then the content length, then
   * `validate_pinned`, whose quota applies only to a note going from
   * unpinned to pinned; the server and the author never change.
   */
  function NoteUpdate(notes: map<Id, Note>, servers: map<Id, Server>, ms: map<Id, Membership>, u: RequestUser,
                      m: HttpMethod, k: Id, p: NotePatch): (r: Result<Note, Failure>)
    requires k in notes
    ensures r.Ok? ==> NoteVisible(servers, ms, u, notes[k]) && Granted(NoteObjectPermission(u, m, notes[k]))
    ensures r.Ok? ==> r.value.server == notes[k].server && r.value.author == notes[k].author
    ensures r.Ok? ==> r.value.pinned == OrKeep(p.pinned, notes[k].pinned) && r.value.private == OrKeep(p.private, notes[k].private)
    ensures r.Ok? ==> r.value.content == OrKeep(p.content, notes[k].content) && p.content != Some("")
    ensures r.Ok? && r.value.pinned && !notes[k].pinned ==> |PinnedOn(notes, notes[k].server)| < MAX_PINNED_NOTES
    ensures !NoteVisible(servers, ms, u, notes[k]) ==> r == Err(DoesNotExist)
    ensures NoteVisible(servers, ms, u, notes[k]) && Granted(NoteObjectPermission(u, m, notes[k])) && p.content == Some("") ==>
      r == Err(ValidationError(FIELD_BLANK))
  {
    var note := notes[k];
    if !NoteVisible(servers, ms, u, note) then Err(DoesNotExist)
    else if !Granted(NoteObjectPermission(u, m, note)) then Err(PermissionDenied(NOT_PERMITTED))
    else if p.content == Some("") then Err(ValidationError(FIELD_BLANK))
    else if p.content.Some? && |p.content.value| > CONTENT_MAX_LENGTH then Err(ValidationError(CONTENT_TOO_LONG))
    else if p.pinned == Some(true) && !note.pinned && |PinnedOn(notes, note.server)| >= MAX_PINNED_NOTES then
      Err(ValidationError(PIN_LIMIT))
    else Ok(note.(content := OrKeep(p.content, note.content), private := OrKeep(p.private, note.private),
                  pinned := OrKeep(p.pinned, note.pinned)))
  }

  const NOT_PERMITTED: string := "You do not have permission to perform this action."

  method UpdateNote(db: Db, u: RequestUser, m: HttpMethod, k: Id, p: NotePatch) returns (r: Result<Id, Failure>)
    requires k in db.notes
    modifies db`notes
    ensures NoteUpdate(old(db.notes), db.servers, db.memberships, u, m, k, p).Err? ==>
      r == Err(NoteUpdate(old(db.notes), db.servers, db.memberships, u, m, k, p).error) && db.notes == old(db.notes)
    ensures NoteUpdate(old(db.notes), db.servers, db.memberships, u, m, k, p).Ok? ==>
      r == Ok(k) && db.notes == old(db.notes)[k := NoteUpdate(old(db.notes), db.servers, db.memberships, u, m, k, p).value]
  {
    var updated := NoteUpdate(db.notes, db.servers, db.memberships, u, m, k, p);
    if updated.Err? {
      return Err(updated.error);
    }
    db.notes := db.notes[k := updated.value];
    r := Ok(k);
  }

  /** `NoteViewSet.destroy`: the same visibility and permission guards, then a hard delete. */
  function NoteRemoval(notes: map<Id, Note>, servers: map<Id, Server>, ms: map<Id, Membership>, u: RequestUser, k: Id)
    : (r: Result<map<Id, Note>, Failure>)
    requires k in notes
    ensures r.Ok? <==> NoteVisible(servers, ms, u, notes[k]) && Granted(NoteObjectPermission(u, DELETE, notes[k]))
    ensures r.Ok? ==> r.value.Keys == notes.Keys - {k} && forall j :: j in r.value ==> r.value[j] == notes[j]
  {
    if !NoteVisible(servers, ms, u, notes[k]) then Err(DoesNotExist)
    else if !Granted(NoteObjectPermission(u, DELETE, notes[k])) then Err(PermissionDenied(NOT_PERMITTED))
    else Ok(notes - {k})
  }

  method DestroyNote(db: Db, u: RequestUser, k: Id) returns (r: Result<Id, Failure>)
    requires k in db.notes
    modifies db`notes
    ensures NoteRemoval(old(db.notes), db.servers, db.memberships, u, k).Err? ==>
      r == Err(NoteRemoval(old(db.notes), db.servers, db.memberships, u, k).error) && db.notes == old(db.notes)
    ensures NoteRemoval(old(db.notes), db.servers, db.memberships, u, k).Ok? ==>
      r == Ok(k) && db.notes == NoteRemoval(old(db.notes), db.servers, db.memberships, u, k).value
  {
    var removed := NoteRemoval(db.notes, db.servers, db.memberships, u, k);
    if removed.Err? {
      return Err(removed.error);
    }
    db.notes := removed.value;
    r := Ok(k);
  }

  /**
   * Another user's private note cannot be changed or deleted through the
   * API by anyone, staff and superusers included: it is not even found.
   */
  lemma PrivateNotesStayWithTheirAuthor(notes: map<Id, Note>, servers: map<Id, Server>, ms: map<Id, Membership>,
                                        u: RequestUser, m: HttpMethod, k: Id, p: NotePatch)
    requires k in notes && notes[k].private && Pk(u) != Some(notes[k].author)
    ensures NoteUpdate(notes, servers, ms, u, m, k, p) == Err(DoesNotExist)
    ensures NoteRemoval(notes, servers, ms, u, k) == Err(DoesNotExist)
  {
  }

  /** The quota holds for every server, not only for those that have notes. */
  lemma QuotaEverywhere(notes: map<Id, Note>, s: Id)
    requires PinQuota(notes)
    ensures |PinnedOn(notes, s)| <= MAX_PINNED_NOTES
  {
    if PinnedOn(notes, s) != {} {
      var j :| j in PinnedOn(notes, s);
    }
  }

  /** The server of a pinned note written under `k`: the note joins the pinned set. */
  lemma PinnedAfterPin(notes: map<Id, Note>, k: Id, note: Note)
    requires note.pinned
    ensures PinnedOn(notes[k := note], note.server) == PinnedOn(notes, note.server) + {k}
  {
  }

  /** Any other server: the written note is at most dropped from the pinned set. */
  lemma PinnedAfterOther(notes: map<Id, Note>, k: Id, note: Note, s: Id)
    requires !(note.pinned && note.server == s)
    ensures PinnedOn(notes[k := note], s) == PinnedOn(notes, s) - {k}
  {
  }

  /** One server's pinned notes after writing `note` under `k`. */
  lemma PinnedAfterWrite(notes: map<Id, Note>, k: Id, note: Note, s: Id)
    requires |PinnedOn(notes, s)| <= MAX_PINNED_NOTES
    requires k in notes ==> note.server == notes[k].server
    requires note.pinned && (k !in notes || !notes[k].pinned) ==> |PinnedOn(notes, note.server)| < MAX_PINNED_NOTES
    ensures |PinnedOn(notes[k := note], s)| <= MAX_PINNED_NOTES
  {
    var before := PinnedOn(notes, s);
    if note.pinned && note.server == s {
      PinnedAfterPin(notes, k, note);
      if k in before {
        assert before + {k} == before;
      }
    } else {
      PinnedAfterOther(notes, k, note, s);
      if k !in before {
        assert before - {k} == before;
      }
    }
  }

  /** Writing a note whose pin, if new, finds fewer than three pinned notes on its server keeps the quota. */
  lemma PinningKeepsQuota(notes: map<Id, Note>, k: Id, note: Note)
    requires PinQuota(notes)
    requires k in notes ==> note.server == notes[k].server
    requires note.pinned && (k !in notes || !notes[k].pinned) ==> |PinnedOn(notes, note.server)| < MAX_PINNED_NOTES
    ensures PinQuota(notes[k := note])
  {
    var after := notes[k := note];
    forall j | j in after ensures |PinnedOn(after, after[j].server)| <= MAX_PINNED_NOTES {
      QuotaEverywhere(notes, after[j].server);
      PinnedAfterWrite(notes, k, note, after[j].server);
    }
  }

  /** Creating and updating notes through the API never takes a server past three pinned notes. */
  lemma NoteWritesKeepPinQuota(notes: map<Id, Note>, servers: map<Id, Server>, ms: map<Id, Membership>, u: RequestUser,
                               m: HttpMethod, n: NewNote, slot: Id, k: Id, p: NotePatch)
    requires PinQuota(notes) && slot !in notes
    ensures NoteCreation(notes, servers, ms, u, n).Ok? ==> PinQuota(notes[slot := NoteCreation(notes, servers, ms, u, n).value])
    ensures k in notes && NoteUpdate(notes, servers, ms, u, m, k, p).Ok? ==>
      PinQuota(notes[k := NoteUpdate(notes, servers, ms, u, m, k, p).value])
  {
    if NoteCreation(notes, servers, ms, u, n).Ok? {
      PinningKeepsQuota(notes, slot, NoteCreation(notes, servers, ms, u, n).value);
    }
    if k in notes && NoteUpdate(notes, servers, ms, u, m, k, p).Ok? {
      PinningKeepsQuota(notes, k, NoteUpdate(notes, servers, ms, u, m, k, p).value);
    }
  }

  // ----- server update -----

  /** The writable fields of `ServerSerializer`; `key` is the raw key. */
  datatype ServerPatch = ServerPatch(name: Option<string>, key: Option<string>, owner: Option<Id>, groups: Option<set<Id>>)

  /**
   * `ServerSerializer.update`: a given key goes through `set_key` (the hash
   * `hash` stands for `make_password`) and is then dropped from the fields
   * assigned directly; every other given field is assigned as it is.
   */
  function ServerUpdated(s: Server, p: ServerPatch, hash: string -> string): (r: Server)
    ensures p.key.Some? ==> r.keyHash == hash(p.key.value)
    ensures p.key.None? ==> r.keyHash == s.keyHash
    ensures r.name == OrKeep(p.name, s.name) && r.owner == OrKeep(p.owner, s.owner) && r.groups == OrKeep(p.groups, s.groups)
    ensures r.(name := s.name, owner := s.owner, groups := s.groups, keyHash := s.keyHash) == s
  {
    var hashed := if p.key.Some? then s.(keyHash := hash(p.key.value)) else s;
    hashed.(name := OrKeep(p.name, s.name), owner := OrKeep(p.owner, s.owner), groups := OrKeep(p.groups, s.groups))
  }

  /** The stored key is always the hash of the raw key given: the raw key itself is stored only when hashing leaves it unchanged. */
  lemma RawKeyIsNeverStored(s: Server, p: ServerPatch, hash: string -> string)
    requires p.key.Some? && hash(p.key.value) != p.key.value
    ensures ServerUpdated(s, p, hash).keyHash != p.key.value
  {
  }

  method UpdateServer(db: Db, k: Id, p: ServerPatch, hash: string -> string)
    requires k in db.servers
    modifies db`servers
    ensures db.servers == old(db.servers)[k := ServerUpdated(old(db.servers[k]), p, hash)]
  {
    db.servers := db.servers[k := ServerUpdated(db.servers[k], p, hash)];
  }
}
