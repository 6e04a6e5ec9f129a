/**
 * The record store behind the API: one table per entity, the user
 * upsert (insert, or merge into the existing row), and the create,
 * select, delete and update accessors. When no database is configured
 * (`available` is false) every write raises `Unavailable`, except the
 * audit-log insert and the user upsert, which return silently; every
 * read returns an empty result.
 */
module Db {
  import opened Wrappers
  import opened Schema
  import opened Tables

  datatype DbError = Unavailable | DuplicateKey | MissingUserId

  // ---------------------------------------------------------------------
  // User upsert
  // ---------------------------------------------------------------------

  /**
   * The caller's user record. Each nullable field is `None` when omitted,
   * `Some(None)` when given as null and `Some(Some(v))` when given a value.
   */
  datatype UpsertInput = UpsertInput(
    id: Id,
    name: Option<Option<string>>,
    email: Option<Option<string>>,
    loginMethod: Option<Option<string>>,
    role: Option<Role>,
    createdAt: Option<Option<Timestamp>>,
    lastSignedIn: Option<Option<Timestamp>>)

  /** The columns an insert or an update writes; `None` means the column is not written. */
  datatype UserPatch = UserPatch(
    name: Option<Option<string>>,
    email: Option<Option<string>>,
    loginMethod: Option<Option<string>>,
    lastSignedIn: Option<Option<Timestamp>>,
    role: Option<Role>)

  const EmptyPatch: UserPatch := UserPatch(None, None, None, None, None)

  /** The nullable text columns the upsert copies one by one. */
  datatype TextField = Name | Email | LoginMethod
  const TextFields: seq<TextField> := [Name, Email, LoginMethod]

  function InputText(u: UpsertInput, f: TextField): Option<Option<string>> {
    match f
    case Name => u.name
    case Email => u.email
    case LoginMethod => u.loginMethod
  }

  function PatchText(p: UserPatch, f: TextField): Option<Option<string>> {
    match f
    case Name => p.name
    case Email => p.email
    case LoginMethod => p.loginMethod
  }

  function WithText(p: UserPatch, f: TextField, v: Option<Option<string>>): (r: UserPatch)
    ensures PatchText(r, f) == v
    ensures forall g :: g != f ==> PatchText(r, g) == PatchText(p, g)
    ensures r.lastSignedIn == p.lastSignedIn && r.role == p.role
  {
    match f
    case Name => p.(name := v)
    case Email => p.(email := v)
    case LoginMethod => p.(loginMethod := v)
  }

  /** The owner is promoted to admin only when the caller leaves `role` out. */
  predicate PromotesOwner(u: UpsertInput, ownerId: Id) {
    u.role.None? && u.id == ownerId
  }

  /** The caller supplied no column the upsert would write. */
  predicate NothingSupplied(u: UpsertInput, ownerId: Id) {
    u.name.None? && u.email.None? && u.loginMethod.None? && u.lastSignedIn.None? && !PromotesOwner(u, ownerId)
  }

  /**
   * The columns of the inserted row: each text field and `lastSignedIn`
   * exactly as supplied (omitted stays omitted, null stays null), and
   * `role` only for the promoted owner. A caller's `role` and `createdAt`
   * are never copied.
   */
  function InsertValues(u: UpsertInput, ownerId: Id): (r: UserPatch)
    ensures forall f :: PatchText(r, f) == InputText(u, f)
    ensures r.lastSignedIn == u.lastSignedIn
    ensures r.role == if PromotesOwner(u, ownerId) then Some(AdminRole) else None
    ensures r == EmptyPatch <==> NothingSupplied(u, ownerId)
  {
    UserPatch(u.name, u.email, u.loginMethod, u.lastSignedIn,
              if PromotesOwner(u, ownerId) then Some(AdminRole) else None)
  }

  /**
   * The columns updated when the row exists: the inserted ones, or, when
   * the caller supplied nothing, only `lastSignedIn := now`. Never empty.
   */
  function UpdateSet(u: UpsertInput, ownerId: Id, now: Timestamp): (r: UserPatch)
    ensures r != EmptyPatch
    ensures !NothingSupplied(u, ownerId) ==> r == InsertValues(u, ownerId)
    ensures NothingSupplied(u, ownerId) ==> r == EmptyPatch.(lastSignedIn := Some(Some(now)))
  {
    var values := InsertValues(u, ownerId);
    if values == EmptyPatch then values.(lastSignedIn := Some(Some(now))) else values
  }

  /** Builds the insert values and the update set field by field, as the upsert does. */
  method BuildUpsert(user: UpsertInput, ownerId: Id, now: Timestamp) returns (values: UserPatch, updateSet: UserPatch)
    ensures values == InsertValues(user, ownerId)
    ensures updateSet == UpdateSet(user, ownerId, now)
  {
    values, updateSet := EmptyPatch, EmptyPatch;
    for i := 0 to |TextFields|
      invariant updateSet == values
      invariant forall j :: 0 <= j < i ==> PatchText(values, TextFields[j]) == InputText(user, TextFields[j])
      invariant forall j :: i <= j < |TextFields| ==> PatchText(values, TextFields[j]) == None
      invariant values.lastSignedIn == None && values.role == None
    {
      var field := TextFields[i];
      var value := InputText(user, field);
      if value != None {
        values := WithText(values, field, value);
        updateSet := WithText(updateSet, field, value);
      }
    }
    assert PatchText(values, TextFields[0]) == user.name;
    assert PatchText(values, TextFields[1]) == user.email;
    assert PatchText(values, TextFields[2]) == user.loginMethod;
    if user.lastSignedIn != None {
      values := values.(lastSignedIn := user.lastSignedIn);
      updateSet := updateSet.(lastSignedIn := user.lastSignedIn);
    }
    if user.role == None {
      if user.id == ownerId {
        values := values.(role := Some(AdminRole));
        updateSet := updateSet.(role := Some(AdminRole));
      }
    }
    if updateSet == EmptyPatch {
      updateSet := updateSet.(lastSignedIn := Some(Some(now)));
    }
  }

  /** Column `after` holds the written value `w`, or `before` when the column is not written. */
  predicate Written<T(==)>(w: Option<T>, before: T, after: T) {
    if w.Some? then after == w.value else after == before
  }

  /**
   * The existing row with the update set written over it: the key and the
   * creation time are never written, and an empty set changes nothing.
   */
  function ApplyPatch(u: User, p: UserPatch): (r: User)
    ensures r.id == u.id && r.createdAt == u.createdAt
    ensures Written(p.name, u.name, r.name) && Written(p.email, u.email, r.email)
    ensures Written(p.loginMethod, u.loginMethod, r.loginMethod)
    ensures Written(p.role, u.role, r.role) && Written(p.lastSignedIn, u.lastSignedIn, r.lastSignedIn)
    ensures p == EmptyPatch ==> r == u
  {
    User(u.id, p.name.GetOr(u.name), p.email.GetOr(u.email), p.loginMethod.GetOr(u.loginMethod),
         p.role.GetOr(u.role), u.createdAt, p.lastSignedIn.GetOr(u.lastSignedIn))
  }

  /** A new row: columns not written take their defaults (null, `user`, `now`). */
  function NewUser(id: Id, values: UserPatch, now: Timestamp): (r: User)
    ensures r.id == id && r.createdAt == Some(now)
    ensures Written(values.name, None, r.name) && Written(values.email, None, r.email)
    ensures Written(values.loginMethod, None, r.loginMethod)
    ensures Written(values.role, DefaultRole, r.role) && Written(values.lastSignedIn, Some(now), r.lastSignedIn)
  {
    User(id, values.name.GetOr(None), values.email.GetOr(None), values.loginMethod.GetOr(None),
         values.role.GetOr(DefaultRole), Some(now), values.lastSignedIn.GetOr(Some(now)))
  }

  /** The position of the first row with key `id`. */
  function UserIndex(s: seq<User>, id: Id): (r: Option<nat>)
    ensures r != None ==> r.value < |s| && s[r.value].id == id
    ensures r != None ==> forall j :: 0 <= j < r.value ==> s[j].id != id
    ensures r == None <==> !UserIdUsed(s, id)
  {
    if s == [] then None
    else if s[0].id == id then Some(0)
    else match UserIndex(s[1..], id)
      case Some(k) => Some(k + 1)
      case None => None
  }

  /** `insert ... values(values) on duplicate key update set(updateSet)` on the users table. */
  function InsertOrUpdate(s: seq<User>, id: Id, values: UserPatch, updateSet: UserPatch, now: Timestamp): (r: seq<User>)
    ensures UserIdUsed(r, id)
    ensures !UserIdUsed(s, id) ==> r == s + [NewUser(id, values, now)]
    ensures UserIdUsed(s, id) ==> |r| == |s| && forall j :: 0 <= j < |s| && s[j].id != id ==> r[j] == s[j]
    ensures UserIdsUnique(s) ==> UserIdsUnique(r)
    ensures UserIdsUnique(s) && UserIdUsed(s, id) ==>
              forall j :: 0 <= j < |s| && s[j].id == id ==> r[j] == ApplyPatch(s[j], updateSet)
  {
    match UserIndex(s, id)
    case Some(i) =>
      var r := s[i := ApplyPatch(s[i], updateSet)];
      assert r[i].id == id;
      r
    case None =>
      var r := s + [NewUser(id, values, now)];
      assert r[|s|].id == id;
      r
  }

  /** The users table after a successful upsert of `user`. */
  function Upserted(s: seq<User>, user: UpsertInput, ownerId: Id, now: Timestamp): seq<User> {
    InsertOrUpdate(s, user.id, InsertValues(user, ownerId), UpdateSet(user, ownerId, now), now)
  }

  lemma UniqueIndex(s: seq<User>, i: nat)
    requires UserIdsUnique(s) && i < |s|
    ensures UserIndex(s, s[i].id) == Some(i)
  {
  }

  /** The upsert keeps user ids unique. */
  lemma UpsertKeepsIdsUnique(s: seq<User>, user: UpsertInput, ownerId: Id, now: Timestamp)
    requires UserIdsUnique(s)
    ensures UserIdsUnique(Upserted(s, user, ownerId, now))
  {
  }

  /**
   * Upsert onto an existing row changes that row only, and in it only the
   * written columns: an omitted field keeps its value, a null one is cleared,
   * the role changes only for the promoted owner, and `lastSignedIn` is set
   * to `now` when nothing else was supplied.
   */
  lemma UpsertExisting(s: seq<User>, user: UpsertInput, ownerId: Id, now: Timestamp, i: nat)
    requires UserIdsUnique(s) && i < |s| && s[i].id == user.id
    ensures var t := Upserted(s, user, ownerId, now);
      && |t| == |s|
      && (forall j :: 0 <= j < |s| && j != i ==> t[j] == s[j])
      && t[i].id == s[i].id && t[i].createdAt == s[i].createdAt
      && t[i].name == user.name.GetOr(s[i].name)
      && t[i].email == user.email.GetOr(s[i].email)
      && t[i].loginMethod == user.loginMethod.GetOr(s[i].loginMethod)
      && t[i].role == (if PromotesOwner(user, ownerId) then AdminRole else s[i].role)
      && t[i].lastSignedIn == (if NothingSupplied(user, ownerId) then Some(now)
                               else user.lastSignedIn.GetOr(s[i].lastSignedIn))
  {
    UniqueIndex(s, i);
  }

  /**
   * Upsert of a new id appends one row holding the supplied columns, with
   * every other column at its default.
   */
  lemma UpsertNew(s: seq<User>, user: UpsertInput, ownerId: Id, now: Timestamp)
    requires !UserIdUsed(s, user.id)
    ensures var t := Upserted(s, user, ownerId, now);
      && |t| == |s| + 1 && t[..|s|] == s
      && t[|s|].id == user.id
      && t[|s|].name == user.name.GetOr(None)
      && t[|s|].email == user.email.GetOr(None)
      && t[|s|].loginMethod == user.loginMethod.GetOr(None)
      && t[|s|].role == (if PromotesOwner(user, ownerId) then AdminRole else DefaultRole)
      && t[|s|].createdAt == Some(now)
      && t[|s|].lastSignedIn == user.lastSignedIn.GetOr(Some(now))
  {
  }

  /** A login that supplies nothing only refreshes `lastSignedIn` of the stored row. */
  lemma LoginHeartbeat(s: seq<User>, user: UpsertInput, ownerId: Id, now: Timestamp, i: nat)
    requires UserIdsUnique(s) && i < |s| && s[i].id == user.id
    requires NothingSupplied(user, ownerId)
    ensures Upserted(s, user, ownerId, now) == s[i := s[i].(lastSignedIn := Some(now))]
  {
    UniqueIndex(s, i);
  }

  /** The creation time a caller passes never has an effect. */
  lemma CallerCreatedAtIgnored(s: seq<User>, user: UpsertInput, ownerId: Id, now: Timestamp,
                               createdAt: Option<Option<Timestamp>>)
    ensures Upserted(s, user.(createdAt := createdAt), ownerId, now) == Upserted(s, user, ownerId, now)
  {
  }

  /** Once a caller passes a role, which role it passes has no effect. */
  lemma CallerRoleIgnored(s: seq<User>, user: UpsertInput, ownerId: Id, now: Timestamp, role: Role)
    requires user.role != None
    ensures Upserted(s, user.(role := Some(role)), ownerId, now) == Upserted(s, user, ownerId, now)
  {
  }

  /** Repeating the same upsert at the same time changes nothing more. */
  lemma UpsertIdempotent(s: seq<User>, user: UpsertInput, ownerId: Id, now: Timestamp)
    requires UserIdsUnique(s)
    ensures Upserted(Upserted(s, user, ownerId, now), user, ownerId, now) == Upserted(s, user, ownerId, now)
  {
    var t := Upserted(s, user, ownerId, now);
    UpsertKeepsIdsUnique(s, user, ownerId, now);
    match UserIndex(s, user.id)
    case Some(i) =>
      UniqueIndex(t, i);
    case None =>
      UniqueIndex(t, |s|);
  }

  // ---------------------------------------------------------------------
  // Table-level updates
  // ---------------------------------------------------------------------

  /** The files table after `delete from files where id = id`. */
  function FilesWithout(fs: seq<File>, id: Id): (r: seq<File>)
    ensures forall f :: f in r <==> f in fs && f.id != id
    ensures forall f: File :: f.id != id ==> multiset(r)[f] == multiset(fs)[f]
    ensures !FileIdUsed(r, id)
  {
    var r := Filter(fs, (f: File) => f.id != id);
    assert forall k :: 0 <= k < |r| ==> r[k] in r;
    r
  }

  lemma {:induction false} FilterKeepsFileIdsUnique(fs: seq<File>, p: File -> bool)
    requires FileIdsUnique(fs)
    ensures FileIdsUnique(Filter(fs, p))
    decreases |fs|
  {
    if fs != [] {
      var rest := Filter(fs[1..], p);
      FilterKeepsFileIdsUnique(fs[1..], p);
      forall k | 0 <= k < |rest| ensures rest[k].id != fs[0].id {
        assert rest[k] in fs[1..];
      }
    }
  }

  /** The notifications table after `update notifications set read = 'yes' where id = id`. */
  function MarkedRead(ns: seq<Notification>, id: Id): (r: seq<Notification>)
    ensures |r| == |ns|
    ensures forall i :: 0 <= i < |ns| && ns[i].id != id ==> r[i] == ns[i]
    ensures forall i :: 0 <= i < |ns| && ns[i].id == id ==> r[i] == ns[i].(read := Yes)
  {
    seq(|ns|, i requires 0 <= i < |ns| => if ns[i].id == id then ns[i].(read := Yes) else ns[i])
  }

  /** Marking twice is marking once. */
  lemma MarkReadIdempotent(ns: seq<Notification>, id: Id)
    ensures MarkedRead(MarkedRead(ns, id), id) == MarkedRead(ns, id)
  {
  }

  /** Read state only ever moves from `no` to `yes`, and only for notification `id`. */
  lemma MarkReadOnlyNoToYes(ns: seq<Notification>, id: Id, i: nat)
    requires i < |ns|
    ensures var r := MarkedRead(ns, id);
      r[i].read == Yes || r[i] == ns[i]
  {
  }

  // ---------------------------------------------------------------------
  // The store
  // ---------------------------------------------------------------------

  class Store {
    /** Whether a database is configured: `getDb()` returns a handle rather than null. */
    const available: bool
    var users: seq<User>
    var folders: seq<Folder>
    var files: seq<File>
    var comments: seq<Comment>
    var auditLogs: seq<AuditLog>
    var notifications: seq<Notification>

    /** Every table's `id` is its primary key. */
    ghost predicate Valid()
      reads this
    {
      && UserIdsUnique(users)
      && FolderIdsUnique(folders)
      && FileIdsUnique(files)
      && CommentIdsUnique(comments)
      && AuditLogIdsUnique(auditLogs)
      && NotificationIdsUnique(notifications)
    }

    constructor (available: bool)
      ensures Valid() && this.available == available
      ensures users == [] && folders == [] && files == [] && comments == []
      ensures auditLogs == [] && notifications == []
    {
      this.available := available;
      users, folders, files, comments, auditLogs, notifications := [], [], [], [], [], [];
    }

    // Users

    /** Inserts the user, or merges the supplied columns into the row with the same id. */
    method UpsertUser(user: UpsertInput, ownerId: Id, now: Timestamp) returns (r: Outcome<DbError>)
      requires Valid()
      modifies this`users
      ensures Valid()
      ensures user.id == "" ==> r == Fail(MissingUserId) && users == old(users)
      ensures user.id != "" ==> r == Pass
      ensures user.id != "" && !available ==> users == old(users)
      ensures user.id != "" && available ==> users == Upserted(old(users), user, ownerId, now)
    {
      if user.id == "" {
        return Fail(MissingUserId);
      }
      if !available {
        return Pass;
      }
      var values, updateSet := BuildUpsert(user, ownerId, now);
      UpsertKeepsIdsUnique(users, user, ownerId, now);
      users := InsertOrUpdate(users, user.id, values, updateSet, now);
      r := Pass;
    }

    function GetUser(id: Id): (r: Option<User>)
      reads this
      ensures !available ==> r == None
      ensures available && r != None ==> r.value in users && r.value.id == id
      ensures available ==> (r == None <==> !UserIdUsed(users, id))
    {
      if !available then None
      else
        var rs := Filter(users, (u: User) => u.id == id);
        assert forall i :: 0 <= i < |users| && users[i].id == id ==> users[i] in rs;
        if |rs| > 0 then assert rs[0] in rs; Some(rs[0]) else None
    }

    function GetAllUsers(): (r: seq<User>)
      reads this
      ensures r == if available then users else []
    {
      if available then users else []
    }

    // Folders

    method CreateFolder(folder: Folder, now: Timestamp) returns (r: Result<Folder, DbError>)
      requires Valid()
      modifies this`folders
      ensures Valid()
      ensures !available ==> r == Err(Unavailable) && folders == old(folders)
      ensures available && FolderIdUsed(old(folders), folder.id) ==> r == Err(DuplicateKey) && folders == old(folders)
      ensures available && !FolderIdUsed(old(folders), folder.id) ==>
                r == Ok(folder) && folders == old(folders) + [StoredFolder(folder, now)]
    {
      if !available {
        return Err(Unavailable);
      }
      if FolderIdUsed(folders, folder.id) {
        return Err(DuplicateKey);
      }
      folders := folders + [StoredFolder(folder, now)];
      r := Ok(folder);
    }

    /** The folders whose `type` column equals `t`; a string naming no folder type matches none. */
    function GetFoldersByType(t: string): (r: seq<Folder>)
      reads this
      ensures !available ==> r == []
      ensures available ==> forall f :: f in r <==> f in folders && f.kind.Name() == t
      ensures available ==> forall f :: multiset(r)[f] == if f.kind.Name() == t then multiset(folders)[f] else 0
    {
      if !available then [] else Filter(folders, (f: Folder) => f.kind.Name() == t)
    }

    /** At most one folder, and it has the requested id; none exactly when no folder has it. */
    function GetFolderById(id: Id): (r: Option<Folder>)
      reads this
      ensures !available ==> r == None
      ensures available && r != None ==> r.value in folders && r.value.id == id
      ensures available ==> (r == None <==> !FolderIdUsed(folders, id))
    {
      if !available then None
      else
        var rs := Filter(folders, (f: Folder) => f.id == id);
        assert forall i :: 0 <= i < |folders| && folders[i].id == id ==> folders[i] in rs;
        if |rs| > 0 then assert rs[0] in rs; Some(rs[0]) else None
    }

    /** The folders whose parent is `parentId`; root folders (null parent) never match. */
    function GetSubFolders(parentId: Id): (r: seq<Folder>)
      reads this
      ensures !available ==> r == []
      ensures available ==> forall f :: f in r <==> f in folders && f.parentId == Some(parentId)
      ensures available ==> forall f :: multiset(r)[f] == if f.parentId == Some(parentId) then multiset(folders)[f] else 0
    {
      if !available then [] else Filter(folders, (f: Folder) => f.parentId == Some(parentId))
    }

    function GetAllFolders(): (r: seq<Folder>)
      reads this
      ensures r == if available then folders else []
    {
      if available then folders else []
    }

    // Files

    method CreateFile(file: File, now: Timestamp) returns (r: Result<File, DbError>)
      requires Valid()
      modifies this`files
      ensures Valid()
      ensures !available ==> r == Err(Unavailable) && files == old(files)
      ensures available && FileIdUsed(old(files), file.id) ==> r == Err(DuplicateKey) && files == old(files)
      ensures available && !FileIdUsed(old(files), file.id) ==>
                r == Ok(file) && files == old(files) + [StoredFile(file, now)]
    {
      if !available {
        return Err(Unavailable);
      }
      if FileIdUsed(files, file.id) {
        return Err(DuplicateKey);
      }
      files := files + [StoredFile(file, now)];
      r := Ok(file);
    }

    /** Exactly the files whose `folderId` is `folderId`. */
    function GetFilesByFolder(folderId: Id): (r: seq<File>)
      reads this
      ensures !available ==> r == []
      ensures available ==> forall f :: f in r <==> f in files && f.folderId == folderId
      ensures available ==> forall f :: multiset(r)[f] == if f.folderId == folderId then multiset(files)[f] else 0
    {
      if !available then [] else Filter(files, (f: File) => f.folderId == folderId)
    }

    /** Removes the files with key `id`, if any; every other file stays. */
    method DeleteFile(id: Id) returns (r: Outcome<DbError>)
      requires Valid()
      modifies this`files
      ensures Valid()
      ensures !available ==> r == Fail(Unavailable) && files == old(files)
      ensures available ==> r == Pass && files == FilesWithout(old(files), id)
    {
      if !available {
        return Fail(Unavailable);
      }
      FilterKeepsFileIdsUnique(files, (f: File) => f.id != id);
      files := FilesWithout(files, id);
      r := Pass;
    }

    // Comments

    method CreateComment(comment: Comment, now: Timestamp) returns (r: Result<Comment, DbError>)
      requires Valid()
      modifies this`comments
      ensures Valid()
      ensures !available ==> r == Err(Unavailable) && comments == old(comments)
      ensures available && CommentIdUsed(old(comments), comment.id) ==> r == Err(DuplicateKey) && comments == old(comments)
      ensures available && !CommentIdUsed(old(comments), comment.id) ==>
                r == Ok(comment) && comments == old(comments) + [StoredComment(comment, now)]
    {
      if !available {
        return Err(Unavailable);
      }
      if CommentIdUsed(comments, comment.id) {
        return Err(DuplicateKey);
      }
      comments := comments + [StoredComment(comment, now)];
      r := Ok(comment);
    }

    function GetCommentsByFile(fileId: Id): (r: seq<Comment>)
      reads this
      ensures !available ==> r == []
      ensures available ==> forall c :: c in r <==> c in comments && c.fileId == Some(fileId)
      ensures available ==> forall c :: multiset(r)[c] == if c.fileId == Some(fileId) then multiset(comments)[c] else 0
    {
      if !available then [] else Filter(comments, (c: Comment) => c.fileId == Some(fileId))
    }

    function GetCommentsByFolder(folderId: Id): (r: seq<Comment>)
      reads this
      ensures !available ==> r == []
      ensures available ==> forall c :: c in r <==> c in comments && c.folderId == Some(folderId)
      ensures available ==> forall c :: multiset(r)[c] == if c.folderId == Some(folderId) then multiset(comments)[c] else 0
    {
      if !available then [] else Filter(comments, (c: Comment) => c.folderId == Some(folderId))
    }

    // Audit logs

    /** Appends an audit entry; without a database it does nothing and raises nothing. */
    method CreateAuditLog(log: AuditLog, now: Timestamp) returns (r: Outcome<DbError>)
      requires Valid()
      modifies this`auditLogs
      ensures Valid()
      ensures !available ==> r == Pass && auditLogs == old(auditLogs)
      ensures available && AuditLogIdUsed(old(auditLogs), log.id) ==> r == Fail(DuplicateKey) && auditLogs == old(auditLogs)
      ensures available && !AuditLogIdUsed(old(auditLogs), log.id) ==>
                r == Pass && auditLogs == old(auditLogs) + [StoredAuditLog(log, now)]
    {
      if !available {
        return Pass;
      }
      if AuditLogIdUsed(auditLogs, log.id) {
        return Fail(DuplicateKey);
      }
      auditLogs := auditLogs + [StoredAuditLog(log, now)];
      r := Pass;
    }

    /** The first `limit` audit entries (all of them when there are fewer). */
    function GetAuditLogs(limit: nat): (r: seq<AuditLog>)
      reads this
      ensures |r| <= limit
      ensures !available ==> r == []
      ensures available ==> r <= auditLogs && (|r| == limit || r == auditLogs)
    {
      if !available then [] else if limit < |auditLogs| then auditLogs[..limit] else auditLogs
    }

    // Notifications

    method CreateNotification(n: InsertNotification, now: Timestamp) returns (r: Result<InsertNotification, DbError>)
      requires Valid()
      modifies this`notifications
      ensures Valid()
      ensures !available ==> r == Err(Unavailable) && notifications == old(notifications)
      ensures available && NotificationIdUsed(old(notifications), n.id) ==>
                r == Err(DuplicateKey) && notifications == old(notifications)
      ensures available && !NotificationIdUsed(old(notifications), n.id) ==>
                r == Ok(n) && notifications == old(notifications) + [StoredNotification(n, now)]
    {
      if !available {
        return Err(Unavailable);
      }
      if NotificationIdUsed(notifications, n.id) {
        return Err(DuplicateKey);
      }
      notifications := notifications + [StoredNotification(n, now)];
      r := Ok(n);
    }

    function GetUserNotifications(userId: Id): (r: seq<Notification>)
      reads this
      ensures !available ==> r == []
      ensures available ==> forall n :: n in r <==> n in notifications && n.userId == userId
      ensures available ==> forall n :: multiset(r)[n] == if n.userId == userId then multiset(notifications)[n] else 0
    {
      if !available then [] else Filter(notifications, (n: Notification) => n.userId == userId)
    }

    /** Sets `read = yes` on the notification with key `id`; no other row changes. */
    method MarkNotificationAsRead(id: Id) returns (r: Outcome<DbError>)
      requires Valid()
      modifies this`notifications
      ensures Valid()
      ensures !available ==> r == Fail(Unavailable) && notifications == old(notifications)
      ensures available ==> r == Pass && notifications == MarkedRead(old(notifications), id)
    {
      if !available {
        return Fail(Unavailable);
      }
      notifications := MarkedRead(notifications, id);
      r := Pass;
    }
  }
}
