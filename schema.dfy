/**
 * The six tables of the document store: record shapes, enumerated column
 * domains and column defaults. Nullable columns are `Option`s; a
 * timestamp column left `None` in a record about to be inserted is an
 * omitted column, which the database fills with the insertion time.
 */
module Schema {
  import opened Wrappers

  /** Timestamps are taken from a clock value passed in by the caller. */
  type Timestamp = int
  type Id = string

  datatype Role = UserRole | AdminRole
  /** `role` is written `user` when an insert omits it. */
  const DefaultRole: Role := UserRole

  datatype FolderType = Tribunais | Pareceres | OutrosAssuntos | Honorarios {
    /** The enum literal stored in the `type` column. */
    function Name(): string {
      match this
      case Tribunais => "tribunais"
      case Pareceres => "pareceres"
      case OutrosAssuntos => "outros_assuntos"
      case Honorarios => "honorarios"
    }
  }

  datatype FileType = Upload | Link
  datatype LinkPlatform = OneDrive | GoogleDrive | OtherPlatform {
    function Name(): string {
      match this
      case OneDrive => "onedrive"
      case GoogleDrive => "googledrive"
      case OtherPlatform => "other"
    }
  }
  datatype NotificationType = UploadNotice | CommentNotice | FolderCreatedNotice | LinkSharedNotice
  datatype ReadFlag = Yes | No
  /** `read` is written `no` when an insert omits it. */
  const DefaultRead: ReadFlag := No

  datatype User = User(
    id: Id,
    name: Option<string>,
    email: Option<string>,
    loginMethod: Option<string>,
    role: Role,
    createdAt: Option<Timestamp>,
    lastSignedIn: Option<Timestamp>)

  /** A folder; the last seven columns are metadata for court cases and legal opinions. */
  datatype Folder = Folder(
    id: Id,
    name: string,
    kind: FolderType,
    parentId: Option<Id>,
    createdBy: Id,
    createdAt: Option<Timestamp>,
    tribunal: Option<string>,
    local: Option<string>,
    numeroProcesso: Option<string>,
    juizo: Option<string>,
    tipoAcao: Option<string>,
    dataParecer: Option<Timestamp>,
    nomeParecer: Option<string>)

  /** An uploaded document (`fileUrl`, `fileType`, `fileSize`) or a shared link (`externalUrl`, `linkPlatform`). */
  datatype File = File(
    id: Id,
    folderId: Id,
    name: string,
    kind: FileType,
    fileUrl: Option<string>,
    fileType: Option<string>,
    fileSize: Option<string>,
    externalUrl: Option<string>,
    linkPlatform: Option<LinkPlatform>,
    description: Option<string>,
    uploadedBy: Id,
    uploadedAt: Option<Timestamp>)

  datatype Comment = Comment(
    id: Id,
    fileId: Option<Id>,
    folderId: Option<Id>,
    content: string,
    createdBy: Id,
    createdAt: Option<Timestamp>)

  datatype AuditLog = AuditLog(
    id: Id,
    userId: Id,
    action: string,
    entityType: string,
    entityId: Id,
    details: Option<string>,
    createdAt: Option<Timestamp>)

  datatype Notification = Notification(
    id: Id,
    userId: Id,
    title: string,
    message: string,
    kind: NotificationType,
    entityId: Option<Id>,
    read: ReadFlag,
    createdAt: Option<Timestamp>)

  /** A notification about to be inserted: `read` and `createdAt` may be omitted. */
  datatype InsertNotification = InsertNotification(
    id: Id,
    userId: Id,
    title: string,
    message: string,
    kind: NotificationType,
    entityId: Option<Id>,
    read: Option<ReadFlag>,
    createdAt: Option<Timestamp>)

  // Column defaults applied when a record is inserted at time `now`.

  function StoredFolder(f: Folder, now: Timestamp): (r: Folder)
    ensures r.createdAt == Some(f.createdAt.GetOr(now))
    ensures r.(createdAt := f.createdAt) == f
  {
    f.(createdAt := Some(f.createdAt.GetOr(now)))
  }

  function StoredFile(f: File, now: Timestamp): (r: File)
    ensures r.uploadedAt == Some(f.uploadedAt.GetOr(now))
    ensures r.(uploadedAt := f.uploadedAt) == f
  {
    f.(uploadedAt := Some(f.uploadedAt.GetOr(now)))
  }

  function StoredComment(c: Comment, now: Timestamp): (r: Comment)
    ensures r.createdAt == Some(c.createdAt.GetOr(now))
    ensures r.(createdAt := c.createdAt) == c
  {
    c.(createdAt := Some(c.createdAt.GetOr(now)))
  }

  function StoredAuditLog(a: AuditLog, now: Timestamp): (r: AuditLog)
    ensures r.createdAt == Some(a.createdAt.GetOr(now))
    ensures r.(createdAt := a.createdAt) == a
  {
    a.(createdAt := Some(a.createdAt.GetOr(now)))
  }

  /** The stored notification: an omitted `read` is `no`, an omitted `createdAt` is `now`. */
  function StoredNotification(n: InsertNotification, now: Timestamp): (r: Notification)
    ensures n.read == None ==> r.read == No
    ensures n.read != None ==> r.read == n.read.value
    ensures r.createdAt == Some(n.createdAt.GetOr(now))
    ensures r.id == n.id && r.userId == n.userId && r.title == n.title && r.message == n.message
    ensures r.kind == n.kind && r.entityId == n.entityId
  {
    Notification(n.id, n.userId, n.title, n.message, n.kind, n.entityId,
                 n.read.GetOr(DefaultRead), Some(n.createdAt.GetOr(now)))
  }

  // Primary keys: `*IdUsed` says a key is taken, `*IdsUnique` that no key repeats.

  predicate UserIdUsed(s: seq<User>, id: Id) { exists i :: 0 <= i < |s| && s[i].id == id }
  predicate FolderIdUsed(s: seq<Folder>, id: Id) { exists i :: 0 <= i < |s| && s[i].id == id }
  predicate FileIdUsed(s: seq<File>, id: Id) { exists i :: 0 <= i < |s| && s[i].id == id }
  predicate CommentIdUsed(s: seq<Comment>, id: Id) { exists i :: 0 <= i < |s| && s[i].id == id }
  predicate AuditLogIdUsed(s: seq<AuditLog>, id: Id) { exists i :: 0 <= i < |s| && s[i].id == id }
  predicate NotificationIdUsed(s: seq<Notification>, id: Id) { exists i :: 0 <= i < |s| && s[i].id == id }

  ghost predicate UserIdsUnique(s: seq<User>) { forall i, j :: 0 <= i < j < |s| ==> s[i].id != s[j].id }
  ghost predicate FolderIdsUnique(s: seq<Folder>) { forall i, j :: 0 <= i < j < |s| ==> s[i].id != s[j].id }
  ghost predicate FileIdsUnique(s: seq<File>) { forall i, j :: 0 <= i < j < |s| ==> s[i].id != s[j].id }
  ghost predicate CommentIdsUnique(s: seq<Comment>) { forall i, j :: 0 <= i < j < |s| ==> s[i].id != s[j].id }
  ghost predicate AuditLogIdsUnique(s: seq<AuditLog>) { forall i, j :: 0 <= i < j < |s| ==> s[i].id != s[j].id }
  ghost predicate NotificationIdsUnique(s: seq<Notification>) { forall i, j :: 0 <= i < j < |s| ==> s[i].id != s[j].id }
}
