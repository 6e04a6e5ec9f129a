/**
 * The remote procedures of the API. Each mutation is one sequential step
 * over the store. Every mutation but marking a notification read changes
 * its table (an insert, or the delete of a file) and appends one audit
 * entry; upload, link sharing and comments then notify every other user.
 *
 * The random id generator, the object storage, base64 decoding and JSON
 * serialisation are parameters: fresh ids come in as arguments that no
 * table uses yet, storage is a function from key, bytes and content type
 * to a URL, decoding a function from text to bytes, and serialisation a
 * function from a flat JSON object to text.
 */
module Routers {
  import opened Wrappers
  import opened Schema
  import opened Db
  import opened Decimal

  newtype Byte = b: int | 0 <= b < 256

  /** The authenticated user the request runs as. */
  datatype Actor = Actor(id: Id, name: Option<string>, role: Role)

  /** A flat JSON object: its key/value pairs in the order written. */
  type JsonObject = seq<(string, string)>

  datatype FolderInput = FolderInput(
    name: string,
    kind: FolderType,
    parentId: Option<Id>,
    tribunal: Option<string>,
    local: Option<string>,
    numeroProcesso: Option<string>,
    juizo: Option<string>,
    tipoAcao: Option<string>,
    dataParecer: Option<Timestamp>,
    nomeParecer: Option<string>)

  datatype UploadInput = UploadInput(
    folderId: Id,
    name: string,
    fileData: string,
    fileType: string,
    description: Option<string>)

  datatype ShareLinkInput = ShareLinkInput(
    folderId: Id,
    name: string,
    externalUrl: string,
    linkPlatform: LinkPlatform,
    description: Option<string>)

  datatype CommentInput = CommentInput(fileId: Option<Id>, folderId: Option<Id>, content: string)

  /** The `{ success: true }` reply. */
  datatype Reply = Reply(success: bool)

  ghost predicate Distinct(ids: seq<Id>) {
    forall i, j :: 0 <= i < j < |ids| ==> ids[i] != ids[j]
  }

  /** Ids that no notification uses yet, one per user, all different. */
  ghost predicate FreshNotificationIds(ids: seq<Id>, users: seq<User>, ns: seq<Notification>) {
    |ids| == |users| && Distinct(ids) && forall k :: 0 <= k < |ids| ==> !NotificationIdUsed(ns, ids[k])
  }

  /** A nullable name as a template literal renders it: the name itself, or `null`. */
  function DisplayName(name: Option<string>): (r: string)
    ensures name.Some? ==> r == name.value
    ensures name == None ==> r == "null"
  {
    match name
    case Some(n) => n
    case None => "null"
  }

  /** The object-storage key of an uploaded file: `files/`, the file id, `-`, the file name. */
  function UploadKey(fileId: Id, name: string): (r: string)
    ensures |r| == 7 + |fileId| + |name|
    ensures r[..6] == "files/" && r[6..6 + |fileId|] == fileId && r[6 + |fileId|] == '-'
    ensures r[7 + |fileId|..] == name
  {
    var r := "files/" + fileId + "-" + name;
    assert r[..6] == "files/";
    assert r[6..6 + |fileId|] == fileId;
    assert r[7 + |fileId|..] == name;
    r
  }

  /**
   * The audit entry a mutation writes; `createdAt` is left out, so the
   * insert stamps it with the time of the insert.
   */
  function AuditEntry(id: Id, actorId: Id, action: string, entityType: string, entityId: Id, details: string): (r: AuditLog)
    ensures r.id == id && r.userId == actorId && r.action == action
    ensures r.entityType == entityType && r.entityId == entityId && r.details == Some(details)
    ensures forall now :: StoredAuditLog(r, now).createdAt == Some(now)
  {
    AuditLog(id, actorId, action, entityType, entityId, Some(details), None)
  }

  // ---------------------------------------------------------------------
  // Notification fan-out
  // ---------------------------------------------------------------------

  /**
   * The notifications stored when `users` are visited in order and every
   * one but the actor is notified; user `k` gets id `ids[k]`.
   */
  function FanOut(users: seq<User>, ids: seq<Id>, actorId: Id, title: string, message: string,
                  kind: NotificationType, entityId: Id, now: Timestamp): (r: seq<Notification>)
    requires |ids| == |users|
    ensures |r| <= |users|
    decreases |users|
  {
    if users == [] then []
    else
      var n := |users| - 1;
      FanOut(users[..n], ids[..n], actorId, title, message, kind, entityId, now)
        + (if users[n].id != actorId
           then [Notification(ids[n], users[n].id, title, message, kind, Some(entityId), No, Some(now))]
           else [])
  }

  function Recipients(ns: seq<Notification>): (r: seq<Id>)
    ensures |r| == |ns| && forall k :: 0 <= k < |ns| ==> r[k] == ns[k].userId
  {
    seq(|ns|, k requires 0 <= k < |ns| => ns[k].userId)
  }

  lemma UserIdUsedSplit(users: seq<User>, x: Id)
    requires users != []
    ensures UserIdUsed(users, x) <==> UserIdUsed(users[..|users| - 1], x) || users[|users| - 1].id == x
  {
    var n := |users| - 1;
    if UserIdUsed(users[..n], x) {
      var i :| 0 <= i < n && users[..n][i].id == x;
      assert users[i].id == x;
    }
    if UserIdUsed(users, x) && users[n].id != x {
      var i :| 0 <= i < |users| && users[i].id == x;
      assert users[..n][i].id == x;
    }
  }

  /** Every user but the actor receives exactly one notification; the actor receives none. */
  lemma {:induction false} FanOutRecipients(users: seq<User>, ids: seq<Id>, actorId: Id, title: string, message: string,
                                            kind: NotificationType, entityId: Id, now: Timestamp)
    requires |ids| == |users| && UserIdsUnique(users)
    ensures forall x :: multiset(Recipients(FanOut(users, ids, actorId, title, message, kind, entityId, now)))[x]
                        == if x != actorId && UserIdUsed(users, x) then 1 else 0
    decreases |users|
  {
    if users != [] {
      var n := |users| - 1;
      var pre := FanOut(users[..n], ids[..n], actorId, title, message, kind, entityId, now);
      var tail := if users[n].id != actorId
                  then [Notification(ids[n], users[n].id, title, message, kind, Some(entityId), No, Some(now))]
                  else [];
      FanOutRecipients(users[..n], ids[..n], actorId, title, message, kind, entityId, now);
      assert Recipients(pre + tail) == Recipients(pre) + Recipients(tail);
      forall x
        ensures multiset(Recipients(FanOut(users, ids, actorId, title, message, kind, entityId, now)))[x]
                == if x != actorId && UserIdUsed(users, x) then 1 else 0
      {
        UserIdUsedSplit(users, x);
        if x == users[n].id {
          assert !UserIdUsed(users[..n], x);
        }
      }
    }
  }

  /** Each fanned-out notification is unread and describes the event: kind, title, message, entity. */
  lemma {:induction false} FanOutContents(users: seq<User>, ids: seq<Id>, actorId: Id, title: string, message: string,
                                          kind: NotificationType, entityId: Id, now: Timestamp)
    requires |ids| == |users|
    ensures forall m :: m in FanOut(users, ids, actorId, title, message, kind, entityId, now) ==>
              && m.userId != actorId && UserIdUsed(users, m.userId) && m.id in ids
              && m.kind == kind && m.entityId == Some(entityId) && m.read == No
              && m.title == title && m.message == message && m.createdAt == Some(now)
    decreases |users|
  {
    if users != [] {
      var n := |users| - 1;
      FanOutContents(users[..n], ids[..n], actorId, title, message, kind, entityId, now);
      forall x | UserIdUsed(users[..n], x) ensures UserIdUsed(users, x) {
        UserIdUsedSplit(users, x);
      }
      assert users[n].id != actorId ==> UserIdUsed(users, users[n].id);
      forall x | x in ids[..n] ensures x in ids { }
    }
  }

  /** Notifies every user in `users` except the actor, in order. */
  method NotifyOthers(store: Store, users: seq<User>, ids: seq<Id>, actorId: Id, title: string, message: string,
                      kind: NotificationType, entityId: Id, now: Timestamp)
    requires store.Valid() && store.available
    requires FreshNotificationIds(ids, users, store.notifications)
    modifies store`notifications
    ensures store.Valid()
    ensures store.notifications == old(store.notifications) + FanOut(users, ids, actorId, title, message, kind, entityId, now)
  {
    var k := 0;
    while k < |users|
      invariant 0 <= k <= |users|
      invariant store.Valid()
      invariant store.notifications == old(store.notifications) + FanOut(users[..k], ids[..k], actorId, title, message, kind, entityId, now)
      invariant forall j :: k <= j < |users| ==> !NotificationIdUsed(store.notifications, ids[j])
    {
      ghost var before := store.notifications;
      if users[k].id != actorId {
        var r := store.CreateNotification(
          InsertNotification(ids[k], users[k].id, title, message, kind, Some(entityId), None, None), now);
        forall j | k < j < |users| ensures !NotificationIdUsed(store.notifications, ids[j]) {
          assert ids[k] != ids[j];
          assert !NotificationIdUsed(before, ids[j]);
        }
      }
      assert users[..k + 1][..k] == users[..k] && ids[..k + 1][..k] == ids[..k];
      k := k + 1;
    }
    assert users[..k] == users && ids[..k] == ids;
  }

  // ---------------------------------------------------------------------
  // Mutations
  // ---------------------------------------------------------------------

  /** folders.create: stores the folder as given, created by the actor, and audits it; nobody is notified. */
  method FoldersCreate(store: Store, actor: Actor, input: FolderInput, stringify: JsonObject -> string,
                       folderId: Id, auditId: Id, now: Timestamp) returns (r: Result<Folder, DbError>)
    requires store.Valid()
    requires !FolderIdUsed(store.folders, folderId) && !AuditLogIdUsed(store.auditLogs, auditId)
    modifies store`folders, store`auditLogs
    ensures store.Valid()
    ensures !store.available ==>
              && r == Err(Unavailable)
              && store.folders == old(store.folders) && store.auditLogs == old(store.auditLogs)
    ensures store.available ==>
              && r == Ok(Folder(folderId, input.name, input.kind, input.parentId, actor.id, None,
                                input.tribunal, input.local, input.numeroProcesso, input.juizo,
                                input.tipoAcao, input.dataParecer, input.nomeParecer))
              && store.folders == old(store.folders) + [StoredFolder(r.value, now)]
              && store.auditLogs == old(store.auditLogs)
                   + [StoredAuditLog(AuditEntry(auditId, actor.id, "create_folder", "folder", folderId,
                                                stringify([("name", input.name), ("type", input.kind.Name())])), now)]
  {
    var folder := store.CreateFolder(
      Folder(folderId, input.name, input.kind, input.parentId, actor.id, None,
             input.tribunal, input.local, input.numeroProcesso, input.juizo,
             input.tipoAcao, input.dataParecer, input.nomeParecer), now);
    if folder.Err? {
      return Err(folder.error);
    }
    var _ := store.CreateAuditLog(
      AuditEntry(auditId, actor.id, "create_folder", "folder", folderId,
                 stringify([("name", input.name), ("type", input.kind.Name())])), now);
    r := folder;
  }

  /**
   * files.upload: stores the decoded bytes under `files/<id>-<name>`, records
   * an upload whose size is the decimal byte count, audits it and notifies
   * every other user.
   */
  method FilesUpload(store: Store, actor: Actor, input: UploadInput,
                     decodeBase64: string -> seq<Byte>, storagePut: (string, seq<Byte>, string) -> string,
                     stringify: JsonObject -> string,
                     fileId: Id, auditId: Id, notificationIds: seq<Id>, now: Timestamp) returns (r: Result<File, DbError>)
    requires store.Valid()
    requires !FileIdUsed(store.files, fileId) && !AuditLogIdUsed(store.auditLogs, auditId)
    requires FreshNotificationIds(notificationIds, store.users, store.notifications)
    modifies store`files, store`auditLogs, store`notifications
    ensures store.Valid()
    ensures !store.available ==>
              && r == Err(Unavailable) && store.files == old(store.files)
              && store.auditLogs == old(store.auditLogs) && store.notifications == old(store.notifications)
    ensures store.available ==>
              var bytes := decodeBase64(input.fileData);
              && r == Ok(File(fileId, input.folderId, input.name, Upload,
                              Some(storagePut(UploadKey(fileId, input.name), bytes, input.fileType)),
                              Some(input.fileType), Some(ToDecimal(|bytes|)), None, None,
                              input.description, actor.id, None))
              && store.files == old(store.files) + [StoredFile(r.value, now)]
              && store.auditLogs == old(store.auditLogs)
                   + [StoredAuditLog(AuditEntry(auditId, actor.id, "upload_file", "file", fileId,
                                                stringify([("name", input.name), ("folderId", input.folderId)])), now)]
              && store.notifications == old(store.notifications)
                   + FanOut(store.users, notificationIds, actor.id, "Novo ficheiro carregado",
                            DisplayName(actor.name) + " carregou o ficheiro \"" + input.name + "\"",
                            UploadNotice, fileId, now)
  {
    var buffer := decodeBase64(input.fileData);
    var key := UploadKey(fileId, input.name);
    var url := storagePut(key, buffer, input.fileType);
    var file := store.CreateFile(
      File(fileId, input.folderId, input.name, Upload, Some(url), Some(input.fileType),
           Some(ToDecimal(|buffer|)), None, None, input.description, actor.id, None), now);
    if file.Err? {
      return Err(file.error);
    }
    var _ := store.CreateAuditLog(
      AuditEntry(auditId, actor.id, "upload_file", "file", fileId,
                 stringify([("name", input.name), ("folderId", input.folderId)])), now);
    var users := store.GetAllUsers();
    NotifyOthers(store, users, notificationIds, actor.id, "Novo ficheiro carregado",
                 DisplayName(actor.name) + " carregou o ficheiro \"" + input.name + "\"", UploadNotice, fileId, now);
    r := file;
  }

  /** files.shareLink: records a link (no stored URL or size), audits it and notifies every other user. */
  method FilesShareLink(store: Store, actor: Actor, input: ShareLinkInput, stringify: JsonObject -> string,
                        fileId: Id, auditId: Id, notificationIds: seq<Id>, now: Timestamp) returns (r: Result<File, DbError>)
    requires store.Valid()
    requires !FileIdUsed(store.files, fileId) && !AuditLogIdUsed(store.auditLogs, auditId)
    requires FreshNotificationIds(notificationIds, store.users, store.notifications)
    modifies store`files, store`auditLogs, store`notifications
    ensures store.Valid()
    ensures !store.available ==>
              && r == Err(Unavailable) && store.files == old(store.files)
              && store.auditLogs == old(store.auditLogs) && store.notifications == old(store.notifications)
    ensures store.available ==>
              && r == Ok(File(fileId, input.folderId, input.name, Link, None, None, None,
                              Some(input.externalUrl), Some(input.linkPlatform), input.description, actor.id, None))
              && store.files == old(store.files) + [StoredFile(r.value, now)]
              && store.auditLogs == old(store.auditLogs)
                   + [StoredAuditLog(AuditEntry(auditId, actor.id, "share_link", "file", fileId,
                                                stringify([("name", input.name), ("url", input.externalUrl)])), now)]
              && store.notifications == old(store.notifications)
                   + FanOut(store.users, notificationIds, actor.id, "Novo link partilhado",
                            DisplayName(actor.name) + " partilhou o link \"" + input.name + "\"",
                            LinkSharedNotice, fileId, now)
  {
    var file := store.CreateFile(
      File(fileId, input.folderId, input.name, Link, None, None, None,
           Some(input.externalUrl), Some(input.linkPlatform), input.description, actor.id, None), now);
    if file.Err? {
      return Err(file.error);
    }
    var _ := store.CreateAuditLog(
      AuditEntry(auditId, actor.id, "share_link", "file", fileId,
                 stringify([("name", input.name), ("url", input.externalUrl)])), now);
    var users := store.GetAllUsers();
    NotifyOthers(store, users, notificationIds, actor.id, "Novo link partilhado",
                 DisplayName(actor.name) + " partilhou o link \"" + input.name + "\"", LinkSharedNotice, fileId, now);
    r := file;
  }

  /** files.delete: removes the file if it exists, audits the deletion and succeeds either way. */
  method FilesDelete(store: Store, actor: Actor, id: Id, stringify: JsonObject -> string,
                     auditId: Id, now: Timestamp) returns (r: Result<Reply, DbError>)
    requires store.Valid()
    requires !AuditLogIdUsed(store.auditLogs, auditId)
    modifies store`files, store`auditLogs
    ensures store.Valid()
    ensures !store.available ==>
              && r == Err(Unavailable)
              && store.files == old(store.files) && store.auditLogs == old(store.auditLogs)
    ensures store.available ==>
              && r == Ok(Reply(true))
              && store.files == FilesWithout(old(store.files), id)
              && store.auditLogs == old(store.auditLogs)
                   + [StoredAuditLog(AuditEntry(auditId, actor.id, "delete_file", "file", id,
                                                stringify([("fileId", id)])), now)]
  {
    var deleted := store.DeleteFile(id);
    if deleted.Fail? {
      return Err(deleted.error);
    }
    var _ := store.CreateAuditLog(
      AuditEntry(auditId, actor.id, "delete_file", "file", id, stringify([("fileId", id)])), now);
    r := Ok(Reply(true));
  }

  /**
   * comments.create: stores the comment with `fileId` and `folderId` exactly
   * as given (either or both may be absent), audits it and notifies every
   * other user.
   */
  method CommentsCreate(store: Store, actor: Actor, input: CommentInput, stringify: JsonObject -> string,
                        commentId: Id, auditId: Id, notificationIds: seq<Id>, now: Timestamp) returns (r: Result<Comment, DbError>)
    requires store.Valid()
    requires !CommentIdUsed(store.comments, commentId) && !AuditLogIdUsed(store.auditLogs, auditId)
    requires FreshNotificationIds(notificationIds, store.users, store.notifications)
    modifies store`comments, store`auditLogs, store`notifications
    ensures store.Valid()
    ensures !store.available ==>
              && r == Err(Unavailable) && store.comments == old(store.comments)
              && store.auditLogs == old(store.auditLogs) && store.notifications == old(store.notifications)
    ensures store.available ==>
              && r == Ok(Comment(commentId, input.fileId, input.folderId, input.content, actor.id, None))
              && store.comments == old(store.comments) + [StoredComment(r.value, now)]
              && store.auditLogs == old(store.auditLogs)
                   + [StoredAuditLog(AuditEntry(auditId, actor.id, "create_comment", "comment", commentId,
                                                stringify([("content", input.content)])), now)]
              && store.notifications == old(store.notifications)
                   + FanOut(store.users, notificationIds, actor.id, "Novo comentário",
                            DisplayName(actor.name) + " adicionou um comentário",
                            CommentNotice, commentId, now)
  {
    var comment := store.CreateComment(
      Comment(commentId, input.fileId, input.folderId, input.content, actor.id, None), now);
    if comment.Err? {
      return Err(comment.error);
    }
    var _ := store.CreateAuditLog(
      AuditEntry(auditId, actor.id, "create_comment", "comment", commentId,
                 stringify([("content", input.content)])), now);
    var users := store.GetAllUsers();
    NotifyOthers(store, users, notificationIds, actor.id, "Novo comentário",
                 DisplayName(actor.name) + " adicionou um comentário", CommentNotice, commentId, now);
    r := comment;
  }

  /** notifications.markAsRead: marks notification `id` read, whoever it belongs to. */
  method NotificationsMarkAsRead(store: Store, actor: Actor, id: Id) returns (r: Result<Reply, DbError>)
    requires store.Valid()
    modifies store`notifications
    ensures store.Valid()
    ensures !store.available ==> r == Err(Unavailable) && store.notifications == old(store.notifications)
    ensures store.available ==> r == Ok(Reply(true)) && store.notifications == MarkedRead(old(store.notifications), id)
  {
    var marked := store.MarkNotificationAsRead(id);
    if marked.Fail? {
      return Err(marked.error);
    }
    r := Ok(Reply(true));
  }

  // ---------------------------------------------------------------------
  // Queries
  // ---------------------------------------------------------------------

  function FoldersList(store: Store): (r: seq<Folder>)
    reads store
    ensures r == if store.available then store.folders else []
  {
    store.GetAllFolders()
  }

  function FoldersGetByType(store: Store, t: string): (r: seq<Folder>)
    reads store
    ensures !store.available ==> r == []
    ensures store.available ==> forall f :: f in r <==> f in store.folders && f.kind.Name() == t
    ensures store.available ==> forall f :: multiset(r)[f] == if f.kind.Name() == t then multiset(store.folders)[f] else 0
  {
    store.GetFoldersByType(t)
  }

  function FoldersGetById(store: Store, id: Id): (r: Option<Folder>)
    reads store
    ensures !store.available ==> r == None
    ensures r != None ==> r.value in store.folders && r.value.id == id
    ensures store.available ==> (r == None <==> !FolderIdUsed(store.folders, id))
  {
    store.GetFolderById(id)
  }

  function FoldersGetSubFolders(store: Store, parentId: Id): (r: seq<Folder>)
    reads store
    ensures !store.available ==> r == []
    ensures store.available ==> forall f :: f in r <==> f in store.folders && f.parentId == Some(parentId)
    ensures store.available ==> forall f :: multiset(r)[f] == if f.parentId == Some(parentId) then multiset(store.folders)[f] else 0
  {
    store.GetSubFolders(parentId)
  }

  function FilesListByFolder(store: Store, folderId: Id): (r: seq<File>)
    reads store
    ensures !store.available ==> r == []
    ensures store.available ==> forall f :: f in r <==> f in store.files && f.folderId == folderId
    ensures store.available ==> forall f :: multiset(r)[f] == if f.folderId == folderId then multiset(store.files)[f] else 0
  {
    store.GetFilesByFolder(folderId)
  }

  function CommentsListByFile(store: Store, fileId: Id): (r: seq<Comment>)
    reads store
    ensures !store.available ==> r == []
    ensures store.available ==> forall c :: c in r <==> c in store.comments && c.fileId == Some(fileId)
    ensures store.available ==> forall c :: multiset(r)[c] == if c.fileId == Some(fileId) then multiset(store.comments)[c] else 0
  {
    store.GetCommentsByFile(fileId)
  }

  function CommentsListByFolder(store: Store, folderId: Id): (r: seq<Comment>)
    reads store
    ensures !store.available ==> r == []
    ensures store.available ==> forall c :: c in r <==> c in store.comments && c.folderId == Some(folderId)
    ensures store.available ==> forall c :: multiset(r)[c] == if c.folderId == Some(folderId) then multiset(store.comments)[c] else 0
  {
    store.GetCommentsByFolder(folderId)
  }

  /** notifications.list: the actor's own notifications and no one else's. */
  function NotificationsList(store: Store, actor: Actor): (r: seq<Notification>)
    reads store
    ensures forall n :: n in r ==> n.userId == actor.id
    ensures !store.available ==> r == []
    ensures store.available ==> forall n :: n in store.notifications && n.userId == actor.id ==> n in r
    ensures store.available ==> forall n :: multiset(r)[n] == if n.userId == actor.id then multiset(store.notifications)[n] else 0
  {
    store.GetUserNotifications(actor.id)
  }

  /** audit.list: at most 100 entries, taken from the start of the log. */
  function AuditList(store: Store): (r: seq<AuditLog>)
    reads store
    ensures !store.available ==> r == []
    ensures |r| <= 100 && r <= store.auditLogs
    ensures store.available ==> |r| == 100 || r == store.auditLogs
  {
    store.GetAuditLogs(100)
  }
}
