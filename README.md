# Document store and mutation protocol of a legal-office document manager

This project models the server side of a document-management application for
a law office. Users file court cases, legal opinions, general matters and fee
records into typed folders. They upload documents or share links to them,
comment on them, and receive notifications. Every change is recorded in an
audit log.

The model has three layers, one Dafny module per source file:

- `Schema` (`schema.dfy`): the six tables (users, folders, files, comments,
  audit logs, notifications), with their record shapes, enumerated column
  domains and column defaults.
- `Db` (`db.dfy`): the record store, a class `Store` with one `seq` field per
  table, and its accessors. It also holds the user upsert, an insert-or-merge
  that tells an omitted field (`None`) from a field given as null
  (`Some(None)`) and from a field given a value (`Some(Some(v))`).
- `Routers` (`routers.dfy`): the remote procedures. Every mutation except
  `notifications.markAsRead` changes its table (inserts a record, or deletes
  one for `files.delete`) and appends one audit entry. Uploads, shared links
  and comments also notify every user except the actor, one user at a time
  in a loop. `notifications.markAsRead` only updates the notification.

Helper modules: `Wrappers` (Option, Result, Outcome), `Tables` (the
`select ... where` filter), `Decimal` (the decimal text a JavaScript number
prints, used for the file size) and `Scenarios` (two client scenarios, proved
from the procedures' contracts alone).

External collaborators are parameters:

- the random id generator: fresh ids are arguments that no table uses yet;
- object storage: a function from key, bytes and content type to a URL;
- base64 decoding: a function from text to bytes;
- JSON serialisation of audit details: a function from a flat key/value
  object to text;
- the clock: a `now` timestamp argument.

Whether a database is configured (`getDb()` returns a handle rather than
null) is the constant `Store.available`. When none is configured, every write
raises `Unavailable`, except two calls that return silently: the audit-log
insert and the user upsert. Every read returns an empty result.

Facts about the code that the model keeps as they are:

- The code does not check, and the model does not assume, that a file's
  folder exists: `files.upload` and `files.shareLink` accept any `folderId`
  (server/routers.ts:97-107, 146-155).
- A comment may name neither a file nor a folder: both ids are optional
  and stored as given (server/routers.ts:209-223).
- The owner is promoted to `admin` on every upsert that omits `role`, not
  only on the first one (server/db.ts:62-68).
- `audit.list` selects 100 rows with no ordering (server/db.ts:178); the
  model returns the first 100 in insertion order.
- `upsertUser` and `createAuditLog` return silently when no database is
  configured, that is when `getDb()` returns null (server/db.ts:34-37, 171).
  Other writes raise.

## Model

| member | source | states |
|---|---|---|
| `Schema.StoredFolder` | drizzle/schema.ts:22-38 | an inserted folder keeps every given column; an omitted `createdAt` becomes the insertion time |
| `Schema.StoredFile` | drizzle/schema.ts:44-59 | an inserted file keeps every given column; an omitted `uploadedAt` becomes the insertion time |
| `Schema.StoredComment` | drizzle/schema.ts:65-72 | an inserted comment keeps every given column; an omitted `createdAt` becomes the insertion time |
| `Schema.StoredAuditLog` | drizzle/schema.ts:78-86 | an inserted audit entry keeps every given column; an omitted `createdAt` becomes the insertion time |
| `Schema.StoredNotification` | drizzle/schema.ts:92-101 | an omitted `read` is stored as `no`, a given one as given; an omitted `createdAt` becomes the insertion time; all other columns are copied |
| `Tables.Filter` | server/db.ts:139 | a `where` select keeps exactly the rows satisfying the condition, each as often as in the table |
| `Decimal.ToDecimal` | server/routers.ts:104 | the size text is non-empty, all decimal digits, and has no leading zero unless it is `"0"` |
| `Decimal.ParseToDecimal` | server/routers.ts:104 | reading the size text back as a decimal number gives the byte count |
| `Decimal.ToDecimalInjective` | server/routers.ts:104 | different byte counts never get the same size text |
| `Db.InsertValues` | server/db.ts:40-68 | the inserted columns: each text field and `lastSignedIn` exactly as supplied (omitted stays unwritten, null is written as null); `role` is `admin` only when omitted and the id is the owner's, and is otherwise unwritten; the result is empty exactly when nothing was supplied |
| `Db.UpdateSet` | server/db.ts:43-72 | the update set is never empty: it equals the inserted columns, or only `lastSignedIn := now` when nothing was supplied |
| `Db.BuildUpsert` | server/db.ts:40-72 | building the values and the update set field by field (the loop over the text fields and the conditional assignments) yields exactly `InsertValues` and `UpdateSet` |
| `Db.ApplyPatch` | server/db.ts:74-76 | updating a row writes exactly the columns in the update set and keeps every other one; the key and `createdAt` are never written; an empty set changes nothing |
| `Db.NewUser` | drizzle/schema.ts:8-16 | an inserted user has the given key and `createdAt = now`; each unwritten column takes its default: null for the text fields, `user` for `role`, `now` for `lastSignedIn` |
| `Db.InsertOrUpdate` | server/db.ts:74-76 | afterwards a row has the key; a new key appends one new row; an existing key keeps the length and every row with another key; under unique keys the row with the key is updated with the update set and keys stay unique |
| `Db.UserIndex` | server/db.ts:74-76 | finds the first users row with the given key, and finds none exactly when no row has it |
| `Db.UpsertKeepsIdsUnique` | server/db.ts:74-76 | insert-or-update keeps user ids unique |
| `Db.UpsertExisting` | server/db.ts:74-76 | on an existing id only that row changes: omitted fields keep their value, null ones are cleared, given ones are written, `createdAt` stays, `role` changes only by owner promotion, and `lastSignedIn` becomes `now` when nothing was supplied |
| `Db.UpsertNew` | server/db.ts:74-76 | on a new id one row is appended: supplied columns as given, others at their defaults (null, role `user` unless the owner is promoted, both timestamps `now` unless `lastSignedIn` was given) |
| `Db.LoginHeartbeat` | server/db.ts:70-72 | a login that supplies nothing only refreshes `lastSignedIn` of the stored row |
| `Db.CallerCreatedAtIgnored` | server/db.ts:40-76 | a caller-supplied `createdAt` never has an effect on the users table, whether or not a role is supplied |
| `Db.CallerRoleIgnored` | server/db.ts:62-68 | when the caller supplies a role, which role it supplies has no effect on the users table (a supplied role is never written) |
| `Db.UpsertIdempotent` | server/db.ts:28-81 | repeating an upsert with the same input at the same time leaves the table as one upsert left it |
| `Db.FilesWithout` | server/db.ts:145 | deleting by id removes exactly the files with that id; every other file keeps its multiplicity |
| `Db.FilterKeepsFileIdsUnique` | server/db.ts:145 | deleting files keeps file ids unique |
| `Db.MarkedRead` | server/db.ts:198 | the notification with the id gets `read = yes`, nothing else in it changes, and all other notifications are unchanged |
| `Db.MarkReadIdempotent` | server/db.ts:195-199 | marking a notification read twice equals marking it once |
| `Db.MarkReadOnlyNoToYes` | server/db.ts:198 | a notification is either unchanged or now read: read state never goes back to `no` |
| `Db.Store.UpsertUser` | server/db.ts:28-81 | an empty id raises and leaves the table unchanged; without a database nothing happens and nothing is raised; otherwise the users table becomes the insert-or-update of the built values and update set; ids stay unique and no other table changes |
| `Db.Store.GetUser` | server/db.ts:83-93 | returns a stored user with the requested id, or nothing exactly when no user has it; nothing without a database |
| `Db.Store.GetAllUsers` | server/db.ts:201-205 | returns the users table, or nothing without a database |
| `Db.Store.CreateFolder` | server/db.ts:96-101 | appends the folder with its defaults and returns the input unchanged; raises on a missing database or a taken id, changing nothing |
| `Db.Store.GetFoldersByType` | server/db.ts:103-107 | exactly the folders whose type literal equals the given string; each matching row appears as often as in the table, so once under a unique key; nothing without a database |
| `Db.Store.GetFolderById` | server/db.ts:109-114 | at most one folder, which has the requested id; none exactly when no folder has it; none without a database |
| `Db.Store.GetSubFolders` | server/db.ts:116-120 | exactly the folders whose parent is the given id; root folders never match; each matching row appears as often as in the table, so once under a unique key; nothing without a database |
| `Db.Store.GetAllFolders` | server/db.ts:122-126 | the folders table, or nothing without a database |
| `Db.Store.CreateFile` | server/db.ts:129-134 | appends the file with its defaults and returns the input unchanged; raises on a missing database or a taken id, changing nothing |
| `Db.Store.GetFilesByFolder` | server/db.ts:136-140 | exactly the files whose `folderId` is the given id; each matching row appears as often as in the table, so once under a unique key; nothing without a database |
| `Db.Store.DeleteFile` | server/db.ts:142-146 | removes the files with the id and keeps all others; raises without a database |
| `Db.Store.CreateComment` | server/db.ts:149-154 | appends the comment with its defaults and returns the input unchanged; raises on a missing database or a taken id, changing nothing |
| `Db.Store.GetCommentsByFile` | server/db.ts:156-160 | exactly the comments attached to the given file; each matching row appears as often as in the table, so once under a unique key; nothing without a database |
| `Db.Store.GetCommentsByFolder` | server/db.ts:162-166 | exactly the comments attached to the given folder; each matching row appears as often as in the table, so once under a unique key; nothing without a database |
| `Db.Store.CreateAuditLog` | server/db.ts:169-173 | appends the entry with its defaults; without a database it does nothing and raises nothing; a taken id raises |
| `Db.Store.GetAuditLogs` | server/db.ts:175-179 | at most `limit` entries, a prefix of the log, and the whole log when it is shorter |
| `Db.Store.CreateNotification` | server/db.ts:182-187 | appends the notification with its defaults and returns the input unchanged; raises on a missing database or a taken id, changing nothing |
| `Db.Store.GetUserNotifications` | server/db.ts:189-193 | exactly the notifications addressed to the given user; each matching row appears as often as in the table, so once under a unique key; nothing without a database |
| `Db.Store.MarkNotificationAsRead` | server/db.ts:195-199 | sets `read = yes` on that notification only; raises without a database |
| `Routers.DisplayName` | server/routers.ts:125 | a message renders the actor's name as given, and a null name as the text `null` |
| `Routers.UploadKey` | server/routers.ts:93 | the storage key is `files/`, then the file id, then `-`, then the file name |
| `Routers.AuditEntry` | server/routers.ts:109-116 | an audit entry carries the given id, actor, action, entity type, entity id and details; its `createdAt` is left to the insert, which stamps the insertion time |
| `Routers.FanOut` | server/routers.ts:118-130 | the notifications of one event: at most as many as there are users; `Routers.FanOutRecipients` states who receives them |
| `Routers.FanOutRecipients` | server/routers.ts:118-130 | every user other than the actor receives exactly one notification, and the actor and unknown ids receive none |
| `Routers.FanOutContents` | server/routers.ts:166-178 | every fanned-out notification goes to a known user other than the actor, is unread, carries the event's type, title, message and the new record's id, and has one of the supplied fresh ids |
| `Routers.NotifyOthers` | server/routers.ts:234-246 | the loop over all users appends exactly the fan-out for the users in order, skipping the actor, and keeps notification ids unique |
| `Routers.FoldersCreate` | server/routers.ts:38-56 | adds one folder whose fields are the input's, with the fresh id and `createdBy` = actor, and one audit entry `create_folder`/`folder` for that id; no notification; nothing changes without a database |
| `Routers.FilesUpload` | server/routers.ts:90-133 | adds one `upload` file whose URL is what storage returns for key `files/<id>-<name>`, whose size is the decimal byte count of the decoded data, uploaded by the actor; one `upload_file` audit entry; one `upload` notification per other user |
| `Routers.FilesShareLink` | server/routers.ts:143-181 | adds one `link` file carrying the input URL and platform and no stored URL, type or size; one `share_link` audit entry; one `link_shared` notification per other user |
| `Routers.FilesDelete` | server/routers.ts:189-204 | removes the file with that id, appends `delete_file` for it and replies success whether or not the file existed |
| `Routers.CommentsCreate` | server/routers.ts:214-249 | stores the comment with `fileId` and `folderId` exactly as given, appends `create_comment` for its id and notifies every other user with type `comment` |
| `Routers.NotificationsMarkAsRead` | server/routers.ts:269-274 | marks the notification read with no ownership check and replies success |
| `Routers.FoldersList` | server/routers.ts:58-60 | all folders |
| `Routers.FoldersGetByType` | server/routers.ts:62-66 | exactly the folders of the given type string; each as often as in the table; nothing without a database |
| `Routers.FoldersGetById` | server/routers.ts:68-72 | at most one folder, with the requested id, none exactly when absent; none without a database |
| `Routers.FoldersGetSubFolders` | server/routers.ts:74-78 | exactly the children of the given folder; each as often as in the table; nothing without a database |
| `Routers.FilesListByFolder` | server/routers.ts:183-187 | exactly the files of the given folder; each as often as in the table; nothing without a database |
| `Routers.CommentsListByFile` | server/routers.ts:251-255 | exactly the comments on the given file; each as often as in the table; nothing without a database |
| `Routers.CommentsListByFolder` | server/routers.ts:257-261 | exactly the comments on the given folder; each as often as in the table; nothing without a database |
| `Routers.NotificationsList` | server/routers.ts:265-267 | all of the actor's notifications and no one else's, each as often as in the table; nothing without a database |
| `Routers.AuditList` | server/routers.ts:277-281 | at most 100 entries, a prefix of the log, the whole log when it is shorter; nothing without a database |

The fan-out rows cite one loop each. The same loop is at
server/routers.ts:118-130, 166-178 and 234-246, and all three mutations call
`Routers.NotifyOthers` with their own title, message and type.

## Left out

- The lazily created database handle and its `DATABASE_URL` lookup (server/db.ts:13-26): process-wide connection state, reduced to the constant `Store.available`.
- `auth.me`, `auth.logout` and `systemRouter`: session and cookie mechanics. `server/_core/systemRouter.ts` is not part of this model.
- The authentication middleware behind `protectedProcedure` (`server/_core/trpc.ts` is not part of this model): every procedure starts from an authenticated `Actor`.
- Input validation: inputs are typed datatypes, so a malformed request cannot be written down.
- Object storage, the random id generator, base64 decoding and JSON serialisation: these are parameters (see above). An upload still calls storage when no database is configured, and that stored object is not represented.
- Failures of a configured database or of storage. Once a database is configured (server/db.ts:16-25), the database can still reject any query, reads included. `upsertUser` then rethrows (server/db.ts:77-80), and every other accessor raises instead of returning silently or `[]`. A rejected `storagePut` (server/routers.ts:95) aborts an upload before any write. The model has no such failure: an available store fails only on a taken key.
- Failures in the middle of a mutation. The source does not wrap the record write, the audit entry and the notifications in a transaction. Under the fresh-id preconditions, the audit and notification inserts cannot fail, so the model never shows the partial state a failure after the first write would leave.
- Concurrency and async interleaving: each mutation is one sequential step.
- Column length limits (`varchar(64)` and similar): the model stores strings of any length.
- Timestamps in inserts: an explicit null timestamp is not told apart from an omitted one. The server never passes either.
- `upsertUser` writing `role = 'admin'` back into the caller's input object (server/db.ts:64), console logging, and the catch-and-rethrow around the insert: none of these changes the tables.
- `Routers.AuditList`: the source's select has no ordering, so which 100 rows come back is unspecified. The model returns the first 100 in insertion order.
- `Db.Store.GetAuditLogs`: the source's select has no ordering, so which `limit` rows come back is unspecified; the model returns the first `limit` in insertion order.
- `Db.Store.GetAuditLogs`: the default `limit = 100` of `getAuditLogs` (server/db.ts:175) is not modelled as a default argument; the limit is always passed, and its one caller passes 100 (server/routers.ts:279).
- String comparison: `where` filters and primary keys are compared by exact character equality. MySQL compares them under the column collation, and MySQL 8's default collation ignores case, so there `getFoldersByType("TRIBUNAIS")` matches `tribunais` folders and two ids that differ only in case collide as keys. The model does not capture either.
- Timestamps: one `now` stamps every insert of a mutation (the file's `uploadedAt`, the audit entry's `createdAt`, every notification's `createdAt`) and the upsert heartbeat, which the source takes from the application clock (server/db.ts:71). In the source each insert gets the database's own `NOW()` when its statement runs, so these timestamps may differ from one another.
- `server/seedUsers.ts` and the `client/src/pages` views: a one-off script and presentation code.
