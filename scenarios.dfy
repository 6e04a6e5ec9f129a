/** Two client scenarios, proved from the procedures' contracts alone. */
module Scenarios {
  import opened Wrappers
  import opened Schema
  import opened Db
  import opened Routers
  import opened Decimal

  /** A court-case folder keeps its case number and is listed among the `tribunais` folders. */
  method CreateCourtFolder(stringify: JsonObject -> string, now: Timestamp) {
    var store := new Store(true);
    var actor := Actor("u1", Some("Ana"), UserRole);
    var input := FolderInput("Proc 1", Tribunais, None, None, None, Some("123/20"), None, None, None, None);
    var r := FoldersCreate(store, actor, input, stringify, "f1", "a1", now);
    assert r.Ok? && r.value.numeroProcesso == Some("123/20") && r.value.parentId == None;
    var stored := StoredFolder(r.value, now);
    assert stored in store.folders;
    assert stored in FoldersGetByType(store, "tribunais");
    assert |store.auditLogs| == 1 && store.auditLogs[0].entityId == "f1";
  }

  /** The size text of a ten-byte upload. */
  lemma TenBytesSize()
    ensures ToDecimal(10) == "10"
  {
    assert ToDecimal(1) == "1";
  }

  /** Two logins of new users leave exactly those two rows, in login order. */
  lemma TwoLogins(now: Timestamp)
    ensures var t := Upserted(Upserted([], UpsertInput("u1", None, None, None, None, None, None), "owner", now),
                              UpsertInput("u2", None, None, None, None, None, None), "owner", now);
      |t| == 2 && t[0].id == "u1" && t[1].id == "u2"
  {
    var u1 := UpsertInput("u1", None, None, None, None, None, None);
    var u2 := UpsertInput("u2", None, None, None, None, None, None);
    UpsertNew([], u1, "owner", now);
    var one := Upserted([], u1, "owner", now);
    assert one[0].id == "u1" && |one| == 1;
    assert !UserIdUsed(one, "u2");
    UpsertNew(one, u2, "owner", now);
  }

  /** With users `u1` then `u2`, an event by `u1` notifies only `u2`, with the second id. */
  lemma FanOutSkipsActor(users: seq<User>, title: string, message: string, entityId: Id, now: Timestamp)
    requires |users| == 2 && users[0].id == "u1" && users[1].id == "u2"
    ensures FanOut(users, ["n1", "n2"], "u1", title, message, UploadNotice, entityId, now)
         == [Notification("n2", "u2", title, message, UploadNotice, Some(entityId), No, Some(now))]
  {
    var ids := ["n1", "n2"];
    assert users[..1][..0] == [] && ids[..1][..0] == [];
    assert users[..1][0].id == "u1";
    assert FanOut(users[..1], ids[..1], "u1", title, message, UploadNotice, entityId, now) == [];
  }

  /** A ten-byte upload is recorded with size "10"; the uploader gets no notification, the other user one. */
  method UploadTenBytes(decodeBase64: string -> seq<Byte>, storagePut: (string, seq<Byte>, string) -> string,
                        stringify: JsonObject -> string, now: Timestamp)
    requires |decodeBase64("MDEyMzQ1Njc4OQ==")| == 10
  {
    var store := new Store(true);
    var _ := store.UpsertUser(UpsertInput("u1", None, None, None, None, None, None), "owner", now);
    var _ := store.UpsertUser(UpsertInput("u2", None, None, None, None, None, None), "owner", now);
    TwoLogins(now);
    var users := store.users;
    var actor := Actor("u1", None, UserRole);
    var input := UploadInput("f1", "notes.txt", "MDEyMzQ1Njc4OQ==", "text/plain", None);
    var ids := ["n1", "n2"];
    assert FreshNotificationIds(ids, users, store.notifications);
    var title := "Novo ficheiro carregado";
    var message := DisplayName(actor.name) + " carregou o ficheiro \"" + input.name + "\"";
    FanOutSkipsActor(users, title, message, "x1", now);
    TenBytesSize();
    var r := FilesUpload(store, actor, input, decodeBase64, storagePut, stringify, "x1", "a1", ids, now);
    assert r.Ok? && r.value.kind == Upload && r.value.fileSize == Some("10");
    assert |store.notifications| == 1 && store.notifications[0].userId == "u2";
  }
}
