/** Walkthroughs of the handlers, checked against their contracts alone. */
module Scenarios {
  import opened Base
  import opened UserModel
  import opened UseCaseModel
  import opened UseCaseHistoryModel
  import opened UseCaseRoutes
  import opened ActivationCode
  import opened Accounts

  /** Register, log in too early, activate, and log in. */
  method ActivationBeforeLogin()
  {
    var store := new AccountStore();
    var isEmail := (e: string) => '@' in e;
    var hash := (p: string) => "hash:" + p;
    var compare := (p: string, h: string) => h == "hash:" + p;
    var bytes: seq<byte> := [1, 2, 3];
    var body := Registration(Some("alice"), Some("a@x.com"), Some("secret1"), Some(Admin));
    assert RegistrationErrors(body, isEmail) == [];

    var r := store.Register(body, isEmail, hash, bytes, 10);
    assert r == Ok(201, Registered);
    assert store.users[1].role == Visualizador && !store.users[1].active;
    var code := Generate(bytes);

    var login := store.Login(Some("a@x.com"), Some("secret1"), compare);
    assert login == Fail(400, [NotActivated]);

    r := store.Activate("a@x.com", code);
    assert r == Ok(200, Activated);

    login := store.Login(Some("a@x.com"), Some("secret1"), compare);
    assert login == Ok(200, Session(LoggedIn, TokenRequest(Claims(1, "alice", Visualizador), OneHour)));
  }

  /** Only the issued code activates, and it works once: the same request again is refused. */
  method ActivationIsSingleUse()
  {
    var store := new AccountStore();
    var isEmail := (e: string) => '@' in e;
    var hash := (p: string) => "hash:" + p;
    var bytes: seq<byte> := [1, 2, 3];
    var body := Registration(Some("bob"), Some("b@x.com"), Some("secret2"), None);
    assert RegistrationErrors(body, isEmail) == [];

    var r := store.Register(body, isEmail, hash, bytes, 10);
    var code := Generate(bytes);
    assert code != "zzzzz";
    r := store.Activate("b@x.com", "zzzzz");
    assert r == Fail(400, [InvalidCode]);
    r := store.Activate("b@x.com", code);
    assert r == Ok(200, Activated);
    r := store.Activate("b@x.com", code);
    assert r == Fail(400, [InvalidCode]);
  }

  /** An editor creates a use case, another editor may not change it, an admin may; the history
      then holds the old content. */
  method OnlyOwnerOrAdminEdits()
  {
    var store := new UseCaseStore();
    var editorA := Claims(1, "a", Editor);
    var editorB := Claims(2, "b", Editor);
    var admin := Claims(3, "root", Admin);
    var original := Fields(Some("T"), Some("D"), Some("actor"), Some("pre"), Some("post"),
                           Some("main"), Some("alt"), None);
    var created := store.Create(editorA, original, 100);
    assert created.Ok? && created.value.id == 1 && created.value.createdBy == Some(1);

    var edit := original.(title := Some("T2"));
    var denied := store.Update(editorB, 1, edit, 200);
    assert denied == Fail(403, [NotAuthorized]);
    assert store.history == [];

    var updated := store.Update(admin, 1, edit, 300);
    assert updated.Ok? && updated.value.fields.title == Some("T2");
    assert store.history == [HistoryEntry(1, 1, original, 3, 300)];
  }

  /** Deleting a use case leaves its history readable. */
  method HistoryOutlivesDelete()
  {
    var store := new UseCaseStore();
    var editor := Claims(1, "a", Editor);
    var original := Fields(Some("T"), Some("D"), Some("actor"), Some("pre"), Some("post"),
                           Some("main"), Some("alt"), None);
    var created := store.Create(editor, original, 100);
    var updated := store.Update(editor, 1, original.(title := Some("T2")), 200);
    assert store.history == [HistoryEntry(1, 1, original, 1, 200)];

    var deleted := store.Delete(1);
    assert deleted == Ok(200, Deleted);
    assert store.Get(1) == Fail(404, [UseCaseNotFound]);
    var entries := store.ListHistory(1);
    assert store.history[0] in multiset(store.history);
    assert HistoryEntry(1, 1, original, 1, 200) in entries;
  }
}
