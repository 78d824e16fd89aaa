/** Clients of the model: the sample data of scripts/seed.js and a session
    that walks one task through its whole life. */
module Scenarios {
  import opened Wrappers
  import opened Text
  import opened TaskModel
  import opened Dashboard
  import opened TaskStore
  import opened Accounts
  import opened Guards

  /** The five sample tasks scripts/seed.js inserts for its test user. */
  function SeedTasks(owner: UserId, at: int): seq<Task>
  {
    [ Task(0, "Complete AltSchool Assignment", "Finish buildinng the Todo app with authentication", Pending, High, owner, at, at),
      Task(1, "Learn MongoDB", "Study MongoDB aggregation and indexing", Pending, Medium, owner, at, at),
      Task(2, "Deploy to Render", "Deploy the application to Render hosting platform", Pending, High, owner, at, at),
      Task(3, "Write Tests", "Create unit tests for the application", Completed, Medium, owner, at, at),
      Task(4, "Setup GitHub Repository", "Push code to GitHub and setup CI/CD", Completed, Low, owner, at, at) ]
  }

  lemma CountCons(t: Task, rest: seq<Task>, owner: UserId, statuses: set<Status>)
    ensures CountWhere([t] + rest, owner, statuses)
         == (if t.owner == owner && t.status in statuses then 1 else 0) + CountWhere(rest, owner, statuses)
  {
    assert ([t] + rest)[1..] == rest;
  }

  lemma CountSeed(owner: UserId, who: UserId, at: int, statuses: set<Status>)
    ensures CountWhere(SeedTasks(owner, at), who, statuses)
         == if who != owner then 0
            else (if Pending in statuses then 3 else 0) + (if Completed in statuses then 2 else 0)
  {
    var s := SeedTasks(owner, at);
    assert s == [s[0]] + ([s[1]] + ([s[2]] + ([s[3]] + ([s[4]] + []))));
    CountCons(s[4], [], who, statuses);
    CountCons(s[3], [s[4]] + [], who, statuses);
    CountCons(s[2], [s[3]] + ([s[4]] + []), who, statuses);
    CountCons(s[1], [s[2]] + ([s[3]] + ([s[4]] + [])), who, statuses);
    CountCons(s[0], [s[1]] + ([s[2]] + ([s[3]] + ([s[4]] + []))), who, statuses);
  }

  /** The seeded user's dashboard counts 5 tasks, 3 pending and 2 completed;
      any other user's counts are all zero. */
  lemma SeedStats(owner: UserId, other: UserId, at: int)
    requires other != owner
    ensures ComputeStats(SeedTasks(owner, at), owner) == Stats(5, 3, 2)
    ensures ComputeStats(SeedTasks(owner, at), other) == Stats(0, 0, 0)
  {
    CountSeed(owner, owner, at, {Pending, Completed});
    CountSeed(owner, owner, at, {Pending});
    CountSeed(owner, owner, at, {Completed});
    CountSeed(owner, other, at, {Pending, Completed});
    CountSeed(owner, other, at, {Pending});
    CountSeed(owner, other, at, {Completed});
  }

  /** Two high-priority tasks A (older) and C (newer) and a medium one B:
      the dashboard lists B first, because "medium" is the largest of the
      three priority strings, then C before A, newest first. */
  lemma DashboardOrderExample(a: Task, b: Task, c: Task)
    requires a.priority == High && b.priority == Medium && c.priority == High
    requires a.createdAt < b.createdAt && a.createdAt < c.createdAt
    ensures SortForDashboard([a, b, c]) == [b, c, a]
  {
    PrecedesByRank(a, b);
    PrecedesByRank(b, c);
    PrecedesByRank(c, a);
    PrecedesByRank(a, c);
    PrecedesByRank(b, a);
    assert [a, b, c][1..] == [b, c];
    assert [b, c][1..] == [c];
    assert [c][1..] == [];
    assert SortForDashboard([c]) == [c];
    assert Insert(b, [c]) == [b, c];
    assert Insert(a, [c]) == [c, a] by { assert [c][1..] == []; }
    assert Insert(a, [b, c]) == [b] + Insert(a, [c]);
  }

  /** Registering opens the door to logging in; logging in closes the login
      page and opens the task pages; logging out reverses both. */
  method AccountLifecycle(digest: Digest, salt: string)
  {
    var accounts := new Accounts(digest);
    var session := new Session();
    assert RedirectIfAuth(session) == Next;

    var registered := accounts.Register(Some("testuser"), Some("password123"), Some("password123"), salt);
    assert registered.Success?;
    CompareHash(digest, "password123", salt);
    var login := accounts.Login(session, Some("testuser"), Some("password123"));
    assert login.Success?;
    assert RequireAuth(session, None).0 == Next && RedirectIfAuth(session) == Redirect(DashboardPage);

    var again := accounts.Register(Some("testuser"), Some("another1"), Some("another1"), salt);
    assert again == Failure(UsernameTaken);

    session.Destroy();
    assert RequireAuth(session, None) == (Redirect(LoginPage), Some(Notice(LoginRequired)));
    assert RedirectIfAuth(session) == Next;
  }

  /** On a store holding one task, a status change by its owner rewrites that task. */
  lemma StatusOnSingle(t: Task, name: string, now: int)
    requires ParseStatus(name).Some?
    ensures var t' := t.(status := ParseStatus(name).value, updatedAt := now);
            StatusStep([t], t.id, t.owner, Some(name), now) == Step(Success(t'), [t'])
  {
    var q := Query(t.id, t.owner, AnyStatus);
    EveryStatusIsAny();
    assert Matches(q, t);
    assert [t][1..] == [];
  }

  /** On a store holding one deleted task, its owner's purge empties the store
      while anyone else's purge changes nothing. */
  lemma PurgeOnSingle(t: Task, who: UserId)
    requires t.status == Deleted
    ensures PurgeStep([t], t.id, t.owner) == Step(Success(t), [])
    ensures who != t.owner ==> PurgeStep([t], t.id, who) == Step(Failure(NotFoundOrNotDeleted), [t])
  {
    var q := Query(t.id, t.owner, {Deleted});
    assert Matches(q, t);
    assert [t][1..] == [];
  }

  /** Create "Buy milk" on an empty store: it is listed under "pending". */
  method CreateMilk(me: UserId) returns (store: TaskStore, milk: Task)
    ensures fresh(store) && store.Valid()
    ensures store.tasks == [milk]
    ensures milk.title == "Buy milk" && milk.status == Pending && milk.priority == Low && milk.owner == me
  {
    store := new TaskStore();
    TrimmedIffUnpadded("Buy milk");
    TrimmedIffUnpadded("");
    var created := store.CreateTask(me, Some("Buy milk"), None, Some("low"), 1);
    assert created.Success?;
    milk := created.value;

    var pending, stats := store.ListTasks(me, Some("pending"));
    assert multiset(pending)[milk] == 1;
    assert stats == Stats(1, 1, 0);
  }

  /** Complete the task: it leaves the pending list for the completed one. */
  method Complete(store: TaskStore, milk: Task) returns (completed: Task)
    requires store.Valid() && store.tasks == [milk]
    modifies store
    ensures store.Valid() && store.tasks == [completed]
    ensures completed == milk.(status := Completed, updatedAt := 2)
  {
    StatusOnSingle(milk, "completed", 2);
    var r := store.UpdateStatus(milk.id, milk.owner, Some("completed"), 2);
    completed := milk.(status := Completed, updatedAt := 2);
    assert r == Success(completed);
    var pending, _ := store.ListTasks(milk.owner, Some("pending"));
    assert pending == [];
    var done, _ := store.ListTasks(milk.owner, Some("completed"));
    assert multiset(done)[completed] == 1;
  }

  /** Move the task to the trash: only the "deleted" filter still lists it. */
  method Trash(store: TaskStore, completed: Task) returns (trashed: Task)
    requires store.Valid() && store.tasks == [completed]
    modifies store
    ensures store.Valid() && store.tasks == [trashed]
    ensures trashed == completed.(status := Deleted, updatedAt := 3)
  {
    StatusOnSingle(completed, "deleted", 3);
    var r := store.UpdateStatus(completed.id, completed.owner, Some("deleted"), 3);
    trashed := completed.(status := Deleted, updatedAt := 3);
    assert r == Success(trashed);
    var shown, _ := store.ListTasks(completed.owner, None);
    assert shown == [];
    var bin, _ := store.ListTasks(completed.owner, Some("deleted"));
    assert multiset(bin)[trashed] == 1;
  }

  /** A stranger cannot purge the trashed task; its owner can, after which
      the task is gone for every route. */
  method Purge(store: TaskStore, trashed: Task)
    requires store.Valid() && store.tasks == [trashed] && trashed.status == Deleted
    modifies store
    ensures store.Valid() && store.tasks == []
  {
    PurgeOnSingle(trashed, trashed.owner + 1);
    var stranger := store.PermanentDelete(trashed.id, trashed.owner + 1);
    assert stranger == Failure(NotFoundOrNotDeleted);
    var purged := store.PermanentDelete(trashed.id, trashed.owner);
    assert purged == Success(trashed) && store.tasks == [];
    var gone := store.UpdateStatus(trashed.id, trashed.owner, Some("pending"), 4);
    assert gone == Failure(NotFound);
  }

  /** One task's whole life. */
  method TaskLifecycle(me: UserId)
  {
    var store, milk := CreateMilk(me);
    var completed := Complete(store, milk);
    var trashed := Trash(store, completed);
    Purge(store, trashed);
    assert store.tasks == [];
  }
}
