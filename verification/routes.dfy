/**
 * The todo and user routes of the HTTP server: for each request, the
 * status it answers with, the document it returns, and what it does to the
 * collections. Response bodies other than the returned document, and
 * database failures (the 400 of a rejected promise), are not modelled.
 */
module Routes {
  import opened Wrappers
  import opened SchemaTypes
  import opened TodoModel
  import opened UserModel
  import opened Database

  const OK := 200
  const BadRequest := 400
  const NotFound := 404

  /** A response: its status and the document sent with it, if any. */
  datatype Reply<T> = Reply(status: int, body: Option<T>)

  /** POST /todos: create a todo from the title, description and reminder of the body. */
  method PostTodo(db: Store, body: Body, newId: Id) returns (r: Reply<Todo>)
    requires newId !in db.todos
    modifies db`todos
    ensures var created := NewTodo(Field(body, "title"), Field(body, "description"), Field(body, "reminder"));
      && (created.Ok? ==> r == Reply(OK, Some(created.value)) && db.todos == old(db.todos)[newId := created.value])
      && (created.Err? ==> r == Reply(BadRequest, None) && db.todos == old(db.todos))
  {
    var created := NewTodo(Field(body, "title"), Field(body, "description"), Field(body, "reminder"));
    if created.Ok? {
      db.todos := db.todos[newId := created.value];
      r := Reply(OK, Some(created.value));
    } else {
      r := Reply(BadRequest, None);
    }
  }

  /**
   * GET /todos/:id, with its found/not-found test inverted: an invalid id
   * and an id that IS stored both give 404, and only an absent id gives 200,
   * with a null todo. The stored todo is never returned.
   */
  method GetTodo(db: Store, id: Id) returns (r: Reply<Todo>)
    ensures r.status == OK <==> db.isValidId(id) && id !in db.todos
    ensures r.status == NotFound <==> !db.isValidId(id) || id in db.todos
    ensures r.body == None
  {
    if !db.isValidId(id) {
      return Reply(NotFound, None);
    }
    var found := if id in db.todos then Some(db.todos[id]) else None;
    if found.Some? {
      return Reply(NotFound, None);
    }
    r := Reply(OK, None);
  }

  /** DELETE /todos/:id: remove the todo and return it, or 404 with nothing changed. */
  method DeleteTodo(db: Store, id: Id) returns (r: Reply<Todo>)
    modifies db`todos
    ensures db.isValidId(id) && id in old(db.todos) ==>
      r == Reply(OK, Some(old(db.todos)[id])) && db.todos == old(db.todos) - {id}
    ensures !(db.isValidId(id) && id in old(db.todos)) ==>
      r == Reply(NotFound, None) && db.todos == old(db.todos)
  {
    if !db.isValidId(id) {
      return Reply(NotFound, None);
    }
    if id !in db.todos {
      return Reply(NotFound, None);
    }
    var removed := db.todos[id];
    db.todos := db.todos - {id};
    r := Reply(OK, Some(removed));
  }

  /** The keys PATCH /todos/:id takes from the body. */
  const PatchKeys: set<string> := {"title", "description", "completed", "reminder"}

  /**
   * The `$set` document of a PATCH once normalised: `title` and
   * `description` as given (None when absent from the body), and the
   * `completed`, `completedAt` and `reminder` the handler always sets.
   */
  datatype PatchSet = PatchSet(
    title: Option<Value>,
    description: Option<Value>,
    completed: bool,
    completedAt: Option<int>,
    reminder: Option<int>)

  /**
   * The handler's normalisation of the request body at time `now`: pick the
   * four keys; a boolean `true` for `completed` stamps `completedAt`, and
   * anything else (absent included) sets `completed` false and clears
   * `completedAt`; a numeric `reminder` is kept, anything else clears it.
   */
  function NormalizePatch(body: Body, now: int): (p: PatchSet)
    ensures p.title == Field(body, "title") && p.description == Field(body, "description")
    ensures p.completed <==> "completed" in body && body["completed"] == Bool(true)
    ensures p.completed ==> p.completedAt == Some(now)
    ensures !p.completed ==> p.completedAt == None
    ensures p.reminder.Some? <==> "reminder" in body && body["reminder"].Num?
    ensures p.reminder.Some? ==> p.reminder.value == body["reminder"].n
  {
    var picked := Pick(body, PatchKeys);
    var completed := Field(picked, "completed");
    var reminder := Field(picked, "reminder");
    var isDone := completed.Some? && completed.value.Bool? && completed.value.b;
    PatchSet(
      title := Field(picked, "title"),
      description := Field(picked, "description"),
      completed := isDone,
      completedAt := if isDone then Some(now) else None,
      reminder := if reminder.Some? && reminder.value.Num? then Some(reminder.value.n) else None)
  }

  /** Two bodies that agree on the four picked keys normalise alike: every other key is ignored. */
  lemma NormalizePatchIgnoresOtherKeys(b1: Body, b2: Body, now: int)
    requires forall k :: k in PatchKeys ==> Field(b1, k) == Field(b2, k)
    ensures NormalizePatch(b1, now) == NormalizePatch(b2, now)
  {
    assert Field(b1, "title") == Field(b2, "title");
    assert Field(b1, "description") == Field(b2, "description");
    assert Field(b1, "completed") == Field(b2, "completed");
    assert Field(b1, "reminder") == Field(b2, "reminder");
  }

  /**
   * The `$set` casts: each date it sets goes through the Date cast, and the
   * update is rejected when the cast fails, that is when the number is one
   * a Date cannot hold.
   */
  function PatchCastOk(p: PatchSet): (ok: bool)
    ensures ok <==> ((p.completedAt.None? || DateInRange(p.completedAt.value))
                     && (p.reminder.None? || DateInRange(p.reminder.value)))
  {
    (p.completedAt.None? || CastDate(Num(p.completedAt.value)).Ok?)
    && (p.reminder.None? || CastDate(Num(p.reminder.value)).Ok?)
  }

  /** `$set` applied to a stored todo: the fields the patch carries are replaced, the rest kept. */
  function ApplySet(t: Todo, p: PatchSet): (r: Todo)
    ensures r.title == (if p.title.Some? then CastString(p.title.value, true) else t.title)
    ensures r.description == (if p.description.Some? then CastString(p.description.value, true) else t.description)
    ensures r.completed == p.completed && r.completedAt == p.completedAt && r.reminder == p.reminder
    ensures r.creator == t.creator
  {
    t.(
      title := if p.title.Some? then CastString(p.title.value, true) else t.title,
      description := if p.description.Some? then CastString(p.description.value, true) else t.description,
      completed := p.completed,
      completedAt := p.completedAt,
      reminder := p.reminder)
  }

  /**
   * PATCH /todos/:id at time `now`: an invalid id gives 404; a date the
   * update cannot cast gives 400; a missing todo gives 404; otherwise the
   * normalised fields are set and the updated todo is returned.
   */
  method PatchTodo(db: Store, id: Id, body: Body, now: int) returns (r: Reply<Todo>)
    modifies db`todos
    ensures !db.isValidId(id) ==> r == Reply(NotFound, None) && db.todos == old(db.todos)
    ensures db.isValidId(id) ==>
      var p := NormalizePatch(body, now);
      if !PatchCastOk(p) then
        r == Reply(BadRequest, None) && db.todos == old(db.todos)
      else if id !in old(db.todos) then
        r == Reply(NotFound, None) && db.todos == old(db.todos)
      else
        var updated := ApplySet(old(db.todos)[id], p);
        r == Reply(OK, Some(updated)) && db.todos == old(db.todos)[id := updated]
  {
    if !db.isValidId(id) {
      return Reply(NotFound, None);
    }
    var p := NormalizePatch(body, now);
    if !PatchCastOk(p) {
      return Reply(BadRequest, None);
    }
    if id !in db.todos {
      return Reply(NotFound, None);
    }
    var updated := ApplySet(db.todos[id], p);
    db.todos := db.todos[id := updated];
    r := Reply(OK, Some(updated));
  }

  /**
   * A PATCH that omits `completed`, or gives it as anything but the boolean
   * `true`, leaves the todo not completed and without a completion time.
   */
  lemma PatchWithoutCompletedResets(t: Todo, body: Body, now: int)
    requires "completed" !in body || body["completed"] != Bool(true)
    ensures var u := ApplySet(t, NormalizePatch(body, now)); !u.completed && u.completedAt.None?
  {
  }

  /** A PATCH whose `reminder` is absent or not a number leaves the todo without a reminder. */
  lemma PatchWithoutNumericReminderClears(t: Todo, body: Body, now: int)
    requires "reminder" !in body || !body["reminder"].Num?
    ensures ApplySet(t, NormalizePatch(body, now)).reminder.None?
  {
  }

  /**
   * A PATCH changes only the normalised fields: the owner is kept, and a
   * title or description the body does not mention stays as it was.
   */
  lemma PatchKeepsUnmentionedFields(t: Todo, body: Body, now: int)
    ensures var u := ApplySet(t, NormalizePatch(body, now));
      && u.creator == t.creator
      && ("title" !in body ==> u.title == t.title)
      && ("description" !in body ==> u.description == t.description)
  {
  }

  /** POST /users: create a user from the username, email and password of the body. */
  method PostUser(db: Store, body: Body, newId: Id, isEmail: string -> bool) returns (r: Reply<User>)
    requires newId !in db.users
    modifies db`users
    ensures var created := NewUser(Field(body, "username"), Field(body, "email"), Field(body, "password"), None, [], isEmail);
      if created.Ok? && !EmailTaken(old(db.users), created.value.email) then
        r == Reply(OK, Some(created.value)) && db.users == old(db.users)[newId := created.value]
      else
        r == Reply(BadRequest, None) && db.users == old(db.users)
    ensures EmailsUnique(old(db.users)) ==> EmailsUnique(db.users)
  {
    // `_.pick` keeps only these three keys, so `emailVarified` and `tokens` take their defaults.
    var created := NewUser(Field(body, "username"), Field(body, "email"), Field(body, "password"), None, [], isEmail);
    if created.Err? {
      return Reply(BadRequest, None);
    }
    var inserted := InsertUser(db.users, newId, created.value);
    if inserted.None? {
      return Reply(BadRequest, None);
    }
    if EmailsUnique(db.users) {
      InsertUserKeepsEmailsUnique(db.users, newId, created.value);
    }
    db.users := inserted.value;
    r := Reply(OK, Some(created.value));
  }

  /** A user created through POST /users is never email-verified and has no tokens. */
  lemma PostedUserDefaults(body: Body, isEmail: string -> bool)
    ensures var created := NewUser(Field(body, "username"), Field(body, "email"), Field(body, "password"), None, [], isEmail);
      created.Ok? ==> !created.value.emailVarified && created.value.tokens == []
  {
  }
}
