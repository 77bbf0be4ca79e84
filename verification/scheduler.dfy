/**
 * The reminder scheduler. A sweep at time `now` queries the todos whose
 * reminder lies strictly inside the next five minutes and, for each one
 * whose owner is found, arms a one-shot timer that captures the title, the
 * description and the owner's email. Firing a timer sends the reminder and
 * then clears that todo's `reminder`. Timers are a multiset of pending
 * records; the periodic trigger that calls the sweep, the clock and the
 * mail transport are outside the model.
 */
module Scheduler {
  import opened Wrappers
  import opened SchemaTypes
  import opened TodoModel
  import opened UserModel
  import opened Database
  import Routes

  /** How far ahead a sweep looks: five minutes, in milliseconds. */
  const Lookahead := 1000 * 60 * 5

  /** The sweep query `{reminder: {$gt: now, $lt: now + Lookahead}}`; a null reminder never matches. */
  predicate InWindow(reminder: Option<int>, now: int)
  {
    reminder.Some? && now < reminder.value && reminder.value < now + Lookahead
  }

  /** The ids the sweep query returns. */
  function Selected(todos: map<Id, Todo>, now: int): (ids: set<Id>)
    ensures forall id :: id in ids <==> id in todos && InWindow(todos[id].reminder, now)
  {
    set id | id in todos && InWindow(todos[id].reminder, now)
  }

  /** `User.findById(todo._creator)`: no user when the todo has no owner or the owner is gone. */
  function OwnerOf(todos: map<Id, Todo>, users: map<Id, User>, id: Id): (u: Option<User>)
    requires id in todos
    ensures u.Some? <==> todos[id].creator.Some? && todos[id].creator.value in users
    ensures u.Some? ==> u.value == users[todos[id].creator.value]
  {
    match todos[id].creator
    case None => None
    case Some(owner) => if owner in users then Some(users[owner]) else None
  }

  /**
   * A pending timer: the todo it belongs to, the delay it was armed with,
   * and the title, description and recipient as they were at sweep time.
   */
  datatype Timer = Timer(id: Id, delay: int, title: Option<string>, description: Option<string>, recipient: string)

  /** A sweep at `now` arms a timer for this todo: it is selected and its owner is found. */
  predicate ArmedBySweep(todos: map<Id, Todo>, users: map<Id, User>, now: int, id: Id)
  {
    id in todos && InWindow(todos[id].reminder, now) && OwnerOf(todos, users, id).Some?
  }

  /** The timer armed for a todo when its owner lookup completes at time `at`. */
  function TimerFor(todos: map<Id, Todo>, users: map<Id, User>, now: int, id: Id, at: int): (t: Timer)
    requires ArmedBySweep(todos, users, now, id)
    ensures t.id == id && t.delay == todos[id].reminder.value - at
    ensures t.title == todos[id].title && t.description == todos[id].description
    ensures t.recipient == users[todos[id].creator.value].email
  {
    var todo := todos[id];
    Timer(id, todo.reminder.value - at, todo.title, todo.description, OwnerOf(todos, users, id).value.email)
  }

  /** The timers a sweep arms for the todos among `ids`; `clock(id)` is when that todo's owner lookup completed. */
  function ArmedAmong(todos: map<Id, Todo>, users: map<Id, User>, now: int, clock: Id -> int, ids: set<Id>): set<Timer>
  {
    set id | id in ids && ArmedBySweep(todos, users, now, id) :: TimerFor(todos, users, now, id, clock(id))
  }

  /** All the timers one sweep at `now` arms: each belongs to a selected todo whose owner is found. */
  function SweepTimers(todos: map<Id, Todo>, users: map<Id, User>, now: int, clock: Id -> int): (ts: set<Timer>)
    ensures forall t :: t in ts ==> t.id in Selected(todos, now) && ArmedBySweep(todos, users, now, t.id)
  {
    ArmedAmong(todos, users, now, clock, Selected(todos, now))
  }

  /** Handling one more selected todo adds its timer when, and only when, its owner is found. */
  lemma ArmedAmongStep(todos: map<Id, Todo>, users: map<Id, User>, now: int, clock: Id -> int, ids: set<Id>, id: Id)
    requires id !in ids
    ensures multiset(ArmedAmong(todos, users, now, clock, ids + {id}))
      == multiset(ArmedAmong(todos, users, now, clock, ids))
         + if ArmedBySweep(todos, users, now, id) then multiset{TimerFor(todos, users, now, id, clock(id))} else multiset{}
  {
    var before := ArmedAmong(todos, users, now, clock, ids);
    var after := ArmedAmong(todos, users, now, clock, ids + {id});
    if ArmedBySweep(todos, users, now, id) {
      var t := TimerFor(todos, users, now, id, clock(id));
      assert t !in before;
      assert after == before + {t};
    } else {
      assert after == before;
    }
  }

  /**
   * A sweep arms exactly the selected todos whose owner is found: a timer is
   * armed for a todo if and only if its reminder lies strictly inside the
   * window and its owner exists, and it is that todo's timer.
   */
  lemma SweepArmsExactly(todos: map<Id, Todo>, users: map<Id, User>, now: int, clock: Id -> int, t: Timer)
    ensures t in SweepTimers(todos, users, now, clock)
      <==> ArmedBySweep(todos, users, now, t.id) && t == TimerFor(todos, users, now, t.id, clock(t.id))
  {
    if ArmedBySweep(todos, users, now, t.id) && t == TimerFor(todos, users, now, t.id, clock(t.id)) {
      assert t.id in Selected(todos, now);
    }
  }

  /** One sweep arms at most one timer per todo. */
  lemma SweepArmsOncePerTodo(todos: map<Id, Todo>, users: map<Id, User>, now: int, clock: Id -> int, t1: Timer, t2: Timer)
    requires t1 in SweepTimers(todos, users, now, clock) && t2 in SweepTimers(todos, users, now, clock)
    requires t1.id == t2.id
    ensures t1 == t2
  {
    SweepArmsExactly(todos, users, now, clock, t1);
    SweepArmsExactly(todos, users, now, clock, t2);
  }

  /**
   * The delay of an armed timer is the reminder minus the time its owner
   * lookup completed; as that is no earlier than the sweep, the delay is
   * below the lookahead (and is negative when the lookup ends after the reminder).
   */
  lemma SweepDelays(todos: map<Id, Todo>, users: map<Id, User>, now: int, clock: Id -> int, t: Timer)
    requires forall id :: now <= clock(id)
    requires t in SweepTimers(todos, users, now, clock)
    ensures t.id in todos && todos[t.id].reminder.Some?
    ensures t.delay == todos[t.id].reminder.value - clock(t.id)
    ensures t.delay < Lookahead
  {
    SweepArmsExactly(todos, users, now, clock, t);
  }

  /** A todo whose owner lookup yields no user gets no timer. */
  lemma NoOwnerNoTimer(todos: map<Id, Todo>, users: map<Id, User>, now: int, clock: Id -> int, id: Id)
    requires id in todos && (todos[id].creator.None? || todos[id].creator.value !in users)
    ensures forall t :: t in SweepTimers(todos, users, now, clock) ==> t.id != id
  {
    forall t | t in SweepTimers(todos, users, now, clock) ensures t.id != id {
      SweepArmsExactly(todos, users, now, clock, t);
    }
  }

  /**
   * There is no guard against arming twice: a todo whose reminder lies in
   * the windows of two sweeps gets a timer from each, so before either
   * fires it has two pending timers.
   */
  lemma TwoSweepsArmTwice(todos: map<Id, Todo>, users: map<Id, User>, now1: int, clock1: Id -> int,
                          now2: int, clock2: Id -> int, id: Id)
    requires ArmedBySweep(todos, users, now1, id) && ArmedBySweep(todos, users, now2, id)
    ensures var t1 := TimerFor(todos, users, now1, id, clock1(id));
      var t2 := TimerFor(todos, users, now2, id, clock2(id));
      var pending := multiset(SweepTimers(todos, users, now1, clock1)) + multiset(SweepTimers(todos, users, now2, clock2));
      t1.id == t2.id == id && pending[t1] >= 1 && pending[t2] >= 1 && (t1 == t2 ==> pending[t1] == 2)
  {
    var t1 := TimerFor(todos, users, now1, id, clock1(id));
    var t2 := TimerFor(todos, users, now2, id, clock2(id));
    SweepArmsExactly(todos, users, now1, clock1, t1);
    SweepArmsExactly(todos, users, now2, clock2, t2);
    if t1 == t2 {
      SweepArmsExactly(todos, users, now1, clock1, t2);
      SweepArmsExactly(todos, users, now2, clock2, t1);
    }
  }

  /**
   * What the scheduler does to the outside world, in order: a reminder sent,
   * and a stored todo whose reminder was cleared.
   */
  datatype Event = Sent(to: string, title: Option<string>, description: Option<string>) | ReminderCleared(id: Id)

  /** `todo.reminder = null; todo.save()`: only that todo's reminder changes; a deleted todo stays deleted. */
  function ClearReminder(todos: map<Id, Todo>, id: Id): (r: map<Id, Todo>)
    ensures r.Keys == todos.Keys
    ensures id in todos ==> r[id].reminder.None? && r[id] == todos[id].(reminder := r[id].reminder)
    ensures forall k :: k in todos && k != id ==> r[k] == todos[k]
  {
    if id in todos then todos[id := todos[id].(reminder := None)] else todos
  }

  /** The effect of a timer firing: the new todos and the events it emits. */
  datatype FireOutcome = FireOutcome(todos: map<Id, Todo>, events: seq<Event>)

  /**
   * The timer callback as intended: send the reminder with the data
   * captured at sweep time (the todo is not read again), then clear the
   * todo's reminder. When the todo was deleted before the timer fired, the
   * save matches no document and nothing is cleared.
   */
  function FireEffect(todos: map<Id, Todo>, t: Timer): (r: FireOutcome)
    ensures |r.events| >= 1 && r.events[0] == Sent(t.recipient, t.title, t.description)
    ensures r.events[1..] == (if t.id in todos then [ReminderCleared(t.id)] else [])
    ensures r.todos == ClearReminder(todos, t.id)
  {
    var cleared := if t.id in todos then [ReminderCleared(t.id)] else [];
    FireOutcome(ClearReminder(todos, t.id), [Sent(t.recipient, t.title, t.description)] + cleared)
  }

  /**
   * The timer callback as the source has it: the imported mail function is
   * not exported by the mailer, so calling it throws before anything is
   * sent or saved.
   */
  function FireEffectAsWritten(todos: map<Id, Todo>, t: Timer): (r: FireOutcome)
    ensures r.events == [] && r.todos == todos
  {
    FireOutcome(todos, [])
  }

  /**
   * As written, a fired timer delivers nothing and the todo keeps its
   * reminder; as intended, it sends exactly one reminder and the reminder
   * is gone.
   */
  lemma AsWrittenFireDeliversNothing(todos: map<Id, Todo>, t: Timer)
    requires t.id in todos && todos[t.id].reminder.Some?
    ensures var w := FireEffectAsWritten(todos, t);
      w.events == [] && w.todos[t.id].reminder.Some?
    ensures var f := FireEffect(todos, t);
      |set i | 0 <= i < |f.events| && f.events[i].Sent?| == 1 && f.todos[t.id].reminder.None?
  {
    var f := FireEffect(todos, t);
    assert (set i | 0 <= i < |f.events| && f.events[i].Sent?) == {0};
  }

  /** Once a todo's reminder is cleared by a fire, no later sweep arms it again. */
  lemma FiredTodoNeverRearmed(todos: map<Id, Todo>, users: map<Id, User>, t: Timer, now: int, clock: Id -> int)
    ensures forall u :: u in SweepTimers(FireEffect(todos, t).todos, users, now, clock) ==> u.id != t.id
  {
    var after := FireEffect(todos, t).todos;
    forall u | u in SweepTimers(after, users, now, clock) ensures u.id != t.id {
      SweepArmsExactly(after, users, now, clock, u);
    }
  }

  /** A todo created through POST /todos has no owner, so no sweep ever arms a timer for it. */
  lemma PostedTodoNeverArmed(todos: map<Id, Todo>, users: map<Id, User>, id: Id,
                             title: Option<Value>, description: Option<Value>, reminder: Option<Value>,
                             now: int, clock: Id -> int)
    requires NewTodo(title, description, reminder).Ok?
    requires id in todos && todos[id] == NewTodo(title, description, reminder).value
    ensures forall t :: t in SweepTimers(todos, users, now, clock) ==> t.id != id
  {
    NoOwnerNoTimer(todos, users, now, clock, id);
  }

  /** A PATCH without a numeric reminder disarms the todo for every later sweep. */
  lemma PatchWithoutReminderDisarms(todos: map<Id, Todo>, users: map<Id, User>, id: Id, body: Body,
                                    patchedAt: int, now: int, clock: Id -> int)
    requires id in todos
    requires "reminder" !in body || !body["reminder"].Num?
    ensures var patched := todos[id := Routes.ApplySet(todos[id], Routes.NormalizePatch(body, patchedAt))];
      forall t :: t in SweepTimers(patched, users, now, clock) ==> t.id != id
  {
    var patched := todos[id := Routes.ApplySet(todos[id], Routes.NormalizePatch(body, patchedAt))];
    forall t | t in SweepTimers(patched, users, now, clock) ensures t.id != id {
      SweepArmsExactly(patched, users, now, clock, t);
    }
  }

  /** The scheduler's in-memory state beside the shared collections. */
  class ReminderScheduler {
    /** The collections the sweep reads and the timers write back to. */
    const db: Store
    /** The armed timers that have not fired yet. */
    var pending: multiset<Timer>
    /** Every reminder sent and every reminder cleared, in order. */
    var log: seq<Event>

    constructor (db: Store)
      ensures this.db == db && pending == multiset{} && log == []
    {
      this.db := db;
      pending := multiset{};
      log := [];
    }

    /**
     * One sweep at time `now`: reads the collections without changing them
     * and arms one timer per selected todo whose owner is found. `clock(id)`
     * is the time at which that todo's owner lookup completed.
     */
    method Sweep(now: int, clock: Id -> int)
      requires forall id :: now <= clock(id)
      modifies this`pending
      ensures pending == old(pending) + multiset(SweepTimers(db.todos, db.users, now, clock))
    {
      var selected := Selected(db.todos, now);
      var remaining := selected;
      ghost var done: set<Id> := {};
      while remaining != {}
        invariant remaining <= selected && done == selected - remaining
        invariant pending == old(pending) + multiset(ArmedAmong(db.todos, db.users, now, clock, done))
        decreases remaining
      {
        var id :| id in remaining;
        ArmedAmongStep(db.todos, db.users, now, clock, done, id);
        var owner := OwnerOf(db.todos, db.users, id);
        if owner.Some? {
          var timer := TimerFor(db.todos, db.users, now, id, clock(id));
          pending := pending + multiset{timer};
        }
        // With no owner, reading `user.email` throws inside the lookup's callback and nothing is armed.
        remaining := remaining - {id};
        done := done + {id};
      }
    }

    /** A pending timer fires, as the callback is meant to behave. */
    method Fire(t: Timer)
      requires t in pending
      modifies this`pending, this`log, db`todos
      ensures pending == old(pending) - multiset{t}
      ensures log == old(log) + FireEffect(old(db.todos), t).events
      ensures db.todos == FireEffect(old(db.todos), t).todos
    {
      pending := pending - multiset{t};
      log := log + [Sent(t.recipient, t.title, t.description)];
      if t.id in db.todos {
        db.todos := ClearReminder(db.todos, t.id);
        log := log + [ReminderCleared(t.id)];
      }
    }

    /** A pending timer fires, as the callback is written: the call to the missing mail function throws. */
    method FireAsWritten(t: Timer)
      requires t in pending
      modifies this`pending
      ensures pending == old(pending) - multiset{t}
      ensures log == old(log) + FireEffectAsWritten(old(db.todos), t).events
      ensures db.todos == FireEffectAsWritten(old(db.todos), t).todos
    {
      pending := pending - multiset{t};
    }
  }
}
