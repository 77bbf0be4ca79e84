/**
 * The Todo schema: which fields a todo has, which of them are required,
 * trimmed and length-checked, and the defaults of the others.
 */
module TodoModel {
  import opened Wrappers
  import opened SchemaTypes

  /** The schema paths validation can reject. */
  datatype TodoPath = Title | Description | Reminder

  const TitleMinLength := 4
  const DescriptionMinLength := 8

  /**
   * A stored todo. `title` and `description` are None only after an update
   * that set them to `null`. `creator` is the `_creator` field the scheduler
   * reads; the schema does not declare it, so creating a todo never sets it.
   */
  datatype Todo = Todo(
    title: Option<string>,
    description: Option<string>,
    completed: bool,
    completedAt: Option<int>,
    reminder: Option<int>,
    creator: Option<Id>)

  /**
   * A required, trimmed String path with a `minlength`: the request value
   * (None when the key is absent) is accepted when, cast and trimmed, it is
   * a non-empty string whose JavaScript `length` (UTF-16 code units) is at
   * least `min`.
   */
  predicate TextAccepted(v: Option<Value>, min: nat)
  {
    v.Some? && CastString(v.value, true).Some?
    && |CastString(v.value, true).value| > 0
    && Utf16Length(CastString(v.value, true).value) >= min
  }

  /** Whether validation of one path fails when a todo is created from these values. */
  predicate PathFails(path: TodoPath, title: Option<Value>, description: Option<Value>, reminder: Option<Value>)
  {
    match path
    case Title => !TextAccepted(title, TitleMinLength)
    case Description => !TextAccepted(description, DescriptionMinLength)
    case Reminder => reminder.Some? && CastDate(reminder.value).Err?
  }

  /** The paths whose validation fails when a todo is created from these values. */
  function TodoErrors(title: Option<Value>, description: Option<Value>, reminder: Option<Value>): (r: set<TodoPath>)
    ensures Title in r <==> !TextAccepted(title, TitleMinLength)
    ensures Description in r <==> !TextAccepted(description, DescriptionMinLength)
    ensures Reminder in r <==> reminder.Some? && CastDate(reminder.value).Err?
  {
    set path | PathFails(path, title, description, reminder)
  }

  /**
   * `new Todo({title, description, reminder})` followed by validation: the
   * document that would be saved, or the set of paths that failed.
   */
  function NewTodo(title: Option<Value>, description: Option<Value>, reminder: Option<Value>): (r: Result<Todo, set<TodoPath>>)
    ensures r.Err? <==> TodoErrors(title, description, reminder) != {}
    ensures r.Err? ==> r.error == TodoErrors(title, description, reminder)
    ensures r.Ok? ==>
      && r.value.title.Some? && Trimmed(r.value.title.value) && Utf16Length(r.value.title.value) >= TitleMinLength
      && r.value.description.Some? && Trimmed(r.value.description.value)
      && Utf16Length(r.value.description.value) >= DescriptionMinLength
      && r.value.title == CastString(title.value, true)
      && r.value.description == CastString(description.value, true)
      && !r.value.completed && r.value.completedAt.None?
      && (reminder.None? ==> r.value.reminder.None?)
      && (reminder.Some? ==> r.value.reminder == CastDate(reminder.value).value)
      && r.value.creator.None?
  {
    var errors := TodoErrors(title, description, reminder);
    if errors != {} then
      Err(errors)
    else
      Ok(Todo(
        title := CastString(title.value, true),
        description := CastString(description.value, true),
        completed := false,
        completedAt := None,
        reminder := if reminder.None? then None else CastDate(reminder.value).value,
        creator := None))
  }

  /** A string is accepted by a trimmed text path exactly when, trimmed, it reaches the minimum length. */
  lemma TextAcceptedIff(s: string, min: nat)
    requires min > 0
    ensures TextAccepted(Some(Str(s)), min) <==> Utf16Length(Trim(s)) >= min
  {
    assert CastString(Str(s), true) == Some(Trim(s));
  }

  /** A string title is accepted exactly when, trimmed, it is at least four UTF-16 code units long. */
  lemma TitleValidIff(s: string, description: Option<Value>, reminder: Option<Value>)
    ensures Title !in TodoErrors(Some(Str(s)), description, reminder) <==> Utf16Length(Trim(s)) >= TitleMinLength
  {
    TextAcceptedIff(s, TitleMinLength);
  }

  /** A string description is accepted exactly when, trimmed, it is at least eight UTF-16 code units long. */
  lemma DescriptionValidIff(s: string, title: Option<Value>, reminder: Option<Value>)
    ensures Description !in TodoErrors(title, Some(Str(s)), reminder) <==> Utf16Length(Trim(s)) >= DescriptionMinLength
  {
    TextAcceptedIff(s, DescriptionMinLength);
  }

  /** A missing or null title or description is rejected as required. */
  lemma RequiredTextMissing(v: Option<Value>, min: nat)
    requires v.None? || v == Some(Null)
    ensures !TextAccepted(v, min)
  {
  }

  /**
   * Two emoji make a valid title: each is two UTF-16 code units, so the
   * trimmed title has length 4 although it holds two characters.
   */
  lemma TwoEmojiTitleAccepted(description: Option<Value>, reminder: Option<Value>)
    ensures Title !in TodoErrors(Some(Str("\U{1F600}\U{1F600}")), description, reminder)
  {
    var s := "\U{1F600}\U{1F600}";
    assert s[0] == s[1] == '\U{1F600}';
    assert TrimStart(s) == s;
    assert TrimEnd(s) == s;
    assert s[..1] == [s[0]];
    assert Utf16Length(s) == 4;
    TitleValidIff(s, description, reminder);
  }
}
