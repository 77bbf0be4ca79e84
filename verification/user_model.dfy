/**
 * The User schema: required, trimmed and length-checked text paths, the
 * email predicate, the `emailVarified` default, the token entries, and the
 * `unique` index on `email`.
 */
module UserModel {
  import opened Wrappers
  import opened SchemaTypes

  /** The schema paths validation can reject. */
  datatype UserPath = Username | Email | Password | Tokens

  const UsernameMinLength := 5
  const EmailMinLength := 1
  const PasswordMinLength := 6

  /** One entry of `tokens`; each part is None when it is missing. */
  datatype Token = Token(access: Option<string>, token: Option<string>)

  /** A stored user. The field name keeps the schema's own spelling. */
  datatype User = User(
    username: string,
    email: string,
    password: string,
    emailVarified: bool,
    tokens: seq<Token>)

  /** A required String path: present and not the empty string. */
  predicate Present(s: Option<string>)
  {
    s.Some? && |s.value| > 0
  }

  /** A token entry has both of its required parts. */
  predicate TokenValid(t: Token)
  {
    Present(t.access) && Present(t.token)
  }

  /** The text a String path stores for a request value, None when the key is absent. */
  function Stored(v: Option<Value>, trim: bool): (r: Option<string>)
    ensures r.Some? <==> v.Some? && !v.value.Null?
  {
    if v.None? then None else CastString(v.value, trim)
  }

  /** `username`: required, trimmed, at least five UTF-16 code units. */
  predicate UsernameValid(v: Option<Value>)
  {
    var u := Stored(v, true);
    Present(u) && Utf16Length(u.value) >= UsernameMinLength
  }

  /**
   * `email`: required, trimmed, at least one UTF-16 code unit, and accepted by
   * `isEmail`, the email predicate of the validator library.
   */
  predicate EmailValid(v: Option<Value>, isEmail: string -> bool)
  {
    var e := Stored(v, true);
    Present(e) && Utf16Length(e.value) >= EmailMinLength && isEmail(e.value)
  }

  /** `password`: required, not trimmed, at least six UTF-16 code units. */
  predicate PasswordValid(v: Option<Value>)
  {
    var p := Stored(v, false);
    Present(p) && Utf16Length(p.value) >= PasswordMinLength
  }

  /** `tokens`: every entry has both of its required parts. */
  predicate TokensValid(tokens: seq<Token>)
  {
    forall i :: 0 <= i < |tokens| ==> TokenValid(tokens[i])
  }

  /** The paths whose validation fails. */
  function UserErrors(username: Option<Value>, email: Option<Value>, password: Option<Value>,
                      tokens: seq<Token>, isEmail: string -> bool): (r: set<UserPath>)
    ensures Username in r <==> !UsernameValid(username)
    ensures Email in r <==> !EmailValid(email, isEmail)
    ensures Password in r <==> !PasswordValid(password)
    ensures Tokens in r <==> !TokensValid(tokens)
  {
    (if UsernameValid(username) then {} else {Username})
    + (if EmailValid(email, isEmail) then {} else {Email})
    + (if PasswordValid(password) then {} else {Password})
    + (if TokensValid(tokens) then {} else {Tokens})
  }

  /**
   * `new User({...})` followed by validation: the user that would be saved,
   * or the set of paths that failed. `emailVarified` is None when not given.
   */
  function NewUser(username: Option<Value>, email: Option<Value>, password: Option<Value>,
                   emailVarified: Option<bool>, tokens: seq<Token>,
                   isEmail: string -> bool): (r: Result<User, set<UserPath>>)
    ensures r.Err? <==> UserErrors(username, email, password, tokens, isEmail) != {}
    ensures r.Err? ==> r.error == UserErrors(username, email, password, tokens, isEmail)
    ensures r.Ok? ==>
      && Utf16Length(r.value.username) >= UsernameMinLength && Trimmed(r.value.username)
      && r.value.email != [] && Trimmed(r.value.email) && isEmail(r.value.email)
      && Utf16Length(r.value.password) >= PasswordMinLength
      && Some(r.value.username) == Stored(username, true)
      && Some(r.value.email) == Stored(email, true)
      && Some(r.value.password) == Stored(password, false)
      && r.value.emailVarified == (emailVarified == Some(true))
      && r.value.tokens == tokens
      && (forall i :: 0 <= i < |tokens| ==> TokenValid(tokens[i]))
  {
    var errors := UserErrors(username, email, password, tokens, isEmail);
    if errors != {} then
      Err(errors)
    else
      Ok(User(
        username := Stored(username, true).value,
        email := Stored(email, true).value,
        password := Stored(password, false).value,
        emailVarified := if emailVarified.Some? then emailVarified.value else false,
        tokens := tokens))
  }

  /** A string username is accepted exactly when, trimmed, it is at least five UTF-16 code units long. */
  lemma UsernameValidIff(s: string)
    ensures UsernameValid(Some(Str(s))) <==> Utf16Length(Trim(s)) >= UsernameMinLength
  {
    assert Stored(Some(Str(s)), true) == Some(Trim(s));
  }

  /** A string password is accepted exactly when it is at least six UTF-16 code units long; it is not trimmed. */
  lemma PasswordValidIff(s: string)
    ensures PasswordValid(Some(Str(s))) <==> Utf16Length(s) >= PasswordMinLength
  {
    assert Stored(Some(Str(s)), false) == Some(s);
  }

  /** A string email is accepted exactly when, trimmed, it is non-empty and the email predicate accepts it. */
  lemma EmailValidIff(s: string, isEmail: string -> bool)
    ensures EmailValid(Some(Str(s)), isEmail) <==> Utf16Length(Trim(s)) >= EmailMinLength && isEmail(Trim(s))
  {
    assert Stored(Some(Str(s)), true) == Some(Trim(s));
  }

  /** The email `testUser` is rejected, under any email predicate that demands an `@`. */
  lemma EmailWithoutAtRejected(isEmail: string -> bool)
    requires forall s :: isEmail(s) ==> '@' in s
    ensures !EmailValid(Some(Str("testUser")), isEmail)
  {
    NoAtNoEmail(isEmail);
    TestUserRefused(isEmail);
  }

  lemma TestUserRefused(isEmail: string -> bool)
    requires !isEmail("testUser")
    ensures !EmailValid(Some(Str("testUser")), isEmail)
  {
    TestUserUntrimmed();
    EmailValidIff("testUser", isEmail);
  }

  lemma TestUserUntrimmed()
    ensures Trim("testUser") == "testUser"
  {
    var s := "testUser";
    assert s[0] == 't' && s[|s| - 1] == 'r';
    assert TrimStart(s) == s;
    assert TrimEnd(s) == s;
  }

  lemma NoAtNoEmail(isEmail: string -> bool)
    requires forall s :: isEmail(s) ==> '@' in s
    ensures !isEmail("testUser")
  {
    assert '@' !in "testUser";
  }

  /** A missing or null required path is rejected, whatever the other paths hold. */
  lemma RequiredUserFieldsMissing(v: Option<Value>, isEmail: string -> bool)
    requires v.None? || v == Some(Null)
    ensures !UsernameValid(v) && !EmailValid(v, isEmail) && !PasswordValid(v)
  {
  }

  /** No two stored users share an email: the `unique` index on the path. */
  predicate EmailsUnique(users: map<Id, User>)
  {
    forall a, b :: a in users && b in users && users[a].email == users[b].email ==> a == b
  }

  /** Some stored user already has this email. */
  predicate EmailTaken(users: map<Id, User>, email: string)
  {
    exists id :: id in users && users[id].email == email
  }

  /**
   * Inserting into the collection under a fresh id: refused when the email
   * is already in use, otherwise the collection gains exactly that user.
   */
  function InsertUser(users: map<Id, User>, id: Id, u: User): (r: Option<map<Id, User>>)
    requires id !in users
    ensures r.None? <==> EmailTaken(users, u.email)
    ensures r.Some? ==> r.value == users[id := u]
  {
    if exists k :: k in users && users[k].email == u.email then None else Some(users[id := u])
  }

  /** Inserting keeps the emails of the collection unique. */
  lemma InsertUserKeepsEmailsUnique(users: map<Id, User>, id: Id, u: User)
    requires id !in users && EmailsUnique(users)
    ensures InsertUser(users, id, u).Some? ==> EmailsUnique(InsertUser(users, id, u).value)
  {
    var r := InsertUser(users, id, u);
    if r.Some? {
      assert forall k :: k in users ==> users[k].email != u.email;
    }
  }
}
