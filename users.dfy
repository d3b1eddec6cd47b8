/**
 * The in-memory user directory behind `/auth/signup` and `/auth/login`: a
 * plain JavaScript object keyed by email. Because it is a plain object, a
 * lookup `users[email]` also finds the properties every object inherits from
 * `Object.prototype`; `Lookup` models that, and the login check written in
 * the source is modelled beside the one evidently intended.
 */
module Users {
  import opened Js

  /** A stored record `{ email, password, gold }`. */
  datatype User = User(email: string, password: string, gold: int)

  /** A response: `res.status(status).json({ message })`, or `res.json({ token })`. */
  datatype AuthResponse = Message(status: nat, message: string) | Token(token: string)

  const MissingFieldsMessage := "email and password required"
  const UserExistsMessage := "user exists"
  const InvalidCredentialsMessage := "invalid credentials"
  const OkMessage := "ok"

  /** The properties every plain object inherits from `Object.prototype`. */
  const InheritedKeys: set<string> := {
    "constructor", "hasOwnProperty", "isPrototypeOf", "propertyIsEnumerable",
    "toLocaleString", "toString", "valueOf", "__proto__",
    "__defineGetter__", "__defineSetter__", "__lookupGetter__", "__lookupSetter__"
  }

  /** The property key a value is looked up under: `undefined` becomes the string "undefined". */
  function PropertyKey(email: Option<string>): string
  {
    if email.Some? then email.value else "undefined"
  }

  /** What `users[key]` evaluates to. */
  datatype Entry = Own(user: User) | Inherited | Missing

  function Lookup(users: map<string, User>, key: string): Entry
  {
    if key in users then Own(users[key]) else if key in InheritedKeys then Inherited else Missing
  }

  /** `u.password` for a found entry; an inherited property (a function) has no `password`. */
  function PasswordOf(e: Entry): Option<string>
  {
    if e.Own? then Some(e.user.password) else None
  }

  /** Every stored record sits under its own non-empty email, has a non-empty password and no gold. */
  ghost predicate StoreInvariant(users: map<string, User>)
  {
    forall k :: k in users ==>
      && users[k].email == k && k != "" && k !in InheritedKeys
      && users[k].password != "" && users[k].gold == 0
  }

  /** The login handler as written: `if(!u || u.password !== password)` rejects. */
  function LoginAsWritten(users: map<string, User>, email: Option<string>, password: Option<string>,
                          sign: Option<string> -> string): (r: AuthResponse)
    ensures r.Token? <==>
      || (PropertyKey(email) in users && password == Some(users[PropertyKey(email)].password))
      || (PropertyKey(email) !in users && PropertyKey(email) in InheritedKeys && password.None?)
    ensures r.Token? ==> r == Token(sign(email))
    ensures !r.Token? ==> r == Message(401, InvalidCredentialsMessage)
  {
    var u := Lookup(users, PropertyKey(email));
    if u.Missing? || PasswordOf(u) != password then Message(401, InvalidCredentialsMessage)
    else Token(sign(email))
  }

  /** An inherited property name with no password logs in against an empty directory. */
  lemma InheritedKeyLogsIn(sign: Option<string> -> string)
    ensures LoginAsWritten(map[], Some("toString"), None, sign) == Token(sign(Some("toString")))
  {
    assert "toString" in InheritedKeys;
  }

  /**
   * The login check as intended: a token is issued exactly when a user is
   * stored under the email and the supplied password is theirs.
   */
  function Login(users: map<string, User>, email: Option<string>, password: Option<string>,
                 sign: Option<string> -> string): (r: AuthResponse)
    ensures r.Token? <==> PropertyKey(email) in users && password == Some(users[PropertyKey(email)].password)
    ensures r.Token? ==> r == Token(sign(email))
    ensures !r.Token? ==> r == Message(401, InvalidCredentialsMessage)
  {
    var u := Lookup(users, PropertyKey(email));
    if !u.Own? || PasswordOf(u) != password then Message(401, InvalidCredentialsMessage)
    else Token(sign(email))
  }

  /** The two checks differ only for an inherited property name given without a password. */
  lemma LoginAsWrittenDiffers(users: map<string, User>, email: Option<string>, password: Option<string>,
                              sign: Option<string> -> string)
    ensures LoginAsWritten(users, email, password, sign) != Login(users, email, password, sign)
        <==> PropertyKey(email) !in users && PropertyKey(email) in InheritedKeys && password.None?
  {
  }

  /** A user just signed up logs in with their password and with no other. */
  lemma LoginAfterSignup(users: map<string, User>, email: string, password: string, attempt: Option<string>,
                         sign: Option<string> -> string)
    ensures var users' := users[email := User(email, password, 0)];
      Login(users', Some(email), attempt, sign).Token? <==> attempt == Some(password)
  {
  }

  /**
   * In a directory kept by signup, the intended login never issues a token
   * without a non-empty password, while the login as written issues one with
   * no password exactly for an inherited property name.
   */
  lemma LoginWithoutPassword(users: map<string, User>, email: Option<string>, password: Option<string>,
                             sign: Option<string> -> string)
    requires StoreInvariant(users)
    ensures Login(users, email, password, sign).Token? ==> Truthy(password)
    ensures LoginAsWritten(users, email, None, sign).Token? <==> PropertyKey(email) in InheritedKeys
  {
  }

  /**
   * A successful signup keeps the directory's invariant, and every other
   * email's login, as written or as intended, answers as before.
   */
  lemma SignupKeepsOthers(users: map<string, User>, email: string, password: string,
                          other: Option<string>, attempt: Option<string>, sign: Option<string> -> string)
    requires StoreInvariant(users) && email != "" && password != "" && Lookup(users, email).Missing?
    ensures var users' := users[email := User(email, password, 0)];
      && StoreInvariant(users')
      && (PropertyKey(other) != email ==>
            && Login(users', other, attempt, sign) == Login(users, other, attempt, sign)
            && LoginAsWritten(users', other, attempt, sign) == LoginAsWritten(users, other, attempt, sign))
  {
  }

  /** The directory, which `/auth/signup` updates in place. */
  class UserStore {
    var users: map<string, User>

    ghost predicate Valid()
      reads this
    {
      StoreInvariant(users)
    }

    constructor ()
      ensures Valid() && users == map[]
    {
      users := map[];
    }

    /**
     * `/auth/signup`: missing or empty fields are rejected, an email already
     * present (own or inherited) is rejected, and otherwise exactly one record
     * with no gold is added.
     */
    method Signup(email: Option<string>, password: Option<string>) returns (r: AuthResponse)
      requires Valid()
      modifies this
      ensures Valid()
      ensures !Truthy(email) || !Truthy(password) ==>
        r == Message(400, MissingFieldsMessage) && users == old(users)
      ensures Truthy(email) && Truthy(password) && !Lookup(old(users), email.value).Missing? ==>
        r == Message(400, UserExistsMessage) && users == old(users)
      ensures Truthy(email) && Truthy(password) && Lookup(old(users), email.value).Missing? ==>
        && r == Message(200, OkMessage)
        && users == old(users)[email.value := User(email.value, password.value, 0)]
    {
      if !Truthy(email) || !Truthy(password) {
        return Message(400, MissingFieldsMessage);
      }
      if !Lookup(users, email.value).Missing? {
        return Message(400, UserExistsMessage);
      }
      users := users[email.value := User(email.value, password.value, 0)];
      return Message(200, OkMessage);
    }
  }
}
