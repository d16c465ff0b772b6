/**
 * `app/api/signup/route.ts`: the `POST` handler that registers a user.
 *
 * The handler works on the parsed, untyped request body. It rejects a missing
 * payload, missing required fields and a short password with 400, rejects a
 * username or email already in use with 409 (skipping that check when the
 * user list cannot be read), hashes the password, inserts the user with the
 * hash added to its metadata, and answers 201 with the public fields only.
 * Anything that throws on the way is answered with 500.
 *
 * The user objects in the CMS are the `users` field of a `UserStore`. The
 * password hash is the function parameter `hash`; whether reading the body,
 * listing the users or inserting fails, and the id the CMS gives the new
 * object, are the parameters `body` and `cms`.
 */
module SignupRoute {
  import opened Wrappers
  import opened Js
  import opened Strings
  import opened Sequences

  /** A user object in the CMS: its id, its other top-level fields and its metadata. */
  datatype StoredUser = StoredUser(id: string, fields: map<string, Value>, metadata: map<string, Value>)

  /** `u.metadata.<key>` of a stored user. */
  function MetaField(u: StoredUser, key: string): Value {
    if key in u.metadata then u.metadata[key] else Undefined
  }

  /** The `user` of the 201 answer. */
  datatype PublicUser = PublicUser(id: string, name: Value, username: Value, email: Value)

  datatype Response = Response(status: nat, message: string, user: Option<PublicUser>)

  /** What the CMS does for this request: whether listing or inserting users throws, and the id it assigns. */
  datatype Cms = Cms(listingFails: bool, insertFails: bool, newId: string)

  const MissingPayload: string := "User data and password are required"
  const MissingFields: string := "Name, username, and email are required"
  const ShortPassword: string := "Password must be at least 8 characters long"
  const UsernameTaken: string := "Username already exists"
  const EmailTaken: string := "Email already exists"
  const ServerError: string := "Internal server error"
  const Created: string := "User created successfully"

  /** The smallest password length accepted. */
  const MinPasswordLength: nat := 8

  function Reply(status: nat, message: string): Response {
    Response(status, message, None)
  }

  /**
   * `length < 8` with JavaScript's loose comparison: a number compares as
   * itself, `null` and booleans as 0 or 1, the empty string as 0 and a string
   * of decimal digits as its value; `undefined`, objects and other strings
   * convert to NaN, which is never less. An array converts through its
   * comma-join: the empty array as "", one element as that element's string
   * (`undefined` and `null` as ""), and two or more as a string holding a
   * comma, which is NaN.
   */
  function BelowMinimum(length: Value): (below: bool)
    ensures length.Num? ==> (below <==> length.n < MinPasswordLength)
    ensures length.Undefined? || length.Object? ==> !below
    ensures length.Array? && |length.elems| != 1 ==> (below <==> length.elems == [])
  {
    match length
    case Num(n) => n < MinPasswordLength
    case Null => true
    case Bool(_) => true
    case Str(t) => t == "" || ((forall i :: 0 <= i < |t| ==> IsDigit(t[i])) && ParseNat(t) < MinPasswordLength)
    case Array(es) =>
      |es| == 0 || (|es| == 1 && (es[0].Undefined? || (!es[0].Bool? && BelowMinimum(es[0]))))
    case _ => false
  }

  /** `u.metadata.<key> === value` as the `find` callbacks test it. */
  function Matches(key: string, value: Value): StoredUser -> bool {
    u => StrictEquals(MetaField(u, key), value)
  }

  /** `users.find(u => u.metadata.<key> === value)` found something. */
  predicate Taken(users: seq<StoredUser>, key: string, value: Value) {
    FindFirst(users, Matches(key, value)).Some?
  }

  /** `Taken` means some stored user has that exact value. */
  lemma TakenMeaning(users: seq<StoredUser>, key: string, value: Value)
    ensures Taken(users, key, value) <==> exists k :: 0 <= k < |users| && StrictEquals(MetaField(users[k], key), value)
  {
    if exists k :: 0 <= k < |users| && StrictEquals(MetaField(users[k], key), value) {
      var k :| 0 <= k < |users| && StrictEquals(MetaField(users[k], key), value);
      assert Matches(key, value)(users[k]);
    }
  }

  /** The object inserted: the submitted user with `password_hash` added to its metadata. */
  function NewRecord(id: string, user: map<string, Value>, metadata: map<string, Value>, hashed: string): StoredUser {
    StoredUser(id, user - {"metadata"}, metadata["password_hash" := Str(hashed)])
  }

  /** The answer to one request and the object it inserts, if any. */
  datatype Outcome = Outcome(response: Response, inserted: Option<StoredUser>)

  /**
   * The handler, step by step. `body` is `None` when the request body is not
   * valid JSON.
   */
  function Handle(users: seq<StoredUser>, body: Option<Value>, cms: Cms, hash: string -> string): (out: Outcome)
    ensures out.inserted.Some? <==> out.response.status == 201
    ensures out.response.user.Some? <==> out.response.status == 201
    ensures out.response.status in {201, 400, 409, 500}
  {
    if body.None? then Outcome(Reply(500, ServerError), None)
    else
      var b := body.value;
      // `const { user, password } = body` throws on null or undefined.
      if b.Undefined? || b.Null? then Outcome(Reply(500, ServerError), None)
      else
        var user, password := Prop(b, "user"), Prop(b, "password");
        if !Truthy(user) || !Truthy(password) then Outcome(Reply(400, MissingPayload), None)
        else
          var meta := Prop(user, "metadata");
          // Reading `user.metadata.name` throws when there is no metadata.
          if meta.Undefined? || meta.Null? then Outcome(Reply(500, ServerError), None)
          else
            var name, username, email := Prop(meta, "name"), Prop(meta, "username"), Prop(meta, "email");
            if !Truthy(name) || !Truthy(username) || !Truthy(email) then Outcome(Reply(400, MissingFields), None)
            else if BelowMinimum(Prop(password, "length")) then Outcome(Reply(400, ShortPassword), None)
            else if !cms.listingFails && Taken(users, "username", username) then Outcome(Reply(409, UsernameTaken), None)
            else if !cms.listingFails && Taken(users, "email", email) then Outcome(Reply(409, EmailTaken), None)
            // bcrypt rejects anything but a string password.
            else if !password.Str? then Outcome(Reply(500, ServerError), None)
            else if cms.insertFails then Outcome(Reply(500, ServerError), None)
            else
              assert user.Object? && meta.Object?;
              var record := NewRecord(cms.newId, user.props, meta.props, hash(password.s));
              Outcome(Response(201, Created, Some(PublicUser(cms.newId, name, username, email))), Some(record))
  }

  /** The users after a request: one more exactly when a user was created. */
  function After(users: seq<StoredUser>, out: Outcome): (next: seq<StoredUser>)
    ensures out.inserted.None? ==> next == users
    ensures out.inserted.Some? ==> next == users + [out.inserted.value]
  {
    if out.inserted.Some? then users + [out.inserted.value] else users
  }

  class UserStore {
    var users: seq<StoredUser>

    constructor(initial: seq<StoredUser>)
      ensures users == initial
    {
      users := initial;
    }

    /** `POST /api/signup`. */
    method Post(body: Option<Value>, cms: Cms, hash: string -> string) returns (response: Response)
      modifies this
      ensures response == Handle(old(users), body, cms, hash).response
      ensures users == After(old(users), Handle(old(users), body, cms, hash))
    {
      if body.None? {
        return Reply(500, ServerError);
      }
      var b := body.value;
      if b.Undefined? || b.Null? {
        return Reply(500, ServerError);
      }
      var user := Prop(b, "user");
      var password := Prop(b, "password");
      if !Truthy(user) || !Truthy(password) {
        return Reply(400, MissingPayload);
      }
      var meta := Prop(user, "metadata");
      if meta.Undefined? || meta.Null? {
        return Reply(500, ServerError);
      }
      var name, username, email := Prop(meta, "name"), Prop(meta, "username"), Prop(meta, "email");
      if !Truthy(name) || !Truthy(username) || !Truthy(email) {
        return Reply(400, MissingFields);
      }
      if BelowMinimum(Prop(password, "length")) {
        return Reply(400, ShortPassword);
      }
      if !cms.listingFails {
        var existingUsername := FindFirst(users, Matches("username", username));
        var existingEmail := FindFirst(users, Matches("email", email));
        if existingUsername.Some? {
          return Reply(409, UsernameTaken);
        }
        if existingEmail.Some? {
          return Reply(409, EmailTaken);
        }
      }
      if !password.Str? {
        return Reply(500, ServerError);
      }
      var hashed := hash(password.s);
      if cms.insertFails {
        return Reply(500, ServerError);
      }
      var record := NewRecord(cms.newId, user.props, meta.props, hashed);
      users := users + [record];
      response := Response(201, Created, Some(PublicUser(cms.newId, name, username, email)));
    }
  }

  // ---------------------------------------------------------------- properties

  /** A well-formed JSON object body whose user and password are read without throwing. */
  predicate Readable(b: Value) {
    !b.Undefined? && !b.Null?
  }

  /** The submitted metadata of a body (`body.user.metadata`). */
  function MetaOf(b: Value): Value {
    Prop(Prop(b, "user"), "metadata")
  }

  /** The body passes the payload and required-field checks. */
  predicate HasRequiredFields(b: Value) {
    && Readable(b)
    && Truthy(Prop(b, "user")) && Truthy(Prop(b, "password"))
    && !MetaOf(b).Undefined? && !MetaOf(b).Null?
    && Truthy(Prop(MetaOf(b), "name")) && Truthy(Prop(MetaOf(b), "username")) && Truthy(Prop(MetaOf(b), "email"))
  }

  /** A missing user or password is answered 400 before anything else is looked at, and nothing is stored. */
  lemma MissingPayloadRejected(users: seq<StoredUser>, b: Value, cms: Cms, hash: string -> string)
    requires Readable(b)
    requires !Truthy(Prop(b, "user")) || !Truthy(Prop(b, "password"))
    ensures Handle(users, Some(b), cms, hash) == Outcome(Reply(400, MissingPayload), None)
  {
  }

  /** A falsy name, username or email is answered 400, and nothing is stored. */
  lemma MissingFieldsRejected(users: seq<StoredUser>, b: Value, cms: Cms, hash: string -> string)
    requires Readable(b) && Truthy(Prop(b, "user")) && Truthy(Prop(b, "password"))
    requires !MetaOf(b).Undefined? && !MetaOf(b).Null?
    requires !Truthy(Prop(MetaOf(b), "name")) || !Truthy(Prop(MetaOf(b), "username")) || !Truthy(Prop(MetaOf(b), "email"))
    ensures Handle(users, Some(b), cms, hash) == Outcome(Reply(400, MissingFields), None)
  {
  }

  /**
   * A string password shorter than eight characters is answered 400 whatever
   * the store holds and whatever the CMS would do: the decision comes before
   * the user list is read or anything is inserted.
   */
  lemma ShortPasswordRejected(users: seq<StoredUser>, b: Value, cms: Cms, hash: string -> string)
    requires HasRequiredFields(b)
    requires Prop(b, "password").Str? && |Prop(b, "password").s| < MinPasswordLength
    ensures Handle(users, Some(b), cms, hash) == Outcome(Reply(400, ShortPassword), None)
  {
  }

  /**
   * A password sent as an array is never stored: an array is truthy and its
   * `length` is its element count, so fewer than eight elements are answered
   * 400 like a short password, and any other outcome is not a 201.
   */
  lemma ArrayPasswordNeverStored(users: seq<StoredUser>, b: Value, cms: Cms, hash: string -> string)
    requires Readable(b) && Prop(b, "password").Array?
    ensures Handle(users, Some(b), cms, hash).response.status != 201
    ensures HasRequiredFields(b) && |Prop(b, "password").elems| < MinPasswordLength ==>
      Handle(users, Some(b), cms, hash) == Outcome(Reply(400, ShortPassword), None)
  {
    if Handle(users, Some(b), cms, hash).response.status == 201 {
      SuccessStoresOneRecord(users, b, cms, hash);
    }
  }

  /**
   * A username `===` to a stored user's is answered 409 "Username already
   * exists", even when the email is taken as well.
   */
  lemma DuplicateUsernameWins(users: seq<StoredUser>, b: Value, cms: Cms, hash: string -> string, k: nat)
    requires HasRequiredFields(b) && !BelowMinimum(Prop(Prop(b, "password"), "length"))
    requires !cms.listingFails
    requires k < |users| && StrictEquals(MetaField(users[k], "username"), Prop(MetaOf(b), "username"))
    ensures Handle(users, Some(b), cms, hash) == Outcome(Reply(409, UsernameTaken), None)
  {
    TakenMeaning(users, "username", Prop(MetaOf(b), "username"));
  }

  /** A fresh username with an email `===` to a stored user's is answered 409 "Email already exists". */
  lemma DuplicateEmailRejected(users: seq<StoredUser>, b: Value, cms: Cms, hash: string -> string, k: nat)
    requires HasRequiredFields(b) && !BelowMinimum(Prop(Prop(b, "password"), "length"))
    requires !cms.listingFails
    requires forall j :: 0 <= j < |users| ==> !StrictEquals(MetaField(users[j], "username"), Prop(MetaOf(b), "username"))
    requires k < |users| && StrictEquals(MetaField(users[k], "email"), Prop(MetaOf(b), "email"))
    ensures Handle(users, Some(b), cms, hash) == Outcome(Reply(409, EmailTaken), None)
  {
    TakenMeaning(users, "username", Prop(MetaOf(b), "username"));
    TakenMeaning(users, "email", Prop(MetaOf(b), "email"));
  }

  /** When the user list cannot be read, the handler behaves as if there were no users at all. */
  lemma ListingFailureSkipsChecks(users: seq<StoredUser>, body: Option<Value>, cms: Cms, hash: string -> string)
    requires cms.listingFails
    ensures Handle(users, body, cms, hash) == Handle([], body, cms, hash)
  {
  }

  /** With an unreadable user list, even a username already in use is registered a second time. */
  lemma ListingFailureAdmitsDuplicate(stored: StoredUser, b: Value, hash: string -> string)
    requires HasRequiredFields(b) && Prop(b, "password").Str? && |Prop(b, "password").s| >= MinPasswordLength
    requires StrictEquals(MetaField(stored, "username"), Prop(MetaOf(b), "username"))
    ensures Handle([stored], Some(b), Cms(true, false, "new-id"), hash).response.status == 201
    ensures Handle([stored], Some(b), Cms(false, false, "new-id"), hash).response.status == 409
  {
    DuplicateUsernameWins([stored], b, Cms(false, false, "new-id"), hash, 0);
  }

  /**
   * A successful signup inserts exactly one object: the submitted user, whose
   * metadata is the submitted metadata with `password_hash` set to the hash
   * of the password and every other field unchanged. The answer carries the
   * new id and the submitted name, username and email, and nothing else.
   */
  lemma SuccessStoresOneRecord(users: seq<StoredUser>, b: Value, cms: Cms, hash: string -> string)
    requires Handle(users, Some(b), cms, hash).response.status == 201
    ensures HasRequiredFields(b) && Prop(b, "password").Str? && MetaOf(b).Object? && Prop(b, "user").Object?
    ensures var out := Handle(users, Some(b), cms, hash);
      && After(users, out) == users + [out.inserted.value]
      && out.inserted.value.id == cms.newId
      && out.inserted.value.fields == Prop(b, "user").props - {"metadata"}
      && MetaField(out.inserted.value, "password_hash") == Str(hash(Prop(b, "password").s))
      && (forall key :: key != "password_hash" ==> MetaField(out.inserted.value, key) == Prop(MetaOf(b), key))
    ensures var out := Handle(users, Some(b), cms, hash);
      && out.response.message == Created
      && out.response.user == Some(PublicUser(
           out.inserted.value.id,
           MetaField(out.inserted.value, "name"),
           MetaField(out.inserted.value, "username"),
           MetaField(out.inserted.value, "email")))
  {
  }

  /**
   * A signup with a readable user list succeeds exactly when the request is
   * well formed, the password is a long enough string, neither the username
   * nor the email is in use, and the insert goes through.
   */
  lemma SuccessConditions(users: seq<StoredUser>, b: Value, cms: Cms, hash: string -> string)
    requires !cms.listingFails
    ensures Handle(users, Some(b), cms, hash).response.status == 201 <==>
      && HasRequiredFields(b)
      && !BelowMinimum(Prop(Prop(b, "password"), "length"))
      && Prop(b, "password").Str?
      && (forall k :: 0 <= k < |users| ==> !StrictEquals(MetaField(users[k], "username"), Prop(MetaOf(b), "username")))
      && (forall k :: 0 <= k < |users| ==> !StrictEquals(MetaField(users[k], "email"), Prop(MetaOf(b), "email")))
      && !cms.insertFails
  {
    TakenMeaning(users, "username", Prop(MetaOf(b), "username"));
    TakenMeaning(users, "email", Prop(MetaOf(b), "email"));
  }

  /** No two stored users share a username or an email (by `===`). */
  predicate DistinctAccounts(users: seq<StoredUser>) {
    forall i, j :: 0 <= i < j < |users| ==>
      && !StrictEquals(MetaField(users[i], "username"), MetaField(users[j], "username"))
      && !StrictEquals(MetaField(users[i], "email"), MetaField(users[j], "email"))
  }

  /** As long as the user list can be read, signups never create a second account with the same username or email. */
  lemma SignupKeepsAccountsDistinct(users: seq<StoredUser>, body: Option<Value>, cms: Cms, hash: string -> string)
    requires DistinctAccounts(users)
    requires !cms.listingFails
    ensures DistinctAccounts(After(users, Handle(users, body, cms, hash)))
  {
    var out := Handle(users, body, cms, hash);
    if out.inserted.Some? {
      var b := body.value;
      var next := users + [out.inserted.value];
      var username, email := Prop(MetaOf(b), "username"), Prop(MetaOf(b), "email");
      SuccessStoresOneRecord(users, b, cms, hash);
      SuccessConditions(users, b, cms, hash);
      forall i, j | 0 <= i < j < |next|
        ensures !StrictEquals(MetaField(next[i], "username"), MetaField(next[j], "username"))
        ensures !StrictEquals(MetaField(next[i], "email"), MetaField(next[j], "email"))
      {
        if j == |users| {
          assert next[i] == users[i] && next[j] == out.inserted.value;
          assert MetaField(next[j], "username") == username && MetaField(next[j], "email") == email;
        } else {
          assert next[i] == users[i] && next[j] == users[j];
        }
      }
    }
  }
}
