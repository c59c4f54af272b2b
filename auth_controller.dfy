/** The server's authentication handlers: the guard chains of signup, login,
    logout, updateProfile and checkAuth, over the user collection. The
    collection is a sequence of documents in insertion order, so that
    `findOne` is "the first document that matches". bcrypt is symbolic: a
    hash records what it was computed from, and a password matches a hash
    exactly when it is the password that was hashed (bcrypt itself compares
    only the first 72 bytes of a password). Token signing is only
    recorded as "a token for this user id was set on the response". */
module AuthController {
  import opened Types

  /** The cost factor passed to `bcrypt.genSalt`. */
  const SaltRounds: nat := 10

  /** The shortest password signup accepts. */
  const MinPasswordLength: nat := 6

  /** The `profilePic` a new document gets from the user schema's default. */
  const DefaultProfilePic: string := ""

  /** A bcrypt hash, kept symbolically. */
  datatype Credential = BcryptHash(rounds: nat, salt: string, of: string)

  function Hash(password: string, salt: string): (c: Credential)
    ensures c.rounds == SaltRounds
    ensures forall p :: Matches(p, c) <==> p == password
  {
    BcryptHash(SaltRounds, salt, password)
  }

  /** `bcrypt.compare(password, hash)`. */
  predicate Matches(password: string, c: Credential)
  {
    c.of == password
  }

  /** A stored user document. */
  datatype UserDoc = UserDoc(id: Id, fullName: string, email: string, password: Credential, profilePic: string)

  /** The fields `findOne` and `findByIdAndUpdate` select on. */
  datatype Field = ById | ByEmail

  function Key(d: UserDoc, f: Field): string
  {
    match f
    case ById => d.id
    case ByEmail => d.email
  }

  /** Some document has `v` in field `f`. */
  predicate Taken(docs: seq<UserDoc>, f: Field, v: string)
  {
    exists i :: 0 <= i < |docs| && Key(docs[i], f) == v
  }

  /** No two documents share a value of field `f`. */
  predicate Unique(docs: seq<UserDoc>, f: Field)
  {
    forall i, j :: 0 <= i < j < |docs| ==> Key(docs[i], f) != Key(docs[j], f)
  }

  /** `findOne({ f: v })`: the position of the first document with `v` in
      field `f`, if any. */
  function FindOne(docs: seq<UserDoc>, f: Field, v: string): (r: Option<nat>)
    ensures r.Some? ==> r.value < |docs| && Key(docs[r.value], f) == v
    ensures r.Some? ==> forall j :: 0 <= j < r.value ==> Key(docs[j], f) != v
    ensures r.None? <==> !Taken(docs, f, v)
  {
    if docs == [] then None
    else if Key(docs[0], f) == v then Some(0)
    else
      match FindOne(docs[1..], f, v)
      case None => None
      case Some(k) => Some(k + 1)
  }

  /** When values of `f` are unique, the document found is the only one
      holding `v`. */
  lemma FindOneUnique(docs: seq<UserDoc>, f: Field, v: string, i: nat)
    requires Unique(docs, f) && i < |docs| && Key(docs[i], f) == v
    ensures FindOne(docs, f, v) == Some(i)
  {
  }

  /** What `res.cookie` was asked to do: nothing, set a signed token for a
      user (`generateToken`), or set cookie `name` to `value` with `maxAge`. */
  datatype CookieOp = Keep | IssueToken(userId: Id) | SetCookie(name: string, value: string, maxAge: int)

  /** A JSON response body. */
  datatype Body =
    | MessageJson(message: string)
    | ErrorJson(error: string)
    | UserJson(id: Id, fullName: string, email: string, profilePic: string)
    | DocumentJson(doc: UserDoc)
    | NullJson

  datatype Response = Response(status: int, body: Body, cookie: CookieOp)

  /** The public projection sent on signup and login: never the password. */
  function PublicFields(d: UserDoc): Body
  {
    UserJson(d.id, d.fullName, d.email, d.profilePic)
  }

  /** The public projection does not depend on the stored credential: no
      part of the password hash reaches the client. */
  lemma PublicFieldsIgnorePassword(d: UserDoc, c: Credential)
    ensures PublicFields(d.(password := c)) == PublicFields(d)
  {
  }

  /** The user a browser's `jwt` cookie authenticates, after it applies the
      cookie instruction `op` to a jar that authenticated `jar`. A cookie with
      a non-positive `maxAge` is deleted; a `jwt` value that is not a signed
      token authenticates nobody. */
  function SessionAfter(jar: Option<Id>, op: CookieOp): Option<Id>
  {
    match op
    case Keep => jar
    case IssueToken(id) => Some(id)
    case SetCookie(name, _, _) => if name == "jwt" then None else jar
  }

  /** An outcome of an awaited call on the server: its value, or the message
      of the error it threw. */
  datatype Attempt<+T> = Done(value: T) | Threw(message: string)

  datatype SignupRequest = SignupRequest(email: string, fullName: string, password: string)

  /** The document signup builds for `req` under the identifier `id`. */
  function NewUserDoc(req: SignupRequest, id: Id, salt: string): (d: UserDoc)
    ensures d.id == id && d.email == req.email && d.fullName == req.fullName
    ensures Matches(req.password, d.password) && d.profilePic == DefaultProfilePic
  {
    UserDoc(id, req.fullName, req.email, Hash(req.password, salt), DefaultProfilePic)
  }

  /** login: an unknown email and a wrong password both answer 400 without
      a cookie; a matching password answers 200 with the public fields of
      the user found and sets a token for that user. It only reads the
      collection. */
  function Login(docs: seq<UserDoc>, email: string, password: string): (r: Response)
    ensures !Taken(docs, ByEmail, email) ==> r == Response(400, MessageJson("User does not exist"), Keep)
    ensures r.status != 200 ==> r.status == 400 && r.cookie == Keep
    ensures r.status == 200 ==>
              exists i :: 0 <= i < |docs| && docs[i].email == email && Matches(password, docs[i].password)
                          && r.body == PublicFields(docs[i]) && r.cookie == IssueToken(docs[i].id)
    ensures Unique(docs, ByEmail) ==>
              (r.status == 200 <==>
               exists i :: 0 <= i < |docs| && docs[i].email == email && Matches(password, docs[i].password))
  {
    match FindOne(docs, ByEmail, email)
    case None => Response(400, MessageJson("User does not exist"), Keep)
    case Some(k) =>
      if !Matches(password, docs[k].password) then Response(400, MessageJson("Invalid password"), Keep)
      else Response(200, PublicFields(docs[k]), IssueToken(docs[k].id))
  }

  /** logout: always 200, and the `jwt` cookie is overwritten with an empty
      value that expires at once, which ends any session. */
  function Logout(): (r: Response)
    ensures r.status == 200 && r.cookie == SetCookie("jwt", "", 0)
    ensures forall jar :: SessionAfter(jar, r.cookie) == None
  {
    Response(200, MessageJson("Logged out successfully"), SetCookie("jwt", "", 0))
  }

  /** checkAuth: echoes the user the authentication middleware attached to
      the request, with 200, and leaves the cookie alone. */
  function CheckAuth(reqUser: UserDoc): (r: Response)
    ensures r.status == 200 && r.body == DocumentJson(reqUser)
    ensures forall jar :: SessionAfter(jar, r.cookie) == jar
  {
    Response(200, DocumentJson(reqUser), Keep)
  }

  /** A successful login starts a session for the user whose email was
      given. */
  lemma LoginStartsSession(docs: seq<UserDoc>, email: string, password: string, jar: Option<Id>)
    requires Unique(docs, ByEmail)
    requires Login(docs, email, password).status == 200
    ensures exists i :: 0 <= i < |docs| && docs[i].email == email
                        && SessionAfter(jar, Login(docs, email, password).cookie) == Some(docs[i].id)
  {
  }

  /** Once signup has stored a new user, logging in with the same email and
      password succeeds and returns that user. */
  lemma {:induction false} SignupThenLogin(docs: seq<UserDoc>, req: SignupRequest, id: Id, salt: string)
    requires Unique(docs, ByEmail) && !Taken(docs, ByEmail, req.email)
    ensures Login(docs + [NewUserDoc(req, id, salt)], req.email, req.password)
            == Response(200, PublicFields(NewUserDoc(req, id, salt)), IssueToken(id))
  {
    var d := NewUserDoc(req, id, salt);
    var docs' := docs + [d];
    assert Unique(docs', ByEmail) by {
      forall i, j | 0 <= i < j < |docs'| ensures Key(docs'[i], ByEmail) != Key(docs'[j], ByEmail) {
        if j == |docs| {
          assert Key(docs[i], ByEmail) != req.email;
        }
      }
    }
    FindOneUnique(docs', ByEmail, req.email, |docs|);
  }

  /** The user collection, as the handlers that write to it see it. */
  class UserCollection {
    var docs: seq<UserDoc>

    /** Emails are unique (signup's guard) and so are identifiers (Mongo's). */
    ghost predicate Valid()
      reads this
    {
      Unique(docs, ByEmail) && Unique(docs, ById)
    }

    constructor ()
      ensures Valid() && docs == []
    {
      docs := [];
    }

    /** signup: a short password is refused first, then an email already
        stored; otherwise a token is set for the new identifier before the
        document is saved, so a failing save answers 500 with the token
        already set and stores nothing. A saved user is appended with the
        hash of the password, and the answer carries the public fields. */
    method Signup(req: SignupRequest, newId: Id, salt: string, save: Attempt<()>) returns (res: Response)
      requires Valid()
      requires !Taken(docs, ById, newId)
      modifies this
      ensures Valid()
      ensures res.status != 201 ==> docs == old(docs)
      ensures |req.password| < MinPasswordLength ==>
                res == Response(400, MessageJson("Password must be at least 6 characters"), Keep)
      ensures |req.password| >= MinPasswordLength && Taken(old(docs), ByEmail, req.email) ==>
                res == Response(400, MessageJson("Email already exists"), Keep)
      ensures |req.password| >= MinPasswordLength && !Taken(old(docs), ByEmail, req.email) && save.Threw? ==>
                res == Response(500, ErrorJson(save.message), IssueToken(newId))
      ensures |req.password| >= MinPasswordLength && !Taken(old(docs), ByEmail, req.email) && save.Done? ==>
                && docs == old(docs) + [NewUserDoc(req, newId, salt)]
                && res == Response(201, PublicFields(NewUserDoc(req, newId, salt)), IssueToken(newId))
    {
      if |req.password| < MinPasswordLength {
        return Response(400, MessageJson("Password must be at least 6 characters"), Keep);
      }
      if FindOne(docs, ByEmail, req.email).Some? {
        return Response(400, MessageJson("Email already exists"), Keep);
      }
      var newUser := NewUserDoc(req, newId, salt);
      var cookie := IssueToken(newUser.id);
      if save.Threw? {
        return Response(500, ErrorJson(save.message), cookie);
      }
      docs := docs + [newUser];
      res := Response(201, PublicFields(newUser), cookie);
    }

    /** updateProfile for the authenticated user `userId`: without a picture
        it answers 400 and uploads nothing; a failed upload answers 500; an
        unknown id answers 200 with `null`. Otherwise only that user's
        `profilePic` becomes the uploaded URL, and the whole updated document
        is returned. Nothing changes on any other path. */
    method UpdateProfile(userId: Id, profilePic: Option<string>, upload: Attempt<string>) returns (res: Response)
      requires Valid()
      modifies this
      ensures Valid()
      ensures |docs| == |old(docs)|
      ensures profilePic.None? || profilePic == Some("") ==>
                res == Response(400, ErrorJson("Profile picture is required"), Keep) && docs == old(docs)
      ensures profilePic.Some? && profilePic != Some("") && upload.Threw? ==>
                res == Response(500, ErrorJson(upload.message), Keep) && docs == old(docs)
      ensures profilePic.Some? && profilePic != Some("") && upload.Done? && !Taken(old(docs), ById, userId) ==>
                res == Response(200, NullJson, Keep) && docs == old(docs)
      ensures profilePic.Some? && profilePic != Some("") && upload.Done? ==>
                forall i :: 0 <= i < |docs| ==>
                  docs[i] == if old(docs)[i].id == userId then old(docs)[i].(profilePic := upload.value) else old(docs)[i]
      ensures profilePic.Some? && profilePic != Some("") && upload.Done? && Taken(old(docs), ById, userId) ==>
                && res.status == 200 && res.body.DocumentJson?
                && res.body.doc.id == userId && res.body.doc.profilePic == upload.value
      ensures res.status == 200 && res.body.DocumentJson? ==>
                exists i :: 0 <= i < |docs| && docs[i].id == userId && res.body.doc == docs[i]
      ensures res.cookie == Keep
    {
      if profilePic.None? || profilePic.value == "" {
        return Response(400, ErrorJson("Profile picture is required"), Keep);
      }
      if upload.Threw? {
        return Response(500, ErrorJson(upload.message), Keep);
      }
      match FindOne(docs, ById, userId) {
        case None =>
          res := Response(200, NullJson, Keep);
        case Some(k) =>
          forall i | 0 <= i < |docs| && i != k ensures docs[i].id != userId {
            if i < k {
            } else {
              assert Key(docs[k], ById) != Key(docs[i], ById);
            }
          }
          var updated := docs[k].(profilePic := upload.value);
          docs := docs[k := updated];
          res := Response(200, DocumentJson(updated), Keep);
      }
    }
  }
}
