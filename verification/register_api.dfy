/** The user registration handler (pages/api/register.ts): a user is created
    only when no user has the same email, and only the password's hash is stored. */
module RegisterApi {
  import opened Wrappers

  /** The POST body. A missing password is `None`. */
  datatype RegisterBody = RegisterBody(
    email: string,
    password: Option<string>,
    codigo: Option<string>,
    nombre: Option<string>,
    apellido: Option<string>,
    username: Option<string>,
    telefono: Option<string>)

  /** A stored user document; `password` holds the hash. */
  datatype User = User(
    id: string,
    email: string,
    password: string,
    codigo: Option<string>,
    nombre: Option<string>,
    apellido: Option<string>,
    username: Option<string>,
    telefono: Option<string>,
    createdAt: int,
    updatedAt: int)

  /** The user object of the 201 answer: the stored user without its password. */
  datatype PublicUser = PublicUser(
    email: string,
    codigo: Option<string>,
    nombre: Option<string>,
    apellido: Option<string>,
    username: Option<string>,
    telefono: Option<string>)

  datatype Reply =
    | Created(userId: string, user: PublicUser)  // 201 { CreatedMessage, userId, user }
    | Failure(status: int, message: string)      // 400, 405 or 500 { message }

  const CreatedMessage := "Usuario creado exitosamente"
  const NotAllowed := "Método no permitido"
  const EmailTaken := "Este correo ya existe"
  const InternalError := "Error interno del servidor"

  /** The bcrypt cost factor passed to `hash(password, 10)`. */
  const SaltRounds := 10

  function PublicView(u: User): (p: PublicUser)
    ensures p.email == u.email && p.codigo == u.codigo && p.nombre == u.nombre
    ensures p.apellido == u.apellido && p.username == u.username && p.telefono == u.telefono
  {
    PublicUser(u.email, u.codigo, u.nombre, u.apellido, u.username, u.telefono)
  }

  /** No two users share an email. */
  predicate UniqueEmails(users: seq<User>)
  {
    forall i, j :: 0 <= i < j < |users| ==> users[i].email != users[j].email
  }

  predicate EmailTakenIn(users: seq<User>, email: string)
  {
    exists i :: 0 <= i < |users| && users[i].email == email
  }

  /** Appending a user whose email is not taken keeps emails unique. */
  lemma {:induction false} AppendKeepsUnique(users: seq<User>, u: User)
    requires UniqueEmails(users) && !EmailTakenIn(users, u.email)
    ensures UniqueEmails(users + [u])
  {
    var r := users + [u];
    forall i, j | 0 <= i < j < |r|
      ensures r[i].email != r[j].email
    {
      assert r[i] == users[i];
      if j < |users| {
        assert r[j] == users[j];
      }
    }
  }

  class Users {
    var users: seq<User>

    ghost predicate Valid()
      reads this
    {
      UniqueEmails(users)
    }

    constructor(initial: seq<User>)
      ensures users == initial
      ensures UniqueEmails(initial) ==> Valid()
    {
      users := initial;
    }

    /** The whole handler. `hash` is bcrypt's hash function, `now` the server
        clock, `newId` the identifier the database assigns to the insert and
        `insertOk` whether the insert succeeds. */
    method Handle(verb: string, body: RegisterBody, hash: (string, int) -> string, now: int, newId: string,
                  insertOk: bool)
      returns (reply: Reply)
      modifies this
      ensures verb != "POST" ==> reply == Failure(405, NotAllowed) && users == old(users)
      ensures (verb == "POST" && EmailTakenIn(old(users), body.email)) ==>
        reply == Failure(400, EmailTaken) && users == old(users)
      ensures (verb == "POST" && !EmailTakenIn(old(users), body.email) && body.password.None?) ==>
        reply == Failure(500, InternalError) && users == old(users)
      ensures (verb == "POST" && !EmailTakenIn(old(users), body.email) && body.password.Some? && !insertOk) ==>
        reply == Failure(500, InternalError) && users == old(users)
      ensures (verb == "POST" && !EmailTakenIn(old(users), body.email) && body.password.Some? && insertOk) ==>
        |users| == |old(users)| + 1 && users[..|old(users)|] == old(users) &&
        users[|old(users)|] == User(newId, body.email, hash(body.password.value, SaltRounds),
          body.codigo, body.nombre, body.apellido, body.username, body.telefono, now, now) &&
        reply == Created(newId, PublicView(users[|old(users)|]))
      ensures old(Valid()) ==> Valid()
    {
      if verb != "POST" {
        return Failure(405, NotAllowed);
      }
      // findOne({ email })
      if EmailTakenIn(users, body.email) {
        return Failure(400, EmailTaken);
      }
      if body.password.None? {
        // bcrypt refuses an undefined password and the handler answers 500
        return Failure(500, InternalError);
      }
      var hashed := hash(body.password.value, SaltRounds);
      var user := User(newId, body.email, hashed, body.codigo, body.nombre, body.apellido,
        body.username, body.telefono, now, now);
      if !insertOk {
        return Failure(500, InternalError);
      }
      if Valid() {
        AppendKeepsUnique(users, user);
      }
      users := users + [user];
      reply := Created(newId, PublicView(user));
    }
  }
}
