/** The two Doctrine repositories, seen from the code that uses them: every
    `save` call is appended to a log, together with its `flush` flag, and the
    queries answer from the rows the database returns. */
module Repositories {
  import opened Wrappers
  import opened Entities

  datatype MessageSave = MessageSave(message: Message, flush: bool)
  datatype UserSave = UserSave(user: User, flush: bool)

  class MessageRepository {
    /** Every `save(message, flush)` call, oldest first. */
    var saves: seq<MessageSave>
    /** The messages the database returns, ordered by descending id. */
    var rows: seq<Message>
    /** The id the database generates for the next message it inserts
        (`GeneratedValue(strategy: 'AUTO')`); it exceeds every stored id. */
    var nextId: int

    constructor (rows: seq<Message>, nextId: int)
      ensures saves == [] && this.rows == rows && this.nextId == nextId
    {
      saves := [];
      this.rows := rows;
      this.nextId := nextId;
    }

    /** `save(message, flush)`: `persist`, then `flush` when asked. Flushing a
        message that has no id yet inserts it: it gets the generated id and,
        as the newest message, heads the rows. Flushing a stored message
        writes its fields, which the rows already hold. Nothing of the
        message but its id changes. */
    method Save(message: Message, flush: bool)
      modifies this, message`id
      ensures saves == old(saves) + [MessageSave(message, flush)]
      ensures old(message.Valid()) ==> message.Valid()
      ensures flush && old(message.id).None? ==>
        message.id == Some(old(nextId)) && nextId == old(nextId) + 1 && rows == [message] + old(rows)
      ensures !flush || old(message.id).Some? ==>
        message.id == old(message.id) && nextId == old(nextId) && rows == old(rows)
    {
      saves := saves + [MessageSave(message, flush)];
      if flush && message.id.None? {
        message.id := Some(nextId);
        nextId := nextId + 1;
        rows := [message] + rows;
      }
      if old(message.Valid()) {
        message.StaysValid();
      }
    }

    /** `findAllOrderedById`: all rows, newest first. */
    method FindAllOrderedById() returns (r: seq<Message>)
      ensures r == rows
    {
      r := rows;
    }

    /** `findByUser`: the rows whose owner is `u`, in row order. */
    method FindByUser(u: User) returns (r: seq<Message>)
      ensures r == OwnedBy(rows, u)
    {
      r := OwnedBy(rows, u);
    }
  }

  /** The messages of `ms` owned by `u`, in their order in `ms`. */
  function OwnedBy(ms: seq<Message>, u: User): (r: seq<Message>)
    reads ms
    ensures forall m :: m in r ==> m in ms && m.user == Some(u)
    ensures forall m :: m in ms && m.user == Some(u) ==> m in r
    ensures |r| <= |ms|
  {
    if ms == [] then []
    else (if ms[0].user == Some(u) then [ms[0]] else []) + OwnedBy(ms[1..], u)
  }

  /** The first stored user with the given email, as `findByEmail` returns it. */
  function Lookup(users: seq<User>, email: string): (r: Option<User>)
    ensures r.Some? ==> r.value in users && r.value.email == email
    ensures r.None? ==> forall u :: u in users ==> u.email != email
  {
    if users == [] then None
    else if users[0].email == email then Some(users[0])
    else Lookup(users[1..], email)
  }

  class UserRepository {
    /** The stored users, in insertion order. */
    var users: seq<User>
    /** Every `save(user, flush)` call, oldest first. */
    var saves: seq<UserSave>
    /** The email of every `findByEmail` call, oldest first. */
    var lookups: seq<string>

    constructor (users: seq<User>)
      ensures this.users == users && saves == [] && lookups == []
    {
      this.users := users;
      saves := [];
      lookups := [];
    }

    method FindByEmail(email: string) returns (r: Option<User>)
      modifies this
      ensures r == Lookup(users, email)
      ensures lookups == old(lookups) + [email]
      ensures users == old(users) && saves == old(saves)
    {
      r := Lookup(users, email);
      lookups := lookups + [email];
    }

    method Save(u: User, flush: bool)
      modifies this
      ensures saves == old(saves) + [UserSave(u, flush)]
      ensures users == old(users) + [u]
      ensures lookups == old(lookups)
    {
      saves := saves + [UserSave(u, flush)];
      users := users + [u];
    }
  }
}
