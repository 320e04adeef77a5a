/** The backend's Doctrine entities. `Message` is an object whose setters
    update it in place; a `User` is treated as the record of the fields the
    chat code sets on it. */
module Entities {
  import opened Wrappers

  /** The fields of a user that this code sets and reads: email, display
      name, password (hash) and roles. */
  datatype User = User(email: string, name: string, password: string, roles: seq<string>)

  const StatusSent: string := "sent"
  const StatusReceived: string := "received"
  const StatusPending: string := "pending"
  const StatusFailed: string := "failed"

  /** The four status constants are pairwise distinct. */
  lemma StatusConstantsDistinct()
    ensures [StatusSent, StatusReceived, StatusPending, StatusFailed]
      == ["sent", "received", "pending", "failed"]
    ensures StatusSent != StatusReceived && StatusSent != StatusPending && StatusSent != StatusFailed
    ensures StatusReceived != StatusPending && StatusReceived != StatusFailed
    ensures StatusPending != StatusFailed
  {
    assert StatusSent[0] != StatusReceived[0] && StatusSent[0] != StatusPending[0];
    assert StatusSent[0] != StatusFailed[0] && StatusReceived[0] != StatusPending[0];
    assert StatusReceived[0] != StatusFailed[0] && StatusPending[0] != StatusFailed[0];
  }

  /** The array `Message::toArray` builds, without its two timestamps. */
  datatype MessageArray = MessageArray(
    id: Option<int>,
    message: Option<string>,
    user: Option<string>,
    status: string,
    inReplyTo: Option<int>,
    replies: seq<MessageArray>)

  class Message {
    var id: Option<int>
    var content: Option<string>
    var user: Option<User>
    var status: string
    var inReplyTo: Message?
    /** The inverse side of `inReplyTo`, filled by the ORM. */
    var replies: seq<Message>
    /** This message and, transitively, its replies. */
    ghost var Repr: set<Message>

    /** The replies form a tree under this message, and each of them points
        back to this message through `inReplyTo`, as the ORM mapping
        `mappedBy: 'inReplyTo'` keeps them. */
    ghost predicate Valid()
      reads this, Repr
      ensures Valid() ==> this in Repr
    {
      this in Repr &&
      forall i :: 0 <= i < |replies| ==>
        replies[i] in Repr && replies[i].Repr <= Repr && this !in replies[i].Repr &&
        replies[i].inReplyTo == this && replies[i].Valid()
    }

    /** A new message: status `sent`, no replies, and no id, content, user
        or parent. */
    constructor ()
      ensures Valid() && fresh(Repr) && Repr == {this}
      ensures id == None && content == None && user == None
      ensures status == StatusSent && inReplyTo == null && replies == []
    {
      id := None;
      content := None;
      user := None;
      status := StatusSent;
      inReplyTo := null;
      replies := [];
      Repr := {this};
    }

    method SetContent(c: string) returns (self: Message)
      requires Valid()
      modifies this
      ensures self == this && Valid()
      ensures content == Some(c)
      ensures id == old(id) && user == old(user) && status == old(status)
      ensures inReplyTo == old(inReplyTo) && replies == old(replies) && Repr == old(Repr)
    {
      content := Some(c);
      self := this;
    }

    method SetUser(u: Option<User>) returns (self: Message)
      requires Valid()
      modifies this
      ensures self == this && Valid()
      ensures user == u
      ensures id == old(id) && content == old(content) && status == old(status)
      ensures inReplyTo == old(inReplyTo) && replies == old(replies) && Repr == old(Repr)
    {
      user := u;
      self := this;
    }

    /** Any string is accepted, not only the four status constants. */
    method SetStatus(s: string) returns (self: Message)
      requires Valid()
      modifies this
      ensures self == this && Valid()
      ensures status == s
      ensures id == old(id) && content == old(content) && user == old(user)
      ensures inReplyTo == old(inReplyTo) && replies == old(replies) && Repr == old(Repr)
    {
      status := s;
      self := this;
    }

    method SetInReplyTo(parent: Message?) returns (self: Message)
      requires Valid()
      modifies this
      ensures self == this && Valid()
      ensures inReplyTo == parent
      ensures id == old(id) && content == old(content) && user == old(user) && status == old(status)
      ensures replies == old(replies) && Repr == old(Repr)
    {
      inReplyTo := parent;
      self := this;
    }

    /** `toArray`: the content under `message`, the user's name (or null)
        under `user`, the parent's id (or null) under `in_reply_to`, and the
        projection of each reply, in collection order, under `replies`. */
    function ToArray(): (r: MessageArray)
      requires Valid()
      reads this, Repr, inReplyTo
      decreases Repr, 1
      ensures r.id == id && r.message == content && r.status == status
      ensures r.user == if user.Some? then Some(user.value.name) else None
      ensures r.inReplyTo == if inReplyTo == null then None else inReplyTo.id
      ensures |r.replies| == |replies|
      ensures forall i :: 0 <= i < |replies| ==> r.replies[i] == replies[i].ToArray()
    {
      MessageArray(
        id,
        content,
        if user.Some? then Some(user.value.name) else None,
        status,
        if inReplyTo == null then None else inReplyTo.id,
        Projections(replies, Repr))
    }

    /** The projections of the replies `rs`, all of whose footprints lie
        strictly inside `bound`. */
    static function Projections(rs: seq<Message>, ghost bound: set<Message>): (r: seq<MessageArray>)
      requires forall i :: 0 <= i < |rs| ==>
        rs[i] in bound && rs[i].Repr < bound && rs[i].inReplyTo in bound && rs[i].Valid()
      reads bound
      decreases bound, 0, |rs|
      ensures |r| == |rs|
      ensures forall i :: 0 <= i < |rs| ==> r[i] == rs[i].ToArray()
    {
      if rs == [] then [] else [rs[0].ToArray()] + Projections(rs[1..], bound)
    }

    /** An update of this object's own fields that keeps its replies and
        footprint, such as the id a flush assigns, keeps the tree valid. */
    twostate lemma StaysValid()
      requires old(Valid()) && unchanged(old(Repr) - {this})
      requires replies == old(replies) && Repr == old(Repr)
      ensures Valid()
    {
    }

    /** After an update of this object's own fields other than its id and
        its replies (what each setter but `setInReplyTo` does), the
        projections of the replies are what they were, since a reply reads
        nothing of its parent but the id; so `toArray` changes in the
        updated fields only. */
    twostate lemma RepliesUnchanged()
      requires old(Valid()) && unchanged(old(Repr) - {this})
      requires id == old(id) && replies == old(replies) && Repr == old(Repr)
      ensures Valid()
      ensures ToArray().replies == old(ToArray().replies)
    {
      forall i | 0 <= i < |replies|
        ensures ToArray().replies[i] == old(ToArray().replies[i])
      {
        assert replies[i].ToArray() == old(replies[i].ToArray());
      }
    }

  }
}
