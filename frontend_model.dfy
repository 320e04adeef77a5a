/** The frontend's message model: the `MessageStatus` enum, the `Message`
    interface the API returns, and `MessageModel`, built from it with
    defaults. A status is kept as the string the API sent, since nothing
    checks it against the enum at run time. */
module FrontendModel {
  import opened Wrappers
  import opened Text
  import Entities

  datatype MessageStatus = Draft | Pending | Sent | Received | Failed {
    /** The enum's string value. */
    function Value(): string {
      match this
      case Draft => "draft"
      case Pending => "pending"
      case Sent => "sent"
      case Received => "received"
      case Failed => "failed"
    }
  }

  /** The enum member whose value is `s`, if any. */
  function StatusOf(s: string): (r: Option<MessageStatus>)
    ensures r.Some? ==> r.value.Value() == s
  {
    if s == "draft" then Some(Draft)
    else if s == "pending" then Some(Pending)
    else if s == "sent" then Some(Sent)
    else if s == "received" then Some(Received)
    else if s == "failed" then Some(Failed)
    else None
  }

  /** The five values are pairwise distinct: each value reads back as its
      own member. */
  lemma StatusValuesDistinct(a: MessageStatus, b: MessageStatus)
    ensures StatusOf(a.Value()) == Some(a)
    ensures a.Value() == b.Value() <==> a == b
  {
    assert a.Value()[0] != b.Value()[0] || a.Value()[1] != b.Value()[1] || a == b;
  }

  /** The backend's four status constants are the values of `Sent`,
      `Received`, `Pending` and `Failed`; none of them is `draft`. */
  lemma BackendStatusesKnown()
    ensures StatusOf(Entities.StatusSent) == Some(Sent)
    ensures StatusOf(Entities.StatusReceived) == Some(Received)
    ensures StatusOf(Entities.StatusPending) == Some(Pending)
    ensures StatusOf(Entities.StatusFailed) == Some(Failed)
  {
    StatusValuesDistinct(Sent, Sent);
    StatusValuesDistinct(Received, Received);
    StatusValuesDistinct(Pending, Pending);
    StatusValuesDistinct(Failed, Failed);
  }

  /** `in_reply_to?: number | null`: absent, null, or a message id. */
  datatype ReplyRef = Absent | Null | RefTo(id: int)

  /** `replies?: Message[]`: missing (or null), or given. */
  datatype RepliesData = NoReplies | Replies(items: seq<MessageData>)

  /** The `Message` interface as the API delivers it: any field may be
      missing (or null); `None` stands for both. */
  datatype MessageData = MessageData(
    id: Option<int>,
    message: Option<string>,
    user: Option<string>,
    status: Option<string>,
    createdAt: Option<string>,
    updatedAt: Option<string>,
    inReplyTo: ReplyRef,
    replies: RepliesData)

  datatype MessageModel = MessageModel(
    id: Option<int>,
    message: string,
    user: string,
    status: string,
    createdAt: string,
    updatedAt: string,
    inReplyTo: ReplyRef,
    replies: seq<MessageModel>)

  /** JavaScript's `x || fallback` on an optional string: the empty string
      is falsy like a missing value. */
  function OrElse(x: Option<string>, fallback: string): (r: string)
    ensures x.Some? && x.value != "" ==> r == x.value
    ensures x.None? || x.value == "" ==> r == fallback
  {
    if x.Some? && x.value != "" then x.value else fallback
  }

  /** The `MessageModel` constructor, with `now` the ISO text of the
      current time used for a missing timestamp. */
  function FromData(d: MessageData, now: string): (m: MessageModel)
    ensures m.id == d.id && m.inReplyTo == d.inReplyTo
    ensures m.message == OrElse(d.message, "") && m.user == OrElse(d.user, "")
    ensures m.status == OrElse(d.status, Draft.Value())
    ensures m.createdAt == OrElse(d.createdAt, now) && m.updatedAt == OrElse(d.updatedAt, now)
    ensures d.replies.NoReplies? ==> m.replies == []
    ensures d.replies.Replies? ==>
      (|m.replies| == |d.replies.items|
       && forall i :: 0 <= i < |d.replies.items| ==> m.replies[i] == FromData(d.replies.items[i], now))
  {
    MessageModel(
      d.id,
      OrElse(d.message, ""),
      OrElse(d.user, ""),
      OrElse(d.status, Draft.Value()),
      OrElse(d.createdAt, now),
      OrElse(d.updatedAt, now),
      d.inReplyTo,
      match d.replies
      case NoReplies => []
      case Replies(rs) => seq(|rs|, i requires 0 <= i < |rs| => FromData(rs[i], now)))
  }

  /** The data a model would be serialised to. */
  function ToData(m: MessageModel): (d: MessageData)
    decreases m
  {
    MessageData(m.id, Some(m.message), Some(m.user), Some(m.status),
                Some(m.createdAt), Some(m.updatedAt), m.inReplyTo,
                Replies(seq(|m.replies|, i requires 0 <= i < |m.replies| => ToData(m.replies[i]))))
  }

  /** A model whose timestamps and status are set, and all of whose
      replies are so too. */
  predicate Complete(m: MessageModel)
    decreases m
  {
    && m.status != "" && m.createdAt != "" && m.updatedAt != ""
    && forall i :: 0 <= i < |m.replies| ==> Complete(m.replies[i])
  }

  /** The constructor keeps everything it is given: building a model from
      a complete model's data gives the model back, whatever the clock. */
  lemma {:induction false} FromToData(m: MessageModel, now: string)
    requires Complete(m)
    decreases m
    ensures FromData(ToData(m), now) == m
  {
    var d := ToData(m);
    var r := FromData(d, now);
    forall i | 0 <= i < |m.replies| ensures r.replies[i] == m.replies[i] {
      FromToData(m.replies[i], now);
    }
  }

  /** `isEmpty`: the message is empty once trimmed. */
  predicate IsEmpty(m: MessageModel) {
    Trim(m.message, JsWhitespace) == ""
  }

  /** A message is empty exactly when it is made of white space only. */
  lemma IsEmptyIff(m: MessageModel)
    ensures IsEmpty(m) <==> forall i :: 0 <= i < |m.message| ==> m.message[i] in JsWhitespace
  {
    var l := TrimLeft(m.message, JsWhitespace);
    if forall i :: 0 <= i < |m.message| ==> m.message[i] in JsWhitespace {
      assert l == [];
    }
  }

  predicate IsPending(m: MessageModel) { m.status == Pending.Value() }
  predicate IsSent(m: MessageModel) { m.status == Sent.Value() }
  predicate IsFailed(m: MessageModel) { m.status == Failed.Value() }

  /** At most one of `isPending`, `isSent` and `isFailed` holds, and each
      holds exactly for its own enum member. */
  lemma StatusTestsExclusive(m: MessageModel)
    ensures !(IsPending(m) && IsSent(m)) && !(IsPending(m) && IsFailed(m)) && !(IsSent(m) && IsFailed(m))
    ensures IsPending(m) <==> StatusOf(m.status) == Some(Pending)
    ensures IsSent(m) <==> StatusOf(m.status) == Some(Sent)
    ensures IsFailed(m) <==> StatusOf(m.status) == Some(Failed)
  {
    StatusValuesDistinct(Pending, Sent);
    StatusValuesDistinct(Pending, Failed);
    StatusValuesDistinct(Sent, Failed);
  }

  /** Data without a status gives a draft, and so does the empty status. */
  lemma MissingStatusIsDraft(d: MessageData, now: string)
    requires d.status.None? || d.status == Some("")
    ensures StatusOf(FromData(d, now).status) == Some(Draft)
  {
  }
}
