/** The frontend's message store (the `Message` service): the list of
    message models and the loading flag, both held in signals that each
    method replaces or toggles. The HTTP requests are left out; a load is
    its two halves, the call and the arrival of the response. */
module FrontendStore {
  import opened Wrappers
  import opened FrontendModel

  /** The list with the status of every message whose id is `id` set to
      `status`; replies are not searched. */
  function WithStatus(ms: seq<MessageModel>, id: int, status: MessageStatus): (r: seq<MessageModel>)
    ensures |r| == |ms|
    ensures forall i :: 0 <= i < |ms| ==>
      r[i] == if ms[i].id == Some(id) then ms[i].(status := status.Value()) else ms[i]
  {
    seq(|ms|, i requires 0 <= i < |ms| =>
      if ms[i].id == Some(id) then ms[i].(status := status.Value()) else ms[i])
  }

  /** Only the matched messages change, and only in their status: ids,
      order and every other field stay as they were, and each matched
      message reports the new status. */
  lemma WithStatusChangesOnlyStatus(ms: seq<MessageModel>, id: int, status: MessageStatus)
    ensures var r := WithStatus(ms, id, status);
      forall i :: 0 <= i < |ms| ==>
        && r[i].(status := ms[i].status) == ms[i]
        && (ms[i].id == Some(id) ==> StatusOf(r[i].status) == Some(status))
        && (ms[i].id != Some(id) ==> r[i] == ms[i])
  {
    StatusValuesDistinct(status, status);
  }

  /** Setting the same status twice is setting it once. */
  lemma WithStatusIdempotent(ms: seq<MessageModel>, id: int, status: MessageStatus)
    ensures WithStatus(WithStatus(ms, id, status), id, status) == WithStatus(ms, id, status)
  {
  }

  /** The models of a response, in response order. */
  function Models(response: seq<MessageData>, now: string): (r: seq<MessageModel>)
    ensures |r| == |response|
    ensures forall i :: 0 <= i < |response| ==> r[i] == FromData(response[i], now)
  {
    seq(|response|, i requires 0 <= i < |response| => FromData(response[i], now))
  }

  class MessageStore {
    /** `messagesSignal`. */
    var messages: seq<MessageModel>
    /** `loadingSIgnal`. */
    var loading: bool

    /** An empty list, not loading. */
    constructor ()
      ensures messages == [] && !loading
    {
      messages := [];
      loading := false;
    }

    /** The first half of `loadMessages`: the flag is flipped, not set. */
    method BeginLoad()
      modifies this
      ensures loading == !old(loading) && messages == old(messages)
    {
      loading := !loading;
    }

    /** The second half of `loadMessages`, when the response arrives: the
        whole list is replaced by the response's models, in order, and the
        flag is flipped again. Messages added locally are gone. */
    method CompleteLoad(response: seq<MessageData>, now: string)
      modifies this
      ensures messages == Models(response, now)
      ensures loading == !old(loading)
    {
      var models := Models(response, now);
      messages := models;
      loading := !loading;
    }

    /** `addMessageLocally`: the new message first, the others after it in
        their order. */
    method AddMessageLocally(message: MessageModel)
      modifies this
      ensures messages == [message] + old(messages)
      ensures |messages| == |old(messages)| + 1 && messages[0] == message
      ensures messages[1..] == old(messages)
      ensures loading == old(loading)
    {
      messages := [message] + messages;
    }

    /** `updateMessageStatus`: nothing for a missing id or the id 0, which
        are falsy; otherwise every listed message with that id gets the
        status. */
    method UpdateMessageStatus(messageId: Option<int>, status: MessageStatus)
      modifies this
      ensures messageId.None? || messageId == Some(0) ==> messages == old(messages)
      ensures messageId.Some? && messageId.value != 0 ==>
        messages == WithStatus(old(messages), messageId.value, status)
      ensures loading == old(loading)
    {
      if messageId.None? || messageId.value == 0 {
        return;
      }
      var updated := WithStatus(messages, messageId.value, status);
      messages := updated;
    }

    /** `clearMessages`. */
    method ClearMessages()
      modifies this
      ensures messages == [] && loading == old(loading)
    {
      messages := [];
    }
  }

  /** One load from a fresh store: loading while the request is out, not
      loading once the response is in, and the list is the response. */
  method SingleLoad(response: seq<MessageData>, now: string) returns (store: MessageStore, during: bool)
    ensures fresh(store)
    ensures during && !store.loading
    ensures store.messages == Models(response, now)
  {
    store := new MessageStore();
    store.BeginLoad();
    during := store.loading;
    store.CompleteLoad(response, now);
  }

  /** Two overlapping loads from a fresh store: because the flag is
      toggled, it reads "not loading" while both requests are out, and
      "loading" after the first response, while one request is still out. */
  method OverlappingLoads(first: seq<MessageData>, second: seq<MessageData>, now: string)
    returns (store: MessageStore, bothOut: bool, oneOut: bool)
    ensures fresh(store)
    ensures !bothOut && oneOut && !store.loading
    ensures store.messages == Models(second, now)
  {
    store := new MessageStore();
    store.BeginLoad();
    store.BeginLoad();
    bothOut := store.loading;
    store.CompleteLoad(first, now);
    oneOut := store.loading;
    store.CompleteLoad(second, now);
  }
}
