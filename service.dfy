/** `MessageService`: creating a message from a request, changing its
    status, and the two queries, all through the message repository. */
module Services {
  import opened Wrappers
  import opened Entities
  import opened Repositories
  import opened Dtos

  class MessageService {
    const messageRepository: MessageRepository

    constructor (messageRepository: MessageRepository)
      ensures this.messageRepository == messageRepository
    {
      this.messageRepository := messageRepository;
    }

    /** `getAllMessages`: the repository's answer, unchanged. */
    method GetAllMessages() returns (r: seq<Message>)
      ensures r == messageRepository.rows
    {
      r := messageRepository.FindAllOrderedById();
    }

    /** `getUserMessages`: the repository's answer: the user's messages. */
    method GetUserMessages(u: User) returns (r: seq<Message>)
      ensures r == OwnedBy(messageRepository.rows, u)
      ensures forall m :: m in r <==> m in messageRepository.rows && m.user == Some(u)
    {
      r := messageRepository.FindByUser(u);
    }

    /** `createMessage`: a new message with the request's text, the given
        user and status `sent`, not a reply to anything, saved once with
        flush. The flush inserts it: it gets the generated id and heads the
        rows. No plugin is invoked. */
    method CreateMessage(dto: CreateMessageDto, u: User) returns (message: Message)
      modifies messageRepository
      ensures fresh(message) && message.Valid() && fresh(message.Repr)
      ensures message.content == Some(dto.message) && message.user == Some(u)
      ensures message.status == StatusSent && message.inReplyTo == null && message.replies == []
      ensures message.id == Some(old(messageRepository.nextId))
      ensures message.ToArray()
        == MessageArray(Some(old(messageRepository.nextId)), Some(dto.message), Some(u.name), StatusSent, None, [])
      ensures messageRepository.saves == old(messageRepository.saves) + [MessageSave(message, true)]
      ensures messageRepository.rows == [message] + old(messageRepository.rows)
      ensures messageRepository.nextId == old(messageRepository.nextId) + 1
    {
      message := new Message();
      var _ := message.SetContent(dto.message);
      var _ := message.SetUser(Some(u));
      var _ := message.SetStatus(StatusSent);
      messageRepository.Save(message, true);
    }

    /** `updateMessageStatus`: the same message, its status replaced by any
        string, saved once with flush; nothing else about a stored message
        changes. A message not stored yet is inserted by the flush. */
    method UpdateMessageStatus(message: Message, status: string) returns (r: Message)
      requires message.Valid()
      modifies message, messageRepository
      ensures r == message && message.Valid() && message.status == status
      ensures message.content == old(message.content) && message.user == old(message.user)
      ensures message.inReplyTo == old(message.inReplyTo)
      ensures message.replies == old(message.replies) && message.Repr == old(message.Repr)
      ensures messageRepository.saves == old(messageRepository.saves) + [MessageSave(message, true)]
      ensures old(message.id).Some? ==>
        && message.id == old(message.id)
        && message.ToArray() == old(message.ToArray()).(status := status)
        && messageRepository.rows == old(messageRepository.rows)
        && messageRepository.nextId == old(messageRepository.nextId)
      ensures old(message.id).None? ==>
        && message.id == Some(old(messageRepository.nextId))
        && messageRepository.rows == [message] + old(messageRepository.rows)
        && messageRepository.nextId == old(messageRepository.nextId) + 1
    {
      ghost var stored := message.id.Some?;
      r := message.SetStatus(status);
      messageRepository.Save(message, true);
      if stored {
        message.RepliesUnchanged();
      }
    }
  }
}
