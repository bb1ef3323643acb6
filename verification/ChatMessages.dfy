/** Values shared by the chat modules. */
module ChatMessages {

  /** A chat message as the browser sees it. `lessonSeq <= 0` means "no sequence".
      A control payload (acknowledgement, resume status) is a message with a blank id. */
  datatype Message = Message(messageId: string, lessonSeq: int, content: string)

  /** The ids of a sequence of messages. */
  function Ids(ms: seq<Message>): set<string> {
    set m | m in ms :: m.messageId
  }

  /** An id determines the sequence number of the message that carries it. */
  ghost predicate IdFixesSeq(ms: set<Message>) {
    forall a, b :: a in ms && b in ms && a.messageId == b.messageId ==> a.lessonSeq == b.lessonSeq
  }
}
