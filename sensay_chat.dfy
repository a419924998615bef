/**
 * The live replica chat (src/hooks/useSensayChat.ts): a log of user and
 * assistant messages and a loading flag around one completion request.
 *
 * The request itself is a parameter: its outcome arrives as a `ChatReply`,
 * and the `await` is the gap between `BeginSend` and `FinishSend`.
 */
module SensayChat {
  import opened Common

  datatype Role = User | Assistant

  datatype SensayMessage = SensayMessage(role: Role, content: string)

  /** The outcome of the chat-completions request. */
  datatype ChatReply = Completion(content: string) | RequestFailed

  const FailureText := "Sorry, something went wrong."

  /** The assistant message appended once the request settles. */
  function AssistantMessage(reply: ChatReply): (m: SensayMessage)
    ensures m.role == Assistant
    ensures reply.Completion? ==> m.content == reply.content
    ensures reply.RequestFailed? ==> m.content == FailureText
  {
    SensayMessage(Assistant, if reply.Completion? then reply.content else FailureText)
  }

  class SensayChatHook {
    const replicaId: Option<string>
    const userId: Option<string>
    var messages: seq<SensayMessage>
    var isLoading: bool

    constructor (replicaId: Option<string>, userId: Option<string>)
      ensures this.replicaId == replicaId && this.userId == userId
      ensures messages == [] && !isLoading
    {
      this.replicaId := replicaId;
      this.userId := userId;
      messages := [];
      isLoading := false;
    }

    /** A send is made only with both a replica id and a user id. */
    predicate CanSend()
      reads this
    {
      Truthy(replicaId) && Truthy(userId)
    }

    /** Up to the `await`: raise the flag and append the user's message, before the request goes out. */
    method BeginSend(content: string) returns (started: bool)
      modifies this`messages, this`isLoading
      ensures started == CanSend()
      ensures !started ==> messages == old(messages) && isLoading == old(isLoading)
      ensures started ==> isLoading && messages == old(messages) + [SensayMessage(User, content)]
    {
      if !Truthy(replicaId) || !Truthy(userId) {
        return false;
      }
      isLoading := true;
      messages := messages + [SensayMessage(User, content)];
      started := true;
    }

    /** After the `await`: one assistant message, then the flag is lowered whatever the outcome. */
    method FinishSend(reply: ChatReply)
      modifies this`messages, this`isLoading
      ensures messages == old(messages) + [AssistantMessage(reply)]
      ensures !isLoading
    {
      if reply.Completion? {
        messages := messages + [SensayMessage(Assistant, reply.content)];
      } else {
        messages := messages + [SensayMessage(Assistant, FailureText)];
      }
      isLoading := false;
    }

    /** A whole `sendMessage` with nothing interleaved: two entries, user then assistant, or nothing. */
    method SendMessage(content: string, reply: ChatReply)
      modifies this`messages, this`isLoading
      ensures !CanSend() ==> messages == old(messages) && isLoading == old(isLoading)
      ensures CanSend() ==> !isLoading
      ensures CanSend() ==> messages == old(messages) + [SensayMessage(User, content), AssistantMessage(reply)]
    {
      var started := BeginSend(content);
      if started {
        FinishSend(reply);
      }
    }
  }
}
