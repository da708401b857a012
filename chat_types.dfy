/** The chat records shared by the panel, its view and the demo route. */
module ChatTypes {
  import opened Wrappers

  datatype Role = User | Assistant | System

  /** One typed piece of a message. */
  datatype ChatPart =
    | Text(text: string)
    | SourceUrl(url: string)
    | Reasoning(text: string)

  /**
   * A message of the conversation. Either `content` or `parts` may be missing.
   * Ids are generated by the chat library; here they are natural numbers.
   */
  datatype ChatMessage = ChatMessage(id: nat, role: Role, content: Option<string>, parts: Option<seq<ChatPart>>)

  /** A citation record (title, url, description, quote). */
  datatype SourceItem = SourceItem(title: string, url: string, description: string, quote: string)

  /** `message.parts ?? []` */
  function Parts(m: ChatMessage): seq<ChatPart> {
    m.parts.GetOr([])
  }

  /** No two messages of the list share an id. */
  predicate DistinctIds(ms: seq<ChatMessage>) {
    forall i, j :: 0 <= i < j < |ms| ==> ms[i].id != ms[j].id
  }
}
