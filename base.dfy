// ai/base.py: the session styles, message roles and the records exchanged with a provider.
module Base {
  import opened Wrappers
  import opened Text
  import opened Json

  /** The five conversation modes of a session. */
  datatype SessionStyle = Exploration | CreativeWriting | ArticleWriting | Translation | Chat

  /** The enum's value, as stored in configuration keys and chat files. */
  function StyleValue(s: SessionStyle): string {
    match s
    case Exploration => "exploration"
    case CreativeWriting => "creative_writing"
    case ArticleWriting => "article_writing"
    case Translation => "translation"
    case Chat => "chat"
  }

  /** SessionStyle(value): the style with that value, or None where Python raises ValueError. */
  function StyleFromValue(v: string): (r: Option<SessionStyle>)
    ensures r.Some? ==> StyleValue(r.value) == v
    ensures (exists s :: StyleValue(s) == v) ==> r.Some?
  {
    if v == "exploration" then Some(Exploration)
    else if v == "creative_writing" then Some(CreativeWriting)
    else if v == "article_writing" then Some(ArticleWriting)
    else if v == "translation" then Some(Translation)
    else if v == "chat" then Some(Chat)
    else None
  }

  /** Different styles have different values, so a stored value names one style. */
  lemma StyleValueInjective(s: SessionStyle, t: SessionStyle)
    ensures StyleValue(s) == StyleValue(t) ==> s == t
  {
  }

  /** The values of MessageRole. Conversation history keeps roles as plain strings. */
  const USER := "user"
  const ASSISTANT := "assistant"
  const OTHER := "other"

  /** One entry of a conversation history: {"role": ..., "content": ...}. */
  datatype Message = Message(role: string, content: string)

  /** A translation example: terse GRID3 input and its Italian rendering. */
  datatype Example = Example(gridContent: string, italianTranslation: string, timestamp: Option<int>)

  datatype ChatContext = ChatContext(platform: string, participants: seq<string>, tone: string, maxLength: int)

  /** A provider's reply. */
  datatype Response = Response(content: string, metadata: map<string, Value>)
}
