/** Record types of the chat-session store (hooks/use-chat-session.ts).
    Fields that TypeScript marks optional (`x?: T`) become `Option<T>`. */
module ChatTypes {

  datatype Option<+T> = None | Some(value: T)

  /** The models a message can be tagged with; `Tag` is the string the enum
      member stands for, which is what ends up in the persisted record. */
  datatype ModelType = GPT3 | GPT4 | Claude2 | Claude3 | GPT3_5 {
    function Tag(): string {
      match this
      case GPT3 => "gpt-3"
      case GPT4 => "gpt-4"
      case Claude2 => "claude-2"
      case Claude3 => "claude-3"
      case GPT3_5 => "gpt-3.5-turbo"
    }
  }

  /** Distinct enum members persist as distinct strings. */
  lemma TagInjective(a: ModelType, b: ModelType)
    ensures a.Tag() == b.Tag() <==> a == b
  {
  }

  datatype PromptType = Ask | Answer | Explain | Summarize | Translate | Improve | FixGrammar | Reply | ShortReply

  datatype RoleType = Assistant | WritingExpert | SocialMediaExpert

  /** `PromptProps`; `kind` is the TypeScript field `type`. */
  datatype PromptProps = PromptProps(
    kind: PromptType,
    role: RoleType,
    context: Option<string>,
    query: Option<string>,
    regenerate: Option<bool>)

  /** A LangChain `HumanMessage` or `AIMessage`. The store never looks inside
      one, so it is kept as an opaque value. */
  datatype ChainMessage = ChainMessage(content: string)

  /** `TChatMessage` */
  datatype Message = Message(
    id: string,
    model: ModelType,
    human: ChainMessage,
    ai: ChainMessage,
    rawHuman: string,
    rawAI: string,
    props: Option<PromptProps>,
    createdAt: Option<string>,
    updatedAt: Option<string>)

  /** `TChatSession` */
  datatype Session = Session(
    messages: seq<Message>,
    title: Option<string>,
    id: string,
    createdAt: Option<string>,
    updatedAt: Option<string>)

  /** One key of an object literal that is spread over another: either the key
      is not there (the spread keeps the old value) or it is there with a value
      (the spread overwrites, even when that value is `undefined`). */
  datatype Slot<+T> = Absent | Present(value: T)

  /** `Omit<TChatSession, "id">`: the type has no `id`, its `messages` key is
      required, and each optional field may be missing, present as
      `undefined` (`Present(None)`) or present with a value. */
  datatype SessionPatch = SessionPatch(
    messages: seq<Message>,
    title: Slot<Option<string>>,
    createdAt: Slot<Option<string>>,
    updatedAt: Slot<Option<string>>)
}
