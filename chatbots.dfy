/**
 * The chatbot models (chatbots, conversations, messages) and the chatbot serializers'
 * validation and creation rules.
 */
module Chatbots {
  import opened Wrappers
  import opened Text

  // ---------------------------------------------------------------------------
  // Chatbot

  const DefaultSystemPrompt := "You are a helpful AI assistant. Answer questions based on the provided context."
  const DefaultTemperature: real := 0.7
  const DefaultMaxTokens: int := 500
  const NameMinLength: nat := 3
  const NameMaxLength: nat := 200

  /** A row of the chatbots table. `owner` is the owning user's id. */
  datatype Chatbot = Chatbot(
    id: nat,
    owner: nat,
    name: string,
    description: string,
    systemPrompt: string,
    temperature: real,
    maxTokens: int,
    isActive: bool)

  /** The fields a client may send when creating a chatbot; absent ones take the model defaults. */
  datatype ChatbotInput = ChatbotInput(
    name: string,
    description: Option<string>,
    systemPrompt: Option<string>,
    temperature: Option<real>,
    maxTokens: Option<int>)

  const BlankMessage := "This field may not be blank."
  const NameTooLongMessage := "Ensure this field has no more than 200 characters."
  /** The serializer turns the model's `MinLengthValidator(3)` into its own `min_length` check and message. */
  const NameTooShortMessage := "Ensure this field has at least 3 characters."

  /**
   * The `name` field as a serializer builds it from the model field: the value is stripped, a blank
   * value is refused, and the stripped value must have between 3 and 200 characters.
   */
  function ValidateNameField(value: string): (r: Result<string, string>)
    ensures r.Ok? <==> NameMinLength <= |Strip(value)| <= NameMaxLength
    ensures r.Ok? ==> r.value == Strip(value)
    ensures AllSpace(value) ==> r == Err(BlankMessage)
    ensures !AllSpace(value) && |Strip(value)| < NameMinLength ==> r == Err(NameTooShortMessage)
    ensures |Strip(value)| > NameMaxLength ==> r == Err(NameTooLongMessage)
  {
    StripEmptyIff(value);
    var t := Strip(value);
    if t == "" then Err(BlankMessage)
    else if |t| > NameMaxLength then Err(NameTooLongMessage)
    else if |t| < NameMinLength then Err(NameTooShortMessage)
    else Ok(t)
  }

  /**
   * A serializer field built from a model `TextField`: the value is stripped, and a blank value is
   * stored as "" when the model allows blank and refused otherwise.
   */
  function ValidateTextField(value: string, allowBlank: bool): (r: Result<string, string>)
    ensures r.Ok? <==> allowBlank || !AllSpace(value)
    ensures r.Ok? ==> r.value == Strip(value)
    ensures r.Err? ==> r.error == BlankMessage
  {
    StripEmptyIff(value);
    var t := Strip(value);
    if t == "" && !allowBlank then Err(BlankMessage) else Ok(t)
  }

  /** An optional text field: nothing to check when it was not sent. */
  function CheckSentText(sent: Option<string>, allowBlank: bool): (r: Result<Option<string>, string>)
    ensures sent.None? ==> r == Ok(None)
    ensures sent.Some? ==> (r.Ok? <==> ValidateTextField(sent.value, allowBlank).Ok?)
    ensures sent.Some? && r.Ok? ==> r.value == Some(Strip(sent.value))
    ensures r.Err? ==> r.error == BlankMessage
  {
    if sent.None? then Ok(None)
    else match ValidateTextField(sent.value, allowBlank)
      case Err(e) => Err(e)
      case Ok(t) => Ok(Some(t))
  }

  /** The messages of the failed checks, in field order. */
  function Errors<A, B, C>(first: Result<A, string>, second: Result<B, string>, third: Result<C, string>): (r: seq<string>)
    ensures |r| <= 3
    ensures r == [] <==> first.Ok? && second.Ok? && third.Ok?
    ensures first.Err? ==> r[0] == first.error
    ensures third.Err? ==> r[|r| - 1] == third.error
  {
    (if first.Err? then [first.error] else []) + (if second.Err? then [second.error] else [])
    + (if third.Err? then [third.error] else [])
  }

  /**
   * `ChatbotCreateSerializer` validation: each field as built from the model, errors collected in
   * field order (`name`, then `system_prompt`; `description` never fails, and temperature and
   * max tokens have no check of their own on this serializer).
   */
  function ValidateChatbotInput(input: ChatbotInput): (r: Result<ChatbotInput, seq<string>>)
    ensures r.Ok? <==> NameMinLength <= |Strip(input.name)| <= NameMaxLength
                       && (input.systemPrompt.Some? ==> !AllSpace(input.systemPrompt.value))
    ensures r.Ok? ==> && r.value.name == Strip(input.name)
                      && (input.description.Some? ==> r.value.description == Some(Strip(input.description.value)))
                      && (input.description.None? ==> r.value.description.None?)
                      && (input.systemPrompt.Some? ==> r.value.systemPrompt == Some(Strip(input.systemPrompt.value)))
                      && (input.systemPrompt.None? ==> r.value.systemPrompt.None?)
                      && r.value.temperature == input.temperature && r.value.maxTokens == input.maxTokens
    ensures r.Err? ==> 1 <= |r.error| <= 2
    ensures r.Err? && ValidateNameField(input.name).Err? ==> r.error[0] == ValidateNameField(input.name).error
    ensures input.systemPrompt.Some? && AllSpace(input.systemPrompt.value) ==> r.Err? && r.error[|r.error| - 1] == BlankMessage
  {
    var name := ValidateNameField(input.name);
    var description := CheckSentText(input.description, true);
    var systemPrompt := CheckSentText(input.systemPrompt, false);
    var errors := Errors(name, description, systemPrompt);
    if errors != [] then Err(errors)
    else Ok(ChatbotInput(name.value, description.value, systemPrompt.value, input.temperature, input.maxTokens))
  }

  const ShortNameMessage := "Name must be at least 3 characters long"
  const TemperatureMessage := "Temperature must be between 0 and 1"

  /** `ChatbotSerializer.validate_name`: names shorter than 3 characters are refused, others returned unchanged. */
  function ValidateName(value: string): (r: Result<string, string>)
    ensures r.Ok? <==> |value| >= NameMinLength
    ensures r.Ok? ==> r.value == value
    ensures r.Err? ==> r.error == ShortNameMessage
  {
    if |value| < NameMinLength then Err(ShortNameMessage) else Ok(value)
  }

  /** `ChatbotSerializer.validate_temperature`: accepted exactly on the closed interval [0, 1], unchanged. */
  function ValidateTemperature(value: real): (r: Result<real, string>)
    ensures r.Ok? <==> 0.0 <= value <= 1.0
    ensures r.Ok? ==> r.value == value
    ensures r.Err? ==> r.error == TemperatureMessage
  {
    if !(0.0 <= value <= 1.0) then Err(TemperatureMessage) else Ok(value)
  }

  /** Both ends of the temperature range are accepted, and the model default lies inside it. */
  lemma TemperatureBounds()
    ensures ValidateTemperature(0.0).Ok? && ValidateTemperature(1.0).Ok?
    ensures ValidateTemperature(DefaultTemperature).Ok?
    ensures ValidateTemperature(-0.1).Err? && ValidateTemperature(1.1).Err?
  {
  }

  /**
   * `ChatbotCreateSerializer.create`: the new row's owner is the requesting user, no matter what the
   * request carried; the sent fields are stored, the ones the client left out take the model
   * defaults, and the chatbot starts active.
   */
  function NewChatbot(id: nat, requester: nat, input: ChatbotInput): (b: Chatbot)
    ensures b.id == id && b.owner == requester && b.isActive
    ensures b.name == input.name
    ensures input.description.Some? ==> b.description == input.description.value
    ensures input.description.None? ==> b.description == ""
    ensures input.systemPrompt.Some? ==> b.systemPrompt == input.systemPrompt.value
    ensures input.systemPrompt.None? ==> b.systemPrompt == DefaultSystemPrompt
    ensures input.temperature.Some? ==> b.temperature == input.temperature.value
    ensures input.temperature.None? ==> b.temperature == DefaultTemperature
    ensures input.maxTokens.Some? ==> b.maxTokens == input.maxTokens.value
    ensures input.maxTokens.None? ==> b.maxTokens == DefaultMaxTokens
  {
    Chatbot(id, requester, input.name, input.description.GetOr(""), input.systemPrompt.GetOr(DefaultSystemPrompt),
            input.temperature.GetOr(DefaultTemperature), input.maxTokens.GetOr(DefaultMaxTokens), true)
  }

  /** The fields a chatbot update may carry; `id` and `owner` are read-only and cannot be sent. */
  datatype ChatbotUpdate = ChatbotUpdate(
    name: Option<string>,
    description: Option<string>,
    systemPrompt: Option<string>,
    temperature: Option<real>,
    maxTokens: Option<int>,
    isActive: Option<bool>)

  /** The name check of `ChatbotSerializer`: the field checks, then `validate_name`. */
  function CheckSentName(sent: Option<string>): (r: Result<Option<string>, string>)
    ensures sent.None? ==> r == Ok(None)
    ensures sent.Some? ==> (r.Ok? <==> NameMinLength <= |Strip(sent.value)| <= NameMaxLength)
    ensures sent.Some? && r.Ok? ==> r.value == Some(Strip(sent.value))
  {
    if sent.None? then Ok(None)
    else match ValidateNameField(sent.value)
      case Err(e) => Err(e)
      case Ok(t) => match ValidateName(t)
        case Err(e) => Err(e)
        case Ok(t') => Ok(Some(t'))
  }

  /** The temperature check of `ChatbotSerializer`: `validate_temperature` on a sent value. */
  function CheckSentTemperature(sent: Option<real>): (r: Result<Option<real>, string>)
    ensures sent.None? ==> r == Ok(None)
    ensures sent.Some? ==> (r.Ok? <==> 0.0 <= sent.value <= 1.0)
    ensures sent.Some? && r.Ok? ==> r.value == sent
    ensures r.Err? ==> r.error == TemperatureMessage
  {
    if sent.None? then Ok(None)
    else match ValidateTemperature(sent.value)
      case Err(e) => Err(e)
      case Ok(t) => Ok(Some(t))
  }

  /**
   * An update through `ChatbotSerializer`: each sent field passes its checks (the name its field
   * checks and `validate_name`, the system prompt its blank check, the temperature
   * `validate_temperature`), errors are collected in field order, and on success the sent fields
   * replace the stored ones while everything else stays.
   */
  function ApplyChatbotUpdate(b: Chatbot, u: ChatbotUpdate): (r: Result<Chatbot, seq<string>>)
    ensures r.Ok? <==> && (u.name.Some? ==> NameMinLength <= |Strip(u.name.value)| <= NameMaxLength)
                       && (u.systemPrompt.Some? ==> !AllSpace(u.systemPrompt.value))
                       && (u.temperature.Some? ==> 0.0 <= u.temperature.value <= 1.0)
    ensures r.Ok? ==> r.value.id == b.id && r.value.owner == b.owner
    ensures r.Ok? ==> && (u.name.Some? ==> r.value.name == Strip(u.name.value))
                      && (u.name.None? ==> r.value.name == b.name)
                      && (u.description.Some? ==> r.value.description == Strip(u.description.value))
                      && (u.description.None? ==> r.value.description == b.description)
                      && (u.systemPrompt.Some? ==> r.value.systemPrompt == Strip(u.systemPrompt.value))
                      && (u.systemPrompt.None? ==> r.value.systemPrompt == b.systemPrompt)
                      && (u.temperature.Some? ==> r.value.temperature == u.temperature.value)
                      && (u.temperature.None? ==> r.value.temperature == b.temperature)
                      && (u.maxTokens.Some? ==> r.value.maxTokens == u.maxTokens.value)
                      && (u.maxTokens.None? ==> r.value.maxTokens == b.maxTokens)
                      && (u.isActive.Some? ==> r.value.isActive == u.isActive.value)
                      && (u.isActive.None? ==> r.value.isActive == b.isActive)
    ensures r.Err? ==> 1 <= |r.error| <= 3
    ensures u.temperature.Some? && !(0.0 <= u.temperature.value <= 1.0) ==> r.Err? && r.error[|r.error| - 1] == TemperatureMessage
  {
    var name := CheckSentName(u.name);
    var systemPrompt := CheckSentText(u.systemPrompt, false);
    var temperature := CheckSentTemperature(u.temperature);
    var errors := Errors(name, systemPrompt, temperature);
    if errors != [] then Err(errors)
    else
      Ok(b.(name := name.value.GetOr(b.name),
            description := if u.description.Some? then Strip(u.description.value) else b.description,
            systemPrompt := systemPrompt.value.GetOr(b.systemPrompt),
            temperature := temperature.value.GetOr(b.temperature),
            maxTokens := u.maxTokens.GetOr(b.maxTokens),
            isActive := u.isActive.GetOr(b.isActive)))
  }


  /** An update that sends nothing leaves the chatbot as it was. */
  lemma EmptyUpdateKeepsChatbot(b: Chatbot)
    ensures ApplyChatbotUpdate(b, ChatbotUpdate(None, None, None, None, None, None)) == Ok(b)
  {
  }

  /** Sending the same accepted update again changes nothing further. */
  lemma UpdateIdempotent(b: Chatbot, u: ChatbotUpdate)
    requires ApplyChatbotUpdate(b, u).Ok?
    ensures ApplyChatbotUpdate(ApplyChatbotUpdate(b, u).value, u) == ApplyChatbotUpdate(b, u)
  {
    var once := ApplyChatbotUpdate(b, u).value;
    var twice := ApplyChatbotUpdate(once, u);
    assert twice.Ok?;
    assert twice.value.name == once.name && twice.value.description == once.description;
    assert twice.value.systemPrompt == once.systemPrompt && twice.value.temperature == once.temperature;
    assert twice.value.maxTokens == once.maxTokens && twice.value.isActive == once.isActive;
  }

  /** Every name the field checks accept also passes `validate_name`, so that method never rejects on its own. */
  lemma NameFieldSubsumesValidateName(value: string)
    requires ValidateNameField(value).Ok?
    ensures ValidateName(ValidateNameField(value).value) == Ok(ValidateNameField(value).value)
  {
  }

  // ---------------------------------------------------------------------------
  // Conversation and Message

  /** A row of the conversations table; `user` is absent for anonymous chats. */
  datatype Conversation = Conversation(id: nat, chatbotId: nat, user: Option<nat>, title: string)

  /** The `title` field's default and its length limit. */
  const DefaultConversationTitle := "New Conversation"
  const ConversationTitleMaxLength: nat := 200

  /** A new conversation row; a title that is not given takes the field's default. */
  function NewConversation(id: nat, chatbotId: nat, user: Option<nat>, title: Option<string>): (c: Conversation)
    ensures c.id == id && c.chatbotId == chatbotId && c.user == user
    ensures title.Some? ==> c.title == title.value
    ensures title.None? ==> c.title == DefaultConversationTitle
  {
    Conversation(id, chatbotId, user, title.GetOr(DefaultConversationTitle))
  }

  /** A conversation created without a title is called "New Conversation", which fits the field. */
  lemma UntitledConversationIsNew(id: nat, chatbotId: nat, user: Option<nat>)
    ensures NewConversation(id, chatbotId, user, None).title == "New Conversation"
    ensures |NewConversation(id, chatbotId, user, None).title| <= ConversationTitleMaxLength
  {
  }

  datatype Role = UserRole | AssistantRole | SystemRole

  function RoleName(r: Role): string {
    match r
    case UserRole => "user"
    case AssistantRole => "assistant"
    case SystemRole => "system"
  }

  /** The stored role value back to its choice; anything outside the three choices is not a role. */
  function ParseRole(s: string): (r: Option<Role>)
    ensures r.Some? <==> s in {"user", "assistant", "system"}
  {
    if s == "user" then Some(UserRole)
    else if s == "assistant" then Some(AssistantRole)
    else if s == "system" then Some(SystemRole)
    else None
  }

  /** Role names and role choices are in one-to-one correspondence. */
  lemma RoleRoundTrip(r: Role, s: string)
    ensures ParseRole(RoleName(r)) == Some(r)
    ensures ParseRole(s).Some? ==> RoleName(ParseRole(s).value) == s
  {
  }

  /** One retrieved chunk as recorded in an assistant message's `context_used`. */
  datatype ContextEntry = ContextEntry(document: string, similarity: real, contentPreview: string)

  /** A row of the messages table. */
  datatype Message = Message(
    id: nat,
    conversationId: nat,
    role: Role,
    content: string,
    contextUsed: Option<seq<ContextEntry>>,
    tokensUsed: Option<int>)

  /** `Message.__str__`: the role, a colon, and the content cut to a 50-character preview. */
  function MessageStr(m: Message): (r: string)
    ensures |m.content| <= 50 ==> r == RoleName(m.role) + ": " + m.content
    ensures |m.content| > 50 ==> r == RoleName(m.role) + ": " + m.content[..50] + "..."
    ensures |r| <= |RoleName(m.role)| + 2 + 53
  {
    RoleName(m.role) + ": " + Preview(m.content, 50)
  }
}
