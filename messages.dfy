/**
 * The vendor-neutral conversation: a role enumeration with three string
 * values, the `Message` dataclass, the three constructors that fix its role,
 * and the image-bearing message the adapters accept beside them.
 */
module Messages {
  import opened Wrappers

  /** The members of `_MessageRole`. */
  datatype Role = System | User | Assistant

  /** The string each member of the string enumeration stands for. */
  function RoleValue(r: Role): string
  {
    match r
    case System => "system"
    case User => "user"
    case Assistant => "assistant"
  }

  /** Lookup of a member by its value, `_MessageRole(s)`; `None` where the
      enumeration raises `ValueError`. */
  function RoleFromValue(s: string): (r: Option<Role>)
    ensures r.Some? ==> RoleValue(r.value) == s
    ensures r.None? ==> forall role: Role :: RoleValue(role) != s
  {
    if s == "system" then Some(System)
    else if s == "user" then Some(User)
    else if s == "assistant" then Some(Assistant)
    else None
  }

  /** The enumeration has exactly three members, with three distinct values,
      and each member is found again from its value. */
  lemma RoleValues()
    ensures forall r: Role :: RoleValue(r) in {"system", "user", "assistant"}
    ensures forall r: Role, r': Role :: RoleValue(r) == RoleValue(r') ==> r == r'
    ensures forall r: Role :: RoleFromValue(RoleValue(r)) == Some(r)
  {
  }

  /**
   * A message, one variant per Python class. `PlainMessage` is an instance of
   * the base dataclass `Message` built directly with any role; the three
   * role-fixing subclasses carry only their content; `ImageMessage` adds a
   * media type and base64 data to a role and a text.
   */
  datatype Message =
    | PlainMessage(role: Role, content: string)
    | SystemMessage(content: string)
    | UserMessage(content: string)
    | AssistantMessage(content: string)
    | ImageMessage(role: Role, content: string, mediaType: string, base64Data: string)

  /** The `role` field of a message. */
  function RoleOf(m: Message): Role
  {
    match m
    case PlainMessage(r, _) => r
    case SystemMessage(_) => System
    case UserMessage(_) => User
    case AssistantMessage(_) => Assistant
    case ImageMessage(r, _, _, _) => r
  }

  /** The Python class a message is an instance of. */
  function ClassName(m: Message): string
  {
    match m
    case PlainMessage(_, _) => "Message"
    case SystemMessage(_) => "SystemMessage"
    case UserMessage(_) => "UserMessage"
    case AssistantMessage(_) => "AssistantMessage"
    case ImageMessage(_, _, _, _) => "ImageMessage"
  }

  /** `SystemMessage(c)`, `UserMessage(c)` and `AssistantMessage(c)` keep `c`
      as content and fix the role to system, user and assistant. */
  lemma RoleFixingConstructors(c: string)
    ensures RoleOf(SystemMessage(c)) == System && SystemMessage(c).content == c
    ensures RoleOf(UserMessage(c)) == User && UserMessage(c).content == c
    ensures RoleOf(AssistantMessage(c)) == Assistant && AssistantMessage(c).content == c
  {
  }

  /** Dataclass equality: two text messages of the same class are equal
      exactly when their roles and contents are. */
  lemma DataclassEquality(a: Message, b: Message)
    requires ClassName(a) == ClassName(b) && !a.ImageMessage?
    ensures a == b <==> RoleOf(a) == RoleOf(b) && a.content == b.content
  {
  }

  /** The generated `__eq__` compares the class first: messages of different
      classes are never equal, whatever their role and content. */
  lemma DifferentClassesDiffer(a: Message, b: Message)
    requires ClassName(a) != ClassName(b)
    ensures a != b
  {
  }

  /** The attachment of an image message. */
  datatype Image = Image(mediaType: string, base64Data: string)

  /** What a message says, independent of the class that carries it: its
      role, its text and its attachment, if any. */
  datatype Turn = Turn(role: Role, content: string, image: Option<Image>)

  function TurnOf(m: Message): (t: Turn)
    ensures t.role == RoleOf(m) && t.content == m.content
    ensures t.image.Some? <==> m.ImageMessage?
  {
    match m
    case ImageMessage(r, c, mt, data) => Turn(r, c, Some(Image(mt, data)))
    case _ => Turn(RoleOf(m), m.content, None)
  }
}
