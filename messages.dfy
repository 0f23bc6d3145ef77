/** The one entity of the transcript: a role-tagged chat message. */
module Messages {
  import opened Wrappers

  datatype Role = System | User | Assistant

  datatype Message = Message(role: Role, content: string)

  /** Content of the system prompt every transcript starts with. */
  const SystemPrompt: string := "You are a helpful assistant."

  /** The message `init_session` seeds the transcript with. */
  function Seed(): (m: Message)
    ensures m.role == System && m.content == SystemPrompt
  {
    Message(System, SystemPrompt)
  }

  /** The `role` string a message carries on the wire and to the chat widget. */
  function RoleName(r: Role): string {
    match r
    case System => "system"
    case User => "user"
    case Assistant => "assistant"
  }

  /** Reads a role string back; the inverse of RoleName. */
  function ParseRole(s: string): (r: Option<Role>)
    ensures r.Some? ==> RoleName(r.value) == s
    ensures r.None? ==> s !in {"system", "user", "assistant"}
  {
    if s == "system" then Some(System)
    else if s == "user" then Some(User)
    else if s == "assistant" then Some(Assistant)
    else None
  }

  lemma ParseRoleName(r: Role)
    ensures ParseRole(RoleName(r)) == Some(r)
  {
  }
}
