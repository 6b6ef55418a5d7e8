/** The chat `Message` of the AI domain and its dictionary form. */
module AiMessage {
  import opened Wrappers

  /** `Message`, frozen: a role, a content and an optional name. */
  datatype Message = Message(role: string, content: string, name: Option<string>)

  /** Python truthiness of the optional name: present and non-empty. */
  predicate NameGiven(m: Message)
  {
    m.name.Some? && m.name.value != ""
  }

  /** `to_dict`: role and content always, "name" only when the name is truthy, nothing else. */
  function ToDict(m: Message): (d: map<string, string>)
    ensures "role" in d && d["role"] == m.role
    ensures "content" in d && d["content"] == m.content
    ensures "name" in d <==> NameGiven(m)
    ensures NameGiven(m) ==> d["name"] == m.name.value
    ensures d.Keys <= {"role", "content", "name"}
  {
    var d := map["role" := m.role, "content" := m.content];
    if NameGiven(m) then d["name" := m.name.value] else d
  }

  /** Reading a message back from its dictionary; a missing "role" or "content" is an error. */
  function FromDict(d: map<string, string>): (r: Result<Message>)
    ensures r.Ok? <==> "role" in d && "content" in d
  {
    if "role" !in d || "content" !in d then Err("missing role or content")
    else Ok(Message(d["role"], d["content"], if "name" in d then Some(d["name"]) else None))
  }

  /** `to_dict` loses exactly an empty name: the round trip is the identity iff the name is not `Some("")`. */
  lemma ToDictRoundTrip(m: Message)
    ensures FromDict(ToDict(m)).Ok?
    ensures FromDict(ToDict(m)) == Ok(m) <==> m.name != Some("")
    ensures m.name == Some("") ==> FromDict(ToDict(m)) == Ok(Message(m.role, m.content, None))
  {
  }
}
