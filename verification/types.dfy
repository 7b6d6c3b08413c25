/**
  The records the client and the server exchange: a conversation message, an archived
  log of a finished conversation, and the reply of the generation endpoint.
 */
module Types {
  import opened JsValues

  /** One line of the conversation. `agentId` is a persona key or `"user"`. */
  datatype Message = Message(id: string, agentId: string, agentName: string, content: string, timestamp: string)

  /** A finished conversation, archived with its own copy of the messages. */
  datatype Log = Log(id: string, timestamp: string, messages: seq<Message>, title: string)

  /** The JSON body of a `generate-message` reply; every field but `success` is optional. */
  datatype ApiResponse = ApiResponse(
    success: bool,
    agent: Option<string>,
    agentName: Option<string>,
    message: Option<string>,
    timestamp: Option<string>,
    error: Option<string>)

  /** The agent id the client gives to the startup director's own messages. */
  const UserAgentId: string := "user"

  /** The display name of the startup director. */
  const UserDisplayName: string := "Startup Director"
}
