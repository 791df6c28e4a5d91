/** The application's records: problem domain, chat message, citation and progress state. */
module Types {
  import opened Wrappers

  /** The problem domain the user selects; only its name reaches the model's instruction. */
  datatype Category = Hardware | Software | Ai | Networking {
    function Name(): (name: string)
      ensures name != ""
    {
      match this
      case Hardware => "hardware"
      case Software => "software"
      case Ai => "ai"
      case Networking => "networking"
    }
  }

  datatype Role = User | Assistant

  /** The `web` part of a citation. */
  datatype WebSource = WebSource(uri: string, title: string)

  /** A citation attached to an answer; its `web` part may be absent. */
  datatype GroundingChunk = GroundingChunk(web: Option<WebSource>)

  /**
   * One entry of the conversation. `image` is a data URI; `groundingLinks` is
   * present on answers that came back from the model.
   */
  datatype Message = Message(
    id: string,
    role: Role,
    content: string,
    timestamp: int,
    image: Option<string>,
    groundingLinks: Option<seq<GroundingChunk>>)

  /** The progress indicator shown while a request is outstanding. */
  datatype DiagnosticState = DiagnosticState(isAnalyzing: bool, progress: int, status: string)
}
