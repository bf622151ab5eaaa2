/**
 * The data model of the chat shell (src/types/index.ts).
 *
 * TypeScript string-literal unions become enumerations; each one has a
 * `…Name` function giving the string the source stores and a `Parse…`
 * function accepting exactly those strings, so "the role is exactly one of
 * 'user' or 'assistant'" is a statement about Parse/Name.
 * Optional properties (`x?: T`) become `Option<T>`; `Date` becomes a
 * millisecond timestamp.
 */
module Types {

  datatype Option<+T> = None | Some(value: T)

  /** Milliseconds since the epoch, as a JavaScript `Date` holds them. */
  type Timestamp = int

  datatype User = User(id: string, name: string, avatar: Option<string>, email: Option<string>)

  datatype Role = UserRole | AssistantRole

  datatype ChatMode = Aptitude | Coding | Document | Quiz | Custom

  datatype SourceType = DocumentSource | WebSource | CodeSource

  datatype UploadStatus = Uploading | Processing | Ready | Error

  datatype Source = Source(
    id: string,
    title: string,
    url: Option<string>,
    sourceType: SourceType,
    snippet: Option<string>)

  datatype CodeBlock = CodeBlock(
    id: string,
    language: string,
    code: string,
    isRunnable: Option<bool>,
    output: Option<string>,
    error: Option<string>)

  datatype Message = Message(
    id: string,
    role: Role,
    content: string,
    timestamp: Timestamp,
    sources: Option<seq<Source>>,
    codeBlocks: Option<seq<CodeBlock>>,
    isStreaming: Option<bool>)

  /** A conversation: its messages in display order and a single mode. */
  datatype Chat = Chat(
    id: string,
    title: string,
    mode: ChatMode,
    createdAt: Timestamp,
    updatedAt: Timestamp,
    messages: seq<Message>)

  datatype ModeConfig = ModeConfig(
    id: ChatMode,
    name: string,
    description: string,
    icon: string,
    systemPrompt: string,
    features: seq<string>)

  datatype FileUpload = FileUpload(
    id: string,
    name: string,
    size: int,
    mimeType: string,
    status: UploadStatus,
    progress: real,
    error: Option<string>)

  /** A workspace owns an ordered list of chats and a list of uploads. */
  datatype Workspace = Workspace(
    id: string,
    name: string,
    description: Option<string>,
    chats: seq<Chat>,
    files: seq<FileUpload>,
    createdAt: Timestamp)

  // ---------------------------------------------------------------------
  // The string literals behind each union type

  function RoleName(r: Role): string
  {
    match r
    case UserRole => "user"
    case AssistantRole => "assistant"
  }

  /** Accepts exactly the two strings `Message.role` may hold. */
  function ParseRole(s: string): (r: Option<Role>)
    ensures r.Some? <==> s == "user" || s == "assistant"
    ensures r.Some? ==> RoleName(r.value) == s
  {
    if s == "user" then Some(UserRole)
    else if s == "assistant" then Some(AssistantRole)
    else None
  }

  function ModeName(m: ChatMode): string
  {
    match m
    case Aptitude => "aptitude"
    case Coding => "coding"
    case Document => "document"
    case Quiz => "quiz"
    case Custom => "custom"
  }

  /** Accepts exactly the five strings of the `ChatMode` union. */
  function ParseMode(s: string): (r: Option<ChatMode>)
    ensures r.Some? <==> s in {"aptitude", "coding", "document", "quiz", "custom"}
    ensures r.Some? ==> ModeName(r.value) == s
  {
    if s == "aptitude" then Some(Aptitude)
    else if s == "coding" then Some(Coding)
    else if s == "document" then Some(Document)
    else if s == "quiz" then Some(Quiz)
    else if s == "custom" then Some(Custom)
    else None
  }

  /** The five modes, each listed once. */
  function AllModes(): (r: seq<ChatMode>)
    ensures |r| == 5
    ensures forall i, j :: 0 <= i < j < |r| ==> r[i] != r[j]
  {
    [Aptitude, Coding, Document, Quiz, Custom]
  }

  /** `ChatMode` has no value besides the five of `AllModes`. */
  lemma AllModesComplete(m: ChatMode)
    ensures m in AllModes()
  {
    var r := AllModes();
    match m
    case Aptitude => assert r[0] == m;
    case Coding => assert r[1] == m;
    case Document => assert r[2] == m;
    case Quiz => assert r[3] == m;
    case Custom => assert r[4] == m;
  }

  function SourceTypeName(t: SourceType): string
  {
    match t
    case DocumentSource => "document"
    case WebSource => "web"
    case CodeSource => "code"
  }

  function ParseSourceType(s: string): (r: Option<SourceType>)
    ensures r.Some? <==> s in {"document", "web", "code"}
    ensures r.Some? ==> SourceTypeName(r.value) == s
  {
    if s == "document" then Some(DocumentSource)
    else if s == "web" then Some(WebSource)
    else if s == "code" then Some(CodeSource)
    else None
  }

  function UploadStatusName(u: UploadStatus): string
  {
    match u
    case Uploading => "uploading"
    case Processing => "processing"
    case Ready => "ready"
    case Error => "error"
  }

  function ParseUploadStatus(s: string): (r: Option<UploadStatus>)
    ensures r.Some? <==> s in {"uploading", "processing", "ready", "error"}
    ensures r.Some? ==> UploadStatusName(r.value) == s
  {
    if s == "uploading" then Some(Uploading)
    else if s == "processing" then Some(Processing)
    else if s == "ready" then Some(Ready)
    else if s == "error" then Some(Error)
    else None
  }

  /** Every union value survives the trip through its string. */
  lemma NamesRoundTrip(r: Role, m: ChatMode, t: SourceType, u: UploadStatus)
    ensures ParseRole(RoleName(r)) == Some(r)
    ensures ParseMode(ModeName(m)) == Some(m)
    ensures ParseSourceType(SourceTypeName(t)) == Some(t)
    ensures ParseUploadStatus(UploadStatusName(u)) == Some(u)
  {
  }
}
