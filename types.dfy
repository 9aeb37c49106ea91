/** Record shapes of the note store: folders, notes, AI messages and the
    user configuration (src/types/index.ts), plus the provider enumeration
    the store and the AI panel use. */
module Types {

  datatype Option<T> = None | Some(value: T)

  /** JavaScript truthiness of a `string | null` value: null and the empty
      string are both falsy. */
  predicate Truthy(o: Option<string>)
  {
    o.Some? && o.value != ""
  }

  /** `AIMessage.role`: only the two roles that are stored in a thread. */
  datatype Role = User | Assistant

  /** `Config.theme`. */
  datatype Theme = Light | Dark | SystemTheme

  /** `Config.aiProvider`: the three interchangeable AI backends. */
  datatype Provider = MiniMax | Kimi | Glm

  datatype AIMessage = AIMessage(id: string, role: Role, content: string, timestamp: int)

  /** A folder; `parentId == None` marks a root folder. */
  datatype Folder = Folder(
    id: string,
    name: string,
    parentId: Option<string>,
    isExpanded: bool,
    createdAt: int,
    updatedAt: int)

  /** A note; it always names exactly one folder and owns its AI thread. */
  datatype Note = Note(
    id: string,
    title: string,
    content: string,
    folderId: string,
    isFavorite: bool,
    tags: seq<string>,
    aiMessages: seq<AIMessage>,
    createdAt: int,
    updatedAt: int)

  /** The settings. `aiProvider` is not in the declared `Config` type; it
      comes from the store's default configuration. */
  datatype Config = Config(
    theme: Theme,
    fontSize: int,
    autoSaveInterval: int,
    aiProvider: Provider,
    aiApiKey: string)

  /** The string literal that encodes a role in the persisted JSON. */
  function RoleName(r: Role): (s: string)
    ensures s == "user" || s == "assistant"
  {
    match r
    case User => "user"
    case Assistant => "assistant"
  }

  /** Reads a role back; every other string, `"system"` included, is not a role. */
  function ParseRole(s: string): (r: Option<Role>)
    ensures r.Some? <==> s == "user" || s == "assistant"
  {
    if s == "user" then Some(User)
    else if s == "assistant" then Some(Assistant)
    else None
  }

  lemma RoleRoundTrip(r: Role)
    ensures ParseRole(RoleName(r)) == Some(r)
  {
  }

  function ThemeName(t: Theme): (s: string)
    ensures s == "light" || s == "dark" || s == "system"
  {
    match t
    case Light => "light"
    case Dark => "dark"
    case SystemTheme => "system"
  }

  function ParseTheme(s: string): (t: Option<Theme>)
    ensures t.Some? <==> s == "light" || s == "dark" || s == "system"
  {
    if s == "light" then Some(Light)
    else if s == "dark" then Some(Dark)
    else if s == "system" then Some(SystemTheme)
    else None
  }

  lemma ThemeRoundTrip(t: Theme)
    ensures ParseTheme(ThemeName(t)) == Some(t)
  {
  }

  function ProviderName(p: Provider): (s: string)
    ensures s == "minimax" || s == "kimi" || s == "glm"
  {
    match p
    case MiniMax => "minimax"
    case Kimi => "kimi"
    case Glm => "glm"
  }

  function ParseProvider(s: string): (p: Option<Provider>)
    ensures p.Some? <==> s == "minimax" || s == "kimi" || s == "glm"
  {
    if s == "minimax" then Some(MiniMax)
    else if s == "kimi" then Some(Kimi)
    else if s == "glm" then Some(Glm)
    else None
  }

  lemma ProviderRoundTrip(p: Provider)
    ensures ParseProvider(ProviderName(p)) == Some(p)
  {
  }
}
