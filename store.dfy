/** The persisted configuration and the replies the bot sends. */
module Store {

  import opened Text
  import opened Lists

  /** The contents of monitor_config.json. */
  datatype Config = Config(
    monitoredChannels: seq<String>,
    keywords: seq<String>,
    excludedKeywords: seq<String>)
  {
    /** The list a command edits. */
    function List(which: ListKind): seq<String> {
      match which
      case Keywords => keywords
      case Excluded => excludedKeywords
    }

    /** This configuration with one list replaced. */
    function WithList(which: ListKind, s: seq<String>): (c: Config)
      ensures c.List(which) == s
      ensures c.List(Other(which)) == List(Other(which))
      ensures c.monitoredChannels == monitoredChannels
    {
      match which
      case Keywords => this.(keywords := s)
      case Excluded => this.(excludedKeywords := s)
    }

    /** Neither list holds a token twice. */
    predicate NoDuplicates() {
      NoDups(keywords) && NoDups(excludedKeywords)
    }
  }

  datatype ListKind = Keywords | Excluded

  function Other(which: ListKind): ListKind {
    match which
    case Keywords => Excluded
    case Excluded => Keywords
  }

  /** The text sent through the bot, by kind; NoResponse means nothing is sent.
      Added/AlreadyPresent/Removed/NotFound name the list and the token;
      Usage names the verb; Listing carries both lists as they were loaded;
      the three Sync* replies come from the Mini App synchronisation. */
  datatype Response =
    | NoResponse
    | Added(which: ListKind, token: String)
    | AlreadyPresent(which: ListKind, token: String)
    | Removed(which: ListKind, token: String)
    | NotFound(which: ListKind, token: String)
    | Usage(verb: String)
    | SaveError
    | Listing(keywords: seq<String>, excluded: seq<String>)
    | SyncSummary(added: seq<String>, removed: seq<String>)
    | SyncSaveError
    | SyncNoChange

  /** The stored configuration after one step, and the reply sent. */
  datatype Step = Step(config: Config, response: Response)

  /** save_config after a mutation: when the write succeeds the edited
      configuration is what is stored and `ok` is the reply; when it fails the
      edited copy is dropped, so the store keeps `before`. */
  function Commit(before: Config, after: Config, saved: bool, ok: Response, failed: Response): Step {
    if saved then Step(after, ok) else Step(before, failed)
  }
}
