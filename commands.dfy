/** What one text command sent to the alert bot does to the stored
    configuration, and which reply it produces. */
module Commands {

  import opened Text
  import opened Lists
  import opened Store

  /** One update from getUpdates: its id, the sender's chat id as str()
      renders it, and the message text ("" when the update has none). */
  datatype Update = Update(updateId: int, sender: String, text: String)

  /** A text that starts with '/', split into its lower-cased first word and
      its upper-cased second word ("" when there is none). */
  datatype Parsed = NotACommand | Command(verb: String, arg: String)

  function Parse(text: String): (p: Parsed)
    ensures p.NotACommand? <==> !StartsWithSlash(text)
    ensures p.Command? ==> |Words(text)| >= 1 && p.verb == Lower(Words(text)[0])
    ensures p.Command? ==> p.verb != [] && p.verb[0] == '/'
    ensures p.Command? ==> IsLowerCase(p.verb) && IsUpperCase(p.arg)
    ensures p.Command? ==> (p.arg == [] <==> |Words(text)| < 2)
    ensures p.Command? && |Words(text)| >= 2 ==> Lower(p.arg) == Lower(Words(text)[1])
  {
    if !StartsWithSlash(text) then
      NotACommand
    else
      var parts := Words(text);
      assert parts[0] == Token(text) && |Token(text)| >= 1;
      LowerOfUpper(parts[0]);
      if |parts| > 1 then
        assert parts[1] in parts;
        LowerOfUpper(parts[1]);
        Command(Lower(parts[0]), Upper(parts[1]))
      else
        Command(Lower(parts[0]), [])
  }

  /** The split a handler performs by hand agrees with Parse. */
  lemma ParseCommand(text: String)
    requires StartsWithSlash(text)
    ensures |Words(text)| >= 1
    ensures Parse(text) == Command(Lower(Words(text)[0]), if |Words(text)| > 1 then Upper(Words(text)[1]) else "")
  {
  }

  /** The verb that adds to / removes from each list. */
  function AddVerb(which: ListKind): String {
    match which
    case Keywords => "/insert"
    case Excluded => "/exclude"
  }

  function DropVerb(which: ListKind): String {
    match which
    case Keywords => "/remove"
    case Excluded => "/include"
  }

  /** /insert and /exclude: append the token if it is not yet in the list. */
  function AddTo(cfg: Config, which: ListKind, token: String, saved: bool): Step {
    var list := cfg.List(which);
    if token == [] then
      Step(cfg, Usage(AddVerb(which)))
    else if token in list then
      Step(cfg, AlreadyPresent(which, token))
    else
      Commit(cfg, cfg.WithList(which, list + [token]), saved, Added(which, token), SaveError)
  }

  /** /remove and /include: delete the token's first occurrence if it is in the list. */
  function DropFrom(cfg: Config, which: ListKind, token: String, saved: bool): Step {
    var list := cfg.List(which);
    if token == [] then
      Step(cfg, Usage(DropVerb(which)))
    else if token in list then
      Commit(cfg, cfg.WithList(which, RemoveFirst(list, token)), saved, Removed(which, token), SaveError)
    else
      Step(cfg, NotFound(which, token))
  }

  /** The verb dispatch on a freshly loaded configuration; `saved` is what
      save_config would return if it is called. */
  function Execute(cfg: Config, verb: String, arg: String, saved: bool): Step {
    if verb == AddVerb(Keywords) then AddTo(cfg, Keywords, arg, saved)
    else if verb == DropVerb(Keywords) then DropFrom(cfg, Keywords, arg, saved)
    else if verb == AddVerb(Excluded) then AddTo(cfg, Excluded, arg, saved)
    else if verb == DropVerb(Excluded) then DropFrom(cfg, Excluded, arg, saved)
    else if verb == "/list" then Step(cfg, Listing(cfg.keywords, cfg.excludedKeywords))
    else Step(cfg, NoResponse)
  }

  /** A text from the trusted sender. */
  function HandleText(cfg: Config, text: String, saved: bool): Step {
    match Parse(text)
    case NotACommand => Step(cfg, NoResponse)
    case Command(verb, arg) => Execute(cfg, verb, arg, saved)
  }

  /** One update: only the owner's chat is served. */
  function UpdateEffect(cfg: Config, owner: String, u: Update, saved: bool): Step {
    if u.sender != owner then Step(cfg, NoResponse) else HandleText(cfg, u.text, saved)
  }

  /** The ids of a batch as getUpdates returns them: strictly increasing. */
  predicate IdsIncreasing(updates: seq<Update>) {
    forall i, j :: 0 <= i < j < |updates| ==> updates[i].updateId < updates[j].updateId
  }

  lemma LastIdIsLargest(updates: seq<Update>)
    ensures IdsIncreasing(updates) ==> forall i :: 0 <= i < |updates| ==> updates[i].updateId <= updates[|updates| - 1].updateId
  {
  }

  /** The stored configuration after a batch of updates, and the replies sent
      (send_via_bot is called only for a non-empty response). */
  datatype PollResult = PollResult(config: Config, sent: seq<Response>)

  function Poll(cfg: Config, owner: String, updates: seq<Update>, saves: seq<bool>): (r: PollResult)
    requires |saves| == |updates|
    ensures NoResponse !in r.sent
    ensures |r.sent| <= |updates|
  {
    if updates == [] then
      PollResult(cfg, [])
    else
      var n := |updates| - 1;
      var before := Poll(cfg, owner, updates[..n], saves[..n]);
      var st := UpdateEffect(before.config, owner, updates[n], saves[n]);
      PollResult(st.config, before.sent + if st.response == NoResponse then [] else [st.response])
  }

  /** A batch one update longer: that update is handled on the configuration
      the shorter batch left. */
  lemma PollStep(cfg: Config, owner: String, updates: seq<Update>, saves: seq<bool>, i: nat)
    requires |saves| == |updates| && i < |updates|
    ensures var before := Poll(cfg, owner, updates[..i], saves[..i]);
      var st := UpdateEffect(before.config, owner, updates[i], saves[i]);
      Poll(cfg, owner, updates[..i + 1], saves[..i + 1])
        == PollResult(st.config, before.sent + if st.response == NoResponse then [] else [st.response])
  {
    assert updates[..i + 1][..i] == updates[..i] && saves[..i + 1][..i] == saves[..i];
  }

  // ---------------------------------------------------------------------
  // Properties of the command procedure

  /** A sender other than the owner changes nothing and gets no reply. */
  lemma UntrustedIgnored(cfg: Config, owner: String, u: Update, saved: bool)
    requires u.sender != owner
    ensures UpdateEffect(cfg, owner, u, saved) == Step(cfg, NoResponse)
  {
  }

  /** A batch made only of other senders' updates changes nothing and sends nothing. */
  lemma {:induction false} UntrustedBatchIgnored(cfg: Config, owner: String, updates: seq<Update>, saves: seq<bool>)
    requires |saves| == |updates|
    requires forall i :: 0 <= i < |updates| ==> updates[i].sender != owner
    ensures Poll(cfg, owner, updates, saves) == PollResult(cfg, [])
  {
    if updates != [] {
      var n := |updates| - 1;
      UntrustedBatchIgnored(cfg, owner, updates[..n], saves[..n]);
    }
  }

  /** Text that does not start with '/' is not a command. */
  lemma NonCommandIgnored(cfg: Config, text: String, saved: bool)
    requires !StartsWithSlash(text)
    ensures HandleText(cfg, text, saved) == Step(cfg, NoResponse)
  {
  }

  /** An unknown verb changes nothing and gets no reply. */
  lemma UnknownVerbIgnored(cfg: Config, verb: String, arg: String, saved: bool)
    requires verb !in {"/insert", "/remove", "/exclude", "/include", "/list"}
    ensures Execute(cfg, verb, arg, saved) == Step(cfg, NoResponse)
  {
  }

  /** A mutating verb without argument only gets the usage hint. */
  lemma MissingArgumentUsage(cfg: Config, verb: String, saved: bool)
    requires verb in {"/insert", "/remove", "/exclude", "/include"}
    ensures Execute(cfg, verb, [], saved) == Step(cfg, Usage(verb))
  {
  }

  /** Verb and argument are case-normalised: texts that agree up to letter
      case are the same command. */
  lemma ParseIgnoresCase(text: String)
    ensures Parse(Upper(text)) == Parse(text)
  {
    WordsOfUpper(text);
    var ws := Words(text);
    assert |Upper(text)| == |text|;
    if StartsWithSlash(text) {
      UpperEachAt(ws, 0);
      LowerOfUpper(ws[0]);
      if |ws| > 1 {
        UpperEachAt(ws, 1);
        UpperOfCase(ws[1]);
      }
    }
  }

  lemma {:induction false} UpperEachAt(ws: seq<String>, k: nat)
    requires k < |ws|
    ensures |UpperEach(ws)| == |ws| && UpperEach(ws)[k] == Upper(ws[k])
  {
    if k > 0 {
      UpperEachAt(ws[1..], k - 1);
    } else {
      UpperEachLength(ws);
    }
  }

  lemma {:induction false} UpperEachLength(ws: seq<String>)
    ensures |UpperEach(ws)| == |ws|
  {
    if ws != [] {
      UpperEachLength(ws[1..]);
    }
  }

  /** Adding an absent token appends it at the end of its list; the other
      list and the channels stay as they were. */
  lemma AddAppends(cfg: Config, which: ListKind, token: String)
    requires token != [] && token !in cfg.List(which)
    ensures var st := Execute(cfg, AddVerb(which), token, true);
      && st.response == Added(which, token)
      && st.config.List(which) == cfg.List(which) + [token]
      && st.config.List(Other(which)) == cfg.List(Other(which))
      && st.config.monitoredChannels == cfg.monitoredChannels
  {
  }

  /** Adding a token already present changes nothing. */
  lemma AddPresent(cfg: Config, which: ListKind, token: String, saved: bool)
    requires token != [] && token in cfg.List(which)
    ensures Execute(cfg, AddVerb(which), token, saved) == Step(cfg, AlreadyPresent(which, token))
  {
  }

  /** Adding is idempotent: repeating a command that was saved changes nothing more. */
  lemma AddIdempotent(cfg: Config, which: ListKind, token: String, saved: bool)
    requires token != []
    ensures var once := Execute(cfg, AddVerb(which), token, true).config;
      Execute(once, AddVerb(which), token, saved) == Step(once, AlreadyPresent(which, token))
  {
  }

  /** Removing a present token deletes its first occurrence; when the list has
      no duplicates the token is then gone. */
  lemma DropDeletes(cfg: Config, which: ListKind, token: String)
    requires token in cfg.List(which) && token != []
    ensures var st := Execute(cfg, DropVerb(which), token, true);
      && st.response == Removed(which, token)
      && st.config.List(which) == RemoveFirst(cfg.List(which), token)
      && st.config.List(Other(which)) == cfg.List(Other(which))
      && st.config.monitoredChannels == cfg.monitoredChannels
      && (NoDups(cfg.List(which)) ==> token !in st.config.List(which))
  {
    if NoDups(cfg.List(which)) {
      RemoveFirstNoDups(cfg.List(which), token);
    }
  }

  /** Removing an absent token changes nothing. */
  lemma DropAbsent(cfg: Config, which: ListKind, token: String, saved: bool)
    requires token != [] && token !in cfg.List(which)
    ensures Execute(cfg, DropVerb(which), token, saved) == Step(cfg, NotFound(which, token))
  {
  }

  /** /list reports both lists and never mutates. */
  lemma ListReadsOnly(cfg: Config, arg: String, saved: bool)
    ensures Execute(cfg, "/list", arg, saved) == Step(cfg, Listing(cfg.keywords, cfg.excludedKeywords))
  {
  }

  /** A failed save leaves the store as it was; and the reply is SaveError
      exactly when the same command, saved, would have changed the store. */
  lemma SaveFailureKeepsStore(cfg: Config, text: String)
    ensures HandleText(cfg, text, false).config == cfg
    ensures HandleText(cfg, text, false).response == SaveError <==> HandleText(cfg, text, true).config != cfg
  {
    match Parse(text)
    case NotACommand =>
    case Command(verb, arg) => ExecuteSaveFailure(cfg, verb, arg);
  }

  lemma ExecuteSaveFailure(cfg: Config, verb: String, arg: String)
    ensures Execute(cfg, verb, arg, false).config == cfg
    ensures Execute(cfg, verb, arg, false).response == SaveError <==> Execute(cfg, verb, arg, true).config != cfg
  {
    if verb == AddVerb(Keywords) {
      AddSaveFailure(cfg, Keywords, arg);
    } else if verb == DropVerb(Keywords) {
      DropSaveFailure(cfg, Keywords, arg);
    } else if verb == AddVerb(Excluded) {
      AddSaveFailure(cfg, Excluded, arg);
    } else if verb == DropVerb(Excluded) {
      DropSaveFailure(cfg, Excluded, arg);
    }
  }

  lemma AddSaveFailure(cfg: Config, which: ListKind, token: String)
    ensures AddTo(cfg, which, token, false).config == cfg
    ensures AddTo(cfg, which, token, false).response == SaveError <==> AddTo(cfg, which, token, true).config != cfg
  {
    var after := AddTo(cfg, which, token, true).config;
    if token != [] && token !in cfg.List(which) {
      assert |after.List(which)| != |cfg.List(which)|;
    }
  }

  lemma DropSaveFailure(cfg: Config, which: ListKind, token: String)
    ensures DropFrom(cfg, which, token, false).config == cfg
    ensures DropFrom(cfg, which, token, false).response == SaveError <==> DropFrom(cfg, which, token, true).config != cfg
  {
    var after := DropFrom(cfg, which, token, true).config;
    if token != [] && token in cfg.List(which) {
      assert |after.List(which)| != |cfg.List(which)|;
    }
  }

  /** Every command keeps both lists free of duplicates. */
  lemma HandleKeepsNoDuplicates(cfg: Config, text: String, saved: bool)
    requires cfg.NoDuplicates()
    ensures HandleText(cfg, text, saved).config.NoDuplicates()
  {
    match Parse(text)
    case NotACommand =>
    case Command(verb, arg) =>
      if verb == AddVerb(Keywords) || verb == AddVerb(Excluded) {
        AddKeepsNoDuplicates(cfg, if verb == AddVerb(Keywords) then Keywords else Excluded, arg, saved);
      } else if verb == DropVerb(Keywords) || verb == DropVerb(Excluded) {
        DropKeepsNoDuplicates(cfg, if verb == DropVerb(Keywords) then Keywords else Excluded, arg, saved);
      }
  }

  lemma AddKeepsNoDuplicates(cfg: Config, which: ListKind, token: String, saved: bool)
    requires cfg.NoDuplicates()
    ensures AddTo(cfg, which, token, saved).config.NoDuplicates()
  {
    if token !in cfg.List(which) {
      AppendNoDups(cfg.List(which), token);
      var after := cfg.WithList(which, cfg.List(which) + [token]);
      assert after.List(Other(which)) == cfg.List(Other(which));
      assert after.NoDuplicates() by {
        match which
        case Keywords =>
        case Excluded =>
      }
    }
  }

  lemma DropKeepsNoDuplicates(cfg: Config, which: ListKind, token: String, saved: bool)
    requires cfg.NoDuplicates()
    ensures DropFrom(cfg, which, token, saved).config.NoDuplicates()
  {
    if token in cfg.List(which) {
      RemoveFirstNoDups(cfg.List(which), token);
      var after := cfg.WithList(which, RemoveFirst(cfg.List(which), token));
      assert after.NoDuplicates() by {
        match which
        case Keywords =>
        case Excluded =>
      }
    }
  }

  /** So does every batch of updates. */
  lemma {:induction false} PollKeepsNoDuplicates(cfg: Config, owner: String, updates: seq<Update>, saves: seq<bool>)
    requires |saves| == |updates|
    requires cfg.NoDuplicates()
    ensures Poll(cfg, owner, updates, saves).config.NoDuplicates()
  {
    if updates != [] {
      var n := |updates| - 1;
      PollKeepsNoDuplicates(cfg, owner, updates[..n], saves[..n]);
      var before := Poll(cfg, owner, updates[..n], saves[..n]);
      if updates[n].sender == owner {
        HandleKeepsNoDuplicates(before.config, updates[n].text, saves[n]);
      }
    }
  }

  /** "/insert eth" on keywords ["BTC"] stores ["BTC", "ETH"] and confirms. */
  lemma ScenarioInsert(text: String)
    requires text == "/insert eth"
    ensures HandleText(Config([], ["BTC"], []), text, true)
      == Step(Config([], ["BTC", "ETH"], []), Added(Keywords, "ETH"))
  {
    ParseLiteral(text, "/insert", "eth", "ETH");
    var cfg := Config([], ["BTC"], []);
    assert HandleText(cfg, text, true) == AddTo(cfg, Keywords, "ETH", true);
    assert "ETH" !in cfg.keywords by {
      assert "ETH"[0] != "BTC"[0];
    }
    assert cfg.keywords + ["ETH"] == ["BTC", "ETH"];
  }

  /** "/remove xrp" on keywords ["BTC"] changes nothing and reports "not found". */
  lemma ScenarioRemoveMissing(text: String)
    requires text == "/remove xrp"
    ensures HandleText(Config([], ["BTC"], []), text, true)
      == Step(Config([], ["BTC"], []), NotFound(Keywords, "XRP"))
  {
    ParseLiteral(text, "/remove", "xrp", "XRP");
    var cfg := Config([], ["BTC"], []);
    assert HandleText(cfg, text, true) == DropFrom(cfg, Keywords, "XRP", true);
    assert "XRP" !in cfg.keywords by {
      assert "XRP"[0] != "BTC"[0];
    }
  }

  /** A seven-letter verb, a space and a three-letter word. */
  lemma ParseLiteral(s: String, verb: String, arg: String, upper: String)
    requires |verb| == 7 && |arg| == 3 && s == verb + " " + arg
    requires IsWord(verb) && IsWord(arg) && IsLowerCase(verb) && verb[0] == '/'
    requires upper == [UpperChar(arg[0]), UpperChar(arg[1]), UpperChar(arg[2])]
    ensures Parse(s) == Command(verb, upper)
  {
    ParseTwoWords(s, verb, arg);
    UpperAt(arg);
  }

  /** A command text made of a lower-case verb, one space and a word. */
  lemma ParseTwoWords(s: String, verb: String, arg: String)
    requires IsWord(verb) && IsWord(arg) && IsLowerCase(verb) && verb[0] == '/'
    requires s == verb + " " + arg
    ensures Parse(s) == Command(verb, Upper(arg))
  {
    TwoWords(s, verb, arg);
    LowerOfLowerCase(verb);
  }

  /** A word, one space and a word split into those two words. */
  lemma TwoWords(s: String, first: String, second: String)
    requires s == first + " " + second && IsWord(first) && IsWord(second)
    ensures Words(s) == [first, second]
  {
    var rest := " " + second;
    assert s == first + rest && rest[1..] == second;
    WordsLead(s, first, rest);
    WordsSingle(second);
  }

  /** A word followed by a separator comes first. */
  lemma WordsLead(s: String, first: String, rest: String)
    requires s == first + rest && IsWord(first) && rest != [] && IsSpace(rest[0])
    ensures Words(s) == [first] + Words(rest[1..])
  {
    var n := |first|;
    assert s[..n] == first && s[n..] == rest;
    WordsFrom(s, n);
    WordsSkipSpace(rest);
  }

  /** A single word is its own split. */
  lemma WordsSingle(w: String)
    requires IsWord(w)
    ensures Words(w) == [w]
  {
    assert w[..|w|] == w && w[|w|..] == [];
    WordsFrom(w, |w|);
  }

  /** When `s` starts with a word of length `n`, that word comes first. */
  lemma WordsFrom(s: String, n: nat)
    requires 0 < n <= |s|
    requires forall i :: 0 <= i < n ==> !IsSpace(s[i])
    requires n == |s| || IsSpace(s[n])
    ensures Words(s) == [s[..n]] + Words(s[n..])
  {
    TokenIs(s, n);
    assert TrimStart(s) == s;
  }

  /** A leading separator does not change the words. */
  lemma WordsSkipSpace(s: String)
    requires s != [] && IsSpace(s[0])
    ensures Words(s) == Words(s[1..])
  {
    assert TrimStart(s) == TrimStart(s[1..]);
  }

  lemma LowerOfLowerCase(s: String)
    requires IsLowerCase(s)
    ensures Lower(s) == s
  {
  }

  lemma UpperAt(s: String)
    requires |s| == 3
    ensures Upper(s) == [UpperChar(s[0]), UpperChar(s[1]), UpperChar(s[2])]
  {
  }

  /** The first word of `s` ends at the first separator. */
  lemma {:induction false} TokenIs(s: String, n: nat)
    requires n <= |s|
    requires forall i :: 0 <= i < n ==> !IsSpace(s[i])
    requires n == |s| || IsSpace(s[n])
    ensures Token(s) == s[..n]
  {
    if n > 0 {
      TokenIs(s[1..], n - 1);
      assert s[..n] == [s[0]] + s[1..][..n - 1];
    }
  }
}
