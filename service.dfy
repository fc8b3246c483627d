/** The running monitor: the stored configuration shared by the command
    poller, the channel-message handler and the Mini App handler, and the
    poller's update cursor. Each handler reads the store afresh. */
module Service {

  import opened Text
  import opened Lists
  import opened Store
  import opened Matching
  import opened Commands
  import opened Sync

  /** Where an alert went: through the alert bot, or, when sending through it
      failed, to the account's own saved messages. */
  datatype Delivery = NotSent | ViaBot(text: String) | ViaSession(text: String)

  class Monitor {
    /** str(MY_TELEGRAM_ID): the only chat whose commands are served. */
    const owner: String
    /** The contents of the configuration file. */
    var config: Config
    /** last_update_id of the command poller. */
    var lastUpdateId: int

    constructor (owner: String, stored: Config)
      ensures this.owner == owner && config == stored && lastUpdateId == 0
    {
      this.owner := owner;
      config := stored;
      lastUpdateId := 0;
    }

    /** The offset the next getUpdates call asks for. */
    function PollOffset(): int
      reads this
    {
      lastUpdateId + 1
    }

    /** save_config: the write succeeds exactly when `saved`; a failed write
        leaves the file as it was. */
    method Save(cfg: Config, saved: bool) returns (ok: bool)
      modifies this`config
      ensures ok == saved
      ensures config == if saved then cfg else old(config)
    {
      ok := saved;
      if ok {
        config := cfg;
      }
    }

    /** The body shared by /insert and /exclude on a freshly loaded configuration. */
    method AddCommand(which: ListKind, token: String, saved: bool) returns (response: Response)
      modifies this`config
      ensures Step(config, response) == AddTo(old(config), which, token, saved)
    {
      var cfg := config;
      if token != "" {
        if token !in cfg.List(which) {
          cfg := cfg.WithList(which, cfg.List(which) + [token]);
          var ok := Save(cfg, saved);
          response := if ok then Added(which, token) else SaveError;
        } else {
          response := AlreadyPresent(which, token);
        }
      } else {
        response := Usage(AddVerb(which));
      }
    }

    /** The body shared by /remove and /include on a freshly loaded configuration. */
    method DropCommand(which: ListKind, token: String, saved: bool) returns (response: Response)
      modifies this`config
      ensures Step(config, response) == DropFrom(old(config), which, token, saved)
    {
      var cfg := config;
      if token != "" {
        if token in cfg.List(which) {
          cfg := cfg.WithList(which, RemoveFirst(cfg.List(which), token));
          var ok := Save(cfg, saved);
          response := if ok then Removed(which, token) else SaveError;
        } else {
          response := NotFound(which, token);
        }
      } else {
        response := Usage(DropVerb(which));
      }
    }

    /** One iteration of the `for update in updates` loop of the poller. */
    method ProcessUpdate(u: Update, saved: bool) returns (response: Response)
      modifies this`config, this`lastUpdateId
      ensures lastUpdateId == u.updateId
      ensures Step(config, response) == UpdateEffect(old(config), owner, u, saved)
    {
      lastUpdateId := u.updateId;
      response := NoResponse;
      if u.sender != owner {
        return;
      }
      if !StartsWithSlash(u.text) {
        return;
      }
      ParseCommand(u.text);
      var parts := Words(u.text);
      var cmd := Lower(parts[0]);
      var arg := if |parts| > 1 then Upper(parts[1]) else "";
      assert Parse(u.text) == Command(cmd, arg);
      assert UpdateEffect(config, owner, u, saved) == Execute(config, cmd, arg, saved);
      if cmd == "/insert" {
        response := AddCommand(Keywords, arg, saved);
      } else if cmd == "/remove" {
        response := DropCommand(Keywords, arg, saved);
      } else if cmd == "/exclude" {
        response := AddCommand(Excluded, arg, saved);
      } else if cmd == "/include" {
        response := DropCommand(Excluded, arg, saved);
      } else if cmd == "/list" {
        response := Listing(config.keywords, config.excludedKeywords);
      }
    }

    /** One successful getUpdates call: every update in order, `saves[i]`
        being what save_config returns while update i is processed; the
        non-empty replies are what send_via_bot is called with. */
    method PollBatch(updates: seq<Update>, saves: seq<bool>) returns (sent: seq<Response>)
      requires |saves| == |updates|
      modifies this`config, this`lastUpdateId
      ensures PollResult(config, sent) == Poll(old(config), owner, updates, saves)
      ensures lastUpdateId == if updates == [] then old(lastUpdateId) else updates[|updates| - 1].updateId
      ensures IdsIncreasing(updates) ==> forall i :: 0 <= i < |updates| ==> updates[i].updateId < PollOffset()
    {
      sent := [];
      for i := 0 to |updates|
        invariant PollResult(config, sent) == Poll(old(config), owner, updates[..i], saves[..i])
        invariant lastUpdateId == if i == 0 then old(lastUpdateId) else updates[i - 1].updateId
      {
        PollStep(old(config), owner, updates, saves, i);
        var response := ProcessUpdate(updates[i], saves[i]);
        if response != NoResponse {
          sent := sent + [response];
        }
      }
      assert updates[..|updates|] == updates && saves[..|saves|] == saves;
      LastIdIsLargest(updates);
    }

    /** on_web_app_data on an already decoded payload. */
    method OnWebAppData(p: Payload, saved: bool) returns (response: Response)
      modifies this`config
      ensures Step(config, response) == SyncEffect(old(config), p, saved)
    {
      var cfg := config;
      response := NoResponse;
      if p.action != SyncAction {
        return;
      }
      var added: seq<String> := [];
      for i := 0 to |p.add|
        invariant cfg == old(config).(keywords := old(config).keywords + added)
        invariant added == AddedTokens(old(config).keywords, p.add[..i])
      {
        assert p.add[..i + 1][..i] == p.add[..i];
        var t := p.add[i];
        if t !in cfg.keywords {
          cfg := cfg.(keywords := cfg.keywords + [t]);
          added := added + [t];
        }
      }
      assert p.add[..|p.add|] == p.add;
      ghost var grown := cfg.keywords;
      var removed: seq<String> := [];
      for i := 0 to |p.remove|
        invariant cfg == old(config).(keywords := cfg.keywords)
        invariant Removal(cfg.keywords, removed) == Remove(grown, p.remove[..i])
      {
        assert p.remove[..i + 1][..i] == p.remove[..i];
        var t := p.remove[i];
        if t in cfg.keywords {
          cfg := cfg.(keywords := RemoveFirst(cfg.keywords, t));
          removed := removed + [t];
        }
      }
      assert p.remove[..|p.remove|] == p.remove;
      if added != [] || removed != [] {
        var ok := Save(cfg, saved);
        response := if ok then SyncSummary(added, removed) else SyncSaveError;
      } else {
        response := SyncNoChange;
      }
    }

    /** The channel-message handler: decide on a fresh read of the store and,
        on an alert, forward the whole text through the bot, or through the
        session when the bot reports failure (`botDelivered` is what
        send_via_bot returns). */
    method OnChannelMessage(text: String, botDelivered: bool) returns (d: Decision, delivery: Delivery)
      ensures d == Decide(text, config)
      ensures delivery != NotSent <==> d.Alert?
      ensures delivery == ViaSession(text) <==> d.Alert? && !botDelivered
      ensures delivery == ViaBot(text) <==> d.Alert? && botDelivered
    {
      delivery := NotSent;
      if text == [] {
        d := Skipped;
        return;
      }
      var current := config;
      var matched := Matched(text, current.keywords);
      if matched == [] {
        d := NoMatch;
      } else if AnyHit(text, current.excludedKeywords) {
        d := Suppressed(matched);
      } else {
        d := Alert(matched);
        delivery := if botDelivered then ViaBot(text) else ViaSession(text);
      }
    }
  }

  /** A client run: a saved /insert from the owner is seen by the next
      channel message.
      `command` is any text that parses as /insert ETH, such as "/insert eth"
      (Commands.ScenarioInsert), and `message` any text containing "eth" in
      any letter case. */
  method InsertThenAlert(command: String, message: String)
    requires Parse(command) == Command("/insert", "ETH") && message != [] && Hits(message, "ETH")
  {
    var start := Config([], ["BTC"], []);
    var m := new Monitor("42", start);
    assert UpdateEffect(start, "42", Update(7, "42", command), true) == AddTo(start, Keywords, "ETH", true);
    assert "ETH" !in start.keywords by {
      assert "ETH"[0] != "BTC"[0];
    }
    assert start.keywords + ["ETH"] == ["BTC", "ETH"];
    var r := m.ProcessUpdate(Update(7, "42", command), true);
    assert r == Added(Keywords, "ETH") && m.config == Config([], ["BTC", "ETH"], []);
    assert m.PollOffset() == 8;
    assert "ETH" in Matched(message, m.config.keywords);
    var d, delivery := m.OnChannelMessage(message, false);
    assert d.Alert? && "ETH" in d.matched && delivery == ViaSession(message);
  }
}
