/** The Mini App synchronisation (on_web_app_data): a decoded payload adds
    tokens to and removes tokens from the keyword list. */
module Sync {

  import opened Text
  import opened Lists
  import opened Store

  /** The decoded JSON object; a missing "add" or "remove" is the empty list. */
  datatype Payload = Payload(action: String, add: seq<String>, remove: seq<String>)

  const SyncAction: String := "sync_config"

  function Elements(s: seq<String>): set<String> {
    set x | x in s
  }

  /** The `added` list of the first loop over `add`, starting from `keywords`:
      a token is appended, and recorded, when it is not yet in the list as
      the loop has built it so far. */
  function AddedTokens(keywords: seq<String>, add: seq<String>): seq<String> {
    if add == [] then
      []
    else
      var n := |add| - 1;
      var before := AddedTokens(keywords, add[..n]);
      if add[n] in keywords + before then before else before + [add[n]]
  }

  /** The keyword list and the `removed` list after the second loop. */
  datatype Removal = Removal(rest: seq<String>, removed: seq<String>)

  /** The second loop over `remove`: a token present in the list at its turn
      loses its first occurrence and is recorded. */
  function Remove(keywords: seq<String>, remove: seq<String>): Removal {
    if remove == [] then
      Removal(keywords, [])
    else
      var n := |remove| - 1;
      var before := Remove(keywords, remove[..n]);
      var t := remove[n];
      if t in before.rest then Removal(RemoveFirst(before.rest, t), before.removed + [t]) else before
  }

  /** The whole handler on a decoded payload. A payload whose action is not
      "sync_config" is dropped silently. Only when something was added or
      removed is save_config called; `saved` is its result. */
  function SyncEffect(cfg: Config, p: Payload, saved: bool): Step {
    if p.action != SyncAction then
      Step(cfg, NoResponse)
    else
      var added := AddedTokens(cfg.keywords, p.add);
      var r := Remove(cfg.keywords + added, p.remove);
      if added == [] && r.removed == [] then
        Step(cfg, SyncNoChange)
      else
        Commit(cfg, cfg.(keywords := r.rest), saved, SyncSummary(added, r.removed), SyncSaveError)
  }

  // ---------------------------------------------------------------------
  // Properties

  /** `added` holds exactly the payload's tokens that were not already
      keywords, each once. */
  lemma {:induction false} AddedSpec(keywords: seq<String>, add: seq<String>)
    ensures forall t :: t in AddedTokens(keywords, add) <==> t in add && t !in keywords
    ensures NoDups(AddedTokens(keywords, add))
    ensures AddedTokens(keywords, add) == [] <==> forall t :: t in add ==> t in keywords
  {
    if add != [] {
      var n := |add| - 1;
      var p := add[..n];
      var t := add[n];
      AddedSpec(keywords, p);
      var before := AddedTokens(keywords, p);
      assert add == p + [t];
      assert forall x :: x in add <==> x in p || x == t;
      if t !in keywords + before {
        AppendNoDups(before, t);
      }
    }
  }

  /** The new tokens are recorded in the order of their first occurrence in `add`. */
  lemma {:induction false} AddedOrder(keywords: seq<String>, add: seq<String>)
    ensures forall t :: t in AddedTokens(keywords, add) ==> t in add
    ensures forall i, j :: 0 <= i < j < |AddedTokens(keywords, add)| ==>
      FirstIndex(add, AddedTokens(keywords, add)[i]) < FirstIndex(add, AddedTokens(keywords, add)[j])
  {
    AddedSpec(keywords, add);
    if add != [] {
      var n := |add| - 1;
      var p := add[..n];
      var t := add[n];
      AddedOrder(keywords, p);
      AddedSpec(keywords, p);
      assert add == p + [t];
      var before := AddedTokens(keywords, p);
      var a := AddedTokens(keywords, add);
      forall i, j | 0 <= i < j < |a| ensures FirstIndex(add, a[i]) < FirstIndex(add, a[j]) {
        assert a[i] == before[i] && a[i] in p;
        FirstIndexExtend(p, t, a[i]);
        if j < |before| {
          assert a[j] == before[j] && a[j] in p;
          FirstIndexExtend(p, t, a[j]);
        } else {
          assert a[j] == t && t !in p;
          FirstIndexExtend(p, t, t);
        }
      }
    }
  }

  lemma {:induction false} FirstIndexExtend(p: seq<String>, t: String, x: String)
    requires x in p + [t]
    ensures x in p ==> FirstIndex(p + [t], x) == FirstIndex(p, x)
    ensures x !in p ==> FirstIndex(p + [t], x) == |p|
  {
    if p != [] && p[0] != x {
      assert (p + [t])[1..] == p[1..] + [t];
      FirstIndexExtend(p[1..], t, x);
    }
  }

  /** The first loop keeps the keyword list free of duplicates. */
  lemma AddedKeepsNoDups(keywords: seq<String>, add: seq<String>)
    requires NoDups(keywords)
    ensures NoDups(keywords + AddedTokens(keywords, add))
  {
    AddedSpec(keywords, add);
    var a := AddedTokens(keywords, add);
    var s := keywords + a;
    forall i, j | 0 <= i < j < |s| ensures s[i] != s[j] {
      if j < |keywords| {
      } else if i >= |keywords| {
        assert s[i] == a[i - |keywords|] && s[j] == a[j - |keywords|];
      } else {
        assert s[i] in keywords && s[j] == a[j - |keywords|] && s[j] in a;
      }
    }
  }

  /** On any list, the second loop only moves tokens from the list to
      `removed`, records only tokens named in `remove`, and catches every named
      token that the list holds. */
  lemma {:induction false} RemovalCounts(keywords: seq<String>, remove: seq<String>)
    ensures multiset(Remove(keywords, remove).rest) + multiset(Remove(keywords, remove).removed) == multiset(keywords)
    ensures forall t :: t in Remove(keywords, remove).removed ==> t in remove
    ensures forall t :: t in remove && t in keywords ==> t in Remove(keywords, remove).removed
  {
    if remove != [] {
      var n := |remove| - 1;
      var p := remove[..n];
      var t := remove[n];
      RemovalCounts(keywords, p);
      var before := Remove(keywords, p);
      assert remove == p + [t];
      if t !in p && t in keywords {
        assert t !in before.removed;
        assert multiset(before.rest)[t] == multiset(keywords)[t];
      }
    }
  }

  /** On a list without duplicates, `removed` lists the removed keywords in
      the order of their first occurrence in `remove`. */
  lemma {:induction false} RemovedOrder(keywords: seq<String>, remove: seq<String>)
    requires NoDups(keywords)
    ensures forall t :: t in Remove(keywords, remove).removed ==> t in remove
    ensures forall i, j :: 0 <= i < j < |Remove(keywords, remove).removed| ==>
      FirstIndex(remove, Remove(keywords, remove).removed[i]) < FirstIndex(remove, Remove(keywords, remove).removed[j])
  {
    if remove != [] {
      var n := |remove| - 1;
      var p := remove[..n];
      var t := remove[n];
      RemovedOrder(keywords, p);
      assert remove == p + [t];
      var before := Remove(keywords, p);
      if t in before.rest {
        RestNotNamed(keywords, p);
        assert t !in p;
        FirstIndexExtend(p, t, t);
      }
      var a := Remove(keywords, remove).removed;
      forall i, j | 0 <= i < j < |a| ensures FirstIndex(remove, a[i]) < FirstIndex(remove, a[j]) {
        assert a[i] == before.removed[i] && a[i] in p;
        FirstIndexExtend(p, t, a[i]);
        if j < |before.removed| {
          assert a[j] == before.removed[j] && a[j] in p;
          FirstIndexExtend(p, t, a[j]);
        }
      }
    }
  }

  /** On a list without duplicates, no token named so far is left in the list. */
  lemma RestNotNamed(keywords: seq<String>, remove: seq<String>)
    requires NoDups(keywords)
    ensures forall t :: t in Remove(keywords, remove).rest ==> t !in remove
  {
    RemoveSpec(keywords, remove);
  }

  /** On a list without duplicates, the second loop leaves exactly the
      keywords not named in `remove`, and records each named keyword once. */
  lemma {:induction false} RemoveSpec(keywords: seq<String>, remove: seq<String>)
    requires NoDups(keywords)
    ensures Remove(keywords, remove).rest == Without(keywords, Elements(remove))
    ensures forall t :: t in Remove(keywords, remove).removed <==> t in remove && t in keywords
    ensures NoDups(Remove(keywords, remove).removed)
    ensures Remove(keywords, remove).removed == [] <==> forall t :: t in remove ==> t !in keywords
  {
    if remove == [] {
      assert Elements(remove) == {};
      WithoutAbsent(keywords, {});
    } else {
      var n := |remove| - 1;
      var p := remove[..n];
      var t := remove[n];
      RemoveSpec(keywords, p);
      var before := Remove(keywords, p);
      assert remove == p + [t];
      assert Elements(remove) == Elements(p) + {t};
      WithoutWithout(keywords, Elements(p), {t});
      WithoutNoDups(keywords, Elements(p));
      if t in before.rest {
        RemoveFirstNoDups(before.rest, t);
        assert t !in before.removed;
        AppendNoDups(before.removed, t);
      } else {
        WithoutAbsent(before.rest, {t});
      }
    }
  }

  /** When it changes anything, the synchronisation stores the old keywords
      plus the new tokens, minus every token named in `remove` (on a list
      without duplicates). */
  lemma SyncKeywords(cfg: Config, p: Payload)
    requires p.action == SyncAction && NoDups(cfg.keywords)
    ensures var st := SyncEffect(cfg, p, true);
      st.response.SyncSummary? ==>
        st.config.keywords == Without(cfg.keywords + AddedTokens(cfg.keywords, p.add), Elements(p.remove))
    ensures NoDups(SyncEffect(cfg, p, true).config.keywords)
  {
    AddedKeepsNoDups(cfg.keywords, p.add);
    var k := cfg.keywords + AddedTokens(cfg.keywords, p.add);
    RemoveSpec(k, p.remove);
    WithoutNoDups(k, Elements(p.remove));
  }

  /** On any keyword list, a successful synchronisation stores the old
      keywords plus the added tokens, less one copy of each removed token. */
  lemma SyncKeywordsCounts(cfg: Config, p: Payload)
    requires p.action == SyncAction
    ensures var st := SyncEffect(cfg, p, true);
      st.response.SyncSummary? ==>
        multiset(st.config.keywords) + multiset(st.response.removed) == multiset(cfg.keywords + st.response.added)
  {
    RemovalCounts(cfg.keywords + AddedTokens(cfg.keywords, p.add), p.remove);
  }

  /** save_config is called exactly when something was added or removed;
      otherwise the "no change" notice is sent. */
  lemma SaveAttemptedIff(cfg: Config, p: Payload, saved: bool)
    requires p.action == SyncAction
    ensures var r := SyncEffect(cfg, p, saved).response;
      (r.SyncSummary? || r.SyncSaveError?) <==>
        (AddedTokens(cfg.keywords, p.add) != [] || Remove(cfg.keywords + AddedTokens(cfg.keywords, p.add), p.remove).removed != [])
    ensures var r := SyncEffect(cfg, p, saved).response;
      r.SyncSummary? || r.SyncSaveError? || r == SyncNoChange
  {
  }

  /** The synchronisation never touches the exclusion list or the channels,
      and a failed save leaves the store as it was. */
  lemma SyncFrame(cfg: Config, p: Payload, saved: bool)
    ensures SyncEffect(cfg, p, saved).config.excludedKeywords == cfg.excludedKeywords
    ensures SyncEffect(cfg, p, saved).config.monitoredChannels == cfg.monitoredChannels
    ensures !saved ==> SyncEffect(cfg, p, saved).config == cfg
  {
  }

  /** Replaying a payload whose additions and removals are disjoint on the
      configuration it produced changes nothing and reports "no change". */
  lemma SyncReplayNoChange(cfg: Config, p: Payload, saved: bool)
    requires p.action == SyncAction && NoDups(cfg.keywords)
    requires Elements(p.add) !! Elements(p.remove)
    ensures var once := SyncEffect(cfg, p, true).config;
      SyncEffect(once, p, saved) == Step(once, SyncNoChange)
  {
    var once := SyncEffect(cfg, p, true).config;
    var added := AddedTokens(cfg.keywords, p.add);
    var k := cfg.keywords + added;
    AddedSpec(cfg.keywords, p.add);
    AddedKeepsNoDups(cfg.keywords, p.add);
    RemoveSpec(k, p.remove);
    var rest := Without(k, Elements(p.remove));
    if added == [] && Remove(k, p.remove).removed == [] {
      assert once == cfg;
      assert k == cfg.keywords;
      RemoveSpec(cfg.keywords, p.remove);
      assert forall t :: t in p.remove ==> t !in cfg.keywords;
    } else {
      assert once.keywords == rest;
      forall t | t in p.add ensures t in rest {
        assert t in k;
        assert t !in Elements(p.remove);
      }
      assert forall t :: t in p.remove ==> t !in rest;
    }
    var again := AddedTokens(once.keywords, p.add);
    AddedSpec(once.keywords, p.add);
    WithoutNoDups(k, Elements(p.remove));
    RemoveSpec(once.keywords + again, p.remove);
  }

  /** Without the duplicate-free premise the replay can change the store:
      ["A", "A"] with remove ["A"] loses one "A", and the replay loses the other. */
  lemma ReplayNeedsNoDuplicates()
    ensures var cfg := Config([], ["A", "A"], []);
      var p := Payload(SyncAction, [], ["A"]);
      var once := SyncEffect(cfg, p, true).config;
      once.keywords == ["A"] && SyncEffect(once, p, true) == Step(Config([], [], []), SyncSummary([], ["A"]))
  {
    var remove: seq<String> := ["A"];
    assert remove[..0] == [];
    assert AddedTokens(["A", "A"], []) == [];
    assert ["A", "A"] + [] == ["A", "A"];
    assert RemoveFirst(["A", "A"], "A") == ["A"] by {
      assert FirstIndex(["A", "A"], "A") == 0;
    }
    assert Remove(["A", "A"], remove) == Removal(["A"], ["A"]);
    assert AddedTokens(["A"], []) == [] && ["A"] + [] == ["A"];
    assert RemoveFirst(["A"], "A") == [] by {
      assert FirstIndex(["A"], "A") == 0;
    }
    assert Remove(["A"], remove) == Removal([], ["A"]);
  }
}
