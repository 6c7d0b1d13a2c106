/**
 The joined-provider registry (web/settings.py) over the task tables of web/store.py.

 Each `mutate` closure runs inside one transaction together with the unfinished-task query,
 so it is a function of the tables. The registry is sound when the default provider and the
 provider of every unfinished task are joined, and ids and case-folded names are unique.
 */
module Providers {
  import opened Wrappers
  import opened TaskStore
  import Text

  const BUILT_IN := map[
    "openai" := "OpenAI", "anthropic" := "Anthropic", "google" := "Google Gemini", "xai" := "xAI",
    "deepseek" := "Deepseek", "qwen" := "Qwen", "qwen-cn" := "Qwen China", "glm" := "Glm",
    "glm-cn" := "GLM China", "minimax" := "Minimax", "minimax-cn" := "MiniMax China",
    "ollama" := "Ollama", "mistral" := "Mistral", "kimi" := "Kimi", "groq" := "Groq",
    "nvidia" := "NVIDIA NIM", "bedrock" := "Amazon Bedrock"]

  function BuiltIn(id: string): Provider
    requires id in BUILT_IN
  {
    Provider(id, BUILT_IN[id], false, None)
  }

  predicate Listed(ps: seq<Provider>, id: string) {
    exists i :: 0 <= i < |ps| && ps[i].id == id
  }

  predicate NameTaken(ps: seq<Provider>, name: string, excluding: string) {
    exists i :: 0 <= i < |ps| && ps[i].id != excluding && Text.Lower(ps[i].name) == Text.Lower(name)
  }

  /** `_provider_name`: the stripped name, when nonempty, short and not in use. */
  function CheckedName(name: string, ps: seq<Provider>, excluding: string): Result<string> {
    var stripped := Text.Strip(name);
    if stripped == "" || |stripped| > 64 then Err("provider name must be nonempty and at most 64 characters")
    else if NameTaken(ps, stripped, excluding) then Err("provider name is already joined")
    else Ok(stripped)
  }

  function WithKey(keys: map<string, string>, id: string, key: Option<string>): map<string, string> {
    if key.Some? && Text.Strip(key.value) != "" then keys[id := key.value] else keys
  }

  function Default(s: Settings): string {
    if s.provider.Some? then s.provider.value else "openai"
  }

  // ---------------------------------------------------------------- the closures

  function AddBuiltIn(s: Settings, id: string, key: Option<string>): Result<Settings>
    requires s.joined.Some?
  {
    var ps := s.joined.value;
    if id !in BUILT_IN then Err("provider must be supported")
    else if Listed(ps, id) then Err("provider is already joined")
    else if CheckedName(BUILT_IN[id], ps, "").Err? then Err("provider name is already joined")
    else Ok(s.(joined := Some(ps + [BuiltIn(id)]), keys := WithKey(s.keys, id, key)))
  }

  /** `newId` is the caller's "custom:" uuid4 and `url` an already validated base URL. */
  function AddCustom(s: Settings, newId: string, name: string, url: string, key: Option<string>): Result<Settings>
    requires s.joined.Some?
  {
    match CheckedName(name, s.joined.value, "")
    case Err(e) => Err(e)
    case Ok(n) =>
      Ok(s.(joined := Some(s.joined.value + [Provider(newId, n, true, Some(url))]), keys := WithKey(s.keys, newId, key)))
  }

  function IndexOf(ps: seq<Provider>, id: string): (i: nat)
    requires Listed(ps, id)
    ensures i < |ps| && ps[i].id == id
  {
    if ps[0].id == id then 0 else 1 + IndexOf(ps[1..], id)
  }

  function Edit(s: Settings, id: string, name: Option<string>, url: Option<string>, key: Option<string>, clear: bool): Result<Settings>
    requires s.joined.Some?
  {
    var ps := s.joined.value;
    if !Listed(ps, id) then Err("provider is not joined")
    else
      var i := IndexOf(ps, id);
      if !ps[i].custom && (name.Some? || url.Some?) then Err("built-in provider name and URL cannot be changed")
      else if name.Some? && CheckedName(name.value, ps, id).Err? then Err("provider name is already joined")
      else if clear && key.Some? then Err("key replacement and clear_key are mutually exclusive")
      else
        var named := if name.Some? then ps[i].(name := CheckedName(name.value, ps, id).value) else ps[i];
        var edited := if url.Some? then named.(baseUrl := url) else named;
        var keys := if clear then s.keys - {id} else WithKey(s.keys, id, key);
        Ok(s.(joined := Some(ps[i := edited]), keys := keys))
  }

  function Dropped(ps: seq<Provider>, id: string): (r: seq<Provider>)
    ensures forall p :: p in r <==> p in ps && p.id != id
  {
    if ps == [] then []
    else
      var rest := Dropped(ps[..|ps| - 1], id);
      assert ps == ps[..|ps| - 1] + [ps[|ps| - 1]];
      if ps[|ps| - 1].id == id then rest else rest + [ps[|ps| - 1]]
  }

  function Remove(db: Db, id: string): Result<Db>
    requires db.settings.joined.Some?
  {
    var s := db.settings;
    if !Listed(s.joined.value, id) then Err("provider is not joined")
    else if Default(s) == id then Err("cannot remove the default provider")
    else if HasUnfinished(db, id) then Err("cannot remove provider used by unfinished tasks")
    else Ok(db.(settings := s.(joined := Some(Dropped(s.joined.value, id)), keys := s.keys - {id})))
  }

  /** A validated `update` request: `keyed` lists the built-in providers that got a nonblank key. */
  datatype Change = Change(
    provider: Option<string>,
    keyed: seq<string>,
    keys: map<string, string>,
    cleared: set<string>,
    models: map<string, string>)

  function JoinAll(ps: seq<Provider>, names: seq<string>): Result<seq<Provider>>
    decreases |names|
  {
    if names == [] then Ok(ps)
    else if names[0] !in BUILT_IN || Listed(ps, names[0]) then JoinAll(ps, names[1..])
    else if CheckedName(BUILT_IN[names[0]], ps, "").Err? then Err("provider name is already joined")
    else JoinAll(ps + [BuiltIn(names[0])], names[1..])
  }

  /** `read` is the default provider as `update` saw it in an earlier transaction. */
  function Update(s: Settings, c: Change, read: string): Result<Settings>
    requires s.joined.Some?
  {
    var provider := if c.provider.Some? then c.provider.value else read;
    if provider !in BUILT_IN && !Listed(s.joined.value, provider) then Err("provider is not joined")
    else
      match JoinAll(s.joined.value, (if c.provider.Some? then [provider] else []) + c.keyed)
      case Err(e) => Err(e)
      case Ok(ps) =>
        Ok(s.(joined := Some(ps),
              provider := if c.provider.Some? then c.provider else s.provider,
              keys := s.keys + c.keys - c.cleared,
              models := s.models + c.models))
  }

  // ---------------------------------------------------------------- soundness of the registry

  ghost predicate Unique(ps: seq<Provider>) {
    && (forall i :: 0 <= i < |ps| ==> ps[i].id != "")
    && (forall i, j :: 0 <= i < j < |ps| ==> ps[i].id != ps[j].id)
    && (forall i, j :: 0 <= i < j < |ps| ==> Text.Lower(ps[i].name) != Text.Lower(ps[j].name))
  }

  ghost predicate Sound(db: Db) {
    && db.settings.joined.Some?
    && Unique(db.settings.joined.value)
    && Listed(db.settings.joined.value, Default(db.settings))
    && (forall t :: t in db.tasks && Unfinished(db.tasks[t]) ==> Joins(db.settings, db.tasks[t].params.provider))
  }

  /** No provider disappears: all the other closures extend the list or rewrite in place. */
  ghost predicate Extends(ps: seq<Provider>, ps': seq<Provider>) {
    |ps| <= |ps'| && forall i :: 0 <= i < |ps| ==> ps'[i].id == ps[i].id
  }

  lemma {:induction false} ExtendKeeps(db: Db, s: Settings)
    requires Sound(db) && s.joined.Some? && Unique(s.joined.value)
    requires Extends(db.settings.joined.value, s.joined.value)
    requires Default(s) == Default(db.settings) || Listed(s.joined.value, Default(s))
    ensures Sound(db.(settings := s))
  {
    var ps, ps' := db.settings.joined.value, s.joined.value;
    assert forall id :: Listed(ps, id) ==> Listed(ps', id) by {
      forall id | Listed(ps, id)
        ensures Listed(ps', id)
      {
        var i :| 0 <= i < |ps| && ps[i].id == id;
        assert ps'[i].id == id;
      }
    }
    forall t | t in db.tasks && Unfinished(db.tasks[t])
      ensures Joins(s, db.tasks[t].params.provider)
    {
      var p := db.tasks[t].params.provider;
      assert p.Some? ==> Listed(ps, p.value);
    }
  }

  lemma {:induction false} AppendUnique(ps: seq<Provider>, p: Provider)
    requires Unique(ps) && p.id != "" && !Listed(ps, p.id) && !NameTaken(ps, p.name, "")
    ensures Unique(ps + [p]) && Extends(ps, ps + [p])
  {
  }

  lemma {:induction false} ReplaceUnique(ps: seq<Provider>, i: nat, p: Provider)
    requires Unique(ps) && i < |ps| && p.id == ps[i].id
    requires p.name == ps[i].name || !NameTaken(ps, p.name, p.id)
    ensures Unique(ps[i := p]) && Extends(ps, ps[i := p])
  {
  }

  lemma {:induction false} AddBuiltInKeeps(db: Db, id: string, key: Option<string>)
    requires Sound(db) && AddBuiltIn(db.settings, id, key).Ok?
    ensures Sound(db.(settings := AddBuiltIn(db.settings, id, key).value))
  {
    NamesAreStripped(id);
    AppendUnique(db.settings.joined.value, BuiltIn(id));
    ExtendKeeps(db, AddBuiltIn(db.settings, id, key).value);
  }

  lemma {:induction false} NamesAreStripped(id: string)
    requires id in BUILT_IN
    ensures Text.Strip(BUILT_IN[id]) == BUILT_IN[id]
  {
    assert Text.Trim(BUILT_IN[id]);
    Text.TrimIsFixed(BUILT_IN[id]);
  }

  lemma {:induction false} AddCustomKeeps(db: Db, newId: string, name: string, url: string, key: Option<string>)
    requires Sound(db) && !Listed(db.settings.joined.value, newId) && newId != ""
    requires AddCustom(db.settings, newId, name, url, key).Ok?
    ensures Sound(db.(settings := AddCustom(db.settings, newId, name, url, key).value))
  {
    var n := CheckedName(name, db.settings.joined.value, "").value;
    AppendUnique(db.settings.joined.value, Provider(newId, n, true, Some(url)));
    ExtendKeeps(db, AddCustom(db.settings, newId, name, url, key).value);
  }

  lemma {:induction false} EditKeeps(db: Db, id: string, name: Option<string>, url: Option<string>, key: Option<string>, clear: bool)
    requires Sound(db) && Edit(db.settings, id, name, url, key, clear).Ok?
    ensures Sound(db.(settings := Edit(db.settings, id, name, url, key, clear).value))
  {
    var ps, after := db.settings.joined.value, Edit(db.settings, id, name, url, key, clear).value;
    var i := IndexOf(ps, id);
    ReplaceUnique(ps, i, after.joined.value[i]);
    ExtendKeeps(db, after);
  }

  lemma {:induction false} DroppedUnique(ps: seq<Provider>, id: string)
    requires Unique(ps)
    ensures Unique(Dropped(ps, id))
  {
    if ps == [] {
    } else {
      var front, last := ps[..|ps| - 1], ps[|ps| - 1];
      DroppedUnique(front, id);
      var rest := Dropped(front, id);
      forall i | 0 <= i < |rest|
        ensures rest[i].id != last.id && Text.Lower(rest[i].name) != Text.Lower(last.name)
      {
        assert rest[i] in rest && rest[i] in front;
      }
    }
  }

  lemma {:induction false} RemoveKeeps(db: Db, id: string)
    requires Sound(db) && Remove(db, id).Ok?
    ensures Sound(Remove(db, id).value)
    ensures !Listed(Remove(db, id).value.settings.joined.value, id)
  {
    var ps := db.settings.joined.value;
    var rest := Dropped(ps, id);
    DroppedUnique(ps, id);
    forall other | Listed(ps, other) && other != id
      ensures Listed(rest, other)
    {
      var i :| 0 <= i < |ps| && ps[i].id == other;
      assert ps[i] in rest;
    }
    forall i | 0 <= i < |rest|
      ensures rest[i].id != id
    {
      assert rest[i] in rest;
    }
    var s := Remove(db, id).value.settings;
    forall t | t in db.tasks && Unfinished(db.tasks[t])
      ensures Joins(s, db.tasks[t].params.provider)
    {
      var p := db.tasks[t].params.provider;
      assert p.Some? ==> Listed(ps, p.value) && Listed(rest, p.value);
    }
  }

  lemma {:induction false} JoinAllKeeps(ps: seq<Provider>, names: seq<string>)
    requires Unique(ps) && JoinAll(ps, names).Ok?
    ensures Unique(JoinAll(ps, names).value) && Extends(ps, JoinAll(ps, names).value)
    ensures forall n :: n in names && n in BUILT_IN ==> Listed(JoinAll(ps, names).value, n)
    decreases |names|
  {
    if names == [] {
    } else {
      var joined := names[0] !in BUILT_IN || Listed(ps, names[0]);
      var next := if joined then ps else ps + [BuiltIn(names[0])];
      if !joined {
        NamesAreStripped(names[0]);
        AppendUnique(ps, BuiltIn(names[0]));
        assert next[|ps|].id == names[0];
      }
      JoinAllKeeps(next, names[1..]);
      var r := JoinAll(next, names[1..]).value;
      if names[0] in BUILT_IN {
        var i :| 0 <= i < |next| && next[i].id == names[0];
        assert r[i].id == names[0];
      }
    }
  }

  lemma {:induction false} UpdateKeeps(db: Db, c: Change, read: string)
    requires Sound(db) && Update(db.settings, c, read).Ok?
    ensures Sound(db.(settings := Update(db.settings, c, read).value))
  {
    var ps := db.settings.joined.value;
    var names := (if c.provider.Some? then [c.provider.value] else []) + c.keyed;
    JoinAllKeeps(ps, names);
    var s := Update(db.settings, c, read).value;
    if c.provider.Some? {
      var p := c.provider.value;
      assert names[0] == p;
      if p !in BUILT_IN {
        var i :| 0 <= i < |ps| && ps[i].id == p;
        assert s.joined.value[i].id == p;
      }
    }
    ExtendKeeps(db, s);
  }

  /** A task step keeps the registry sound when it revives no task of a removable provider. */
  lemma {:induction false} TasksKeep(db: Db, db': Db)
    requires Sound(db) && db'.settings == db.settings
    requires forall t :: t in db'.tasks && Unfinished(db'.tasks[t]) ==>
               || (t in db.tasks && Unfinished(db.tasks[t]) && db'.tasks[t].params == db.tasks[t].params)
               || Joins(db.settings, db'.tasks[t].params.provider)
    ensures Sound(db')
  {
  }

  // ---------------------------------------------------------------- the service

  class SettingsService {
    const store: Store

    constructor (store: Store)
      ensures this.store == store
    {
      this.store := store;
    }

    method AddProvider(id: string, key: Option<string>) returns (ok: bool)
      requires store.settings.joined.Some?
      modifies store`settings
      ensures match AddBuiltIn(old(store.settings), id, key)
              case Ok(s) => ok && store.settings == s
              case Err(_) => !ok && store.settings == old(store.settings)
      ensures old(Sound(store.View())) ==> Sound(store.View())
    {
      ghost var before := store.View();
      var providers := store.settings.joined.value;
      if id !in BUILT_IN || Listed(providers, id) || CheckedName(BUILT_IN[id], providers, "").Err? {
        return false;
      }
      providers := providers + [BuiltIn(id)];
      store.settings := store.settings.(joined := Some(providers), keys := WithKey(store.settings.keys, id, key));
      ok := true;
      if Sound(before) { AddBuiltInKeeps(before, id, key); }
    }

    method AddCustomProvider(newId: string, name: string, url: string, key: Option<string>) returns (ok: bool)
      requires store.settings.joined.Some?
      modifies store`settings
      ensures match AddCustom(old(store.settings), newId, name, url, key)
              case Ok(s) => ok && store.settings == s
              case Err(_) => !ok && store.settings == old(store.settings)
      ensures old(Sound(store.View())) && !Listed(old(store.settings).joined.value, newId) && newId != "" ==> Sound(store.View())
    {
      ghost var before := store.View();
      var providers := store.settings.joined.value;
      var checked := CheckedName(name, providers, "");
      if checked.Err? {
        return false;
      }
      providers := providers + [Provider(newId, checked.value, true, Some(url))];
      store.settings := store.settings.(joined := Some(providers), keys := WithKey(store.settings.keys, newId, key));
      ok := true;
      if Sound(before) && !Listed(before.settings.joined.value, newId) && newId != "" {
        AddCustomKeeps(before, newId, name, url, key);
      }
    }

    method EditProvider(id: string, name: Option<string>, url: Option<string>, key: Option<string>, clear: bool) returns (ok: bool)
      requires store.settings.joined.Some?
      modifies store`settings
      ensures match Edit(old(store.settings), id, name, url, key, clear)
              case Ok(s) => ok && store.settings == s
              case Err(_) => !ok && store.settings == old(store.settings)
      ensures old(Sound(store.View())) ==> Sound(store.View())
    {
      ghost var before := store.View();
      var providers := store.settings.joined.value;
      if !Listed(providers, id) {
        return false;
      }
      var i := IndexOf(providers, id);
      var item := providers[i];
      if !item.custom && (name.Some? || url.Some?) {
        return false;
      }
      if name.Some? {
        var checked := CheckedName(name.value, providers, id);
        if checked.Err? {
          return false;
        }
        item := item.(name := checked.value);
      }
      if url.Some? {
        item := item.(baseUrl := url);
      }
      if clear && key.Some? {
        return false;
      }
      store.settings := store.settings.(
        joined := Some(providers[i := item]),
        keys := if clear then store.settings.keys - {id} else WithKey(store.settings.keys, id, key));
      ok := true;
      if Sound(before) { EditKeeps(before, id, name, url, key, clear); }
    }

    method RemoveProvider(id: string) returns (ok: bool)
      requires store.settings.joined.Some?
      modifies store`settings
      ensures match Remove(old(store.View()), id)
              case Ok(db) => ok && store.View() == db
              case Err(_) => !ok && store.View() == old(store.View())
      ensures old(Sound(store.View())) ==> Sound(store.View())
    {
      ghost var before := store.View();
      var s := store.settings;
      var unfinished := exists t :: t in store.tasks && Unfinished(store.tasks[t]) && store.tasks[t].params.provider == Some(id);
      if !Listed(s.joined.value, id) || Default(s) == id || unfinished {
        return false;
      }
      store.settings := s.(joined := Some(Dropped(s.joined.value, id)), keys := s.keys - {id});
      ok := true;
      if Sound(before) { RemoveKeeps(before, id); }
    }

    /** Joins each built-in provider named that is not yet joined, unless its name is taken. */
    static method JoinEach(joined: seq<Provider>, names: seq<string>) returns (r: Result<seq<Provider>>)
      ensures r == JoinAll(joined, names)
    {
      var providers, i := joined, 0;
      while i < |names|
        invariant 0 <= i <= |names|
        invariant JoinAll(providers, names[i..]) == JoinAll(joined, names)
      {
        var name := names[i];
        assert names[i..][1..] == names[i + 1..];
        if name in BUILT_IN && !Listed(providers, name) {
          if CheckedName(BUILT_IN[name], providers, "").Err? {
            return Err("provider name is already joined");
          }
          providers := providers + [BuiltIn(name)];
        }
        i := i + 1;
      }
      r := Ok(providers);
    }

    method UpdateSettings(c: Change, read: string) returns (ok: bool)
      requires store.settings.joined.Some?
      modifies store`settings
      ensures match Update(old(store.settings), c, read)
              case Ok(s) => ok && store.settings == s
              case Err(_) => !ok && store.settings == old(store.settings)
      ensures old(Sound(store.View())) ==> Sound(store.View())
    {
      ghost var before := store.View();
      var providers := store.settings.joined.value;
      var provider := if c.provider.Some? then c.provider.value else read;
      if provider !in BUILT_IN && !Listed(providers, provider) {
        return false;
      }
      var newlyJoined := (if c.provider.Some? then [provider] else []) + c.keyed;
      var joined := JoinEach(providers, newlyJoined);
      if joined.Err? {
        return false;
      }
      store.settings := store.settings.(
        joined := Some(joined.value),
        provider := if c.provider.Some? then c.provider else store.settings.provider,
        keys := store.settings.keys + c.keys - c.cleared,
        models := store.settings.models + c.models);
      ok := true;
      if Sound(before) { UpdateKeeps(before, c, read); }
    }
  }
}
