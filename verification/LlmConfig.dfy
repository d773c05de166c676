/**
  LLM configuration, rewritten in place by two slightly different copies of one normalization. The provider tables are
  parameters; what the proofs need of them is stated once and shown of the tables in use.
*/
module LlmConfig {
  import opened Text

  datatype Auth = Auth(none: bool, mode: string, envVar: string, value: string, command: string)

  /** A provider's settings; `rest` stands for those no normalization touches. */
  datatype Provider = Provider(model: string, models: map<string, string>, endpoint: string, auth: Auth, rest: string)

  datatype Config = Config(
    enabled: bool,
    provider: string,
    model: string,
    models: map<string, string>,
    jobSearch: bool,
    jobFiltering: bool,
    companyHealth: bool,
    preferredOrder: seq<string>,
    auth: Auth,
    providers: map<string, Provider>)

  /** The default providers, and the functions from a provider's name or a task's name. */
  datatype Tables = Tables(
    defaults: map<string, Provider>,
    defaultModel: string -> string,
    envVar: string -> string,
    taskKey: string -> string)

  /** The two copies differ in the default order and in the guard against another provider's key. */
  datatype Variant = Variant(order: seq<string>, guard: bool)

  const CONFIG := Variant(["gemini", "openai", "openrouter", "cheaperinference", "anthropic", "ollama"], true)
  const LLM := Variant(["gemini", "openai", "anthropic", "ollama"], false)

  const ENV := "env"
  const NO_AUTH := Auth(false, "", "", "", "")
  const NO_PROVIDER := Provider("", map[], "", NO_AUTH, "")

  predicate Defined(a: Auth) {
    a.none || !Blank(a.mode) || !Blank(a.envVar) || !Blank(a.value) || !Blank(a.command)
  }

  /** Whether an auth still wants its default. */
  predicate Open(a: Auth) {
    !a.none && Blank(a.mode) && Blank(a.envVar)
  }

  ghost predicate GoodTables(t: Tables) {
    && (forall name :: name in t.defaults ==> !Blank(t.defaults[name].model) && !Open(t.defaults[name].auth))
    && (forall task :: t.taskKey(t.taskKey(task)) == t.taskKey(task))
  }

  // ---- Parts of the normalization ----

  /** A task map rewritten to canonical keys and trimmed models; which of two colliding models stays is open. */
  ghost predicate NormalTasks(t: Tables, from: map<string, string>, to: map<string, string>) {
    && (forall s :: s in from && t.taskKey(s) != "" && !Blank(from[s]) ==> t.taskKey(s) in to)
    && (forall k :: k in to ==>
        exists s :: s in from && t.taskKey(s) == k != "" && !Blank(from[s]) && Trim(from[s]) == to[k])
  }

  function NormalAuth(t: Tables, name: string, a: Auth): Auth {
    if a.none then a.(mode := "", envVar := "")
    else
      var mode := if Blank(a.mode) then ENV else a.mode;
      a.(mode := mode, envVar := if mode == ENV && Blank(a.envVar) then t.envVar(name) else a.envVar)
  }

  function NormalModel(t: Tables, name: string, model: string): string {
    if Blank(model) then t.defaultModel(name) else model
  }

  function FillFrom(d: Provider, e: Provider): Provider {
    e.(model := if Blank(e.model) then d.model else e.model,
       endpoint := if Blank(e.endpoint) then d.endpoint else e.endpoint,
       auth := if Open(e.auth) then d.auth else e.auth)
  }

  function FilledOne(t: Tables, providers: map<string, Provider>, name: string): Provider {
    if name in t.defaults then
      if name in providers then FillFrom(t.defaults[name], providers[name]) else t.defaults[name]
    else if name in providers then providers[name]
    else NO_PROVIDER
  }

  function FilledProviders(t: Tables, providers: map<string, Provider>): map<string, Provider> {
    map name | name in t.defaults.Keys + providers.Keys :: FilledOne(t, providers, name)
  }

  /** `legacyTopLevelAuthBelongsToDifferentProvider`. */
  predicate BelongsElsewhere(t: Tables, name: string, legacy: Auth) {
    && (Lower(Trim(legacy.mode)) == "" || Lower(Trim(legacy.mode)) == ENV)
    && Trim(legacy.envVar) != ""
    && exists other :: other in t.defaults && !EqualFold(other, name) && Trim(legacy.envVar) == t.envVar(other)
  }

  /** `shouldApplyLegacyTopLevelAuth`. */
  predicate AppliesLegacy(v: Variant, t: Tables, name: string, own: Auth, legacy: Auth) {
    && Defined(legacy)
    && (v.guard ==> !BelongsElsewhere(t, name, legacy))
    && !NormalAuth(t, name, own).none
    && (!Defined(own) || (name in t.defaults && NormalAuth(t, name, own) == NormalAuth(t, name, t.defaults[name].auth)))
  }

  function ProviderName(c: Config): string {
    if Blank(c.provider) then "gemini" else c.provider
  }

  function SelectedName(c: Config): string {
    Trim(ProviderName(c))
  }

  function Base(t: Tables, c: Config): Provider {
    FilledOne(t, c.providers, SelectedName(c))
  }

  /** A selected provider's entry, from the entry so far, the top-level model and auth, and its normalized task map. */
  function Entry(v: Variant, t: Tables, name: string, base: Provider, model: string, auth: Auth,
      models: map<string, string>): Provider {
    base.(model := NormalModel(t, name, if Blank(base.model) && !Blank(model) then model else base.model),
          models := models,
          auth := NormalAuth(t, name, if AppliesLegacy(v, t, name, base.auth, auth) then auth else base.auth))
  }

  function SelectedEntry(v: Variant, t: Tables, c: Config, models: map<string, string>): Provider {
    Entry(v, t, SelectedName(c), Base(t, c), c.model, c.auth, models)
  }

  /** The top-level fields that need no provider. */
  function Prepared(v: Variant, c: Config): Config {
    c.(provider := ProviderName(c),
       preferredOrder := if c.preferredOrder == [] then v.order else c.preferredOrder,
       jobSearch := c.enabled && c.jobSearch,
       jobFiltering := c.enabled && c.jobFiltering,
       companyHealth := c.enabled && c.companyHealth)
  }

  function Built(v: Variant, t: Tables, c: Config, models: map<string, string>): Config {
    var entry := SelectedEntry(v, t, c, models);
    Prepared(v, c).(
      models := map[],
      providers := FilledProviders(t, c.providers)[SelectedName(c) := entry],
      model := entry.model,
      auth := entry.auth)
  }

  /** The results one normalization may have; they differ only in which colliding task models stay. */
  ghost predicate Result(v: Variant, t: Tables, c: Config, r: Config) {
    exists top, own :: Tasks(t, c, top, own) && r == Built(v, t, c, own)
  }

  ghost predicate Tasks(t: Tables, c: Config, top: map<string, string>, own: map<string, string>) {
    NormalTasks(t, c.models, top) && NormalTasks(t, Base(t, c).models + top, own)
  }

  // ---- The code ----

  method NormalizeTasks(t: Tables, from: map<string, string>) returns (to: map<string, string>)
    ensures NormalTasks(t, from, to)
  {
    to := map[];
    var left := from.Keys;
    while left != {}
      invariant left <= from.Keys
      invariant forall s :: s in from && s !in left && t.taskKey(s) != "" && !Blank(from[s]) ==> t.taskKey(s) in to
      invariant forall k :: k in to ==>
                  exists s :: s in from && t.taskKey(s) == k != "" && !Blank(from[s]) && Trim(from[s]) == to[k]
    {
      var s :| s in left;
      left := left - {s};
      var task, model := t.taskKey(s), Trim(from[s]);
      if task == "" || model == "" {
        continue;
      }
      to := to[task := model];
    }
  }

  method FillProviders(t: Tables, providers: map<string, Provider>) returns (r: map<string, Provider>)
    ensures r == FilledProviders(t, providers)
  {
    r := providers;
    var left := t.defaults.Keys;
    while left != {}
      invariant left <= t.defaults.Keys
      invariant r.Keys == providers.Keys + (t.defaults.Keys - left)
      invariant forall name :: name in r ==>
                  r[name] == if name in left then providers[name] else FilledOne(t, providers, name)
    {
      var name :| name in left;
      left := left - {name};
      var d := t.defaults[name];
      if name !in r {
        r := r[name := d];
        continue;
      }
      var existing := r[name];
      if Blank(existing.model) {
        existing := existing.(model := d.model);
      }
      if Blank(existing.endpoint) {
        existing := existing.(endpoint := d.endpoint);
      }
      if !existing.auth.none && Blank(existing.auth.mode) && Blank(existing.auth.envVar) {
        existing := existing.(auth := d.auth);
      }
      r := r[name := existing];
    }
  }

  method NormalizeProvider(t: Tables, name: string, p: Provider) returns (r: Provider)
    ensures r == p.(model := NormalModel(t, name, p.model), models := r.models, auth := NormalAuth(t, name, p.auth))
    ensures NormalTasks(t, p.models, r.models)
  {
    r := p;
    if Blank(r.model) {
      r := r.(model := t.defaultModel(name));
    }
    var models := NormalizeTasks(t, r.models);
    r := r.(models := models);
    if r.auth.none {
      r := r.(auth := r.auth.(mode := "", envVar := ""));
      return;
    }
    if Blank(r.auth.mode) {
      r := r.(auth := r.auth.(mode := ENV));
    }
    if r.auth.mode == ENV && Blank(r.auth.envVar) {
      r := r.(auth := r.auth.(envVar := t.envVar(name)));
    }
  }

  class AppConfig {
    var llm: Config

    constructor (llm: Config)
      ensures this.llm == llm
    {
      this.llm := llm;
    }

    method NormalizeTopLevel(v: Variant)
      modifies this
      ensures llm == Prepared(v, old(llm))
    {
      if |llm.preferredOrder| == 0 {
        llm := llm.(preferredOrder := v.order);
      }
      if Blank(llm.provider) {
        llm := llm.(provider := "gemini");
      }
      if !llm.enabled {
        llm := llm.(jobSearch := false, jobFiltering := false, companyHealth := false);
      }
    }

    method NormalizeLLMConfig(v: Variant, t: Tables)
      modifies this
      ensures Result(v, t, old(llm), llm)
    {
      NormalizeTopLevel(v);
      var top := NormalizeTasks(t, llm.models);
      var providers := FillProviders(t, llm.providers);
      var selected := Trim(llm.provider);
      var base := if selected in providers then providers[selected] else NO_PROVIDER;
      var selectedCfg := NormalizeSelected(v, t, selected, base, llm.model, llm.auth, top);
      llm := llm.(models := map[], providers := providers[selected := selectedCfg], model := selectedCfg.model,
          auth := selectedCfg.auth);
      BuiltIsResult(v, t, old(llm), top, base, selectedCfg);
    }
  }

  lemma BuiltIsResult(v: Variant, t: Tables, c: Config, top: map<string, string>, base: Provider, entry: Provider)
    requires NormalTasks(t, c.models, top)
    requires var filled := FilledProviders(t, c.providers);
      base == if SelectedName(c) in filled then filled[SelectedName(c)] else NO_PROVIDER
    requires entry == Entry(v, t, SelectedName(c), base, c.model, c.auth, entry.models)
    requires NormalTasks(t, base.models + top, entry.models)
    ensures entry == SelectedEntry(v, t, c, entry.models) && Result(v, t, c, Built(v, t, c, entry.models))
  {
    assert base == Base(t, c);
    assert Tasks(t, c, top, entry.models);
  }

  method NormalizeSelected(v: Variant, t: Tables, name: string, base: Provider, model: string, auth: Auth,
      top: map<string, string>) returns (r: Provider)
    ensures r == Entry(v, t, name, base, model, auth, r.models)
    ensures NormalTasks(t, base.models + top, r.models)
  {
    r := base;
    if Blank(r.model) && !Blank(model) {
      r := r.(model := model);
    }
    if AppliesLegacy(v, t, name, r.auth, auth) {
      r := r.(auth := auth);
    }
    r := r.(models := r.models + top);
    r := NormalizeProvider(t, name, r);
  }

  // ---- Normalizing twice ----

  lemma NormalTasksFixed(t: Tables, from: map<string, string>, to: map<string, string>, again: map<string, string>)
    requires GoodTables(t) && NormalTasks(t, from, to) && NormalTasks(t, to, again)
    ensures again == to
  {
    forall k | k in to ensures t.taskKey(k) == k != "" && !Blank(to[k]) && Trim(to[k]) == to[k] {
      var s :| s in from && t.taskKey(s) == k != "" && !Blank(from[s]) && Trim(from[s]) == to[k];
      TrimIdempotent(from[s]);
    }
    forall k | k in again ensures k in to && again[k] == to[k] {
      var s :| s in to && t.taskKey(s) == k != "" && !Blank(to[s]) && Trim(to[s]) == again[k];
    }
  }

  lemma NoTasks(t: Tables, to: map<string, string>)
    requires NormalTasks(t, map[], to)
    ensures to == map[]
  {
    assert to.Keys == {};
  }

  lemma ModesAreNotBlank()
    ensures Trim(ENV) == ENV && Trim("gemini") == "gemini"
  {
    TrimmedIsFixed(ENV);
    TrimmedIsFixed("gemini");
  }

  lemma NormalAuthFixed(t: Tables, name: string, a: Auth)
    ensures NormalAuth(t, name, NormalAuth(t, name, a)) == NormalAuth(t, name, a)
    ensures !Open(NormalAuth(t, name, a))
  {
    ModesAreNotBlank();
  }

  lemma FillFromFixed(d: Provider, e: Provider)
    requires !Blank(d.model) && !Open(d.auth)
    ensures FillFrom(d, FillFrom(d, e)) == FillFrom(d, e)
    ensures FillFrom(d, d) == d
    ensures !Blank(FillFrom(d, e).model)
  {
  }

  /** An entry that filling leaves alone. */
  predicate IsFilled(t: Tables, name: string, e: Provider) {
    name in t.defaults ==> FillFrom(t.defaults[name], e) == e && !Blank(e.model)
  }

  lemma FilledOneIsFilled(t: Tables, providers: map<string, Provider>, name: string)
    requires GoodTables(t)
    ensures IsFilled(t, name, FilledOne(t, providers, name))
  {
    if name in t.defaults {
      FillFromFixed(t.defaults[name], if name in providers then providers[name] else NO_PROVIDER);
    }
  }

  lemma EntryIsFilled(v: Variant, t: Tables, c: Config, models: map<string, string>)
    requires GoodTables(t)
    ensures IsFilled(t, SelectedName(c), SelectedEntry(v, t, c, models))
  {
    var name, base := SelectedName(c), Base(t, c);
    FilledOneIsFilled(t, c.providers, name);
    NormalAuthFixed(t, name, if AppliesLegacy(v, t, name, base.auth, c.auth) then c.auth else base.auth);
  }

  lemma FilledProvidersFixed(t: Tables, r: map<string, Provider>)
    requires t.defaults.Keys <= r.Keys && forall name :: name in r ==> IsFilled(t, name, r[name])
    ensures FilledProviders(t, r) == r
  {
    forall name | name in r ensures FilledOne(t, r, name) == r[name] {
      assert IsFilled(t, name, r[name]);
    }
  }

  lemma {:induction false} BuiltIsFilled(v: Variant, t: Tables, c: Config, models: map<string, string>)
    requires GoodTables(t)
    ensures FilledProviders(t, Built(v, t, c, models).providers) == Built(v, t, c, models).providers
  {
    var r := Built(v, t, c, models).providers;
    forall name | name in r ensures IsFilled(t, name, r[name]) {
      if name == SelectedName(c) {
        EntryIsFilled(v, t, c, models);
      } else {
        FilledOneIsFilled(t, c.providers, name);
      }
    }
    FilledProvidersFixed(t, r);
  }

  lemma SameSelection(v: Variant, t: Tables, c: Config, models: map<string, string>)
    requires GoodTables(t)
    ensures ProviderName(Built(v, t, c, models)) == ProviderName(c)
    ensures Base(t, Built(v, t, c, models)) == SelectedEntry(v, t, c, models)
  {
    ModesAreNotBlank();
    EntryIsFilled(v, t, c, models);
  }

  lemma EntryIsFixed(v: Variant, w: Variant, t: Tables, c: Config, models: map<string, string>)
    requires GoodTables(t)
    ensures SelectedEntry(w, t, Built(v, t, c, models), models) == SelectedEntry(v, t, c, models)
  {
    var entry, name, base := SelectedEntry(v, t, c, models), SelectedName(c), Base(t, c);
    SameSelection(v, t, c, models);
    NormalAuthFixed(t, name, if AppliesLegacy(v, t, name, base.auth, c.auth) then c.auth else base.auth);
    ModelIsFixed(t, name, if Blank(base.model) && !Blank(c.model) then c.model else base.model);
  }

  lemma ModelIsFixed(t: Tables, name: string, model: string)
    ensures NormalModel(t, name, NormalModel(t, name, model)) == NormalModel(t, name, model)
  {
  }

  lemma {:induction false} BuiltTwice(v: Variant, w: Variant, t: Tables, c: Config, models: map<string, string>)
    requires GoodTables(t) && v.order != []
    ensures Built(w, t, Built(v, t, c, models), models) == Built(v, t, c, models)
  {
    var r := Built(v, t, c, models);
    SameSelection(v, t, c, models);
    EntryIsFixed(v, w, t, c, models);
    BuiltIsFilled(v, t, c, models);
    assert r.providers[SelectedName(c) := SelectedEntry(v, t, c, models)] == r.providers;
  }

  lemma SameTasksAgain(v: Variant, t: Tables, c: Config, top: map<string, string>, own: map<string, string>,
      top2: map<string, string>, own2: map<string, string>)
    requires GoodTables(t) && Tasks(t, c, top, own) && Tasks(t, Built(v, t, c, own), top2, own2)
    ensures own2 == own
  {
    SameSelection(v, t, c, own);
    NoTasks(t, top2);
    assert own + map[] == own;
    NormalTasksFixed(t, Base(t, c).models + top, own, own2);
  }

  /**
    Normalizing again with either copy changes nothing: each is idempotent, and the copy of the llm package is a no-op
    after the copy of the config package although only one of them has the guard.
  */
  lemma {:induction false} SecondNormalizationChangesNothing(v: Variant, w: Variant, t: Tables, c: Config, r: Config,
      again: Config)
    requires GoodTables(t) && v.order != []
    requires Result(v, t, c, r) && Result(w, t, r, again)
    ensures again == r
  {
    var top, own :| Tasks(t, c, top, own) && r == Built(v, t, c, own);
    var top2, own2 :| Tasks(t, r, top2, own2) && again == Built(w, t, r, own2);
    SameTasksAgain(v, t, c, top, own, top2, own2);
    BuiltTwice(v, w, t, c, own);
  }

  /**
    The llm package's copy takes over a top-level key that names another provider's variable, which the guard
    refuses.
  */
  predicate TakesForeignKey(t: Tables, c: Config) {
    var name := SelectedName(c);
    AppliesLegacy(LLM, t, name, Base(t, c).auth, c.auth) && BelongsElsewhere(t, name, c.auth)
  }

  /**
    On a raw configuration the copies agree exactly when it names an order and a foreign key, if the unguarded copy
    takes one over, comes out as the provider's own auth would.
  */
  lemma {:induction false} CopiesAgreeIff(t: Tables, c: Config, models: map<string, string>)
    ensures Built(CONFIG, t, c, models) == Built(LLM, t, c, models) <==>
      && c.preferredOrder != []
      && (TakesForeignKey(t, c) ==>
            NormalAuth(t, SelectedName(c), c.auth) == NormalAuth(t, SelectedName(c), Base(t, c).auth))
  {
    var a, b := Built(CONFIG, t, c, models), Built(LLM, t, c, models);
    var name, own := SelectedName(c), Base(t, c).auth;
    assert CONFIG.order[2] != LLM.order[2];
    assert AppliesLegacy(CONFIG, t, name, own, c.auth) <==>
           AppliesLegacy(LLM, t, name, own, c.auth) && !BelongsElsewhere(t, name, c.auth);
    if TakesForeignKey(t, c) {
      assert a.auth == NormalAuth(t, name, own) && b.auth == NormalAuth(t, name, c.auth);
    } else {
      assert SelectedEntry(CONFIG, t, c, models) == SelectedEntry(LLM, t, c, models);
    }
  }

  /** A raw configuration the copies leave with different keys: openai selected with gemini's variable at the top. */
  lemma {:induction false} ForeignKeyExample(t: Tables, c: Config)
    requires t == TablesInUse() && c.provider == "openai" && c.auth == KeyAuth("GEMINI_API_KEY") && c.providers == map[]
    ensures Built(CONFIG, t, c, map[]).auth == KeyAuth("OPENAI_API_KEY")
    ensures Built(LLM, t, c, map[]).auth == KeyAuth("GEMINI_API_KEY")
  {
    ForeignKeyIsTaken(t, c);
    var name, own := SelectedName(c), Base(t, c).auth;
    assert Built(CONFIG, t, c, map[]).auth == NormalAuth(t, name, own);
    assert Built(LLM, t, c, map[]).auth == NormalAuth(t, name, c.auth);
    KeyIsNormal(t, name, "OPENAI_API_KEY");
    KeyIsNormal(t, name, "GEMINI_API_KEY");
  }

  lemma KeyIsNormal(t: Tables, name: string, envVar: string)
    requires envVar != "" && Trimmed(envVar)
    ensures NormalAuth(t, name, KeyAuth(envVar)) == KeyAuth(envVar) && Defined(KeyAuth(envVar))
  {
    ModesAreNotBlank();
    TrimmedIsFixed(envVar);
  }

  lemma ForeignKeyIsTaken(t: Tables, c: Config)
    requires t == TablesInUse() && c.provider == "openai" && c.auth == KeyAuth("GEMINI_API_KEY") && c.providers == map[]
    ensures SelectedName(c) == "openai" && Base(t, c).auth == KeyAuth("OPENAI_API_KEY") && TakesForeignKey(t, c)
  {
    ModesAreNotBlank();
    TrimmedIsFixed("openai");
    TrimmedIsFixed("GEMINI_API_KEY");
    assert Lower("env")[..] == "env" && Lower("openai") == "openai" && Lower("gemini") == "gemini";
    KeyIsNormal(t, "openai", "OPENAI_API_KEY");
    KeyIsNormal(t, "openai", "GEMINI_API_KEY");
    assert "gemini" in t.defaults && t.envVar("gemini") == "GEMINI_API_KEY" && !EqualFold("gemini", "openai");
  }

  /**
    A normalized configuration mirrors its selected provider, has every default provider and no feature when
    disabled.
  */
  lemma {:induction false} NormalizedShape(v: Variant, t: Tables, c: Config, r: Config)
    requires GoodTables(t) && Result(v, t, c, r)
    ensures SelectedName(r) in r.providers
    ensures r.model == r.providers[SelectedName(r)].model && r.auth == r.providers[SelectedName(r)].auth
    ensures r.models == map[]
    ensures forall name :: name in t.defaults ==> name in r.providers && !Blank(r.providers[name].model)
    ensures !r.enabled ==> !r.jobSearch && !r.jobFiltering && !r.companyHealth
    ensures forall k :: k in r.providers[SelectedName(r)].models ==>
          t.taskKey(k) == k && !Blank(r.providers[SelectedName(r)].models[k])
  {
    var top, own :| Tasks(t, c, top, own) && r == Built(v, t, c, own);
    SameSelection(v, t, c, own);
    forall name | name in t.defaults ensures name in r.providers && !Blank(r.providers[name].model) {
      if name == SelectedName(c) {
        EntryIsFilled(v, t, c, own);
      } else {
        FilledOneIsFilled(t, c.providers, name);
      }
    }
    forall k | k in own ensures t.taskKey(k) == k && !Blank(own[k]) {
      var from := Base(t, c).models + top;
      var s :| s in from && t.taskKey(s) == k != "" && !Blank(from[s]) && Trim(from[s]) == own[k];
      TrimIdempotent(from[s]);
    }
  }

  /** What an entry says explicitly: filling and normalizing leave it. */
  predicate KeepsExplicit(before: Provider, after: Provider) {
    && (!Blank(before.model) ==> after.model == before.model)
    && (!Blank(before.endpoint) ==> after.endpoint == before.endpoint)
    && after.rest == before.rest
  }

  /**
    Explicit settings survive: no provider is dropped, and none loses a model, an endpoint, other settings or,
    unless selected, its auth and tasks.
  */
  lemma ExplicitSettingsKept(v: Variant, t: Tables, c: Config, r: Config, name: string)
    requires Result(v, t, c, r) && name in c.providers
    ensures name in r.providers && KeepsExplicit(c.providers[name], r.providers[name])
    ensures name != SelectedName(c) ==> r.providers[name].models == c.providers[name].models
    ensures name != SelectedName(c) && !Open(c.providers[name].auth) ==>
          r.providers[name].auth == c.providers[name].auth
  {
    var top, own :| Tasks(t, c, top, own) && r == Built(v, t, c, own);
  }

  // ---- The tables in use ----

  function Underscored(s: string): (r: string)
    ensures |r| == |s|
  {
    seq(|s|, i requires 0 <= i < |s| => if s[i] == '-' || s[i] == ' ' then '_' else s[i])
  }

  function PlainTask(task: string): string {
    Underscored(Lower(Trim(task)))
  }

  function CanonicalTask(task: string): string {
    if task in {"filter", "filters", "filtering", "job_filter", "job_filter_batch", "job_filtering", "auto_filter",
                "llm_job_filtering"} then
      "llm_job_filtering"
    else if task in {"identity", "job_identity", "job_enrichment", "identity_enrichment", "company_identity"} then
      "job_identity"
    else if task in {"resume", "resume_criteria", "criteria", "criteria_generation"} then "resume_to_criteria"
    else if task in {"health", "health_check", "health_checks", "company_health", "llm_company_health",
                     "company_health_summary"} then
      "llm_company_health"
    else if task in {"search", "job_search", "llm_search", "auto_search", "autonomous_search", "autonomous_job_search",
                     "llm_job_search"} then
      "llm_job_search"
    else task
  }

  /** `normalizeLLMTaskKey`. */
  function TaskKey(task: string): string {
    CanonicalTask(PlainTask(task))
  }

  lemma PlainTaskFixed(task: string)
    ensures PlainTask(PlainTask(task)) == PlainTask(task)
  {
    var trimmed := Trim(task);
    TrimIsTrimmed(task);
    LowerKeepsTrimmed(trimmed);
    TrimmedIsFixed(Underscored(Lower(trimmed)));
  }

  predicate IsPlainWord(word: string) {
    forall i :: 0 <= i < |word| ==> 'a' <= word[i] <= 'z' || word[i] == '_'
  }

  lemma PlainWordIsFixed(word: string)
    requires IsPlainWord(word)
    ensures PlainTask(word) == word
  {
    TrimmedIsFixed(word);
  }

  lemma TaskNamesArePlain()
    ensures IsPlainWord("llm_job_filtering") && IsPlainWord("job_identity") && IsPlainWord("resume_to_criteria")
    ensures IsPlainWord("llm_company_health") && IsPlainWord("llm_job_search")
  {
  }

  lemma CanonicalTaskFixed(task: string)
    ensures CanonicalTask(CanonicalTask(task)) == CanonicalTask(task)
    ensures CanonicalTask(task) == task || CanonicalTask(task) in
      {"llm_job_filtering", "job_identity", "resume_to_criteria", "llm_company_health", "llm_job_search"}
  {
  }

  /** A task key is its own key. */
  lemma TaskKeyFixed(task: string)
    ensures TaskKey(TaskKey(task)) == TaskKey(task)
  {
    var key := TaskKey(task);
    PlainTaskFixed(task);
    CanonicalTaskFixed(PlainTask(task));
    TaskNamesArePlain();
    if key != PlainTask(task) {
      PlainWordIsFixed(key);
    }
  }

  function EnvVarForProvider(provider: string): string {
    match Lower(provider)
    case "openai" => "OPENAI_API_KEY"
    case "anthropic" => "ANTHROPIC_API_KEY"
    case "openrouter" => "OPENROUTER_API_KEY"
    case "cheaperinference" => "CHEAPERINFERENCE_API_KEY"
    case "ollama" => ""
    case _ => "GEMINI_API_KEY"
  }

  function KeyAuth(envVar: string): Auth {
    Auth(false, ENV, envVar, "", "")
  }

  function AllTasks(model: string, filtering: string): map<string, string> {
    map["llm_job_search" := model, "llm_company_health" := model, "llm_job_filtering" := filtering,
        "job_identity" := model, "resume_to_criteria" := model]
  }

  function DefaultProviders(): map<string, Provider> {
    map[
      "gemini" := Provider("gemini-3.1-flash-lite", AllTasks("gemini-3.1-flash-lite", "gemini-3.1-flash-lite"), "",
                           KeyAuth("GEMINI_API_KEY"), ""),
      "openai" := Provider("gpt-4o-mini", AllTasks("gpt-4o-mini", "gpt-5.4-mini"), "", KeyAuth("OPENAI_API_KEY"), ""),
      "anthropic" := Provider("claude-3-5-sonnet-latest", map[], "", KeyAuth("ANTHROPIC_API_KEY"), ""),
      "openrouter" := Provider("deepseek/deepseek-v4-flash",
                               AllTasks("deepseek/deepseek-v4-flash", "deepseek/deepseek-v4-flash"),
                               "https://openrouter.ai/api/v1", KeyAuth("OPENROUTER_API_KEY"), ""),
      "cheaperinference" := Provider("gpt-5.4-mini", AllTasks("gpt-5.4-mini", "gpt-5.4-mini"),
                                     "https://api.cheaperinference.com/v1", KeyAuth("CHEAPERINFERENCE_API_KEY"), ""),
      "ollama" := Provider("llama3", map[], "http://localhost:11434", Auth(true, "", "", "", ""), "")
    ]
  }

  function DefaultModelForProvider(provider: string): string {
    match Lower(provider)
    case "openai" => "gpt-4o-mini"
    case "anthropic" => "claude-opus-4-1-20250805"
    case "openrouter" => "deepseek/deepseek-v4-flash"
    case "cheaperinference" => "gpt-5.4-mini"
    case "ollama" => "llama3"
    case _ => "gemini-3.1-flash-lite"
  }

  function TablesInUse(): Tables {
    Tables(DefaultProviders(), DefaultModelForProvider, EnvVarForProvider, TaskKey)
  }

  lemma StartsWithLetter(s: string)
    requires s != "" && !IsSpace(s[0]) && !IsSpace(s[|s| - 1])
    ensures !Blank(s)
  {
    TrimmedIsFixed(s);
  }

  lemma {:induction false} DefaultsAreGood()
    ensures forall name :: name in DefaultProviders() ==>
          !Blank(DefaultProviders()[name].model) && !Open(DefaultProviders()[name].auth)
  {
    ModesAreNotBlank();
    StartsWithLetter("gemini-3.1-flash-lite");
    StartsWithLetter("gpt-4o-mini");
    StartsWithLetter("claude-3-5-sonnet-latest");
    StartsWithLetter("deepseek/deepseek-v4-flash");
    StartsWithLetter("gpt-5.4-mini");
    StartsWithLetter("llama3");
  }

  /** The tables in use are good, so every result above holds of them. */
  lemma {:induction false} TablesInUseAreGood()
    ensures GoodTables(TablesInUse())
  {
    DefaultsAreGood();
    forall task ensures TablesInUse().taskKey(TablesInUse().taskKey(task)) == TablesInUse().taskKey(task) {
      TaskKeyFixed(task);
    }
  }

  /** In the tables in use, the llm package's copy changes nothing after the config package's copy. */
  lemma {:induction false} LlmAfterConfigChangesNothing(c: Config, r: Config, again: Config)
    requires Result(CONFIG, TablesInUse(), c, r) && Result(LLM, TablesInUse(), r, again)
    ensures again == r
  {
    TablesInUseAreGood();
    SecondNormalizationChangesNothing(CONFIG, LLM, TablesInUse(), c, r, again);
  }
}
