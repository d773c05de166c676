/** What configuration normalization gives each provider, said of the raw configuration and the provider tables. */
module ConfigLaws {
  import opened Text
  import opened LlmConfig

  /** The first of two texts that is not blank, the second if neither is. */
  function FirstGiven(a: string, b: string): string {
    if Blank(a) then b else a
  }

  /** An entry as filled: the raw one with blank model, endpoint and unset auth taken from the provider's default. */
  predicate FilledFrom(t: Tables, c: Config, name: string, model: string, endpoint: string, auth: Auth,
      models: map<string, string>, rest: string) {
    if name in c.providers && name in t.defaults then
      var own, d := c.providers[name], t.defaults[name];
      && model == FirstGiven(own.model, d.model) && endpoint == FirstGiven(own.endpoint, d.endpoint)
      && auth == (if !own.auth.none && Blank(own.auth.mode) && Blank(own.auth.envVar) then d.auth else own.auth)
      && models == own.models && rest == own.rest
    else if name in c.providers || name in t.defaults then
      var only := if name in c.providers then c.providers[name] else t.defaults[name];
      && model == only.model && endpoint == only.endpoint && auth == only.auth
      && models == only.models && rest == only.rest
    else model == "" && endpoint == "" && auth == Auth(false, "", "", "", "") && models == map[] && rest == ""
  }

  /** Every provider but the selected one is its raw entry filled from its default. */
  lemma {:induction false} OthersAreFilled(v: Variant, t: Tables, c: Config, r: Config, name: string)
    requires Result(v, t, c, r) && name != SelectedName(r) && (name in c.providers || name in t.defaults)
    ensures name in r.providers
    ensures var p := r.providers[name]; FilledFrom(t, c, name, p.model, p.endpoint, p.auth, p.models, p.rest)
  {
    SelectedStays(v, t, c, r);
    var top, own :| Tasks(t, c, top, own) && r == Built(v, t, c, own);
  }

  /** The selected provider is the named one, trimmed, and gemini when none is named. */
  lemma {:induction false} SelectedStays(v: Variant, t: Tables, c: Config, r: Config)
    requires Result(v, t, c, r)
    ensures SelectedName(r) == SelectedName(c) == if Blank(c.provider) then "gemini" else Trim(c.provider)
    ensures SelectedName(r) in r.providers
  {
    ModesAreNotBlank();
    var top, own :| Tasks(t, c, top, own) && r == Built(v, t, c, own);
  }

  /** The selected provider's model: its own, else its default's, else the top-level one, else the table's. */
  lemma {:induction false} SelectedModel(v: Variant, t: Tables, c: Config, r: Config, model: string, endpoint: string,
      auth: Auth, models: map<string, string>, rest: string)
    requires Result(v, t, c, r) && FilledFrom(t, c, SelectedName(c), model, endpoint, auth, models, rest)
    ensures SelectedName(c) in r.providers
    ensures var p := r.providers[SelectedName(c)];
      && p.model == FirstGiven(model, FirstGiven(c.model, t.defaultModel(SelectedName(c))))
      && p.endpoint == endpoint && p.rest == rest && r.model == p.model && r.auth == p.auth
  {
    var top, own :| Tasks(t, c, top, own) && r == Built(v, t, c, own);
    BaseIsFilled(t, c, model, endpoint, auth, models, rest);
  }

  lemma BaseIsFilled(t: Tables, c: Config, model: string, endpoint: string, auth: Auth, models: map<string, string>,
      rest: string)
    requires FilledFrom(t, c, SelectedName(c), model, endpoint, auth, models, rest)
    ensures Base(t, c) == Provider(model, models, endpoint, auth, rest)
  {
  }

  // ---- Auth ----

  /**
    A normalized auth: none drops mode and variable, a blank mode is env, and env without a variable takes the
    provider's.
  */
  predicate AuthNormalized(t: Tables, name: string, from: Auth, to: Auth) {
    && to.none == from.none && to.value == from.value && to.command == from.command
    && if from.none then to.mode == "" && to.envVar == ""
       else
         && to.mode == FirstGiven(from.mode, "env")
         && to.envVar == if to.mode == "env" && Blank(from.envVar) then t.envVar(name) else from.envVar
  }

  predicate Given(a: Auth) {
    a.none || !Blank(a.mode) || !Blank(a.envVar) || !Blank(a.value) || !Blank(a.command)
  }

  /** An environment variable of another default provider. */
  predicate Foreign(t: Tables, name: string, a: Auth) {
    && (Blank(a.mode) || EqualFold(Trim(a.mode), "env")) && !Blank(a.envVar)
    && exists other :: other in t.defaults && !EqualFold(other, name) && t.envVar(other) == Trim(a.envVar)
  }

  lemma NormalAuthIs(t: Tables, name: string, from: Auth, to: Auth)
    ensures AuthNormalized(t, name, from, to) <==> to == NormalAuth(t, name, from)
  {
  }

  lemma ForeignIff(t: Tables, name: string, a: Auth)
    ensures Foreign(t, name, a) <==> BelongsElsewhere(t, name, a)
  {
    assert Lower("env") == "env";
    assert Lower(Trim(a.mode)) == "" <==> Blank(a.mode) by { assert |Lower(Trim(a.mode))| == |Trim(a.mode)|; }
  }

  /**
    The top-level auth replaces the selected provider's exactly when it is given, is not another provider's key to the
    guarded copy, and the provider's own is not none and is either not given or what its default would give anyway.
  */
  ghost predicate TopLevelWins(v: Variant, t: Tables, name: string, own: Auth, top: Auth) {
    && Given(top) && (v.guard ==> !Foreign(t, name, top)) && !own.none
    && (!Given(own) ||
         (name in t.defaults && exists to ::
            AuthNormalized(t, name, own, to) && AuthNormalized(t, name, t.defaults[name].auth, to)))
  }

  lemma TopLevelWinsIff(v: Variant, t: Tables, name: string, own: Auth, top: Auth)
    ensures TopLevelWins(v, t, name, own, top) <==> AppliesLegacy(v, t, name, own, top)
  {
    ForeignIff(t, name, top);
    NormalAuthIs(t, name, own, NormalAuth(t, name, own));
    if name in t.defaults {
      var default := t.defaults[name].auth;
      NormalAuthIs(t, name, default, NormalAuth(t, name, own));
      forall to | AuthNormalized(t, name, own, to) && AuthNormalized(t, name, default, to)
        ensures NormalAuth(t, name, own) == NormalAuth(t, name, default)
      {
        NormalAuthIs(t, name, own, to);
        NormalAuthIs(t, name, default, to);
      }
    }
  }

  /** The selected provider's auth is the winner of the two, normalized. */
  lemma {:induction false} SelectedAuth(v: Variant, t: Tables, c: Config, r: Config, model: string, endpoint: string,
      auth: Auth, models: map<string, string>, rest: string)
    requires Result(v, t, c, r) && FilledFrom(t, c, SelectedName(c), model, endpoint, auth, models, rest)
    ensures SelectedName(c) in r.providers
    ensures var winner := if TopLevelWins(v, t, SelectedName(c), auth, c.auth) then c.auth else auth;
      AuthNormalized(t, SelectedName(c), winner, r.providers[SelectedName(c)].auth)
  {
    var top, own :| Tasks(t, c, top, own) && r == Built(v, t, c, own);
    BaseIsFilled(t, c, model, endpoint, auth, models, rest);
    TopLevelWinsIff(v, t, SelectedName(c), auth, c.auth);
    var from := if AppliesLegacy(v, t, SelectedName(c), auth, c.auth) then c.auth else auth;
    NormalAuthIs(t, SelectedName(c), from, r.providers[SelectedName(c)].auth);
  }

  // ---- Tasks, order and features ----

  /**
    A top-level task model reaches the selected provider under its canonical key, over the provider's own of that key.
  */
  lemma {:induction false} TopLevelTaskReaches(v: Variant, t: Tables, c: Config, r: Config, s: string)
    requires GoodTables(t) && Result(v, t, c, r)
    requires s in c.models && t.taskKey(s) != "" && !Blank(c.models[s])
    requires forall o :: o in c.models && t.taskKey(o) == t.taskKey(s) && !Blank(c.models[o]) ==> o == s
    requires forall o :: o in Base(t, c).models && t.taskKey(o) == t.taskKey(s) ==> o == t.taskKey(s)
    ensures SelectedName(c) in r.providers && t.taskKey(s) in r.providers[SelectedName(c)].models
    ensures r.providers[SelectedName(c)].models[t.taskKey(s)] == Trim(c.models[s])
  {
    var top, own :| Tasks(t, c, top, own) && r == Built(v, t, c, own);
    var k, all := t.taskKey(s), Base(t, c).models + top;
    assert k in top && top[k] == Trim(c.models[s]);
    TrimIdempotent(c.models[s]);
    assert t.taskKey(k) == k && all[k] == top[k];
    forall o | o in all && t.taskKey(o) == k && !Blank(all[o]) ensures o == k {
      if o in top {
        var from :|
          from in c.models && t.taskKey(from) == o != "" && !Blank(c.models[from]) && Trim(c.models[from]) == top[o];
        assert t.taskKey(o) == o;
      }
    }
  }

  /** The switches: on, every feature stays as it was; off, all are off. An order stays unless it is missing. */
  lemma {:induction false} SwitchesAndOrder(v: Variant, t: Tables, c: Config, r: Config)
    requires Result(v, t, c, r)
    ensures r.enabled == c.enabled
    ensures c.enabled ==>
      r.jobSearch == c.jobSearch && r.jobFiltering == c.jobFiltering && r.companyHealth == c.companyHealth
    ensures !c.enabled ==> !r.jobSearch && !r.jobFiltering && !r.companyHealth
    ensures r.preferredOrder == if c.preferredOrder == [] then v.order else c.preferredOrder
    ensures r.models == map[]
  {
    var top, own :| Tasks(t, c, top, own) && r == Built(v, t, c, own);
  }

  // ---- Names of tasks ----

  /** Case, surrounding space and the choice of dash, space or underscore do not matter in the name of a task. */
  lemma {:induction false} SameTask(a: string, b: string)
    requires Underscored(Lower(Trim(a))) == Underscored(Lower(Trim(b)))
    ensures TaskKey(a) == TaskKey(b)
  {
  }

  /** A key is one of the five, or the plain name itself. */
  lemma {:induction false} OtherNames(task: string)
    ensures TaskKey(task) == PlainTask(task) || TaskKey(task) in
      {"llm_job_filtering", "job_identity", "resume_to_criteria", "llm_company_health", "llm_job_search"}
  {
    CanonicalTaskFixed(PlainTask(task));
  }
}
