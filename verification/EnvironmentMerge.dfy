/** How the environment's credentials reach the Spotify provider
    (crates/spotuify-config/src/model.rs). */
module EnvironmentMerge {
  import opened Wrappers
  import opened ConfigTree
  import opened ConfigPath
  import opened ConfigSections
  import opened ConfigLoad
  import opened LoadPrecedence

  /** The Spotify provider's table as the environment leaves it. */
  function InEnv(table: Table, env: Env): (r: Table)
  {
    if EnvPresent(env) then WithEnv(table, env) else table
  }

  lemma InEnvKeeps(table: Table, env: Env, key: string)
    requires key == TYPE || key == PLAYER
    ensures key in InEnv(table, env) <==> key in table
    ensures key in table ==> InEnv(table, env)[key] == table[key]
  {
    NamesDiffer();
    assert TYPE !in ROOT_KEYS && PLAYER !in ROOT_KEYS;
  }

  /** With one exact Spotify provider the environment goes there. */
  lemma EnvGoesToTheTarget(values: Table, target: string, default: Option<string>, env: Env)
    requires target in values && values[target].Branch? && IsSpotify(values[target]) && |SpotifyOwners(values)| <= 1
    ensures MergeEnv(values, default, env) == Ok(values[target := Branch(InEnv(values[target].entries, env))])
  {
    hide WithEnv, IsSpotify, SpotifyOwners, SpotifyIds;
    OnlyOneExact(values, target);
    assert TheOne(SpotifyIds(values)) == target;
    assert values[target := values[target]] == values;
  }

  lemma OnlyOneExact(values: Table, target: string)
    requires target in values && IsSpotify(values[target]) && |SpotifyOwners(values)| <= 1
    ensures SpotifyIds(values) == {target}
  {
    hide TrimmedKind;
    forall id | id in SpotifyIds(values)
      ensures id == target
    {
      ExactIsTrimmed(values[id]);
      ExactIsTrimmed(values[target]);
      SmallSetsAgree(SpotifyOwners(values), id, target);
    }
  }

  /** What the checks look at: the ids, whether each provider passes, and its type. */
  lemma ChecksSeeOnly(a: Table, b: Table, default: Option<string>)
    requires a.Keys == b.Keys
    requires forall id :: id in a ==>
      (ProviderOk(id, a[id]) <==> ProviderOk(id, b[id])) && TrimmedKind(a[id]) == TrimmedKind(b[id])
    ensures CheckProviders(a, default) == CheckProviders(b, default)
  {
    hide ProviderOk, TrimmedKind;
    assert SpotifyOwners(a) == SpotifyOwners(b);
  }

  lemma CredentialsDoNotMatter(id: string, a: Table, env: Env)
    ensures ProviderOk(id, Branch(InEnv(a, env))) <==> ProviderOk(id, Branch(a))
    ensures TrimmedKind(Branch(InEnv(a, env))) == TrimmedKind(Branch(a))
  {
    hide InEnv, PlayerOk, ValidProviderId;
    InEnvKeeps(a, env, TYPE);
    InEnvKeeps(a, env, PLAYER);
    assert KindOf(Branch(InEnv(a, env))) == KindOf(Branch(a));
  }

  /** The checks do not look at credentials. */
  lemma ChecksIgnoreTheEnvironment(rest: Table, target: string, a: Table, env: Env, default: Option<string>)
    ensures CheckProviders(rest[target := Branch(InEnv(a, env))], default) == CheckProviders(rest[target := Branch(a)], default)
  {
    hide InEnv, ProviderOk, TrimmedKind, CheckProviders;
    CredentialsDoNotMatter(target, a, env);
    ChecksSeeOnly(rest[target := Branch(InEnv(a, env))], rest[target := Branch(a)], default);
  }

  /** Resolution, once the legacy keys are merged, under any environment. */
  lemma ResolvesInEveryEnvironment(
    root: Table, env: Env, all: Table, rest: Table, target: string, a: Table, warnings: set<Warning>, effective: Option<string>)
    requires ProviderValues(root) == Ok(all) && DefaultOf(all).Ok?
    requires MergeLegacy(root, all - {DEFAULT}) == Ok((rest[target := Branch(a)], warnings))
    requires IsSpotify(Branch(a)) && CheckProviders(rest[target := Branch(a)], DefaultOf(all).value) == Ok(effective)
    ensures ResolveProviders(root, env) == Ok(Providers(effective, Tables(rest[target := Branch(InEnv(a, env))]), warnings))
  {
    hide MergeLegacy, MergeEnv, CheckProviders, DefaultOf, ProviderValues, Tables, InEnv, IsSpotify, SpotifyOwners;
    var values := rest[target := Branch(a)];
    ChecksIgnoreTheEnvironment(rest, target, a, env, DefaultOf(all).value);
    AtMostOneOwner(values, DefaultOf(all).value);
    EnvGoesToTheTarget(values, target, DefaultOf(all).value, env);
    assert values[target := Branch(InEnv(a, env))] == rest[target := Branch(InEnv(a, env))];
  }

  lemma AtMostOneOwner(values: Table, default: Option<string>)
    requires CheckProviders(values, default).Ok?
    ensures |SpotifyOwners(values)| <= 1
  {
    hide ProviderOk, SpotifyOwners;
  }
}
