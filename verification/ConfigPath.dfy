/** Key names, provider ids and dotted config paths with their legacy spellings
    (crates/spotuify-config/src/path.rs). */
module ConfigPath {
  import opened Wrappers
  import opened ConfigTree

  const PROVIDERS := "providers"
  const SPOTIFY := "spotify"
  const DEFAULT := "default"
  const TYPE := "type"
  const PLAYER := "player"
  const SPOTIFYD := "spotifyd"
  const ANALYTICS := "analytics"
  const HOOK_COMMAND := "hook_command"
  const EVENT_HOOK := "event_hook"
  const CLIENT_ID := "client_id"
  const CLIENT_SECRET := "client_secret"
  const REDIRECT_URI := "redirect_uri"
  const DEVICE_NAME := "device_name"

  /** The three credentials a legacy file keeps at its root. */
  const ROOT_KEYS: set<string> := {CLIENT_ID, CLIENT_SECRET, REDIRECT_URI}

  /** The names of equal length, told apart. */
  lemma NamesDiffer()
    ensures PROVIDERS != ANALYTICS && PROVIDERS != CLIENT_ID && ANALYTICS != CLIENT_ID
    ensures HOOK_COMMAND != REDIRECT_URI && SPOTIFY != DEFAULT
    ensures PROVIDERS !in ROOT_KEYS && ANALYTICS !in ROOT_KEYS && PLAYER !in ROOT_KEYS && SPOTIFYD !in ROOT_KEYS
  {
    assert PROVIDERS[0] == 'p' && ANALYTICS[0] == 'a' && CLIENT_ID[0] == 'c';
    assert HOOK_COMMAND[0] == 'h' && REDIRECT_URI[0] == 'r';
    assert SPOTIFY[0] == 's' && DEFAULT[0] == 'd';
  }

  function Underscored(name: string): (r: string)
    ensures |r| == |name|
  {
    seq(|name|, i requires 0 <= i < |name| => if name[i] == '-' then '_' else name[i])
  }

  function Hyphenated(name: string): (r: string)
    ensures |r| == |name|
  {
    seq(|name|, i requires 0 <= i < |name| => if name[i] == '_' then '-' else name[i])
  }

  function UnderscoredAll(path: Path): (r: Path)
    ensures |r| == |path|
  {
    seq(|path|, i requires 0 <= i < |path| => Underscored(path[i]))
  }

  function HyphenatedAll(path: Path): (r: Path)
    ensures |r| == |path|
  {
    seq(|path|, i requires 0 <= i < |path| => Hyphenated(path[i]))
  }

  predicate AsciiLower(c: char) { 'a' <= c <= 'z' }

  predicate AsciiDigit(c: char) { '0' <= c <= '9' }

  /** A path segment: ASCII letters, digits, `_` or `-`, and not empty. */
  predicate ValidSegment(segment: string)
  {
    segment != [] &&
    forall i :: 0 <= i < |segment| ==>
      AsciiLower(segment[i]) || 'A' <= segment[i] <= 'Z' || AsciiDigit(segment[i]) || segment[i] == '_' || segment[i] == '-'
  }

  /** `ProviderId::new` (crates/spotuify-core/src/provider.rs). */
  predicate ValidProviderId(id: string)
  {
    id != [] && AsciiLower(id[0]) &&
    forall i :: 0 < i < |id| ==> AsciiLower(id[i]) || AsciiDigit(id[i]) || id[i] == '-'
  }

  datatype PathError = Blank | BadSegment | BadProviderId

  datatype ConfigPath = ConfigPath(canonical: Path, alias: Option<Path>)

  function Canonicalize(segments: Path): (r: Result<Path, PathError>)
  {
    var normalized := UnderscoredAll(segments);
    if |normalized| == 1 && normalized[0] in ROOT_KEYS then
      Ok([PROVIDERS, SPOTIFY, normalized[0]])
    else if normalized == [SPOTIFYD, DEVICE_NAME] then
      Ok([PROVIDERS, SPOTIFY, PLAYER, DEVICE_NAME])
    else if normalized == [PLAYER, EVENT_HOOK] then
      Ok([ANALYTICS, HOOK_COMMAND])
    else if |normalized| > 1 && normalized[0] == PLAYER then
      Ok([PROVIDERS, SPOTIFY, PLAYER] + normalized[1..])
    else if |normalized| > 2 && normalized[0] == PROVIDERS then
      var id := Hyphenated(normalized[1]);
      if ValidProviderId(id) then Ok([PROVIDERS, id] + normalized[2..]) else Err(BadProviderId)
    else
      Ok(normalized)
  }

  function Parse(segments: Path): (r: Result<ConfigPath, PathError>)
  {
    if segments == [] then Err(Blank)
    else if exists i :: 0 <= i < |segments| && !ValidSegment(segments[i]) then Err(BadSegment)
    else
      var canonical :- Canonicalize(segments);
      Ok(ConfigPath(canonical, if canonical != segments then Some(segments) else None))
  }

  predicate IsLegacyProviderAlias(path: ConfigPath)
  {
    match path.alias
    case None => false
    case Some(alias) =>
      !(|alias| > 1 && alias[0] == PROVIDERS) &&
      (alias in {[CLIENT_ID], ["client-id"], [CLIENT_SECRET], ["client-secret"], [REDIRECT_URI], ["redirect-uri"]}
       || (|alias| > 1 && alias[0] == PLAYER && alias != [PLAYER, EVENT_HOOK] && alias != [PLAYER, "event-hook"])
       || alias == [SPOTIFYD, DEVICE_NAME]
       || alias == [SPOTIFYD, "device-name"])
  }

  /** The older, unscoped spellings a canonical path used to have. */
  function FlatSpellings(canonical: Path): (r: seq<Path>)
  {
    if |canonical| == 3 && canonical[..2] == [PROVIDERS, SPOTIFY] && canonical[2] in ROOT_KEYS then [[canonical[2]]]
    else if canonical == [ANALYTICS, HOOK_COMMAND] then [[PLAYER, EVENT_HOOK]]
    else if canonical == [PROVIDERS, SPOTIFY, PLAYER, DEVICE_NAME] then [[PLAYER, DEVICE_NAME], [SPOTIFYD, DEVICE_NAME]]
    else if |canonical| > 3 && canonical[..3] == [PROVIDERS, SPOTIFY, PLAYER] then [[PLAYER] + canonical[3..]]
    else []
  }

  /** Canonical, flat and as-typed spellings. */
  function PlainSpellings(path: ConfigPath): (r: seq<Path>)
  {
    [path.canonical] + FlatSpellings(path.canonical) + (if path.alias.Some? then [path.alias.value] else [])
  }

  /** Every spelling, the hyphenated ones last, repetitions included. */
  function Spellings(path: ConfigPath): (r: seq<Path>)
    ensures path.canonical in r && r[0] == path.canonical
  {
    var plain := PlainSpellings(path);
    plain + seq(|plain|, i requires 0 <= i < |plain| => HyphenatedAll(plain[i]))
  }

  /** The elements of `s` in order of first occurrence. */
  function Deduplicated(s: seq<Path>): (r: seq<Path>)
    ensures forall x :: x in r <==> x in s
    ensures forall i, j :: 0 <= i < j < |r| ==> r[i] != r[j]
  {
    if s == [] then []
    else
      var front := Deduplicated(s[..|s| - 1]);
      assert s == s[..|s| - 1] + [s[|s| - 1]];
      if s[|s| - 1] in front then front else front + [s[|s| - 1]]
  }

  method ReadCandidates(path: ConfigPath) returns (candidates: seq<Path>)
    ensures candidates == Deduplicated(Spellings(path))
  {
    var all := Spellings(path);
    candidates := [];
    var seen: set<Path> := {};
    for i := 0 to |all|
      invariant candidates == Deduplicated(all[..i])
      invariant forall p :: p in seen <==> p in candidates
    {
      assert all[..i + 1][..i] == all[..i];
      if all[i] !in seen {
        candidates := candidates + [all[i]];
        seen := seen + {all[i]};
      }
    }
    assert all[..|all|] == all;
  }

  lemma {:induction false} DeduplicatedKeepsFirst(s: seq<Path>)
    requires s != []
    ensures Deduplicated(s) != [] && Deduplicated(s)[0] == s[0]
  {
    if |s| > 1 {
      DeduplicatedKeepsFirst(s[..|s| - 1]);
    }
  }

  // ---- Canonicalisation ----

  lemma SpellingChangesCancel(path: Path)
    ensures UnderscoredAll(UnderscoredAll(path)) == UnderscoredAll(path)
    ensures UnderscoredAll(HyphenatedAll(path)) == UnderscoredAll(path)
  {
    forall i | 0 <= i < |path|
      ensures Underscored(Underscored(path[i])) == Underscored(path[i])
      ensures Underscored(Hyphenated(path[i])) == Underscored(path[i])
    {}
    assert UnderscoredAll(UnderscoredAll(path)) == UnderscoredAll(path);
    assert UnderscoredAll(HyphenatedAll(path)) == UnderscoredAll(path);
  }

  /** The names above contain no hyphen, so normalising leaves them alone. */
  lemma NamesAreNormal()
    ensures Underscored(PROVIDERS) == PROVIDERS && Underscored(PLAYER) == PLAYER && Underscored(SPOTIFYD) == SPOTIFYD
    ensures Underscored(SPOTIFY) == SPOTIFY && Hyphenated(SPOTIFY) == SPOTIFY && ValidProviderId(SPOTIFY)
    ensures Underscored(ANALYTICS) == ANALYTICS && Underscored(HOOK_COMMAND) == HOOK_COMMAND
    ensures Underscored(EVENT_HOOK) == EVENT_HOOK && Underscored(DEVICE_NAME) == DEVICE_NAME
    ensures forall name :: name in ROOT_KEYS ==> Underscored(name) == name
  {
  }

  /** Canonicalisation sees a path only through its underscored form. */
  lemma CanonicalizeIgnoresHyphens(p: Path, q: Path)
    requires UnderscoredAll(p) == UnderscoredAll(q)
    ensures Canonicalize(p) == Canonicalize(q)
  {
  }

  lemma ScopedIsFixed(path: Path)
    requires |path| > 2 && path[0] == PROVIDERS && ValidProviderId(path[1])
    requires Hyphenated(Underscored(path[1])) == path[1]
    requires forall i :: 2 <= i < |path| ==> Underscored(path[i]) == path[i]
    ensures Canonicalize(path) == Ok(path)
  {
    NamesAreNormal();
    assert [PROVIDERS, path[1]] + UnderscoredAll(path)[2..] == path;
  }

  /** Canonical paths are fixed points. */
  lemma CanonicalizeIsIdempotent(segments: Path)
    requires Canonicalize(segments).Ok?
    ensures Canonicalize(Canonicalize(segments).value) == Canonicalize(segments)
  {
    NamesAreNormal();
    SpellingChangesCancel(segments);
    var normalized := UnderscoredAll(segments);
    var canonical := Canonicalize(segments).value;
    assert forall i :: 0 <= i < |normalized| ==> Underscored(normalized[i]) == UnderscoredAll(normalized)[i];
    if |normalized| == 1 && normalized[0] in ROOT_KEYS {
      ScopedIsFixed(canonical);
    } else if normalized == [SPOTIFYD, DEVICE_NAME] {
      ScopedIsFixed(canonical);
    } else if normalized == [PLAYER, EVENT_HOOK] {
      NamesDiffer();
      assert UnderscoredAll(canonical) == canonical;
    } else if |normalized| > 1 && normalized[0] == PLAYER {
      ScopedIsFixed(canonical);
    } else if |normalized| > 2 && normalized[0] == PROVIDERS {
      ScopedIsFixed(canonical);
    }
  }

  /** A name with one underscore has exactly two spellings. */
  lemma TwoSpellings(typed: string, name: string, at: nat)
    requires Underscored(typed) == name && at < |name|
    requires forall i :: 0 <= i < |name| && i != at ==> name[i] != '_'
    ensures typed == name || typed == name[at := '-']
  {
    assert forall i :: 0 <= i < |name| ==> name[i] == if typed[i] == '-' then '_' else typed[i];
  }

  /** Each legacy name, typed either way. */
  lemma LegacySpellings(typed: string)
    ensures Underscored(typed) == CLIENT_ID ==> typed == CLIENT_ID || typed == "client-id"
    ensures Underscored(typed) == CLIENT_SECRET ==> typed == CLIENT_SECRET || typed == "client-secret"
    ensures Underscored(typed) == REDIRECT_URI ==> typed == REDIRECT_URI || typed == "redirect-uri"
    ensures Underscored(typed) == DEVICE_NAME ==> typed == DEVICE_NAME || typed == "device-name"
    ensures Underscored(typed) == EVENT_HOOK ==> typed == EVENT_HOOK || typed == "event-hook"
  {
    if Underscored(typed) == CLIENT_ID {
      TwoSpellings(typed, CLIENT_ID, 6);
      assert CLIENT_ID[6 := '-'] == "client-id";
    }
    if Underscored(typed) == CLIENT_SECRET {
      TwoSpellings(typed, CLIENT_SECRET, 6);
      assert CLIENT_SECRET[6 := '-'] == "client-secret";
    }
    if Underscored(typed) == REDIRECT_URI {
      TwoSpellings(typed, REDIRECT_URI, 8);
      assert REDIRECT_URI[8 := '-'] == "redirect-uri";
    }
    if Underscored(typed) == DEVICE_NAME {
      TwoSpellings(typed, DEVICE_NAME, 6);
      assert DEVICE_NAME[6 := '-'] == "device-name";
    }
    if Underscored(typed) == EVENT_HOOK {
      TwoSpellings(typed, EVENT_HOOK, 5);
      assert EVENT_HOOK[5 := '-'] == "event-hook";
    }
  }

  /** A name without underscores has one. */
  lemma OneSpelling(typed: string, name: string)
    requires Underscored(typed) == name
    requires forall i :: 0 <= i < |name| ==> name[i] != '_'
    ensures typed == name
  {
    assert forall i :: 0 <= i < |name| ==> name[i] == if typed[i] == '-' then '_' else typed[i];
  }

  predicate InSpotifyScope(path: Path)
  {
    |path| > 2 && path[0] == PROVIDERS && path[1] == SPOTIFY
  }

  /** The alias test picks out exactly the unscoped spellings of Spotify settings. */
  lemma LegacyAliasIff(segments: Path)
    requires Parse(segments).Ok?
    ensures var path := Parse(segments).value;
      IsLegacyProviderAlias(path) <==> InSpotifyScope(path.canonical) && segments[0] != PROVIDERS
  {
    var path := Parse(segments).value;
    if InSpotifyScope(path.canonical) && segments[0] != PROVIDERS {
      ScopedFromOutsideIsLegacy(segments);
    }
    if IsLegacyProviderAlias(path) {
      LegacyIsScoped(segments);
    }
  }

  lemma ScopedFromOutsideIsLegacy(segments: Path)
    requires Parse(segments).Ok? && InSpotifyScope(Parse(segments).value.canonical) && segments[0] != PROVIDERS
    ensures IsLegacyProviderAlias(Parse(segments).value)
  {
    var normalized := UnderscoredAll(segments);
    assert normalized[0] == Underscored(segments[0]);
    if normalized[0] == PROVIDERS {
      OneSpelling(segments[0], PROVIDERS);
      assert false;
    } else if |normalized| == 1 && normalized[0] in ROOT_KEYS {
      LegacySpellings(segments[0]);
      assert segments == [segments[0]];
    } else {
      OneSpelling(segments[0], normalized[0]);
      assert normalized[1] == Underscored(segments[1]);
      if normalized == [SPOTIFYD, DEVICE_NAME] {
        LegacySpellings(segments[1]);
        assert segments == [segments[0], segments[1]];
      } else if |segments| == 2 {
        assert normalized == [PLAYER, normalized[1]];
        LegacyHookSpelling(segments[1]);
      }
    }
  }

  lemma LegacyHookSpelling(typed: string)
    requires Underscored(typed) != EVENT_HOOK
    ensures typed != EVENT_HOOK && typed != "event-hook"
  {
    assert Underscored("event-hook") == EVENT_HOOK;
    NamesAreNormal();
  }

  lemma LegacyIsScoped(segments: Path)
    requires Parse(segments).Ok? && IsLegacyProviderAlias(Parse(segments).value)
    ensures InSpotifyScope(Parse(segments).value.canonical) && segments[0] != PROVIDERS
  {
    NamesAreNormal();
    var normalized := UnderscoredAll(segments);
    assert normalized[0] == Underscored(segments[0]);
    if |segments| == 1 {
      NamesDiffer();
      assert Underscored("client-id") == CLIENT_ID;
      assert Underscored("client-secret") == CLIENT_SECRET;
      assert Underscored("redirect-uri") == REDIRECT_URI;
    } else if segments[0] == PLAYER {
      if |segments| == 2 {
        assert segments == [PLAYER, segments[1]];
        assert normalized[1] == Underscored(segments[1]);
        LegacySpellings(segments[1]);
      }
    } else {
      assert Underscored("device-name") == DEVICE_NAME;
      assert normalized == [SPOTIFYD, DEVICE_NAME];
    }
  }

  /** The one canonical path whose flat spelling belongs to another setting. */
  const EVENT_HOOK_PATH: Path := [PROVIDERS, SPOTIFY, PLAYER, EVENT_HOOK]

  lemma FlatSpellingsCanonicalizeBack(canonical: Path, flat: Path)
    requires Canonicalize(canonical) == Ok(canonical) && flat in FlatSpellings(canonical)
    ensures canonical != EVENT_HOOK_PATH ==> Canonicalize(flat) == Ok(canonical)
    ensures canonical == EVENT_HOOK_PATH ==> Canonicalize(flat) == Ok([ANALYTICS, HOOK_COMMAND])
  {
    NamesAreNormal();
    if |canonical| == 3 && canonical[..2] == [PROVIDERS, SPOTIFY] && canonical[2] in ROOT_KEYS {
      assert UnderscoredAll(flat) == flat;
      assert canonical == [PROVIDERS, SPOTIFY, canonical[2]];
    } else if canonical == [ANALYTICS, HOOK_COMMAND] {
      assert UnderscoredAll(flat) == flat;
    } else if canonical == [PROVIDERS, SPOTIFY, PLAYER, DEVICE_NAME] && flat == [SPOTIFYD, DEVICE_NAME] {
      assert UnderscoredAll(flat) == flat;
      assert canonical[3] == DEVICE_NAME != EVENT_HOOK;
    } else {
      assert canonical[..3] == [PROVIDERS, SPOTIFY, PLAYER];
      assert flat == [PLAYER] + canonical[3..];
      PlayerSpellingCanonicalizesBack(canonical);
    }
  }

  lemma PlayerSpellingCanonicalizesBack(canonical: Path)
    requires Canonicalize(canonical) == Ok(canonical)
    requires |canonical| > 3 && canonical[..3] == [PROVIDERS, SPOTIFY, PLAYER]
    ensures canonical != EVENT_HOOK_PATH ==> Canonicalize([PLAYER] + canonical[3..]) == Ok(canonical)
    ensures canonical == EVENT_HOOK_PATH ==> Canonicalize([PLAYER] + canonical[3..]) == Ok([ANALYTICS, HOOK_COMMAND])
  {
    NamesAreNormal();
    var flat := [PLAYER] + canonical[3..];
    assert canonical == canonical[..3] + canonical[3..];
    CanonicalTailsAreNormal(canonical);
    assert UnderscoredAll(flat) == flat;
    assert flat[1..] == canonical[3..];
    if canonical == EVENT_HOOK_PATH {
      assert flat == [PLAYER, EVENT_HOOK];
    }
  }

  lemma CanonicalTailsAreNormal(canonical: Path)
    requires Canonicalize(canonical) == Ok(canonical)
    requires |canonical| > 2 && canonical[0] == PROVIDERS
    ensures forall i :: 2 <= i < |canonical| ==> Underscored(canonical[i]) == canonical[i]
  {
    NamesAreNormal();
    var normalized := UnderscoredAll(canonical);
    assert normalized[0] == PROVIDERS;
    assert forall i :: 2 <= i < |canonical| ==> canonical[i] == normalized[2..][i - 2];
  }

  lemma PlainSpellingCanonicalizesBack(segments: Path, candidate: Path)
    requires Parse(segments).Ok? && candidate in PlainSpellings(Parse(segments).value)
    requires Parse(segments).value.canonical != EVENT_HOOK_PATH
    ensures Canonicalize(candidate) == Ok(Parse(segments).value.canonical)
  {
    var path := Parse(segments).value;
    CanonicalizeIsIdempotent(segments);
    if candidate in FlatSpellings(path.canonical) {
      FlatSpellingsCanonicalizeBack(path.canonical, candidate);
    }
  }

  lemma SpellingsAre(path: ConfigPath, candidate: Path) returns (plain: Path)
    requires candidate in Spellings(path)
    ensures plain in PlainSpellings(path) && (candidate == plain || candidate == HyphenatedAll(plain))
  {
    var all := PlainSpellings(path);
    var i :| 0 <= i < |Spellings(path)| && Spellings(path)[i] == candidate;
    plain := if i < |all| then all[i] else all[i - |all|];
  }

  /** Every read candidate leads back to the path it was derived from, for every
      path but one: the flat spelling of `providers.spotify.player.event_hook`
      is the legacy name of `analytics.hook_command`. */
  lemma CandidatesCanonicalizeBackIff(segments: Path)
    requires Parse(segments).Ok?
    ensures var path := Parse(segments).value;
      (forall candidate :: candidate in Deduplicated(Spellings(path)) ==> Canonicalize(candidate) == Ok(path.canonical))
      <==> path.canonical != EVENT_HOOK_PATH
  {
    var path := Parse(segments).value;
    if path.canonical == EVENT_HOOK_PATH {
      CanonicalizeIsIdempotent(segments);
      EventHookCandidateStrays(path);
    } else {
      forall candidate | candidate in Deduplicated(Spellings(path))
        ensures Canonicalize(candidate) == Ok(path.canonical)
      {
        var plain := SpellingsAre(path, candidate);
        PlainSpellingCanonicalizesBack(segments, plain);
        SpellingChangesCancel(plain);
        CanonicalizeIgnoresHyphens(candidate, plain);
      }
    }
  }

  lemma EventHookCandidateStrays(path: ConfigPath)
    requires path.canonical == EVENT_HOOK_PATH && Canonicalize(path.canonical) == Ok(path.canonical)
    ensures [PLAYER, EVENT_HOOK] in Deduplicated(Spellings(path))
    ensures Canonicalize([PLAYER, EVENT_HOOK]) == Ok([ANALYTICS, HOOK_COMMAND])
    ensures [ANALYTICS, HOOK_COMMAND] != path.canonical
  {
    var flat := FlatSpellings(path.canonical)[0];
    assert flat == [PLAYER, EVENT_HOOK];
    FlatSpellingsCanonicalizeBack(path.canonical, flat);
    assert Spellings(path)[1] == flat;
  }
}
