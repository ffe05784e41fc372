# spotuify: a Dafny model of its hard parts

spotuify is a terminal client and daemon for music services. This project models
the parts of it whose correctness is not visible from any single function, and
proves what its documentation, comments and tests rely on:

* **Configuration** (`ConfigTree`, `ConfigPath`, `ConfigSections`, `ConfigLoad`,
  `LoadPrecedence`, `EnvironmentMerge`, `Migration`, `EnvironmentLoads`,
  `MigrationOverrides`, `LoadMeaning`, `LoadAcceptance`, `ConfigReads`,
  `MigrationReports`, `ConfigEdit`, `ConfigDocument`). A document is a finite tree
  of tables. The loader interprets legacy keys on the fly, the migrator rewrites
  them, and the editor writes and clears single settings. Main results: a migrated
  document means what the original meant, whatever credentials the environment
  brings, and under the overrides described below as gentle; exactly which documents
  load, on their own and with credentials in the environment; what a load holds for
  every setting, told from the document alone; a load warns of exactly what a migration
  changes; the three places that decide which provider a legacy key belongs to agree;
  what was set is read back and nothing else changes; credentials resolve by a fixed
  order of layers.
* **Concurrent edits** (`LockProtocol`, `ConfigCommits`). A state machine of any
  number of processes with the lock, the rename, crashes and I/O errors as steps.
  Main results: no lost update in any interleaving, a reported success is in the
  log, and, where the environment brings no overrides, exactly when a file that
  loads with the environment's credentials stays loadable.
* **Waiting for a mutation** (`FinalizeProtocol`) and **the event loop**
  (`EventStream`). Main results: a write is executed at most once against both kinds
  of daemon, a call returns what it last heard and raises for the listed reasons only,
  exactly which daemon answers let a call report success for a write that fails, and
  the event loop stops for the right reason and respects its silence limit and
  reconnect budget.
* **The queue merge** (`QueueMerge`). Main result: over whole histories of track
  changes and truncated fetches the shown queue is the server's true queue.
* **The audio analyzer** (`SpectrumFrames`, `SpectrumResponse`, `AudioAnalyzer`). Main
  results: the ring buffer is the last 2048 samples, bands stay between zero and the
  peak, they approach the levels heard at the rate the smoothing sets, and silence is
  reached in a bounded number of frames.
* **The ANSI-to-HTML compiler** (`AnsiHtml`, `AnsiTerminal`). Main results: the page
  decodes to the same characters with the same styles as the terminal stream, and
  looks the same as on a terminal with a pen of its own exactly where the terminal's
  colours fit bytes.
* **Printers and readers** (`TarArchive`, `CsvRows`, `ClockPosition`) and **row
  removal** (`ResourceUris`, `PlaylistRows`). Main results: round trips, and removal
  of exactly the requested rows.

Code that changes state step by step is a method or a class proved against a
specification function; the theorems are lemmas about those functions. Lemmas that
range over histories take an arbitrary sequence of steps.

`dafny verify dfyconfig.toml` checks everything.

## Where the code and its description differ

* An edit that reports failure may have changed the file: `atomic_write` tightens
  permissions and syncs the directory after the rename, and an error there is
  returned although the new contents are in place
  (crates/spotuify-config/src/document.rs:869-880). `LockProtocol.FailedEditsAndTheFile`
  says exactly when, and `LockProtocol.FailureAfterRenameKeepsTheWrite` is such a history.
* A set can make a file unloadable. It is checked against an empty environment
  (crates/spotuify-config/src/document.rs:192), while the program loads with its own
  (crates/spotuify-config/src/model.rs:738-745): after `providers.spotify.type` is set
  to something else, credentials in the environment have nowhere to go.
  `EnvironmentLoads.LoadsInEnvIff` gives the condition, `ConfigCommits.SetShutsTheEnvironmentOut`
  the case. Migrate and init do not shut credentials out.
* The environment also brings overrides (crates/spotuify-config/src/model.rs:166-174),
  and migration does not commute with all of them. It names the Spotify provider and
  its type, so afterwards no override can make another provider Spotify's: a flat
  `client_id` loads under `providers.home.type = "spotify"`, its migrated form does not
  (`MigrationOverrides.MigratedRefusesASecondSpotify`,
  `MigrationOverrides.SecondSpotifySplitsTheMigration`). Migrate and init can so make a
  loadable file unloadable (`ConfigCommits.MigrateCanShutAnOverrideOut`,
  `ConfigCommits.InitCanShutAnOverrideOut`). And an override of the provider's whole
  table leaves a flat credential in force before the migration and wipes it after
  (`MigrationOverrides.TableOverrideLosesAMovedKey`).
* With *gentle* overrides it does commute (`MigrationOverrides.MigrationPreservesOverriddenLoads`).
  Gentle excludes: giving the type `spotify` to another provider, by its `type` or in its
  whole table, and any other type to the Spotify provider; the whole tables `providers`,
  `providers.<target>`, `providers.<target>.player`, `analytics`, `player` and `spotifyd`;
  `providers.default` as a table; and anything below `providers.default`, the Spotify
  provider's type, a credential, a player setting, the hook command or a legacy key.
  Every other override is gentle.
* A call can return success for a write that fails. The finalising call does so when
  the daemon's receipt is neither final nor numbered, because there is nothing to
  wait on (crates/spotuify-cli/src/commands.rs:2044-2055); the plain call hands on any
  receipt, a failed one included (crates/spotuify-cli/src/commands.rs:4253).
  `FinalizeProtocol.SuccessMeansConfirmed` and `FinalizeProtocol.BlindAnswersMislead`
  show that, of the answers the modelled daemon gives, these and no others have that
  effect.
* "The last override wins" holds of overrides at or above a setting, not of leaf
  overrides alone: a later override of a whole table wipes an earlier one of a leaf
  in it (`LoadPrecedence.LaterTableWipesALeaf`).
* `client_id` and `providers.spotify.client_id` are spellings of one path, but read
  different places once the Spotify provider has another name
  (`ConfigEdit.RenamedProviderSplitsSpellings`).
* `config get` looks at more spellings than the loader knows: `client-id`, with a hyphen,
  is read as the client id and is nothing to the loader
  (crates/spotuify-config/src/path.rs:115-128, `LoadAcceptance.HyphenatedKeyIsReadButNotLoaded`).
  And a table in the place of a credential hides the flat one from the loader, but not
  from `get`. `ConfigReads.PlayerReadsWhatLoadsIff` and
  `ConfigReads.CredentialReadsWhatLoadsIff` say exactly when the two agree.
* Palette indices above 256 and direct colour components above 255 are printed with
  more than two digits, which is no CSS colour or another one
  (scripts/ansi_to_gallery.py:61-66); `AnsiTerminal.PageShowsTheTerminalIff` and
  `AnsiTerminal.SixDigitsIff` give the condition.
* The read candidates of `providers.spotify.player.event_hook` include
  `player.event_hook`, which is a legacy spelling of `analytics.hook_command`
  (crates/spotuify-config/src/path.rs:97-128). It is the only such path.
* A `player.event_hook` that is not a string loads, with the value ignored, but the
  migrated document does not load, so the migration is refused. It is the only way a
  document that loads can fail to migrate.
* The merge of a truncated queue with a cache that knows only part of the queue is
  not always the true queue; `QueueMerge.MergeShowsTruthIff` gives the condition.
* An empty CSV row and a row of one empty field print alike.

## Model

| member | source | states |
|---|---|---|
| `ConfigTree.SetSucceedsIff` | crates/spotuify-config/src/document.rs:701-723 | An insertion fails if and only if the path is empty or a proper prefix of it is a value rather than a table. |
| `ConfigTree.SetThenGet` | crates/spotuify-config/src/document.rs:691-723 | Looking up a path after inserting there gives what was inserted. |
| `ConfigTree.SetFrame` | crates/spotuify-config/src/document.rs:701-723 | An insertion changes no scalar that is not at or under its path, and no item unrelated to it. |
| `ConfigTree.SetThenGetUnder` | crates/spotuify-config/src/document.rs:691-723 | Under an inserted item lies what the item holds there, and nothing older. |
| `ConfigTree.SetThenGetAbove` | crates/spotuify-config/src/document.rs:691-723 | Above an inserted item lies the table that was there with the item put in. |
| `ConfigTree.RemoveThenGet` | crates/spotuify-config/src/document.rs:725-736 | After a removal nothing is found at the path. |
| `ConfigTree.RemoveFrame` | crates/spotuify-config/src/document.rs:725-736 | A removal, with its pruning of empty tables, changes no scalar outside the removed path. |
| `ConfigTree.RemoveNeverAdds` | crates/spotuify-config/src/document.rs:725-736 | A removal makes no item appear. |
| `ConfigTree.RemovePrunes` | crates/spotuify-config/src/document.rs:725-736 | A removal leaves no empty table on its way. |
| `ConfigPath.ReadCandidates` | crates/spotuify-config/src/path.rs:97-129 | The list with its set of seen spellings is the list of spellings without repetitions, in order of first occurrence. |
| `ConfigPath.CanonicalizeIsIdempotent` | crates/spotuify-config/src/path.rs:145-179 | A canonical path is a fixed point of canonicalisation, for every path that has one. |
| `ConfigPath.LegacyAliasIff` | crates/spotuify-config/src/path.rs:60-78 | The alias test picks out exactly the paths that mean a Spotify provider setting without naming `providers`. |
| `ConfigPath.CandidatesCanonicalizeBackIff` | crates/spotuify-config/src/path.rs:97-177 | Every read candidate of a path canonicalises back to it if and only if the path is not `providers.spotify.player.event_hook`. |
| `ConfigPath.EventHookCandidateStrays` | crates/spotuify-config/src/path.rs:97-177 | The flat candidate of that one path means `analytics.hook_command`. |
| `ConfigSections.RepairAlwaysValidates` | crates/spotuify-config/src/model.rs:395-615 | Whatever the sections held, normalising them leaves nothing that the final validation rejects, and normalising a second time changes nothing. |
| `ConfigLoad.ApplyOverrides` | crates/spotuify-config/src/model.rs:176-183 | The loop over the overrides is the left fold of single insertions and stops at the first that fails. |
| `LoadPrecedence.TargetsAgree` | crates/spotuify-config/src/model.rs:862-903 | In every document that loads with legacy keys, the loader and the editor attribute those keys to the same provider. |
| `LoadPrecedence.OverlayAgreesIff` | crates/spotuify-config/src/model.rs:185-232 | The override layer sends a legacy path to the editor's target if and only if that target is a valid provider id. |
| `LoadPrecedence.ThreeTargetsAgree` | crates/spotuify-config/src/model.rs:185-232 | In every document that loads with legacy keys, the editor, the override layer and the loader take a legacy path to mean the same provider. |
| `LoadPrecedence.CredentialPrecedence` | crates/spotuify-config/src/model.rs:837-1009 | In every successful resolution a Spotify credential is the nonblank environment value, else the provider's own key, else the flat legacy key. |
| `LoadPrecedence.LastOverrideWins` | crates/spotuify-config/src/model.rs:176-232 | For every list of overrides and every path: the item is what the last override at or above the path holds there, with later ones below it put in, and what the file held where no override touches it. |
| `LoadPrecedence.LastAtOrAboveDecides` | crates/spotuify-config/src/model.rs:176-183 | If nothing after it touches the path, the last override at or above it decides by what its value holds there. |
| `LoadPrecedence.FileShowsThrough` | crates/spotuify-config/src/model.rs:176-183 | A path that no override touches keeps what the file gave it. |
| `LoadPrecedence.LaterTableWipesALeaf` | crates/spotuify-config/src/model.rs:151-183 | A later override of the provider table removes a credential an earlier override set. |
| `LoadPrecedence.OverridesNeverSetFlatKeys` | crates/spotuify-config/src/model.rs:185-232 | No override lands at a flat legacy credential: such a path is resolved to the provider's own key. |
| `LoadPrecedence.CredentialLayers` | crates/spotuify-config/src/model.rs:773-1009 | For every document, environment and list of overrides that load: a Spotify credential is the nonblank environment value, else what overrides and file put at the provider's own key, else what they put at the flat legacy key. |
| `LoadPrecedence.OtherProvidersUntouched` | crates/spotuify-config/src/model.rs:837-1069 | Legacy and environment merging leave every provider that is not Spotify's exactly as the file and the overrides gave it, and lose none. |
| `LoadMeaning.LoadedDefault` | crates/spotuify-config/src/model.rs:1050-1069 | In every load, a named default is the loaded default and one of the loaded providers; without a named one the default is the only provider, or there is neither. |
| `LoadMeaning.DefaultIsChecked` | crates/spotuify-config/src/model.rs:1050-1069 | Two or more providers without a default, and a default that names no provider, never load. |
| `LoadMeaning.LoadedProviderIds` | crates/spotuify-config/src/model.rs:837-1069 | The loaded providers are the configured ones, and at most `spotify` besides; `default` is never one. |
| `LoadMeaning.LoadedProvidersAreSound` | crates/spotuify-config/src/model.rs:1007-1048 | Every loaded provider has a plain id and a type that is not blank, one at most is Spotify's, and its bitrate is 96, 160 or 320. |
| `LoadMeaning.LoadedCache` | crates/spotuify-config/src/model.rs:379-403 | Every cache setting of a load is the document's, repaired where it is out of range, or the default where the document is silent. |
| `LoadMeaning.LoadedNotifications` | crates/spotuify-config/src/model.rs:480-515 | The same of every notification setting; blank templates become the default ones. |
| `LoadMeaning.LoadedDiscordAndTheme` | crates/spotuify-config/src/model.rs:517-612 | The same of the Discord settings and the theme. |
| `LoadMeaning.LoadedViz` | crates/spotuify-config/src/model.rs:531-588 | The same of every visualiser setting: frame rate, smoothing and gate are cut off at their limits, unknown names become the default ones. |
| `LoadMeaning.LoadedAnalytics` | crates/spotuify-config/src/model.rs:405-478 | The same of every number and flag of the analytics section. |
| `LoadMeaning.LoadedAccountAndHook` | crates/spotuify-config/src/model.rs:457-478 | The Last.fm account is the environment's, else the document's, trimmed; the hook is the section's, else a legacy one that is a string. |
| `LoadAcceptance.SectionsDecodeIff` | crates/spotuify-config/src/model.rs:380-615 | The sections decode if and only if every section is a table or absent and every known key in it is absent or of its type and in the range of its integer type. |
| `LoadAcceptance.LoadsIff` | crates/spotuify-config/src/model.rs:773-1069 | A document loads on its own if and only if its sections decode, `providers` is a table, each provider has a plain id, a type and, if it is Spotify's, player settings in order after legacy keys have filled the gaps, one at most is Spotify's, legacy keys have one home and legacy tables are tables, and the default is one of the providers or can be left out. |
| `LoadAcceptance.LoadsInEveryEnvIff` | crates/spotuify-config/src/model.rs:928-1069 | With credentials in the environment: if and only if it loads on its own and has a place for them, or it has no provider and its default is absent or `spotify`. For every document. |
| `LoadAcceptance.HyphenatedKeyIsReadButNotLoaded` | crates/spotuify-config/src/path.rs:115-128 | A document with nothing but `client-id` loads without a client id, and reading `client_id` finds one. |
| `MigrationPreservesMeaning.AllMovesView` | crates/spotuify-config/src/document.rs:317-352 | On a well-shaped document every move succeeds, the moves together empty all legacy places into the canonical ones, and a change is recorded if and only if there was a legacy key. |
| `MigrationPreservesMeaning.MergeMatchesMoves` | crates/spotuify-config/src/model.rs:1213-1311 | The table the loader merges on the fly is the table the migration's moves build, up to an empty `player` table. |
| `MigrationPreservesMeaning.NothingToMigrate` | crates/spotuify-config/src/document.rs:290-372 | Without legacy keys a migration changes nothing and reports nothing. |
| `MigrationPreservesMeaning.MigrationPreservesLoad` | crates/spotuify-config/src/document.rs:274-385 | If a document loads and its migration succeeds, the result loads with the same default provider, the same sections and the same scalar at every provider path, without deprecation warnings, and migrating again changes nothing. |
| `MigrationPreservesMeaning.MigrationSucceedsIff` | crates/spotuify-config/src/document.rs:341-367 | A document that loads can be migrated if and only if its legacy hook is a string, is absent, or is shadowed by `analytics.hook_command`. |
| `MigrationPreservesMeaning.HookDocumentMigratesIff` | crates/spotuify-config/src/model.rs:801-808 | A document with nothing but `player.event_hook` loads whatever the hook is, and can be migrated if and only if it is a string; `player.event_hook = 5` cannot. |
| `MigrationPreservesMeaning.MigrationPreservesEveryLoad` | crates/spotuify-config/src/model.rs:773-1069 | If a document loads on its own and its migration succeeds, then whatever credentials the environment brings, the migrated document loads if and only if the original does, with the same default provider, sections and scalars; if there was something to migrate, both load. |
| `MigrationReports.WarningsAreTheChanges` | crates/spotuify-config/src/document.rs:317-352 | If a document loads and its migration succeeds, the load's deprecation warnings are the migration's changes: the same keys and places, ignored exactly where a duplicate was removed. |
| `MigrationReports.WarningsMean` | crates/spotuify-config/src/model.rs:1213-1311 | A load warns of exactly the legacy keys in the document, each with the place it belongs in, and calls a key ignored exactly when that place, or for the daemon's device name the player's own, is taken. |
| `MigrationReports.MovesReport` | crates/spotuify-config/src/document.rs:650-681 | On a well-shaped document all moves together report every legacy key and whether its place was taken when its turn came. |
| `MigrationReports.MigrationClears` | crates/spotuify-config/src/document.rs:274-385 | Whatever document it is given, a migration that succeeds leaves no legacy key, and reports nothing exactly where there was none. |
| `EnvironmentLoads.LoadsInEnvIff` | crates/spotuify-config/src/model.rs:928-988 | A document that loads on its own loads in an environment if and only if that brings no Spotify credential, or the document has legacy keys, no provider, or a provider of type `spotify`. |
| `EnvironmentLoads.MigratedAcceptsEnv` | crates/spotuify-config/src/document.rs:354-367 | What a migration writes loads whatever credentials the environment brings. |
| `EnvironmentLoads.TypeChangeShutsTheEnvironmentOut` | crates/spotuify-config/src/document.rs:167-194 | Setting the type of the only Spotify provider to another is accepted, and with a client id in the environment the document loaded before and not after. |
| `MigrationOverrides.MigrationPreservesOverriddenLoads` | crates/spotuify-config/src/model.rs:773-1069 | If a document loads, with and without the overrides, its migration succeeds, and the overrides are gentle if it has legacy keys, then in every environment the migrated document loads under the overrides if and only if the original does, with the same default provider, sections and scalars; with legacy keys both load. |
| `MigrationOverrides.OverridesStayBeside` | crates/spotuify-config/src/model.rs:176-232 | Gentle overrides and migration commute: overriding a document and its migrated form keeps the one the migrated form of the other. |
| `MigrationOverrides.GentleKeepsTheTarget` | crates/spotuify-config/src/model.rs:185-232 | A gentle override does not change which provider is Spotify's. |
| `MigrationOverrides.SecondSpotifyIsRefused` | crates/spotuify-config/src/model.rs:1038-1048 | A document without legacy keys that has its Spotify provider loads under no override that gives another provider the type `spotify`, in any environment. |
| `MigrationOverrides.MigratedRefusesASecondSpotify` | crates/spotuify-config/src/document.rs:354-367 | For every document and every other provider id: the migrated document does not load under `providers.<id>.type = "spotify"`. |
| `MigrationOverrides.SecondSpotifySplitsTheMigration` | crates/spotuify-config/src/model.rs:862-926 | A flat client id loads, migrates, and loads under `providers.home.type = "spotify"`; its migrated form does not load under it. |
| `MigrationOverrides.TableOverrideLosesAMovedKey` | crates/spotuify-config/src/model.rs:176-232 | For every migrated flat credential: an override of the provider's whole table leaves the flat key in the original, and no credential in the migrated document. |
| `ConfigEdit.SetThenGetValue` | crates/spotuify-config/src/document.rs:127-194 | After a successful set, reading by the same path gives that value. |
| `ConfigEdit.OtherSpellingReadsIff` | crates/spotuify-config/src/document.rs:127-268 | Another spelling of the path reads the value that was set if it resolves to the same target, and otherwise reads something that does not depend on that value. |
| `ConfigEdit.RenamedProviderSplitsSpellings` | crates/spotuify-config/src/document.rs:196-268 | With the Spotify provider called `home`, `client_id` reads its credential and `providers.spotify.client_id` reads nothing. |
| `ConfigEdit.ClearThenGetNothing` | crates/spotuify-config/src/document.rs:167-217 | After a successful clear, reading by the same path gives nothing: neither its target nor any spelling that path looks up holds a value. |
| `ConfigEdit.EditFrame` | crates/spotuify-config/src/document.rs:167-217 | Every scalar that is not at or under the target or a removed spelling is what it was. |
| `ConfigEdit.TargetIsStable` | crates/spotuify-config/src/document.rs:219-268 | An edit changes the target of no spelling of the edited path. |
| `ConfigEdit.SpellingsMissTheTarget` | crates/spotuify-config/src/document.rs:209-217 | No spelling that an edit removes is the target or a table on the way to it. |
| `ConfigEdit.SetDropsOtherSpellings` | crates/spotuify-config/src/document.rs:174-181 | After a set no other spelling it may touch holds anything. |
| `ConfigEdit.SetValueSucceedsIff` | crates/spotuify-config/src/document.rs:167-194 | A set succeeds if and only if its path has a target, no value is on the way there, and the edited document loads; only a legacy path can be without a target. |
| `ConfigReads.ReadsTargetThenFlatsIff` | crates/spotuify-config/src/document.rs:196-207 | A Spotify setting is read from its target, else from its flat spellings in order, exactly where these hold something or no other spelling does. |
| `ConfigReads.PlayerReadsWhatLoadsIff` | crates/spotuify-config/src/document.rs:127-138 | In every document that loads, reading a player setting of the Spotify provider finds what the load holds there, if and only if the load holds something or no other spelling does. |
| `ConfigReads.CredentialReadsWhatLoadsIff` | crates/spotuify-config/src/document.rs:127-138 | The same of a credential, but for one that a table hides from the loader. |
| `ConfigReads.LoadedPlayerItem` | crates/spotuify-config/src/model.rs:1234-1311 | With legacy keys a loaded player setting is the provider's own, else the one in `player`, else, for the device name, the one in `spotifyd`. |
| `ConfigDocument.Document.SetItem` | crates/spotuify-config/src/document.rs:701-723 | The descent, with the tables it makes on the way, fails exactly when the path is blank or crosses a value, and then changes nothing; otherwise the item is found at the path and every other scalar is as before. |
| `ConfigDocument.Document.MovePath` | crates/spotuify-config/src/document.rs:650-681 | One move in place: the canonical place is filled unless taken, the legacy key goes, the change is appended; on failure nothing changes. |
| `ConfigDocument.Document.SetIfMissing` | crates/spotuify-config/src/document.rs:683-689 | A present item is kept, a missing one is inserted. |
| `ConfigDocument.Document.RunMoves` | crates/spotuify-config/src/document.rs:317-352 | The moves in order, their changes collected, up to the first that fails. |
| `ConfigDocument.Document.Migrate` | crates/spotuify-config/src/document.rs:274-385 | The migration in place has the result, the changes and the errors of the migration function. |
| `ConfigDocument.Document.RemoveAll` | crates/spotuify-config/src/document.rs:177-188 | All stale spellings are removed, one after the other. |
| `ConfigDocument.Document.SetValue` | crates/spotuify-config/src/document.rs:167-194 | The edit in place has the result and the errors of the edit function. |
| `ConfigDocument.MergeRootKey` | crates/spotuify-config/src/model.rs:1213-1232 | A flat key fills its gap only, and is reported either way. |
| `ConfigDocument.MergeEntries` | crates/spotuify-config/src/model.rs:1257-1281 | Walking a legacy player table in any order fills exactly the gaps and reports exactly the legacy entries. |
| `ConfigDocument.MergePlayer` | crates/spotuify-config/src/model.rs:1234-1283 | The loop with its warnings list computes the merged player table and its reports, or the same error. |
| `ConfigDocument.MergeSpotifyd` | crates/spotuify-config/src/model.rs:1285-1311 | The device name is taken only where the provider's player has none. |
| `ConfigDocument.MergeLegacyTables` | crates/spotuify-config/src/model.rs:904-926 | The merge in the loader's order gives the merged table and all its warnings. |
| `LockProtocol.EveryStepKeepsTheInvariant` | crates/spotuify-config/src/document.rs:836-928 | Lock ownership, plans that fit the current file, the log of versions and commit ownership survive every step of every process. |
| `LockProtocol.NoLostUpdate` | crates/spotuify-config/src/document.rs:167-194 | In every state of every interleaving the file is the newest committed version, and each commit was computed from the version just before it. |
| `LockProtocol.MutualExclusion` | crates/spotuify-config/src/document.rs:884-928 | Two processes are never between acquiring and releasing at once. |
| `LockProtocol.FailedEditsAndTheFile` | crates/spotuify-config/src/document.rs:836-922 | An edit that reports failure has committed if and only if its failing step came after its rename in the history; a timeout, a refusal or an earlier error never has; nobody commits twice. |
| `LockProtocol.CommittedIffRenamed` | crates/spotuify-config/src/document.rs:836-882 | A process has committed if and only if it took its rename. |
| `LockProtocol.SuccessMeansDone` | crates/spotuify-config/src/document.rs:112-194 | A process that reports success has its own request's write in the log, computed from the version before it, or there is a version its request leaves as it is. |
| `LockProtocol.FailureHasAReason` | crates/spotuify-config/src/document.rs:836-922 | A failure before the rename is an I/O error of the process itself, or its request refuses a version of the file. |
| `LockProtocol.TimeoutTakesTenSeconds` | crates/spotuify-config/src/document.rs:889-922 | A process that gives up on the lock asked for it at least ten seconds earlier, and another process holds it. |
| `LockProtocol.FailureAfterRenameKeepsTheWrite` | crates/spotuify-config/src/document.rs:865-880 | A history in which an edit reports failure and its contents are in the file. |
| `ConfigCommits.TemplateLoads` | crates/spotuify-config/src/document.rs:17-71 | The template that `init` writes loads. |
| `ConfigCommits.TemplateHoldsTheDefaults` | crates/spotuify-config/src/document.rs:17-71 | The template holds the defaults: it loads with the sections of an empty document. |
| `ConfigCommits.PlannedWritesLoad` | crates/spotuify-config/src/document.rs:112-385 | What a set, migrate or init writes, whatever it read, loads without overrides and with the environment's credentials if and only if there are none or the written document has a place for one; what migrate and init write then loads with any; under overrides the same holds of the overridden document if that loads without credentials. |
| `ConfigCommits.CommittedVersionsLoad` | crates/spotuify-config/src/document.rs:112-194 | In every interleaving, the same of every committed version, without overrides; so a file that loads with the environment's credentials stays loadable unless a set leaves no place for one. |
| `ConfigCommits.MigrateStaysLoadable` | crates/spotuify-config/src/document.rs:354-367 | Under gentle overrides a migration keeps a loadable file loadable, in every environment. |
| `ConfigCommits.MigrateCanShutAnOverrideOut` | crates/spotuify-config/src/document.rs:354-367 | Under `providers.home.type = "spotify"` a file loads and what its migration writes does not. |
| `ConfigCommits.InitCanShutAnOverrideOut` | crates/spotuify-config/src/document.rs:112-121 | Under the same override a missing file loads and the template does not. |
| `ConfigCommits.SetShutsTheEnvironmentOut` | crates/spotuify-config/src/document.rs:191-193 | A set after which a file no longer loads with a client id in the environment, where it did before. |
| `ConfigCommits.SuccessfulSetIsCommitted` | crates/spotuify-config/src/document.rs:167-194 | In every interleaving, a set that reports success is in the log, and reading its version by the same path gives what was set, or nothing after a clear. |
| `ConfigCommits.PlansHaveReasons` | crates/spotuify-config/src/document.rs:112-385 | Init keeps any file and writes only where there is none; migrate keeps a file exactly if it has no legacy keys, writes one without any, and refuses a file that loads exactly for a hook that cannot move; a set writes what the edit of the file, or of the template, succeeds with, and refuses only where that fails. |
| `ConfigCommits.SuccessfulMigrationIsDone` | crates/spotuify-config/src/document.rs:274-385 | In every interleaving, when a migration reports success there is a version of the file without legacy keys. |
| `ConfigCommits.CommitsSayWhatTheyDid` | crates/spotuify-config/src/document.rs:112-121 | In every interleaving, init commits the template and only where there was no file, a migration without a file too, and a migration of a file commits only if that had legacy keys. |
| `FinalizeProtocol.EveryRunKeepsTheInvariant` | crates/spotuify-cli/src/commands.rs:1977-2207 | Copies are accounted for, what the daemon said is true of the write, and the deadlines hold, in every reachable state. |
| `FinalizeProtocol.AtMostOnce` | crates/spotuify-cli/src/commands.rs:2056-2207 | The write is executed at most once in every history, with a deduplicating daemon and with one that executes every copy; to the latter only one copy is ever sent. |
| `FinalizeProtocol.SuccessMeansConfirmed` | crates/spotuify-cli/src/commands.rs:2004-2207 | Success with a Confirmed receipt, or after waiting, means the write was confirmed; in every other case what is returned is the daemon's own answer, of a kind that does not tell how the write ends. |
| `FinalizeProtocol.EndsWithWhatItHeard` | crates/spotuify-cli/src/commands.rs:2035-2207 | A call that ends returns word for word what it was told in that step, and raises exactly if it was refused, lost its answer or its connection, reached its deadline, or waited and was told of a failure. |
| `FinalizeProtocol.ConfirmationIsReturned` | crates/spotuify-cli/src/commands.rs:2035-2207 | A waiting call that is told its write is confirmed, by the first answer, a poll, the final answer, or an event it does not follow up, returns that; a plain call returns whatever it is told. |
| `FinalizeProtocol.ResultIsTheLastThingHeard` | crates/spotuify-cli/src/commands.rs:2035-2207 | Every history that has ended ended in one step, with what that step brought. |
| `FinalizeProtocol.ConfirmedRunsSucceed` | crates/spotuify-cli/src/commands.rs:2186-2207 | Every history in which a waiting call is so told of a confirmed write ends in success with that receipt. |
| `FinalizeProtocol.NothingHeardIsIgnored` | crates/spotuify-cli/src/commands.rs:2004-2207 | A refusal ends the call, but for a read that has to log in, which is sent once more; being cut off ends it; a pending answer is waited on for a minute. |
| `FinalizeProtocol.PatienceLastsAMinute` | crates/spotuify-cli/src/commands.rs:2056-2135 | A waiting call gives up no earlier than a minute after the answer it waits on. |
| `FinalizeProtocol.PollsKeepUp` | crates/spotuify-cli/src/commands.rs:2126-2135 | In every history a wait for an event begins at most two seconds after the last poll was due. |
| `FinalizeProtocol.PollIsSent` | crates/spotuify-cli/src/commands.rs:2126-2135 | Half a second after the last one a client that may replay sends a poll. |
| `FinalizeProtocol.BlindAnswersMislead` | crates/spotuify-cli/src/commands.rs:2044-2055 | Every answer of that kind does mislead: some history returns it as a success although the write failed. |
| `FinalizeProtocol.FailedReceiptIsReturnedIff` | crates/spotuify-cli/src/commands.rs:4241-4299 | A Failed receipt is returned as a success exactly by the plain call, and exactly when the daemon answered with one. |
| `FinalizeProtocol.UnnumberedReceiptHidesAFailure` | crates/spotuify-cli/src/commands.rs:2044-2055 | A finalising call returns success for a failed write when the pending receipt has no id. |
| `FinalizeProtocol.PlainCallReturnsAFailedReceipt` | crates/spotuify-cli/src/commands.rs:4241-4253 | The plain call returns a Failed receipt as a success. |
| `FinalizeProtocol.BoundedWait` | crates/spotuify-cli/src/commands.rs:1997-2135 | However long starting, connecting and subscribing took, the call is busy for at most 120.1 s after sending the request, and sends at most 122 copies. |
| `FinalizeProtocol.ReplayToLegacyDaemonExecutesTwice` | crates/spotuify-cli/src/commands.rs:154-160 | Without the catalog rule a replay to a legacy daemon executes the write twice. |
| `EventStream.StreamEvents` | crates/spotuify-cli/src/commands.rs:1163-1236 | Lines written are the kind-filtered received events in order; the loop stops at the first turn that ends it and in the way that turn says (interrupt, sixth consecutive drop, closed pipe, failed write, the one line asked for), or at the silence limit; the clock runs exactly as reads, backoffs and reconnects say and never passes the limit after the last line; the longest outage slept is the one returned and at most 6.2 s; `--once` writes at most one line. |
| `EventStream.SelectedEvents` | crates/spotuify-cli/src/commands.rs:1223-1225 | Without a filter every event is wanted; with one, exactly those of its kinds, each as often as it came. |
| `EventStream.Within` | crates/spotuify-cli/src/commands.rs:1241-1253 | Bounded work gets done exactly if there is time for it, ends by the deadline, and ends at it if it did not get done. |
| `EventStream.Recover` | crates/spotuify-cli/src/commands.rs:1196-1215 | Backing off and reconnecting stay inside what is left of the silence budget, and the time slept is the backoff as far as the budget allows. |
| `EventStream.OutageSleeps` | crates/spotuify-cli/src/commands.rs:1187-1221 | An outage sleeps at most what the drops it survived allow, exactly that without a silence limit, and never more than 6.2 s. |
| `EventStream.TotalBackoffIs` | crates/spotuify-cli/src/commands.rs:1122-1123 | The delays of an outage add up to the base delay times 2^drops - 1. |
| `EventStream.BackoffBudget` | crates/spotuify-cli/src/commands.rs:1122-1123 | An outage that is survived sleeps at most 6.2 s, and exactly that after five drops. |
| `QueueMerge.ReattachCachedTail` | crates/spotuify-core/src/queue_merge.rs:42-105 | The imperative merge computes the merge function, items, session flag and time stamp; a shuffled fetch and one without an anchor come back as they were. |
| `QueueMerge.UntouchedFetches` | crates/spotuify-core/src/queue_merge.rs:42-120 | A complete snapshot, a shuffled fetch and one without an anchor come back exactly as fetched, for every cache and time. |
| `QueueMerge.MergedWindow` | crates/spotuify-core/src/queue_merge.rs:56-102 | What any other fetch becomes: the playing track is the fetched one, the time stamp is new exactly where the cache knows the anchor or a fresh cache is kept, and the session flag changes only in the latter case. |
| `QueueMerge.AddedIff` | crates/spotuify-core/src/queue_merge.rs:56-102 | A cached item is added to a window if and only if the cache lists it after the anchor and the window does not have it. |
| `QueueMerge.MergeKeepsDistinct` | crates/spotuify-core/src/queue_merge.rs:42-105 | Merging lists of distinct URIs never duplicates one. |
| `QueueMerge.RemergeIsIdempotent` | crates/spotuify-core/src/queue_merge.rs:42-137 | Merging the same fetch into the merged queue changes neither what plays nor what is next, for any inputs. |
| `QueueMerge.MergeRestoresTheTail` | crates/spotuify-core/src/queue_merge.rs:42-137 | A window of any length and a full, possibly outdated cache merge to the true remaining list. |
| `QueueMerge.CacheStaysFull` | crates/spotuify-core/src/queue_merge.rs:107-137 | The cache stays a full queue over every history of advances and fetches. |
| `QueueMerge.EveryFetchShowsTheTrueQueue` | crates/spotuify-core/src/queue_merge.rs:42-137 | Over every unshuffled history the list after each fetch is the server's true remaining list. |
| `QueueMerge.MergeShowsTruthIff` | crates/spotuify-core/src/queue_merge.rs:42-105 | With a cache that knows only part of the queue, the list is the true one if and only if the known part and the window reach the end without a gap and no stale cache is preserved. |
| `QueueMerge.StaleCacheIsShown` | crates/spotuify-core/src/queue_merge.rs:42-105 | A fresh cache kept under an empty fetch shows a track that has already played. |
| `QueueMerge.GapIsShown` | crates/spotuify-core/src/queue_merge.rs:42-105 | A window behind a cache that ends before it leaves the rest of the queue missing. |
| `SpectrumFrames.EveryOpKeepsTheInvariant` | crates/spotuify-audio/src/analyzer.rs:78-244 | Every push, frame and parameter change keeps 0 <= band <= peak <= 0.85. |
| `SpectrumFrames.BandsStayInRange` | crates/spotuify-audio/src/analyzer.rs:123-244 | The same over every history, through smoothing, gating, decay and transform failure. |
| `SpectrumFrames.SilenceIsReached` | crates/spotuify-audio/src/analyzer.rs:135-162 | With a positive gate and only quieter samples, all bands and the peak are exactly zero after 17 / gate frames, for any smoothing the setter allows. |
| `SpectrumFrames.ChunkingDoesNotMatter` | crates/spotuify-audio/src/analyzer.rs:86-91 | However the stream is cut into pushes, and whatever frames and parameter changes come in between, the window is the last 2048 of all samples. |
| `SpectrumResponse.LevelsAreApproached` | crates/spotuify-audio/src/analyzer.rs:229-244 | Without a gate, in a loud window and with the same transform every frame, after n frames every band and the peak differ from their level by smoothing^n times the first difference. |
| `SpectrumResponse.LevelsAreShownAtOnce` | crates/spotuify-audio/src/analyzer.rs:229-244 | With smoothing zero one frame shows the levels, but for the gated ones. |
| `SpectrumResponse.SilenceDecays` | crates/spotuify-audio/src/analyzer.rs:151-162 | After n quiet frames every band and the peak are zero or smoothing^n times what they were. |
| `SpectrumResponse.LevelsMeasurePower` | crates/spotuify-audio/src/analyzer.rs:186-227 | With a true square root, a level below the ceiling squares to the band's average relative to the loudest bin, weighted by its gain and the ceiling; at the ceiling that power is at least its square; a silent transform gives zero. |
| `SpectrumResponse.BandsTileTheBins` | crates/spotuify-audio/src/analyzer.rs:186-202 | Every bin but the two ends lies in exactly one band, the lower bands are octaves and the upper ones halves of one, and gains do not fall. |
| `SpectrumResponse.FailedTransformShowsTheLastFrame` | crates/spotuify-audio/src/analyzer.rs:140-148 | A failed transform leaves the analyzer as it is. |
| `AudioAnalyzer.AudioAnalyzer.constructor` | crates/spotuify-audio/src/analyzer.rs:61-76 | A new analyzer holds 2048 zeros and silent bands. |
| `AudioAnalyzer.AudioAnalyzer.SetVisualParams` | crates/spotuify-audio/src/analyzer.rs:78-81 | Smoothing is clamped to 0..0.95 and the gate to 0..1; nothing else changes. |
| `AudioAnalyzer.AudioAnalyzer.PushSamples` | crates/spotuify-audio/src/analyzer.rs:86-91 | The ring read from the write position is the last 2048 of its old contents followed by the new samples. |
| `AudioAnalyzer.AudioAnalyzer.LatestWaveform` | crates/spotuify-audio/src/analyzer.rs:106-116 | Point i is sample i*2048/n of the window, always in range, and nothing is changed. |
| `AudioAnalyzer.OffsetsInOrder` | crates/spotuify-audio/src/analyzer.rs:106-116 | The sampled positions are nondecreasing: oldest first. |
| `AudioAnalyzer.AudioAnalyzer.Loudest` | crates/spotuify-audio/src/analyzer.rs:125-133 | The scan over the ring finds the largest absolute sample of the window. |
| `AudioAnalyzer.AudioAnalyzer.DecayToSilence` | crates/spotuify-audio/src/analyzer.rs:151-162 | Bands and peak shrink by the smoothing factor and are gated to zero; the window is unchanged. |
| `AudioAnalyzer.AudioAnalyzer.Approach` | crates/spotuify-audio/src/analyzer.rs:229-244 | Bands and peak move towards the new levels by the smoothing rule and are gated. |
| `AudioAnalyzer.AudioAnalyzer.Process` | crates/spotuify-audio/src/analyzer.rs:123-149 | One frame in place is the frame of the value model, for every outcome of the transform. |
| `AudioAnalyzer.Averages` | crates/spotuify-audio/src/analyzer.rs:186-202 | The loop over bands computes each band's average magnitude and the loudest bin of all. |
| `AudioAnalyzer.Levels` | crates/spotuify-audio/src/analyzer.rs:186-227 | The loop over bands computes every band's level. |
| `AnsiHtml.Style.ApplySgr` | scripts/ansi_to_gallery.py:106-157 | The cursor loop over the codes, with the arguments it skips, is the recursive meaning of an SGR sequence; what that meaning is, `AnsiTerminal.CodesInStep` says. |
| `AnsiHtml.PaletteAgrees` | scripts/ansi_to_gallery.py:51-62 | For text and for background, palette colours agree with the plain, bright and direct colours they stand for. |
| `AnsiHtml.CodesStaySafe` | scripts/ansi_to_gallery.py:106-157 | No sequence of codes can put a quote or a semicolon into a style. |
| `AnsiHtml.CssReadsBack` | scripts/ansi_to_gallery.py:87-103 | The style attribute, read as CSS declarations of which malformed colours are dropped, gives back the look's colours, with reverse video applied, and the four flags. |
| `AnsiHtml.AnsiToHtml` | scripts/ansi_to_gallery.py:160-190 | The single pass with its open style writes one span for each maximal run of equally styled text. |
| `AnsiHtml.RunsKeepMeaning` | scripts/ansi_to_gallery.py:160-190 | Grouping text into runs changes neither the characters nor their looks. |
| `AnsiHtml.DecodeText` | scripts/ansi_to_gallery.py:171-181 | Escaped text inside a span reads back as the text, whatever characters it holds. |
| `AnsiHtml.EscapedIsInert` | scripts/ansi_to_gallery.py:171-181 | Escaped text holds no angle bracket and no quote. |
| `AnsiHtml.HtmlKeepsMeaning` | scripts/ansi_to_gallery.py:160-190 | A reader that refuses nested, unbalanced or missing spans accepts the page and finds every character in order with its style; neighbouring spans differ in style. |
| `AnsiHtml.AttributesShowTheLook` | scripts/ansi_to_gallery.py:87-190 | Each character's style attribute makes the browser show the look in force, as far as its colours are CSS colours. |
| `AnsiTerminal.CodesInStep` | scripts/ansi_to_gallery.py:106-157 | The page's look stays in step with a terminal's pen, which keeps two numeric colours and five flags and follows section 8.3.117 of ECMA-48: the flags are the pen's and the colours are its printed colours, for every sequence of codes. |
| `AnsiTerminal.PaletteIs` | scripts/ansi_to_gallery.py:51-62 | The palette by index: base colours, the cube with its steps, and the grey ramp. |
| `AnsiTerminal.BaseColorsFollowTheBits` | scripts/ansi_to_gallery.py:27-32 | The sixteen base colours are what their numbers say: red, green and blue are bits, lit above the ones that are not, and bright colours are lighter than plain ones. |
| `AnsiTerminal.ColorReadsBackIff` | scripts/ansi_to_gallery.py:65-66 | A printed colour has six digits and reads back as itself if and only if its components fit a byte. |
| `AnsiTerminal.PaletteIsSmallIff` | scripts/ansi_to_gallery.py:51-62 | The palette gives such a colour if and only if the index is at most 256. |
| `AnsiTerminal.SixDigitsIff` | scripts/ansi_to_gallery.py:143-156 | Every extended colour of a sequence prints as `#` and six digits if and only if no palette index exceeds 256 and no direct component 255. |
| `AnsiTerminal.PageShowsTheTerminalIff` | scripts/ansi_to_gallery.py:87-190 | Every character of the page looks as on a terminal that threads its own pen through the stream if and only if its colours there fit bytes: colours, bold, dim, italic, underline and reverse video. |
| `AnsiTerminal.PageShowsTheTerminal` | scripts/ansi_to_gallery.py:87-190 | When all sequences keep to those limits, the whole page looks as the terminal did. |
| `AnsiTerminal.ColorPastThePaletteIsDropped` | scripts/ansi_to_gallery.py:51-62 | Text in a palette colour above 256 falls back to the page's colour. |
| `AnsiTerminal.MalformedColors` | scripts/ansi_to_gallery.py:61-66 | Index 257 and the component 300 print as no colour, and two such components as another, translucent one. |
| `TarArchive.OctalFitsIff` | src/main.rs:2860-2878 | A number prints in exactly its field's digits if and only if it is below that power of eight. |
| `TarArchive.ChecksumFits` | src/main.rs:2876-2878 | The byte sum of a block always fits six octal digits and reads back. |
| `TarArchive.FillHeader` | src/main.rs:2849-2878 | The header array filled in place is the header by fields, with the checksum over spaces. |
| `TarArchive.WriteEntry` | src/main.rs:2848-2888 | Header, body and padding are appended. |
| `TarArchive.WriteArchive` | src/main.rs:2788-2791 | The loop writes the entries in order and then two zero blocks. |
| `TarArchive.HeaderVerifies` | src/main.rs:2868-2878 | Every header's checksum verifies. |
| `TarArchive.EntriesAligned` | src/main.rs:2880-2887 | Every entry starts at a multiple of 512. |
| `TarArchive.ArchiveReadsBack` | src/main.rs:2848-2894 | A ustar reader gives back all bodies, times, names, modes and owners, in order, for any files whose size and time fit eleven octal digits; a name comes back up to its first zero byte or its hundredth byte (see `NameComesBackIff`). |
| `TarArchive.FixedFieldsRead` | src/main.rs:2854-2858 | Mode, owner and group read back as 0644, 0 and 0. |
| `TarArchive.NameComesBackIff` | src/main.rs:2850-2853 | A name comes back whole if and only if it has at most 100 bytes and no zero byte. |
| `TarArchive.ChecksumCatchesOneByte` | src/main.rs:2868-2878 | Changing any one header byte outside the checksum field is noticed. |
| `CsvRows.ValueReadsBack` | crates/spotuify-cli/src/output.rs:2528-2534 | One printed field reads back, whatever commas, quotes, CRs or LFs it holds. |
| `CsvRows.QuotedIff` | crates/spotuify-cli/src/output.rs:2528-2534 | A field is printed as it is if and only if it holds no comma, quote, CR or LF. |
| `CsvRows.RowReadsBack` | crates/spotuify-cli/src/output.rs:2520-2534 | Every nonempty list of fields is recovered by a reader that follows section 2 of RFC 4180, and what follows the row is left alone. |
| `CsvRows.RowReadsBackIff` | crates/spotuify-cli/src/output.rs:2520-2526 | The empty list is the only one that does not come back. |
| `CsvRows.TableReadsBack` | crates/spotuify-cli/src/output.rs:2520-2534 | Whole tables of printed rows read back: a line end inside a field never ends a row. |
| `ClockPosition.ParsePosition` | crates/spotuify-cli/src/selection.rs:231-251 | Saturating at every operation gives the exact number of milliseconds, cut off once; each kind of bad input gives its error. |
| `ClockPosition.LabelReadsBack` | crates/spotuify-cli/src/output.rs:828-836 | Parsing the printed label of any 64-bit position gives the position in whole seconds, without saturation. |
| `ClockPosition.LabelsAgreeIff` | crates/spotuify-cli/src/output.rs:828-836 | Two positions print alike if and only if they lie in the same second. |
| `ClockPosition.LabelShape` | crates/spotuify-cli/src/output.rs:828-836 | Seconds, and minutes after hours, take exactly two digits; the first part has no zero to spare; hours are shown exactly from the first one on. |
| `ClockPosition.NumbersAccepted` | crates/spotuify-cli/src/selection.rs:231-267 | A plus sign is allowed; a number past 64 bits, and any other character, is not. |
| `ClockPosition.DurationForms` | crates/spotuify-cli/src/selection.rs:253-267 | A printed number with `ms`, `s`, `m` or no unit parses to that duration, saturated. |
| `ResourceUris.ParsesIff` | crates/spotuify-core/src/uri.rs:166-220 | A text parses to a URI if and only if it is that URI's printed form and the URI is valid: one spelling a resource. |
| `PlaylistRows.RemoveAt` | crates/spotuify-cli/src/commands.rs:3696-3753 | The checks and the grouping loop compute the plan, including which complaint comes first. |
| `PlaylistRows.FirstBadRowIsReported` | crates/spotuify-cli/src/commands.rs:3696-3753 | The complaint is about the first requested row that is off the playlist or holds no valid URI of its scheme. |
| `PlaylistRows.PlanSucceedsIff` | crates/spotuify-cli/src/commands.rs:3696-3753 | A removal is planned if and only if rows are given, none twice, each on the playlist, and playlist and rows hold valid URIs of one scheme. |
| `PlaylistRows.UniqueIff` | crates/spotuify-cli/src/commands.rs:3702-3705 | Comparing the list's length with its set's size finds duplicates, and only those. |
| `PlaylistRows.GroupsAreExact` | crates/spotuify-cli/src/commands.rs:3725-3753 | Groups have distinct URIs, each nonempty and holding exactly its URI's requested positions in request order, and every requested row's URI has one. |
| `PlaylistRows.NamedIff` | crates/spotuify-cli/src/commands.rs:3725-3753 | A position is named by some group if and only if its row was requested. |
| `PlaylistRows.DeletingLeavesTheUnrequested` | crates/spotuify-cli/src/commands.rs:3725-3753 | Deleting the groups one by one, refusing any position that is gone or holds another URI, succeeds and leaves exactly the unrequested rows in order. |

## Left out

- TOML text: parsing, printing, comments, key decoration, inline tables, arrays and dates; a document here is a tree of ordinary tables with string, boolean, integer and decimal leaves.
- The text form of a config path: a path is its list of segments, so splitting at dots is not modelled.
- Value parsing for `config set` (`parse_config_item` and its validators): an edit takes the parsed item, and a value that does not parse is a refused request.
- The order of providers and of warnings: tables are maps, warnings are a set; which of several bad providers is complained about first is not distinguished.
- Reading effective values through `effective_table`, the merged default values of the player section, secrets and redaction.
- File permissions, temporary files, directory syncing and lock polling: the rename is one step, the lock a holder, and I/O errors are steps before or after the rename.
- IPC framing, sockets, scheduling and prompts: sends, receives, events and timeouts are steps, and the clock is a number.
- The daemon: modelled by the answers the client's comments attribute to the two kinds of daemon; its own code is not part of this model. In particular an unfinished write is always answered with a receipt, so that a success without a receipt means a finished one.
- MigrationOverrides.MigrationPreservesOverriddenLoads: gentleness is sufficient, not necessary: an override of a whole table into which this document moves nothing would do no harm.
- ConfigCommits.CommittedVersionsLoad: loadability over whole histories is stated without overrides, because migrate and init can lose it under some; a single migration is covered under gentle ones.
- NaN and rounding of single-precision floats, the Hann window and the FFT: amplitudes are reals, the transform gives arbitrary nonnegative magnitudes or fails, and the square root is any function that is nonnegative on nonnegative numbers.
- Overflow of machine integers in buffer positions and counts, which would need more than 2^53 waveform points, and the `u32` limit on row numbers.
- CSS colour notations other than six and eight hexadecimal digits, which the page never contains.
- The regular expression that splits the terminal stream into tokens, and the gallery's page template.
- I/O errors of the archive writer and the sections it is given; sizes and times of 8^11 and more make the source panic and are excluded by a precondition.
- The confirmation prompt, provider routing and capability checks before row removal, and the daemon's own deletion, which is represented by a reference that deletes position by position.
- Command parsing, service installation, onboarding, themes, search, lyrics and all other rendering: plumbing or single-branch code.
