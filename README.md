# fork-tagger: the tag synchronisation core in Dafny

fork-tagger is a small service that polls upstream GitHub repositories for
new release tags. When a new tag appears and the configured fork is not
behind the upstream branch, it creates the same tag on the fork. This
project models its decision core and proves what that core guarantees.

- **Tag memory** (`state.dfy`, module `TagMemory`). `TagState` is a class
  with the two slots `latestTag` and `previousTag`. `SwapWithNew` shifts
  latest into previous and stores the new name. `State` is a class whose
  field `repos` maps owner → repo → `TagState`. `RepoMut` looks up an entry
  and inserts a default one (both slots empty) when it is missing. `Load`
  falls back to the default, empty store when the state file cannot be read
  or parsed. `View()` is the store's value, owner → repo → `TagPair`; it is
  what `save` writes. `Valid()` says that no two keys share one `TagState`
  object, as in the service, where every entry is a value of its own.
- **The engine** (`sync.dfy`, module `Sync`). `ForRepo` is one poll of one
  configured pair: fetch the newest upstream tag, record it through
  `RepoMut`/`SwapWithNew`, then stop or push.
  - It stops when there was no earlier tag (`FirstSight`).
  - It stops when the name did not change (`NoChange`).
  - It stops when the fork is behind upstream (`NotFresh`).
  - Otherwise it pushes the tag (`Pushed(name, sha)` or `PushFailed(name)`).

  `RunPass` is the `for entry` loop over the configured entries. `Run` is
  the outer `loop`, with one pass per tick and a save after each pass.
  `PollView`, `Pass` and `RunSpec` are the same steps on values; the
  methods' postconditions tie the new state and the returned decisions to
  them.
- **Properties** (`sync_properties.dfy`, module `SyncProperties`): no push
  on first sight; no push when the name is unchanged; a push only when the
  fork is not behind; the state advances whatever the freshness check and
  the push answered; neither a tag skipped for a stale fork nor a failed
  push is retried; a pass stops only at a panic; and the main theorem,
  `AtMostOnePush`.

`AtMostOnePush` says: across any run in which every poll of a repository
fetches the same tag name, at most one push is attempted for that
repository, and none when that name was already the remembered latest one.
This holds within one run of the process. If a later entry of the same pass
panics, that pass is not saved, and a restart from the last save may attempt
the same tag again.
The tag memory is keyed by the upstream repository alone. So configured
entries that share an upstream repository but have different forks share
that single push attempt. Whichever of them first fetches the new name takes
it; the others then decide `NoChange` for that name, and when that entry's
fork is behind, no fork gets the tag. This need not be the first entry in
configuration order: a tag published during a pass, after the first entry
was polled, goes only to a later entry's fork (`SharedUpstreamScenario`).

Every call to the hosting service is replaced by its answer, in a `Remote`
value per poll:
- `tags`: the tag listing, or `None` when it failed;
- `behindBy`: the comparison's `behind_by`, or `None` when it failed;
- `forkRef`: the object the fork branch points at, `Commit(sha)`,
  `Tag(sha)` or `Other`, or `None` when reading the ref failed;
- `created`: whether creating the tag ref succeeded.

The code aborts (`unwrap`, `panic!`) in several places:
- the tag listing failed or was empty (src/main.rs:75, 77);
- the comparison failed (src/main.rs:109);
- the fork branch points at neither a commit nor an annotated tag
  (src/main.rs:143).

Each of these ends the poll with `Panicked`. The process then stops, so `Run`
ends without saving that pass. A failed ref read or ref creation is only
logged (src/main.rs:118-122): it gives `PushFailed`, and the pass goes on.

Behaviour of the code that the model keeps as written:
- The code panics when the tag listing fails or is empty, when the
  comparison fails, and when the fork branch points at an unexpected object
  kind. It does not skip that pair and go on; the model ends the run.
- src/state.rs stores tag names only, while src/main.rs:2 and 82-90 refer to
  a `TagInfo` type that src/state.rs does not define. The model stores names
  and compares names.
- Entries are polled in configuration order, and the model keeps that order.
- The new name is recorded (src/main.rs:79-80) before the freshness check
  (src/main.rs:111-114). So a tag skipped because the fork was behind is
  never pushed later: the next poll that fetches the same name finds it
  already recorded and decides `NoChange`, even once the fork has caught up
  (`StaleForkNeverGetsTag`). The fork receives only a later, different tag.

## Model

| member | source | states |
|---|---|---|
| `TagMemory.TagState.constructor` | src/state.rs:12-16 | a new tag memory has both slots empty |
| `TagMemory.TagState.SwapWithNew` | src/state.rs:41-44 | afterwards `previousTag` holds the old `latestTag`, and `latestTag` is `Some(name)`, so never `None` after a swap |
| `SyncProperties.SwapTwiceSameName` | src/state.rs:41-44 | two swaps with the same name leave that name in both slots |
| `TagMemory.State.constructor` | src/state.rs:6-10 | the default store has no repositories |
| `TagMemory.State.Load` | src/state.rs:19-24 | a read or parse failure yields a fresh, empty, valid store; a decoded state is used as it is |
| `TagMemory.State.RepoMut` | src/state.rs:31-37 | returns the object stored at (owner, repo). An existing entry is returned unchanged; a missing one is inserted fresh with both slots empty. The new view equals the old one with that key put in, so no other key changes |
| `SyncProperties.PutTouchesOnlyItsKey` | src/state.rs:31-37 | putting one key reads back what was put there, leaves every other key as it was, and removes no key |
| `SyncProperties.FirstPollOfNewRepository` | src/state.rs:31-44 | the first poll of a repository with no entry creates the entry from the default record, so it holds (fetched name, none) and decides `FirstSight`; no other repository's entry is added, removed or changed |
| `Sync.FirstTag` | src/main.rs:69-77 | the fetched name is the first listed tag; there is none when the listing failed or was empty |
| `Sync.ShaOf` | src/main.rs:140-144 | a commit or an annotated tag gives its own sha; any other object kind gives none |
| `Sync.PushTagToFork` | src/main.rs:126-152 | the tag ref is created exactly when the branch ref was read, points at a commit or tag, and creation succeeded; it is created with the given name at that sha; an `Other` object is the only abort |
| `SyncProperties.PushUsesBranchObjectSha` | src/main.rs:135-147 | a push creates the tag at the sha of the object the fork branch points at: a commit's sha, or the annotated tag object's own sha; any other object aborts |
| `Sync.ForRepo` | src/main.rs:59-124 | the new store and the returned decision are those of one poll on the old store's value; the store stays valid and gains only fresh objects |
| `SyncProperties.PollStateIgnoresLaterAnswers` | src/main.rs:79-80 | a poll's new state depends on the tag listing only. A failed listing leaves the store as it was; otherwise the pair becomes (fetched, previous latest), whatever the comparison and the push answered |
| `SyncProperties.NoPushOnFirstSight` | src/main.rs:79-91 | with no earlier latest tag, a poll records the name with previous empty and decides `FirstSight`, with no comparison and no push |
| `SyncProperties.UnchangedNameDoesNothing` | src/main.rs:92-95 | fetching the remembered latest name gives `NoChange`, whatever the comparison and push answers would have been |
| `SyncProperties.PushGatedOnChangeAndFreshness` | src/main.rs:101-122 | for a changed name: a failed comparison aborts, `behind_by != 0` gives `NotFresh`, and a push is attempted iff `behind_by == 0` and the ref is not `Other`. An attempt carries the new name, and `Pushed` carries the fork branch's sha |
| `SyncProperties.NoRetryOfSameName` | src/main.rs:79-95 | once a poll has fetched a name, whatever it decided (skipped as `NotFresh`, pushed, push failed), the next poll that fetches the same name decides `NoChange` |
| `SyncProperties.StaleForkNeverGetsTag` | src/main.rs:79-114 | a tag skipped because the fork was behind is not pushed by the next poll of that name, even when the fork is then up to date |
| `Sync.RunPass` | src/main.rs:39-51 | the decisions and the new store are those of a pass over the entries in order on the old store's value |
| `SyncProperties.PassShape` | src/main.rs:39-51 | a pass gives at most one decision per entry, and only its last decision can be a panic. It is cut short only by a panic; without one, every entry gets a decision |
| `SyncProperties.PassInOrder` | src/main.rs:39-51 | a pass over two lists of entries is the pass over the first, then, unless it panicked, the pass over the second from the state the first left |
| `Sync.Run` | src/main.rs:38-56 | the final store, the per-pass decisions, the saved snapshots and the crash flag are those of the polling loop on the old store's value |
| `SyncProperties.RunShape` | src/main.rs:38-56 | every pass that finished is saved exactly once, and no saved pass contains a panic. Without a crash every tick ran; after a crash the last pass holds the panic. The last save is the final state |
| `SyncProperties.PollBudget` | src/main.rs:79-95 | the budget of a key is 0 once n is its latest name and 1 otherwise. For a key whose polls fetch only n, one poll's push attempts for that key plus the budget left never exceed the budget before |
| `SyncProperties.PassBudget` | src/main.rs:39-51 | over one pass, the push attempts for a key plus the budget left never exceed the budget at the start |
| `SyncProperties.RunBudget` | src/main.rs:38-56 | the same over any number of passes |
| `SyncProperties.AtMostOnePush` | src/main.rs:38-95 | if every poll of a repository fetches the same name, at most one push is attempted for it over the whole run, and none if that name was already the latest remembered one |
| `SyncProperties.DocumentedScenario` | src/main.rs:79-119 | from {latest v1.0, previous v0.9}: fetching v1.0 gives `NoChange`. Fetching v1.1 next pushes v1.1 at the fork's sha when the fork is not behind, and gives `NotFresh` when it is 2 behind. Both end at {latest v1.1, previous v1.0} |
| `SyncProperties.SharedUpstreamScenario` | src/main.rs:39-119 | two entries with one upstream and different forks: a tag that appears between their polls in one pass is pushed to the second fork only (`[NoChange, Pushed]`), and the next pass decides `[NoChange, NoChange]`, so the first, up-to-date fork never gets it |

## Left out

- Configuration loading (src/config.rs) is not part of this model. Entries
  are given as values with their branch names already filled in. The
  default branch "main" (src/config.rs:22-24) is not modelled.
- TOML encoding and decoding and all file I/O in `State::load` and
  `State::save` (src/state.rs:19-29) are left out. `Load` receives the
  outcome of reading and decoding. A save is recorded as the store's value
  appended to `saves`; the panic `save` raises when it cannot write is not
  modelled.
- TagMemory.State.Load: when the decoded state is used, its `Valid()` is
  not established, because decoding is not modelled. `Run` requires a valid
  store.
- Every network call (list_tags, compare, get_ref, create_ref) is replaced
  by its answer in `Remote`. The compare head-ref string (src/main.rs:105)
  only formats a request and is not modelled.
- The infinite `loop` (src/main.rs:38-56) becomes a finite sequence of
  ticks. The hourly sleep (src/main.rs:55), the tokio runtime, dotenvy,
  tracing and the `info!` logging are left out, and so are the start-up
  steps (src/main.rs:13-36: environment variables, the data folder, the
  client builder).
- A restart after a panic (reloading the last saved state and polling
  again) is not modelled; `Run` ends at the panic.
- `behind_by` is a signed 64-bit integer in the client. The model uses a
  natural number, since the code only tests it against 0.
