# TalkingBot persistence and economy state, in Dafny

This project models the stateful core of the TalkingBot chat bot:

- `Cache<T>` (module `Caching`): one value per cache name, stored as the file
  `<working directory>/Cache/cache_<name>.json`. Saving creates the directory
  and overwrites the file, and a failing write is swallowed. Loading a missing
  file returns `default` and leaves the directory and an empty file behind.
- `GameDataCacher` (module `GameDataCaching`): the in-memory map from user id
  to `UserGameData`. A lookup of an unknown user inserts a default record.
  Every change is written through to the cache named `GameDataCacher`.
- `MessageCacher` (module `MessageCaching`, with the bindings and the lookup
  in `RoleMessages`): the append-only list of role-button bindings. Every
  append is written through to the cache named `MessageCacher`. A lookup by
  message id returns the first binding in list order.
- `UserGameData.Default()` (module `GameData`) and the `/daily` and `/money`
  commands (module `GameModule`).

Modelling choices:

- The file system is a set of directories plus a map from path to file
  content. Each `Cache<T>` object holds its own view of it. A content is
  either the empty file that a failed load creates (`Placeholder`) or the
  JSON encoding of a value (`Json(v)`). The JSON encoder is abstract: a stored
  `Json(v)` decodes to `v`, and an empty file decodes to `default` (`None`).
- I/O failures are boolean inputs. `writeFails` means opening the file for
  writing raised an `IOException`; the file is then left as it was.
  `readFails` means reading an existing file raised one; the load then
  recreates the file empty, as `File.Create` does.
- `UserGameData` is a datatype, not a class. In the source, `GetUserGameData`
  returns the stored object itself and `Daily` changes its fields before
  calling `ModifyUserData` with that same object. Here `Daily` builds the
  updated record and passes it to `ModifyUserData`. The state after the
  command is the same. Because records are values, two users can never share
  one default record.
- Time is `DateTime` ticks (100 ns units from 0001-01-01; `DateTime.MinValue`
  is tick 0). The random draw and both clock readings of `/daily` are
  inputs: `now` for the cooldown test and `stamp` for the new `lastDaily`. The
  24-hour test compares ticks. The source compares the double `TotalHours`
  with 24.0. Near one day the tick count is far below 2^53, so both tests
  decide the same way.
- `Money += bonus` is unchecked `ulong` arithmetic in C#. It is modelled as
  addition modulo 2^64 (`WrapAdd`).
- A corrupt cache file is not treated like a missing one: only `IOException`
  is caught (TalkingBot/Core/Caching/Cache.cs:41), so a JSON parse error at
  TalkingBot/Core/Caching/Cache.cs:49 propagates out of `LoadCached`. The
  model's file contents are always an empty file or a valid encoding.

## Model

| member | source | states |
|---|---|---|
| `Primitives.WrapAdd` | TalkingBot/Modules/GameModule.cs:25 | unchecked `ulong` addition: the exact sum when below 2^64, otherwise the sum minus 2^64, which is smaller than the old balance |
| `Caching.CachePath` | TalkingBot/Core/Caching/Cache.cs:15-16 | the file of a cache name is `root + "/Cache/cache_" + name + ".json"`; `SaveCached` and `LoadCached` both use it |
| `Caching.Save` | TalkingBot/Core/Caching/Cache.cs:12-29 | the file system after a save: the cache directory is added, and unless the write fails the file of the name is set to the value, all other files as before |
| `Caching.Load` | TalkingBot/Core/Caching/Cache.cs:31-52 | the result and file system of a load: an existing, readable file is decoded with the disk unchanged; otherwise `default`, with the directory and an empty file created |
| `Caching.Decode` | TalkingBot/Core/Caching/Cache.cs:49 | deserializing yields a value exactly for a file written by a save, and that value is the one saved; an empty file yields `default` |
| `Caching.CachePathInjective` | TalkingBot/Core/Caching/Cache.cs:15-16 | two different cache names never address the same file |
| `Caching.SaveWritesItsFile` | TalkingBot/Core/Caching/Cache.cs:18-27 | a save always creates the cache directory; a successful write replaces the file's whole content with the value; a failed write leaves every file unchanged |
| `Caching.SaveLeavesOtherNames` | TalkingBot/Core/Caching/Cache.cs:22-24 | a save under one name leaves the file of every other name as it was, present or absent |
| `Caching.SaveThenLoad` | TalkingBot/Core/Caching/Cache.cs:12-51 | loading right after a successful save returns the value saved |
| `Caching.LoadIgnoresOtherSaves` | TalkingBot/Core/Caching/Cache.cs:31-51 | a save under another name does not change what a load returns |
| `Caching.LoadMissing` | TalkingBot/Core/Caching/Cache.cs:41-44 | loading a missing file returns `default`, creates the directory and an empty file for that name, and changes no other file |
| `Caching.LoadExistingKeepsDisk` | TalkingBot/Core/Caching/Cache.cs:37-51 | loading an existing file changes nothing on disk |
| `Caching.LoadTwice` | TalkingBot/Core/Caching/Cache.cs:31-51 | two loads with no save between them return the same value, and the second changes nothing on disk |
| `Caching.ReadErrorEmptiesFile` | TalkingBot/Core/Caching/Cache.cs:41-44 | a read error on an existing file replaces it with an empty file, so the stored value is lost for later loads too |
| `Caching.Cache.constructor` | TalkingBot/Core/Caching/Cache.cs:7-10 | the cache is rooted at the working directory and starts from the file system as it stands |
| `Caching.Cache.SaveCached` | TalkingBot/Core/Caching/Cache.cs:12-29 | the new file system is `Save` of the old one: directory created, file overwritten unless the write fails, error swallowed |
| `Caching.Cache.LoadCached` | TalkingBot/Core/Caching/Cache.cs:31-52 | result and new file system are `Load` of the old one: decode an existing file, or return `default` and create the directory and an empty file |
| `GameData.Default` | TalkingBot/Core/Caching/GameData.cs:16-22 | a new user's record has no money and both timestamps at the `DateTime.MinValue` sentinel |
| `GameDataCaching.WithUser` | TalkingBot/Services/GameDataCacher.cs:21-28 | after a lookup the user is a key; the key set grows by at most that user; known users keep their records; an unknown user gets the default record |
| `GameDataCaching.Modified` | TalkingBot/Services/GameDataCacher.cs:30-34 | after a modification the user holds exactly the given record, every other user keeps its record, and no key is removed |
| `GameDataCaching.WithUserIdempotent` | TalkingBot/Services/GameDataCacher.cs:21-28 | looking a user up twice leaves the ledger as one lookup does |
| `GameDataCaching.ModifiedAfterLookup` | TalkingBot/Services/GameDataCacher.cs:31-34 | the default inserted for a missing user is overwritten, so modifying after a lookup equals modifying directly |
| `GameDataCaching.GameDataCacher.constructor` | TalkingBot/Services/GameDataCacher.cs:14-19 | the ledger is the loaded map, or empty when the load returned `default` |
| `GameDataCaching.GameDataCacher.GetUserGameData` | TalkingBot/Services/GameDataCacher.cs:21-28 | returns the user's stored record; an unknown user gets a default record that is stored and saved with the whole ledger; a known user causes no change and no save |
| `GameDataCaching.GameDataCacher.ModifyUserData` | TalkingBot/Services/GameDataCacher.cs:30-36 | stores the record for the user, keeps every other user, and saves the whole ledger; after a successful write the file equals the in-memory ledger |
| `GameDataCaching.GameDataCacher.Dispose` | TalkingBot/Services/GameDataCacher.cs:38-43 | saves the whole current ledger; after a successful write the file equals it |
| `RoleMessages.FirstMatch` | TalkingBot/Services/MessageCacher.cs:27 | the index of the first binding with the message id: no earlier binding has that id, and the list length when none does |
| `RoleMessages.FindFirst` | TalkingBot/Services/MessageCacher.cs:27 | `null` exactly when no binding has the message id; otherwise the binding at the first matching index |
| `RoleMessages.FindFirstAppend` | TalkingBot/Services/MessageCacher.cs:18-27 | appending a binding never changes an existing lookup result; it only answers for its own message id when no earlier binding did |
| `RoleMessages.FindAfterAppend` | TalkingBot/Services/MessageCacher.cs:18-27 | after appending a binding, a lookup of its message id is non-null, and is that binding when no earlier one had the id |
| `MessageCaching.MessageCacher.constructor` | TalkingBot/Services/MessageCacher.cs:8-14 | the list is the loaded array in stored order, or empty when the load returned `default` |
| `MessageCaching.MessageCacher.AddMessage` | TalkingBot/Services/MessageCacher.cs:16-22 | appends the binding with no duplicate check and saves the whole list; after a successful write the file equals the list |
| `MessageCaching.MessageCacher.FindMessage` | TalkingBot/Services/MessageCacher.cs:24-28 | the first binding recorded for the message id, or `null` when none; reads the list only |
| `MessageCaching.MessageCacher.Dispose` | TalkingBot/Services/MessageCacher.cs:30-35 | saves the whole list; after a successful write the file equals it |
| `GameModule.Bonus` | TalkingBot/Modules/GameModule.cs:12-14 | for any draw of `Random.Next()`, the bonus lies in [60, 100) |
| `GameModule.BonusCoversRange` | TalkingBot/Modules/GameModule.cs:12-14 | every value in [60, 100) is the bonus of some draw |
| `GameModule.CanClaim` | TalkingBot/Modules/GameModule.cs:18-20 | a claim is allowed exactly when at least 24 hours of ticks have passed since `lastDaily` |
| `GameModule.Claimed` | TalkingBot/Modules/GameModule.cs:25-26 | a claim adds the bonus to the balance (modulo 2^64), sets `lastDaily` to the second clock reading and keeps `lastDice` |
| `GameModule.NewUserCanClaim` | TalkingBot/Modules/GameModule.cs:16-20 | a user never seen before can claim, because the default `lastDaily` is `DateTime.MinValue` |
| `GameModule.ClaimStartsCooldown` | TalkingBot/Modules/GameModule.cs:18-26 | right after a claim, every claim in the next 24 hours is refused |
| `GameModule.Daily` | TalkingBot/Modules/GameModule.cs:9-31 | within 24 hours of the last claim: the reply gives the ticks left and the record is unchanged (a known user causes no save); otherwise: the bonus is granted, the record is updated with `lastDaily` at the second clock reading and stored; whenever anything is saved, the disk afterwards is exactly one save of the whole new ledger |
| `GameModule.Money` | TalkingBot/Modules/GameModule.cs:34-40 | returns the user's balance; a known user causes no change or save; a new user gets a default record (balance 0) and the disk afterwards is exactly one save of the whole new ledger |

## Left out

- Real file I/O and JSON text: the encoder is abstract, so a stored value decodes to itself.
- Corrupt cache files: a JSON parse error propagates out of `LoadCached` in the code, and the model has no unparseable content.
- JSON contents the C# types allow but the model cannot hold: a `null` record in the ledger file, or a `null` binding in the message file.
- Exceptions outside the `try` blocks: `Directory.CreateDirectory` or `File.Create` failing, `UnauthorizedAccessException`, and a write that fails after the file was already truncated.
- The `FileStream` returned by `File.Create` in `LoadCached` is never closed; the file stays open until the garbage collector finalizes it. The model has no open handles.
- One shared disk across cache types: each `Cache<T>` object has its own view of the file system. The two services use different cache names, so their files never overlap.
- Round-trip of `DateTime` through JSON (time zone kind); ticks are assumed to survive encoding.
- `Caching.Cache.SaveCached`: `writeFails` covers only the write itself. A failing directory creation would propagate, and that is not modelled.
- `GameModule.Daily`: a single `writeFails` input stands for both saves the command can make, so it does not describe a first save failing and a second succeeding.
- Logging, the Discord replies (reduced to `DailyReply` and the returned balance), and deferring the interaction.
- Concurrency: events are handled one at a time; the source has no locking.
- Experience and leveling, the dice command and shard lookup: the records, fields and functions they need are not in the code modelled (`UserGameData` has only `money`, `lastDaily` and `lastDice`).
- Audio, Discord wiring, the HTTP client and configuration files: they are not part of this model.
