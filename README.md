# Minecraft account reconciler and player-stats sync, modelled in Dafny

This project models two parts of the cowboy-server repository's Minecraft integration.

1. **The pulse handler** (`src/minecraft/minecraftPulseHandler.ts`). The record store's change
   stream delivers create, update and delete events for Minecraft account records. The handler
   turns each event into an ordered list of server commands: whitelist add, whitelist remove,
   set LuckPerms group, and op. It is modelled as the function `PulseHandler.Handle` from an event
   to a `Result<seq<Command>, HandlerError>`. Module `Commands` gives each command the effect it
   is taken to have on the server's own state: a whitelist set, a group per user, and an operator
   set. The handler never reads that state back, so this effect is the server's contract as the
   handler relies on it. With it, the model states what each event does to the server when every
   command reaches it, and proves that delivering the same event twice leaves the server as one
   delivery does.
2. **The player-stats sync** (`syncMinecraftPlayerData` in `src/minecraft/minecraftPlayerData.ts`).
   - It builds one `LocalPlayerData` record per Essentials user-data file.
   - It merges each AuraSkills user-data file into the first record with the same id, and
     recomputes `totalLevel`.
   - It decides per record whether to create the player's stats row, update it, or skip it.

   The three loops are methods (`BuildLocalData`, `MergeAuraSkills`, `DecideAll`). Each is proved
   equal to a specification function (`EssentialsPass`, `AuraSkillsPass`, `Decisions`). Lemmas
   about those functions prove the source's promises. The directory listings are parameters, with
   each file already loaded and parsed (`Load<T>`). The database is a map from minecraft id to
   linked account. The database loop threads it through: each record is decided against the
   database as the writes before it left it. The writes become `Decision` values.

Files: `wrappers.dfy` (Option, Result), `commands.dfy`, `pulse_handler.dfy`, `file_names.dfy`
(`path.extname`, the two `replace` calls, the id), `player_data.dfy` (the record, building one,
merging one, totals), `player_sync.dfy` (the listings, the passes, the decision, the loops).

Points where the code decides behaviour that one might expect otherwise:
- An update whose `before` is absent is not treated as a create. The code reads
  `event.before.name` (line 41), which throws a TypeError before any command is sent. The model
  returns `Failure(BeforeMissing)` with no commands.
- The code has no process supervisor, readiness state machine, retrying command queue or
  scheduler: commands go straight to the server's HTTP interface. None of these is modelled.
- `luckPermsUserSetGroup` and `op` are called by the handler but are not defined in
  `src/minecraft/minecraftServer.ts`. The model treats them as the commands `SetGroup` and `Op`.

## Model

| member | source | states |
|---|---|---|
| PulseHandler.HandleCreate | src/minecraft/minecraftPulseHandler.ts:29-37 | a create for name n yields WhitelistAdd(n), then SetGroup(n, "default"), then Op(n) exactly when n is "FitzZero", and nothing else |
| PulseHandler.HandleUpdate | src/minecraft/minecraftPulseHandler.ts:39-44 | with `before` present: exactly WhitelistRemove(before.name), WhitelistAdd(after.name), SetGroup(after.name, "default"), in that order, never an Op; with `before` absent: the BeforeMissing failure |
| PulseHandler.HandleDelete | src/minecraft/minecraftPulseHandler.ts:46-48 | a delete yields exactly one command, WhitelistRemove(deleted.name), and only removals |
| PulseHandler.Handle | src/minecraft/minecraftPulseHandler.ts:15-27 | fails exactly for an update without `before`; every command names someone the event carries; the only group assigned is "default"; an Op appears exactly for a create of "FitzZero" |
| PulseHandler.CreateEffect | src/minecraft/minecraftPulseHandler.ts:29-37 | after a create the name is whitelisted and in group "default", and it is operator if it is "FitzZero"; nothing else changes |
| PulseHandler.UpdateEffect | src/minecraft/minecraftPulseHandler.ts:39-44 | after an update the before-name is off the whitelist unless it is also the after-name, which is whitelisted and in group "default"; operators are unchanged |
| PulseHandler.DeleteEffect | src/minecraft/minecraftPulseHandler.ts:46-48 | after a delete only the whitelist changes, by removing the name |
| PulseHandler.MissingBeforeChangesNothing | src/minecraft/minecraftPulseHandler.ts:40-41 | an update without `before` sends nothing and does not behave like a create |
| PulseHandler.RedeliveryIsIdempotent | src/minecraft/minecraftPulseHandler.ts:15-48 | handling the same event a second time leaves the server state the first handling produced |
| Commands.Apply | src/minecraft/minecraftServer.ts:56-82 | the assumed server effect: an add puts the name on the whitelist, a remove takes it off, a group set records that group, an op adds an operator, and no other name's entry changes |
| Commands.ReplayIsIdempotent | src/minecraft/minecraftServer.ts:56-82 | applying any command list a second time changes nothing: each command sets a whitelist bit, sets a group or adds an operator |
| FileNames.RemoveAll | src/minecraft/minecraftPlayerData.ts:80 | `replace(/-/g, '')` leaves no hyphen and no character that was not there |
| FileNames.RemoveAllKeepsOthers | src/minecraft/minecraftPlayerData.ts:80 | every character other than the removed one keeps its number of occurrences |
| FileNames.IndexOf | src/minecraft/minecraftPlayerData.ts:80 | the index found holds an occurrence of the pattern and no earlier index does; -1 means there is none |
| FileNames.RemoveFirst | src/minecraft/minecraftPlayerData.ts:80 | `replace('.yml', '')` cuts out exactly the first occurrence, or returns the name when there is none |
| FileNames.NormaliseId | src/minecraft/minecraftPlayerData.ts:127 | the id of a file contains no hyphen |
| FileNames.NormaliseYmlName | src/minecraft/minecraftPlayerData.ts:80 | for stem + ".yml" with no '.' in stem (a UUID file name), the id is the stem with its hyphens removed |
| FileNames.ExtnameIsLastSuffix | src/minecraft/minecraftPlayerData.ts:74 | `path.extname` of a bare name is a proper suffix starting at its last '.', and is empty exactly when there is no '.', the only '.' is the first character, or the name is ".." |
| FileNames.DistinctNamesSameId | src/minecraft/minecraftPlayerData.ts:80 | two different file names, "a-b.yml" and "ab.yml", give the same id "ab" |
| FileNames.ExtnameYml | src/minecraft/minecraftPlayerData.ts:74 | `path.extname(file) === '.yml'` holds exactly when the name ends in ".yml" with at least one character before it |
| PlayerData.TotalLevelIsLevelSum | src/minecraft/minecraftPlayerData.ts:161-172 | `TotalLevel`, the source's eleven-term sum, is the sum of the eleven skill levels |
| PlayerData.TotalLevelIgnoresXp | src/minecraft/minecraftPlayerData.ts:161-172 | two records with equal levels have equal totals whatever their xp |
| PlayerData.IsOnline | src/minecraft/minecraftPlayerData.ts:108 | online only when both timestamps are present, and then exactly when login > logout |
| PlayerData.FreshRecord | src/minecraft/minecraftPlayerData.ts:79-108 | a new record has the file's id, money or 0, online exactly when login > logout with both present, every skill at level 0 and xp 0, and totalLevel 0 |
| PlayerData.SkillKeysDistinct | src/minecraft/minecraftPlayerData.ts:137-158 | each skill is read from its own "auraskills/..." key |
| PlayerData.SkillFrom | src/minecraft/minecraftPlayerData.ts:137-158 | a skill without an entry is level 0 and xp 0; a present level or xp is taken as given, an absent one reads as 0 |
| PlayerData.Merged | src/minecraft/minecraftPlayerData.ts:133-174 | a merged record keeps minecraftId, money and online, takes each skill from the file (0 when absent), and its totalLevel is its level sum |
| PlayerData.MergedOverwrites | src/minecraft/minecraftPlayerData.ts:133-174 | a later file for the same record replaces everything an earlier one merged |
| PlayerData.FindIndex | src/minecraft/minecraftPlayerData.ts:128-130 | `findIndex` gives the first record with the id, or -1 when no record has it |
| PlayerData.MergeOne | src/minecraft/minecraftPlayerData.ts:127-174 | one merge keeps the length, leaves every index but the first match unchanged, keeps every identity, and skips a file with no match |
| PlayerData.MergeOneRewritesFirstMatch | src/minecraft/minecraftPlayerData.ts:128-136 | the record rewritten is the first one with the file's id |
| PlayerSync.YamlEntries | src/minecraft/minecraftPlayerData.ts:73-78 | a pass over a listing fails exactly when some ".yml" file's load throws |
| PlayerSync.YamlEntriesMembers | src/minecraft/minecraftPlayerData.ts:122-126 | a file is used exactly when its extension is ".yml" and its load gave data |
| PlayerSync.MergeAll | src/minecraft/minecraftPlayerData.ts:121-177 | the AuraSkills pass keeps the number of records and each one's id, money and online, and keeps totals consistent |
| PlayerSync.MergeAllAt | src/minecraft/minecraftPlayerData.ts:121-177 | after the AuraSkills pass, the first record with an id holds the skills of the last file with that id, and every other record is as before |
| PlayerSync.MergedRecordAt | src/minecraft/minecraftPlayerData.ts:73-177 | after both passes record j has its Essentials id, money and online state, the skills merged into it (none without a matching file) and a total equal to its level sum |
| PlayerSync.Decide | src/minecraft/minecraftPlayerData.ts:188-219 | no linked account: Skip; account without stats: Create; stats equal in totalLevel, money and online: Skip; otherwise Update of that stats row |
| PlayerSync.DecideIgnoresSkills | src/minecraft/minecraftPlayerData.ts:213-219 | records that differ only in skills, with the same total, get the same kind of decision, so an xp change alone writes nothing |
| PlayerSync.DecideConverges | src/minecraft/minecraftPlayerData.ts:195-235 | once the decided row is written, deciding again for the same record gives Skip |
| PlayerSync.Written | src/minecraft/minecraftPlayerData.ts:195-235 | a create or update leaves the account with a stats row, touches no other account, and never removes a stats row |
| PlayerSync.DbLoop | src/minecraft/minecraftPlayerData.ts:179-236 | the database loop makes one decision per record and keeps the set of accounts |
| PlayerSync.DecisionAt | src/minecraft/minecraftPlayerData.ts:179-221 | record k is decided against the database as the writes for the first k records left it |
| PlayerSync.DistinctIdsSeeStartingDb | src/minecraft/minecraftPlayerData.ts:179-236 | when no two records share an id, every record is decided against the starting database |
| PlayerSync.DuplicateIdCreatesOnce | src/minecraft/minecraftPlayerData.ts:180-201 | of two records with the same id, the later one never creates a stats row, because it reads back the row the earlier one wrote |
| PlayerSync.BuildLocalData | src/minecraft/minecraftPlayerData.ts:73-113 | the Essentials loop computes the Essentials pass: one fresh record per used file, in directory order, or the first read error |
| PlayerSync.MergeAuraSkills | src/minecraft/minecraftPlayerData.ts:121-177 | the AuraSkills loop, overwriting entries in place, computes the AuraSkills pass |
| PlayerSync.DecideAll | src/minecraft/minecraftPlayerData.ts:179-236 | the database loop, re-reading the database after each write, computes `Decisions` |
| PlayerSync.SyncMinecraftPlayerData | src/minecraft/minecraftPlayerData.ts:52-239 | the sync computes `Sync`; an unreadable Essentials directory ends it before any decision |
| PlayerSync.SyncWrites | src/minecraft/minecraftPlayerData.ts:73-236 | a completed sync makes one decision per Essentials record; every row it writes carries that record's id, money and online state, the skills merged from AuraSkills, and a total equal to its level sum |

## Left out

- The HTTP client in `src/minecraft/minecraftServer.ts` (authentication, axios calls, logging) is network I/O. Its operations are the `Command` constructors, and their effect is the assumed `Commands.Apply`.
- The handler calls the server without `await`, so HTTP requests may reach the server in a different order from the one they are issued in. `Commands.ApplyAll` applies them in issue order. The model does not capture requests that overtake each other, for example a remove landing after the add when an update keeps the same name.
- `src/prismaPulse.ts` hands events to the handler in stream order without awaiting it, and attaches no `.catch`. Concurrency between events is not modelled. The `BeforeMissing` failure is an unhandled rejection there, and by default Node then ends the process, so later events may never be handled. The model covers one event at a time and does not capture that the stream can stop.
- PulseHandler.CreateEffect, PulseHandler.UpdateEffect, PulseHandler.DeleteEffect and PulseHandler.RedeliveryIsIdempotent describe successful delivery only. Two paths in `src/minecraft/minecraftServer.ts` deliver nothing. First, `whitelistAdd` and `whitelistRemove` call `this.api?.post`, and `api` is set only once the un-awaited `authenticate()` succeeds (lines 15, 28), so before that, or for good if it fails (lines 38-40), every command does nothing. Second, a request error is caught and only logged (lines 61-66, 76-81).
- PulseHandler.Handle: dispatch on `event.action` being total and exclusive holds by construction, because each event kind is a datatype constructor with one `match` arm. No lemma states it separately.
- PulseHandler.RedeliveryIsIdempotent: covers a redelivery that immediately follows the first delivery, not one that arrives after other events.
- Determinism (the same event always yields the same commands) holds because `Handle` is a function. No lemma states it separately.
- Directory reads, YAML parsing, and `src/yaml.ts`, `src/json.ts`, `src/minecraft.ts` are file I/O. A read listing is a `seq<DirEntry<T>>` of already-loaded files; an entry's load is parsed data, a falsy result, or a rethrown error.
- FileNames.Extname: models `path.extname` on bare file names only, because `readdir` never returns a '/'.
- `Number(data.money) || 0`, and the levels and xp read with `|| 0`, are JavaScript coercions over floats. The model uses `int`, with an absent or non-numeric value as `None`, read as 0.
- Prisma `findUnique`, `minecraftStatsCreate` and `minecraftStatsUpdateById` are a database, modelled as a map that the loop updates with `Written` after each decision. The id of a created stats row is the parameter `newId`.
- PlayerSync.DecideAll: assumes every write succeeds. The try/catch around each write, where a failed write is logged, the database is unchanged and the loop goes on, is not modelled, and neither is logging. Nor is a database changed by anything other than this loop while it runs.
- PlayerSync.DecideConverges: assumes the database stores the written fields as given.
- `src/index.ts` (the Express and socket.io bootstrap) is not part of this model.
