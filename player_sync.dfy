/** `syncMinecraftPlayerData`: read the Essentials user data into one record per player, merge the
    AuraSkills user data into those records, then decide per record whether to create, update or
    leave alone its stats row in the database. Directory listings arrive as parameters, each file
    already loaded; the database is a map from minecraft id to account, updated after each write. */
module PlayerSync {
  import opened Wrappers
  import opened FileNames
  import opened PlayerData

  /** What `loadYamlFile` gave for a file: data, a falsy result (`null` for a missing file or bad
      YAML, or an empty document), or an error it rethrew, which aborts the whole sync. */
  datatype Load<T> = Parsed(data: T) | Empty | Throws

  /** One directory entry, by name, with what loading it gives. */
  datatype DirEntry<T> = DirEntry(name: string, content: Load<T>)

  /** A user-data file with the data loaded from it. */
  datatype Named<T> = Named(name: string, data: T)

  datatype SyncError =
    | EssentialsDirUnreadable   // caught: the sync logs and returns
    | AuraSkillsDirUnreadable   // not caught: the sync rejects
    | FileUnreadable(name: string)

  predicate IsYml(name: string) {
    Extname(name) == ".yml"
  }

  /** The files a loop over a directory listing uses, in directory order: those with extension
      ".yml" and data; fails at the first ".yml" file whose load throws. */
  function YamlEntries<T>(files: seq<DirEntry<T>>): (r: Result<seq<Named<T>>, SyncError>)
    ensures r.Failure? <==> exists f :: f in files && IsYml(f.name) && f.content.Throws?
    ensures r.Success? ==> |r.value| <= |files|
    decreases |files|
  {
    if files == [] then Success([])
    else
      var prev := YamlEntries(files[..|files| - 1]);
      var f := files[|files| - 1];
      assert files == files[..|files| - 1] + [f];
      if prev.Failure? || !IsYml(f.name) then prev
      else match f.content
        case Parsed(d) => Success(prev.value + [Named(f.name, d)])
        case Empty => prev
        case Throws => Failure(FileUnreadable(f.name))
  }

  /** One more entry of the listing, as a loop over it sees it. */
  lemma YamlEntriesStep<T>(files: seq<DirEntry<T>>, i: nat)
    requires i < |files|
    ensures var prev := YamlEntries(files[..i]);
            YamlEntries(files[..i + 1]) ==
              if prev.Failure? || !IsYml(files[i].name) then prev
              else match files[i].content
                case Parsed(d) => Success(prev.value + [Named(files[i].name, d)])
                case Empty => prev
                case Throws => Failure(FileUnreadable(files[i].name))
  {
    assert files[..i + 1][..i] == files[..i];
  }

  /** Exactly the ".yml" files with data are used. */
  lemma {:induction false} YamlEntriesMembers<T>(files: seq<DirEntry<T>>, name: string, d: T)
    requires YamlEntries(files).Success?
    ensures Named(name, d) in YamlEntries(files).value <==> IsYml(name) && DirEntry(name, Parsed(d)) in files
    decreases |files|
  {
    if files != [] {
      var init := files[..|files| - 1];
      assert files == init + [files[|files| - 1]];
      YamlEntriesMembers(init, name, d);
    }
  }

  /** Once a prefix of the listing has failed, the whole listing fails the same way. */
  lemma {:induction false} YamlEntriesFailureSticks<T>(files: seq<DirEntry<T>>, i: nat)
    requires i <= |files| && YamlEntries(files[..i]).Failure?
    ensures YamlEntries(files) == YamlEntries(files[..i])
    decreases |files|
  {
    if i < |files| {
      var init := files[..|files| - 1];
      assert init[..i] == files[..i];
      YamlEntriesFailureSticks(init, i);
    } else {
      assert files[..i] == files;
    }
  }

  /** The Essentials records of a listing, one per used file. */
  function FreshRecords(entries: seq<Named<EssentialsData>>): (r: seq<LocalPlayerData>)
    ensures |r| == |entries|
    ensures forall j :: 0 <= j < |entries| ==> r[j] == FreshRecord(entries[j].name, entries[j].data)
  {
    seq(|entries|, j requires 0 <= j < |entries| => FreshRecord(entries[j].name, entries[j].data))
  }

  lemma FreshRecordsSnoc(entries: seq<Named<EssentialsData>>, e: Named<EssentialsData>)
    ensures FreshRecords(entries + [e]) == FreshRecords(entries) + [FreshRecord(e.name, e.data)]
  {
    var lhs := FreshRecords(entries + [e]);
    var rhs := FreshRecords(entries) + [FreshRecord(e.name, e.data)];
    assert |lhs| == |rhs|;
    forall j | 0 <= j < |lhs| ensures lhs[j] == rhs[j] {
      if j < |entries| {
        assert (entries + [e])[j] == entries[j];
      }
    }
  }

  function EssentialsPass(files: seq<DirEntry<EssentialsData>>): Result<seq<LocalPlayerData>, SyncError> {
    match YamlEntries(files)
    case Success(entries) => Success(FreshRecords(entries))
    case Failure(e) => Failure(e)
  }

  /** The AuraSkills files merged into `records` one after another. */
  function MergeAll(records: seq<LocalPlayerData>, entries: seq<Named<AuraSkillsData>>): (r: seq<LocalPlayerData>)
    ensures |r| == |records|
    ensures forall j :: 0 <= j < |records| ==> SameIdentity(r[j], records[j])
    ensures (forall j :: 0 <= j < |records| ==> TotalConsistent(records[j])) ==>
              forall j :: 0 <= j < |r| ==> TotalConsistent(r[j])
    decreases |entries|
  {
    if entries == [] then records
    else
      var last := entries[|entries| - 1];
      MergeOne(MergeAll(records, entries[..|entries| - 1]), last.name, last.data)
  }

  /** The data of the last AuraSkills file whose id is `id`, if any. */
  function LastMatch(entries: seq<Named<AuraSkillsData>>, id: string): Option<AuraSkillsData>
    decreases |entries|
  {
    if entries == [] then None
    else if NormaliseId(entries[|entries| - 1].name) == id then Some(entries[|entries| - 1].data)
    else LastMatch(entries[..|entries| - 1], id)
  }

  /** `findIndex` gives the same answer on two lists whose ids agree. */
  lemma {:induction false} FindIndexSameIds(a: seq<LocalPlayerData>, b: seq<LocalPlayerData>, id: string)
    requires |a| == |b| && forall j :: 0 <= j < |a| ==> a[j].minecraftId == b[j].minecraftId
    ensures FindIndex(a, id) == FindIndex(b, id)
    decreases |a|
  {
    if a != [] {
      FindIndexSameIds(a[1..], b[1..], id);
    }
  }

  /** What the AuraSkills pass does to each record: the first record with a given id ends up with
      the skills of the last file with that id, and every other record is left as it was. */
  lemma {:induction false} MergeAllAt(records: seq<LocalPlayerData>, entries: seq<Named<AuraSkillsData>>, j: nat)
    requires j < |records|
    ensures var id := records[j].minecraftId;
            MergeAll(records, entries)[j] ==
              if j == FindIndex(records, id) && LastMatch(entries, id).Some?
              then Merged(records[j], LastMatch(entries, id).value)
              else records[j]
    decreases |entries|
  {
    if entries != [] {
      var id := records[j].minecraftId;
      var init := entries[..|entries| - 1];
      var e := entries[|entries| - 1];
      var prev := MergeAll(records, init);
      MergeAllAt(records, init, j);
      FindIndexSameIds(prev, records, NormaliseId(e.name));
      if NormaliseId(e.name) == id && j == FindIndex(records, id) && LastMatch(init, id).Some? {
        MergedOverwrites(records[j], LastMatch(init, id).value, e.data);
      }
    }
  }

  function AuraSkillsPass(records: seq<LocalPlayerData>, files: seq<DirEntry<AuraSkillsData>>): Result<seq<LocalPlayerData>, SyncError> {
    match YamlEntries(files)
    case Success(entries) => Success(MergeAll(records, entries))
    case Failure(e) => Failure(e)
  }

  // The database

  datatype DbStats = DbStats(id: string, totalLevel: int, money: int, online: bool)

  /** A linked Minecraft account as the database returns it, with its stats row if it has one. */
  datatype DbMinecraft = DbMinecraft(id: string, userId: string, stats: Option<DbStats>)

  /** What the sync does with one record. The stats row written is the record without its
      `minecraftId`. */
  datatype Decision =
    | Skip
    | Create(userId: string, minecraftRef: string, data: LocalPlayerData)
    | Update(statsId: string, data: LocalPlayerData)

  /** The stored stats agree with the record on everything the sync compares. */
  predicate Unchanged(stats: DbStats, p: LocalPlayerData) {
    stats.totalLevel == p.totalLevel && stats.money == p.money && stats.online == p.online
  }

  function Decide(p: LocalPlayerData, db: map<string, DbMinecraft>): (d: Decision)
    ensures p.minecraftId !in db ==> d == Skip
    ensures p.minecraftId in db && db[p.minecraftId].stats.None? ==>
              d == Create(db[p.minecraftId].userId, db[p.minecraftId].id, p)
    ensures p.minecraftId in db && db[p.minecraftId].stats.Some? ==>
              (d == Skip <==> Unchanged(db[p.minecraftId].stats.value, p))
              && (d != Skip ==> d == Update(db[p.minecraftId].stats.value.id, p))
  {
    if p.minecraftId !in db then Skip
    else
      var minecraft := db[p.minecraftId];
      match minecraft.stats
      case None => Create(minecraft.userId, minecraft.id, p)
      case Some(stats) => if Unchanged(stats, p) then Skip else Update(stats.id, p)
  }

  /** A record that differs from another only in its skills (xp included) but has the same total
      gets the same decision kind: xp alone never triggers a write. */
  lemma DecideIgnoresSkills(p: LocalPlayerData, q: LocalPlayerData, db: map<string, DbMinecraft>)
    requires SameIdentity(p, q) && p.totalLevel == q.totalLevel
    ensures Decide(p, db).Skip? == Decide(q, db).Skip?
    ensures Decide(p, db).Create? == Decide(q, db).Create?
  {
  }

  /** The database after the row a decision writes; a created row gets the id `newId`. */
  function Written(db: map<string, DbMinecraft>, p: LocalPlayerData, d: Decision, newId: string): (w: map<string, DbMinecraft>)
    requires p.minecraftId in db || d.Skip?
    ensures w.Keys == db.Keys
    ensures forall id :: id in db && id != p.minecraftId ==> w[id] == db[id]
    ensures !d.Skip? ==> w[p.minecraftId].stats.Some?
    ensures forall id :: id in db && db[id].stats.Some? ==> w[id].stats.Some?
  {
    match d
    case Skip => db
    case Create(_, _, data) =>
      db[p.minecraftId := db[p.minecraftId].(stats := Some(DbStats(newId, data.totalLevel, data.money, data.online)))]
    case Update(statsId, data) =>
      db[p.minecraftId := db[p.minecraftId].(stats := Some(DbStats(statsId, data.totalLevel, data.money, data.online)))]
  }

  /** Once its decision is written, a second sync of the same record decides Skip. */
  lemma DecideConverges(p: LocalPlayerData, db: map<string, DbMinecraft>, newId: string)
    ensures p.minecraftId in db || Decide(p, db).Skip?
    ensures Decide(p, Written(db, p, Decide(p, db), newId)) == Skip
  {
  }

  /** The database loop: each record is decided against the database as the writes before it
      left it (`findUnique` runs again on every iteration, after the previous write). The stats
      row created for record i gets the id `newId(i)`. Gives the decisions and the final database. */
  function DbLoop(records: seq<LocalPlayerData>, db: map<string, DbMinecraft>, newId: nat -> string)
    : (r: (seq<Decision>, map<string, DbMinecraft>))
    ensures |r.0| == |records|
    ensures r.1.Keys == db.Keys
    decreases |records|
  {
    if records == [] then ([], db)
    else
      var n := |records| - 1;
      var prev := DbLoop(records[..n], db, newId);
      var d := Decide(records[n], prev.1);
      (prev.0 + [d], Written(prev.1, records[n], d, newId(n)))
  }

  function Decisions(records: seq<LocalPlayerData>, db: map<string, DbMinecraft>, newId: nat -> string): seq<Decision> {
    DbLoop(records, db, newId).0
  }

  /** Record k is decided against the database the first k records left behind. */
  lemma {:induction false} DecisionAt(records: seq<LocalPlayerData>, db: map<string, DbMinecraft>, newId: nat -> string, k: nat)
    requires k < |records|
    ensures Decisions(records, db, newId)[k] == Decide(records[k], DbLoop(records[..k], db, newId).1)
    decreases |records|
  {
    var n := |records| - 1;
    if k < n {
      DecisionAt(records[..n], db, newId, k);
      assert records[..n][..k] == records[..k];
    }
  }

  /** Writes for other ids leave an account as it was. */
  lemma {:induction false} DbLoopUntouched(records: seq<LocalPlayerData>, db: map<string, DbMinecraft>, newId: nat -> string, id: string)
    requires id in db
    requires forall i :: 0 <= i < |records| ==> records[i].minecraftId != id
    ensures DbLoop(records, db, newId).1[id] == db[id]
    decreases |records|
  {
    if records != [] {
      DbLoopUntouched(records[..|records| - 1], db, newId, id);
    }
  }

  /** When no two records share an id, every record is decided against the database as it was at
      the start. */
  lemma DistinctIdsSeeStartingDb(records: seq<LocalPlayerData>, db: map<string, DbMinecraft>, newId: nat -> string, k: nat)
    requires k < |records|
    requires forall i, j :: 0 <= i < j < |records| ==> records[i].minecraftId != records[j].minecraftId
    ensures Decisions(records, db, newId)[k] == Decide(records[k], db)
  {
    DecisionAt(records, db, newId, k);
    var id := records[k].minecraftId;
    if id in db {
      DbLoopUntouched(records[..k], db, newId, id);
    }
  }

  /** Once record j has been decided, its account has a stats row for the rest of the loop. */
  lemma {:induction false} StatsAfter(records: seq<LocalPlayerData>, db: map<string, DbMinecraft>, newId: nat -> string, j: nat, m: nat)
    requires j < m <= |records| && records[j].minecraftId in db
    ensures DbLoop(records[..m], db, newId).1[records[j].minecraftId].stats.Some?
    decreases m
  {
    var id := records[j].minecraftId;
    assert records[..m][..m - 1] == records[..m - 1];
    if m > j + 1 {
      StatsAfter(records, db, newId, j, m - 1);
    }
  }

  /** Two records with the same id (two Essentials files whose names normalise alike) never both
      create a stats row: once the first is decided, the later one sees that row. */
  lemma DuplicateIdCreatesOnce(records: seq<LocalPlayerData>, db: map<string, DbMinecraft>, newId: nat -> string, j: nat, k: nat)
    requires j < k < |records| && records[j].minecraftId == records[k].minecraftId
    ensures !Decisions(records, db, newId)[k].Create?
  {
    DecisionAt(records, db, newId, k);
    if records[j].minecraftId in db {
      StatsAfter(records, db, newId, j, k);
    }
  }

  /** The whole sync, as a function of the two listings and the database. */
  function Sync(
    essentialsDir: Option<seq<DirEntry<EssentialsData>>>,
    auraSkillsDir: Option<seq<DirEntry<AuraSkillsData>>>,
    db: map<string, DbMinecraft>,
    newId: nat -> string): Result<seq<Decision>, SyncError>
  {
    match essentialsDir
    case None => Failure(EssentialsDirUnreadable)
    case Some(essentials) =>
      match EssentialsPass(essentials)
      case Failure(e) => Failure(e)
      case Success(records) =>
        match auraSkillsDir
        case None => Failure(AuraSkillsDirUnreadable)
        case Some(aura) =>
          match AuraSkillsPass(records, aura)
          case Failure(e) => Failure(e)
          case Success(merged) => Success(Decisions(merged, db, newId))
  }

  // The three loops of the sync

  /** The Essentials loop: one fresh record pushed per used file. */
  method BuildLocalData(files: seq<DirEntry<EssentialsData>>) returns (r: Result<seq<LocalPlayerData>, SyncError>)
    ensures r == EssentialsPass(files)
  {
    var localData: seq<LocalPlayerData> := [];
    var i := 0;
    while i < |files|
      invariant 0 <= i <= |files|
      invariant YamlEntries(files[..i]).Success?
      invariant localData == FreshRecords(YamlEntries(files[..i]).value)
    {
      var file := files[i];
      YamlEntriesStep(files, i);
      if IsYml(file.name) {
        match file.content {
          case Throws =>
            YamlEntriesFailureSticks(files, i + 1);
            return Failure(FileUnreadable(file.name));
          case Empty =>
          case Parsed(data) =>
            FreshRecordsSnoc(YamlEntries(files[..i]).value, Named(file.name, data));
            localData := localData + [FreshRecord(file.name, data)];
        }
      }
      i := i + 1;
    }
    assert files[..i] == files;
    return Success(localData);
  }

  /** The AuraSkills loop: each used file overwrites the first record with its id. */
  method MergeAuraSkills(records: seq<LocalPlayerData>, files: seq<DirEntry<AuraSkillsData>>)
    returns (r: Result<seq<LocalPlayerData>, SyncError>)
    ensures r == AuraSkillsPass(records, files)
  {
    var localData := records;
    var i := 0;
    while i < |files|
      invariant 0 <= i <= |files|
      invariant YamlEntries(files[..i]).Success?
      invariant localData == MergeAll(records, YamlEntries(files[..i]).value)
    {
      var file := files[i];
      YamlEntriesStep(files, i);
      if IsYml(file.name) {
        match file.content {
          case Throws =>
            YamlEntriesFailureSticks(files, i + 1);
            return Failure(FileUnreadable(file.name));
          case Empty =>
          case Parsed(data) =>
            var minecraftId := NormaliseId(file.name);
            var index := FindIndex(localData, minecraftId);
            if index != -1 {
              localData := localData[index := Merged(localData[index], data)];
            }
        }
      }
      i := i + 1;
    }
    assert files[..i] == files;
    return Success(localData);
  }

  /** The database loop: one decision per record, in order, each against the database as the
      previous writes left it. */
  method DecideAll(records: seq<LocalPlayerData>, db: map<string, DbMinecraft>, newId: nat -> string)
    returns (ds: seq<Decision>)
    ensures ds == Decisions(records, db, newId)
  {
    ds := [];
    var current := db;
    var i := 0;
    while i < |records|
      invariant 0 <= i <= |records|
      invariant (ds, current) == DbLoop(records[..i], db, newId)
    {
      assert records[..i + 1][..i] == records[..i];
      var player := records[i];
      var decision := Decide(player, current);
      ds := ds + [decision];
      current := Written(current, player, decision, newId(i));
      i := i + 1;
    }
    assert records[..i] == records;
  }

  method SyncMinecraftPlayerData(
    essentialsDir: Option<seq<DirEntry<EssentialsData>>>,
    auraSkillsDir: Option<seq<DirEntry<AuraSkillsData>>>,
    db: map<string, DbMinecraft>,
    newId: nat -> string)
    returns (r: Result<seq<Decision>, SyncError>)
    ensures r == Sync(essentialsDir, auraSkillsDir, db, newId)
    ensures essentialsDir.None? ==> r == Failure(EssentialsDirUnreadable)
  {
    if essentialsDir.None? {
      return Failure(EssentialsDirUnreadable);
    }
    var built := BuildLocalData(essentialsDir.value);
    if built.Failure? {
      return Failure(built.error);
    }
    if auraSkillsDir.None? {
      return Failure(AuraSkillsDirUnreadable);
    }
    var merged := MergeAuraSkills(built.value, auraSkillsDir.value);
    if merged.Failure? {
      return Failure(merged.error);
    }
    var decisions := DecideAll(merged.value, db, newId);
    return Success(decisions);
  }

  /** The skill a record of the AuraSkills pass over fresh records ends up with: that of the last
      file with its id, if it is the first record with that id; otherwise none. */
  function MergedSkill(records: seq<LocalPlayerData>, aura: seq<Named<AuraSkillsData>>, j: nat, s: Skill): SkillStat
    requires j < |records|
  {
    var id := records[j].minecraftId;
    if j == FindIndex(records, id) && LastMatch(aura, id).Some? then SkillFrom(LastMatch(aura, id).value, s)
    else Unskilled
  }

  /** After both passes record j keeps what Essentials gave it, has the skills merged into it, and
      has a consistent total. */
  lemma MergedRecordAt(entries: seq<Named<EssentialsData>>, aura: seq<Named<AuraSkillsData>>, j: nat)
    requires j < |entries|
    ensures |MergeAll(FreshRecords(entries), aura)| == |entries|
    ensures var p := MergeAll(FreshRecords(entries), aura)[j];
            && SameIdentity(p, FreshRecord(entries[j].name, entries[j].data))
            && (forall s :: Stat(p, s) == MergedSkill(FreshRecords(entries), aura, j, s))
            && p.totalLevel == LevelSum(p, AllSkills)
  {
    var records := FreshRecords(entries);
    var p := MergeAll(records, aura)[j];
    assert forall k :: 0 <= k < |records| ==> TotalConsistent(records[k]);
    MergeAllAt(records, aura, j);
    TotalLevelIsLevelSum(p);
  }

  /** What a completed sync writes: one decision per Essentials record, in directory order; every
      row it writes has the id, money and online state read from Essentials, the skills of the
      AuraSkills file merged into it (none when no file matched), and a total that is the sum of
      its eleven skill levels. */
  lemma SyncWrites(
    essentialsDir: Option<seq<DirEntry<EssentialsData>>>,
    auraSkillsDir: Option<seq<DirEntry<AuraSkillsData>>>,
    db: map<string, DbMinecraft>,
    newId: nat -> string,
    j: nat)
    requires Sync(essentialsDir, auraSkillsDir, db, newId).Success?
    ensures essentialsDir.Some? && YamlEntries(essentialsDir.value).Success?
    ensures auraSkillsDir.Some? && YamlEntries(auraSkillsDir.value).Success?
    ensures |Sync(essentialsDir, auraSkillsDir, db, newId).value| == |YamlEntries(essentialsDir.value).value|
    ensures j < |Sync(essentialsDir, auraSkillsDir, db, newId).value| ==>
              var entries := YamlEntries(essentialsDir.value).value;
              var d := Sync(essentialsDir, auraSkillsDir, db, newId).value[j];
              !d.Skip? ==>
                && SameIdentity(d.data, FreshRecord(entries[j].name, entries[j].data))
                && (forall s :: Stat(d.data, s) == MergedSkill(FreshRecords(entries), YamlEntries(auraSkillsDir.value).value, j, s))
                && d.data.totalLevel == LevelSum(d.data, AllSkills)
  {
    var entries := YamlEntries(essentialsDir.value).value;
    var aura := YamlEntries(auraSkillsDir.value).value;
    var merged := MergeAll(FreshRecords(entries), aura);
    var ds := Sync(essentialsDir, auraSkillsDir, db, newId).value;
    assert ds == Decisions(merged, db, newId);
    if j < |entries| {
      MergedRecordAt(entries, aura, j);
      DecisionAt(merged, db, newId, j);
      assert !ds[j].Skip? ==> ds[j].data == merged[j];
    }
  }
}
