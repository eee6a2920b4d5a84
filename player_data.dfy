/** The per-player record the stats sync builds (`LocalPlayerData`), the parsed contents of the
    Essentials and AuraSkills user-data files it is built from, and the functions that build and
    merge one record. */
module PlayerData {
  import opened Wrappers
  import opened FileNames

  datatype Skill =
    | Foraging | Mining | Enchanting | Farming | Alchemy | Fighting
    | Defense | Excavation | Archery | Fishing | Agility

  /** Every skill, in the order the record declares them. */
  const AllSkills: seq<Skill> :=
    [Foraging, Mining, Enchanting, Farming, Alchemy, Fighting, Defense, Excavation, Archery, Fishing, Agility]

  /** The key of a skill in an AuraSkills file's `skills` section. */
  function SkillKey(s: Skill): string {
    match s
    case Foraging => "auraskills/foraging"
    case Mining => "auraskills/mining"
    case Enchanting => "auraskills/enchanting"
    case Farming => "auraskills/farming"
    case Alchemy => "auraskills/alchemy"
    case Fighting => "auraskills/fighting"
    case Defense => "auraskills/defense"
    case Excavation => "auraskills/excavation"
    case Archery => "auraskills/archery"
    case Fishing => "auraskills/fishing"
    case Agility => "auraskills/agility"
  }

  /** The `<skill>Level` and `<skill>Xp` pair of a record. */
  datatype SkillStat = SkillStat(level: int, xp: int)

  const Unskilled := SkillStat(0, 0)

  datatype LocalPlayerData = LocalPlayerData(
    minecraftId: string,
    money: int,
    online: bool,
    foraging: SkillStat,
    mining: SkillStat,
    enchanting: SkillStat,
    farming: SkillStat,
    alchemy: SkillStat,
    fighting: SkillStat,
    defense: SkillStat,
    excavation: SkillStat,
    archery: SkillStat,
    fishing: SkillStat,
    agility: SkillStat,
    totalLevel: int)

  function Stat(p: LocalPlayerData, s: Skill): SkillStat {
    match s
    case Foraging => p.foraging
    case Mining => p.mining
    case Enchanting => p.enchanting
    case Farming => p.farming
    case Alchemy => p.alchemy
    case Fighting => p.fighting
    case Defense => p.defense
    case Excavation => p.excavation
    case Archery => p.archery
    case Fishing => p.fishing
    case Agility => p.agility
  }

  /** The sum of the levels of `skills`: the reference definition of a total. */
  function LevelSum(p: LocalPlayerData, skills: seq<Skill>): int
    decreases |skills|
  {
    if skills == [] then 0 else Stat(p, skills[0]).level + LevelSum(p, skills[1..])
  }

  /** The total level as the sync computes it, in its order of terms. */
  function TotalLevel(p: LocalPlayerData): int {
    p.agility.level + p.archery.level + p.excavation.level + p.defense.level
      + p.fighting.level + p.alchemy.level + p.farming.level + p.enchanting.level
      + p.mining.level + p.foraging.level + p.fishing.level
  }

  /** The sync's total is the sum of all eleven skill levels; no xp enters it. */
  lemma TotalLevelIsLevelSum(p: LocalPlayerData)
    ensures TotalLevel(p) == LevelSum(p, AllSkills)
  {
  }

  /** The total depends on the levels alone. */
  lemma {:induction false} LevelSumOfLevels(p: LocalPlayerData, q: LocalPlayerData, skills: seq<Skill>)
    requires forall s :: Stat(p, s).level == Stat(q, s).level
    ensures LevelSum(p, skills) == LevelSum(q, skills)
    decreases |skills|
  {
    if skills != [] {
      LevelSumOfLevels(p, q, skills[1..]);
    }
  }

  /** Records whose levels agree have the same total, whatever their xp. */
  lemma TotalLevelIgnoresXp(p: LocalPlayerData, q: LocalPlayerData)
    requires forall s :: Stat(p, s).level == Stat(q, s).level
    ensures TotalLevel(p) == TotalLevel(q)
  {
    TotalLevelIsLevelSum(p);
    TotalLevelIsLevelSum(q);
    LevelSumOfLevels(p, q, AllSkills);
  }

  /** A record whose `totalLevel` field is the sum of its levels. */
  predicate TotalConsistent(p: LocalPlayerData) {
    p.totalLevel == TotalLevel(p)
  }

  /** The fields a merge of skill data keeps. */
  predicate SameIdentity(p: LocalPlayerData, q: LocalPlayerData) {
    p.minecraftId == q.minecraftId && p.money == q.money && p.online == q.online
  }

  // Essentials user data

  datatype Timestamps = Timestamps(login: Option<int>, logout: Option<int>)

  /** An Essentials user-data file, parsed; `money` is None when absent or not a number. */
  datatype EssentialsData = EssentialsData(money: Option<int>, timestamps: Option<Timestamps>)

  /** `data.timestamps?.login > data.timestamps?.logout`. A comparison with `undefined` is false;
      so `None` stands for an absent (`undefined`) timestamp, while a YAML `null` timestamp, which
      JavaScript compares as 0, is `Some(0)`. A `timestamps` section that is absent or `null` is
      `None`. */
  predicate IsOnline(data: EssentialsData)
    ensures IsOnline(data) ==>
              data.timestamps.Some? && data.timestamps.value.login.Some? && data.timestamps.value.logout.Some?
    ensures data.timestamps.Some? && data.timestamps.value.login.Some? && data.timestamps.value.logout.Some? ==>
              (IsOnline(data) <==> data.timestamps.value.login.value > data.timestamps.value.logout.value)
  {
    && data.timestamps.Some?
    && data.timestamps.value.login.Some?
    && data.timestamps.value.logout.Some?
    && data.timestamps.value.login.value > data.timestamps.value.logout.value
  }

  /** The record built from the Essentials file `fileName`. */
  function FreshRecord(fileName: string, data: EssentialsData): (p: LocalPlayerData)
    ensures p.minecraftId == NormaliseId(fileName)
    ensures p.money == (if data.money.Some? then data.money.value else 0)
    ensures p.online <==> IsOnline(data)
    ensures forall s :: Stat(p, s) == Unskilled
    ensures p.totalLevel == 0 && TotalConsistent(p)
  {
    LocalPlayerData(
      NormaliseId(fileName), data.money.GetOr(0), IsOnline(data),
      Unskilled, Unskilled, Unskilled, Unskilled, Unskilled, Unskilled,
      Unskilled, Unskilled, Unskilled, Unskilled, Unskilled,
      0)
  }

  // AuraSkills user data

  /** One skill's entry; a level or xp that is absent, zero or not a number reads as None. */
  datatype SkillEntry = SkillEntry(level: Option<int>, xp: Option<int>)

  /** An AuraSkills user-data file, parsed; a missing `skills` section is the empty map. */
  datatype AuraSkillsData = AuraSkillsData(skills: map<string, SkillEntry>)

  /** Each skill has its own key in a file. */
  lemma SkillKeysDistinct(s: Skill, t: Skill)
    requires s != t
    ensures SkillKey(s) != SkillKey(t)
  {
    assert SkillKey(s)[11..] != SkillKey(t)[11..];
  }

  /** `data?.skills?.[key]?.level || 0` and the same for xp: a skill without an entry is unskilled,
      and a level or xp that is not there reads as 0. */
  function SkillFrom(data: AuraSkillsData, s: Skill): (stat: SkillStat)
    ensures SkillKey(s) !in data.skills ==> stat == Unskilled
    ensures SkillKey(s) in data.skills ==>
              stat.level == data.skills[SkillKey(s)].level.GetOr(0) && stat.xp == data.skills[SkillKey(s)].xp.GetOr(0)
    ensures stat.level != 0 ==> SkillKey(s) in data.skills && data.skills[SkillKey(s)].level == Some(stat.level)
  {
    if SkillKey(s) in data.skills
    then SkillStat(data.skills[SkillKey(s)].level.GetOr(0), data.skills[SkillKey(s)].xp.GetOr(0))
    else Unskilled
  }

  /** `existing` with its skills replaced by those in `data` and its total recomputed. */
  function Merged(existing: LocalPlayerData, data: AuraSkillsData): (p: LocalPlayerData)
    ensures SameIdentity(p, existing)
    ensures forall s :: Stat(p, s) == SkillFrom(data, s)
    ensures TotalConsistent(p)
  {
    var skilled := existing.(
      foraging := SkillFrom(data, Foraging),
      mining := SkillFrom(data, Mining),
      enchanting := SkillFrom(data, Enchanting),
      farming := SkillFrom(data, Farming),
      alchemy := SkillFrom(data, Alchemy),
      fighting := SkillFrom(data, Fighting),
      defense := SkillFrom(data, Defense),
      excavation := SkillFrom(data, Excavation),
      archery := SkillFrom(data, Archery),
      fishing := SkillFrom(data, Fishing),
      agility := SkillFrom(data, Agility));
    skilled.(totalLevel := TotalLevel(skilled))
  }

  /** A later AuraSkills file for the same player replaces everything an earlier one merged. */
  lemma MergedOverwrites(p: LocalPlayerData, first: AuraSkillsData, second: AuraSkillsData)
    ensures Merged(Merged(p, first), second) == Merged(p, second)
  {
  }

  /** `findIndex` by id: the first record with that id, or -1. */
  function FindIndex(records: seq<LocalPlayerData>, id: string): (k: int)
    ensures -1 <= k < |records|
    ensures k >= 0 ==> records[k].minecraftId == id
    ensures forall j :: 0 <= j < (if k == -1 then |records| else k) ==> records[j].minecraftId != id
  {
    if records == [] then -1
    else if records[0].minecraftId == id then 0
    else
      var k := FindIndex(records[1..], id);
      if k == -1 then -1 else k + 1
  }

  /** One AuraSkills file merged into `records`: the first record with the file's id is rewritten,
      and nothing else changes; a file whose id matches no record is skipped. */
  function MergeOne(records: seq<LocalPlayerData>, fileName: string, data: AuraSkillsData): (r: seq<LocalPlayerData>)
    ensures |r| == |records|
    ensures FindIndex(records, NormaliseId(fileName)) == -1 ==> r == records
    ensures forall j :: 0 <= j < |records| && j != FindIndex(records, NormaliseId(fileName)) ==> r[j] == records[j]
    ensures forall j :: 0 <= j < |records| ==> SameIdentity(r[j], records[j])
  {
    var index := FindIndex(records, NormaliseId(fileName));
    if index == -1 then records else records[index := Merged(records[index], data)]
  }

  /** The record a merge writes is the first one carrying the file's id. */
  lemma MergeOneRewritesFirstMatch(records: seq<LocalPlayerData>, fileName: string, data: AuraSkillsData, k: nat)
    requires k < |records| && records[k].minecraftId == NormaliseId(fileName)
    requires forall j :: 0 <= j < k ==> records[j].minecraftId != NormaliseId(fileName)
    ensures MergeOne(records, fileName, data)[k] == Merged(records[k], data)
  {
  }
}
