/** The `combination_equipment4` action: crafts one piece of equipment in a
    crafting slot from a recipe and an optional sub-recipe. The actual path
    validates in a fixed order, consumes materials, picks random options,
    charges gold and action points, and writes the avatar, the slot and the
    agent. The rehearsal path writes placeholders to the same three addresses
    without reading anything. */
module CombinationEquipment4 {
  import opened Base
  import opened Addresses
  import opened Values
  import opened Ledger
  import opened GameStates
  import Sorting

  datatype Parameters = Parameters(
    avatarAddress: Address,
    recipeId: Int32,
    slotIndex: Int32,
    subRecipeId: Option<Int32>)

  datatype RecipeRow = RecipeRow(
    id: int,
    resultEquipmentId: int,
    materialId: int,
    materialCount: nat,
    requiredActionPoint: int,
    requiredGold: int,
    requiredBlockIndex: int,
    unlockStage: int,
    subRecipeIds: seq<int>)

  datatype MaterialInfo = MaterialInfo(id: int, count: nat)

  datatype OptionInfo = OptionInfo(id: int, ratio: int)

  datatype SubRecipeRow = SubRecipeRow(
    id: int,
    requiredActionPoint: int,
    requiredGold: int,
    requiredBlockIndex: int,
    materials: seq<MaterialInfo>,
    options: seq<OptionInfo>,
    maxOptionLimit: int)

  /** A material sheet row: its id and the inventory item id it stacks as. */
  datatype MaterialRow = MaterialRow(id: int, itemId: int)

  /** The read-only reference tables the action consults. */
  datatype Tables = Tables(
    recipes: map<int, RecipeRow>,
    subRecipes: map<int, SubRecipeRow>,
    materials: map<int, MaterialRow>,
    equipment: set<int>,                 // ids of the equipment sheet rows
    options: map<int, OptionRow>,
    skills: set<int>)                    // ids of the skill sheet rows

  const StatTypeNone: int := 0

  // ----- options -------------------------------------------------------

  function RowId(row: OptionRow): int { row.id }

  /** Ids of the option rows a sub-recipe can offer: those of its listed
      options that the option table holds. */
  ghost function OfferableIds(options: seq<OptionInfo>, table: map<int, OptionRow>): set<int>
  {
    set o | o in options && o.id in table :: table[o.id].id
  }

  /** Ids the sub-recipe lists, whether or not the table has them. */
  ghost function ListedIds(options: seq<OptionInfo>): set<int>
  {
    set o | o in options :: o.id
  }

  /** Every row of the option table sits under its own id, as sheet rows do. */
  ghost predicate OptionsKeyed(table: map<int, OptionRow>)
  {
    forall id :: id in table ==> table[id].id == id
  }

  /** In a table keyed by row id, an offerable id is a listed one. */
  lemma OfferableAreListed(options: seq<OptionInfo>, table: map<int, OptionRow>)
    ensures OptionsKeyed(table) ==> OfferableIds(options, table) <= ListedIds(options)
  {
    forall id | OptionsKeyed(table) && id in OfferableIds(options, table)
      ensures id in ListedIds(options)
    {
      var o :| o in options && o.id in table && table[o.id].id == id;
    }
  }

  ghost function RowIds(rows: seq<OptionRow>): set<int>
  {
    set row | row in rows :: row.id
  }

  /** Every option of the sub-recipe that the table knows, with its weight,
      in listed order; unknown ids are skipped. */
  function OfferedOptions(options: seq<OptionInfo>, table: map<int, OptionRow>): (r: seq<WeightedOption>)
    ensures |r| <= |options|
    ensures forall w :: w in r ==> w.row.id in OfferableIds(options, table)
    ensures forall o :: o in options && o.id in table ==> WeightedOption(table[o.id], o.ratio) in r
    ensures forall w :: w in r ==>
      exists o :: o in options && o.id in table && w == WeightedOption(table[o.id], o.ratio)
  {
    if options == [] then []
    else
      var rest := OfferedOptions(options[1..], table);
      assert OfferableIds(options[1..], table) <= OfferableIds(options, table) by {
        forall o | o in options[1..] ensures o in options { }
      }
      assert forall o :: o in options ==> o == options[0] || o in options[1..];
      if options[0].id in table then [WeightedOption(table[options[0].id], options[0].ratio)] + rest
      else rest
  }

  /** The offered rows the selector's mask picks, in offered order. */
  function Chosen(offered: seq<WeightedOption>, mask: seq<bool>): (r: seq<OptionRow>)
    ensures |r| <= |offered| && |r| <= |mask|
    decreases |offered|
  {
    if offered == [] || mask == [] then []
    else
      var rest := Chosen(offered[1..], mask[1..]);
      if mask[0] then [offered[0].row] + rest else rest
  }

  /** Picking never invents a row: every chosen row's id is among the ids of
      the offered rows. */
  lemma {:induction false} ChosenWithin(offered: seq<WeightedOption>, mask: seq<bool>, ids: set<int>)
    requires forall w :: w in offered ==> w.row.id in ids
    ensures RowIds(Chosen(offered, mask)) <= ids
    decreases |offered|
  {
    if offered != [] && mask != [] {
      assert forall w :: w in offered[1..] ==> w in offered;
      ChosenWithin(offered[1..], mask[1..], ids);
    }
  }

  /** The option rows applied to the equipment: the selector's picks,
      reordered by ascending id; none when the selector throws. */
  function AppliedRows(table: map<int, OptionRow>, sub: SubRecipeRow, random: Random,
                       select: (Random, seq<WeightedOption>, int) -> Selection): (r: seq<OptionRow>)
    ensures Sorting.SortedBy(r, RowId)
    ensures RowIds(r) <= OfferableIds(sub.options, table)
    ensures select(random, OfferedOptions(sub.options, table), sub.maxOptionLimit).SelectorFailed? ==> r == []
    ensures select(random, OfferedOptions(sub.options, table), sub.maxOptionLimit).Selected? ==>
      multiset(r) ==
        multiset(Chosen(OfferedOptions(sub.options, table), select(random, OfferedOptions(sub.options, table), sub.maxOptionLimit).mask))
  {
    var offered := OfferedOptions(sub.options, table);
    match select(random, offered, sub.maxOptionLimit)
    case SelectorFailed(_) => []
    case Selected(mask, _) =>
      var chosen := Chosen(offered, mask);
      var sorted := Sorting.SortBy(chosen, RowId);
      ChosenWithin(offered, mask, OfferableIds(sub.options, table));
      assert forall row :: row in sorted ==> row in multiset(chosen);
      sorted
  }

  function RandomAfterSelection(table: map<int, OptionRow>, sub: SubRecipeRow, random: Random,
                                select: (Random, seq<WeightedOption>, int) -> Selection): Random
  {
    select(random, OfferedOptions(sub.options, table), sub.maxOptionLimit).after
  }

  /** One option row applied: a stat row adds a stat of its type rolled in
      its closed range; a skill row adds the skill with rolled damage and
      chance, unless the skill table lacks it, in which case nothing is drawn
      or added. */
  function ApplyOption(row: OptionRow, skills: set<int>, random: Random, equipment: Equipment): (r: (Equipment, Random))
    ensures row.statType != StatTypeNone ==>
      && |r.0.stats| == |equipment.stats| + 1 && r.0.stats[..|equipment.stats|] == equipment.stats
      && r.0.stats[|equipment.stats|].statType == row.statType
      && r.0.skills == equipment.skills
      && (row.statMin <= row.statMax ==> row.statMin <= r.0.stats[|equipment.stats|].value <= row.statMax)
    ensures row.statType == StatTypeNone ==> r.0.stats == equipment.stats
    ensures row.statType == StatTypeNone && row.skillId in skills ==>
      && |r.0.skills| == |equipment.skills| + 1 && r.0.skills[..|equipment.skills|] == equipment.skills
      && r.0.skills[|equipment.skills|].skillId == row.skillId
      && (row.skillDamageMin <= row.skillDamageMax ==>
            row.skillDamageMin <= r.0.skills[|equipment.skills|].damage <= row.skillDamageMax)
      && (row.skillChanceMin <= row.skillChanceMax ==>
            row.skillChanceMin <= r.0.skills[|equipment.skills|].chance <= row.skillChanceMax)
    ensures row.statType == StatTypeNone && row.skillId !in skills ==> r == (equipment, random)
    ensures r.0.(stats := equipment.stats, skills := equipment.skills) == equipment
  {
    if row.statType != StatTypeNone then
      var (value, random') := Next(random, row.statMin, row.statMax + 1);
      (equipment.(stats := equipment.stats + [StatBonus(row.statType, value)]), random')
    else if row.skillId in skills then
      var (damage, random') := Next(random, row.skillDamageMin, row.skillDamageMax + 1);
      var (chance, random'') := Next(random', row.skillChanceMin, row.skillChanceMax + 1);
      (equipment.(skills := equipment.skills + [SkillGrant(row.skillId, damage, chance)]), random'')
    else (equipment, random)
  }

  /** The stat types of a stat list, in order. */
  function StatTypesOf(stats: seq<StatBonus>): seq<int>
  {
    seq(|stats|, i requires 0 <= i < |stats| => stats[i].statType)
  }

  /** The skill ids of a skill list, in order. */
  function SkillIdsOf(grants: seq<SkillGrant>): seq<int>
  {
    seq(|grants|, i requires 0 <= i < |grants| => grants[i].skillId)
  }

  /** The stat type one row adds: its own, when it is a stat row. */
  function RowStatType(row: OptionRow): seq<int>
  {
    if row.statType != StatTypeNone then [row.statType] else []
  }

  /** The skill one row adds: its own, when it is a skill row whose skill
      the table knows. */
  function RowSkillId(row: OptionRow, skills: set<int>): seq<int>
  {
    if row.statType == StatTypeNone && row.skillId in skills then [row.skillId] else []
  }

  /** What a row list should add, stated row by row: the type of every stat
      row, in row order. */
  function StatTypes(rows: seq<OptionRow>): seq<int>
  {
    if rows == [] then [] else RowStatType(rows[0]) + StatTypes(rows[1..])
  }

  /** The skill of every skill row whose skill the table knows, in row order. */
  function SkillIds(rows: seq<OptionRow>, skills: set<int>): seq<int>
  {
    if rows == [] then [] else RowSkillId(rows[0], skills) + SkillIds(rows[1..], skills)
  }

  /** One applied row extends the stat types and skill ids by what that row
      contributes. */
  lemma ApplyOptionExtends(row: OptionRow, skills: set<int>, random: Random, equipment: Equipment)
    ensures
      var e := ApplyOption(row, skills, random, equipment).0;
      && StatTypesOf(e.stats) == StatTypesOf(equipment.stats) + RowStatType(row)
      && SkillIdsOf(e.skills) == SkillIdsOf(equipment.skills) + RowSkillId(row, skills)
  {
    var e := ApplyOption(row, skills, random, equipment).0;
    if row.statType != StatTypeNone {
      assert e.stats == equipment.stats + [e.stats[|equipment.stats|]];
    } else if row.skillId in skills {
      assert e.skills == equipment.skills + [e.skills[|equipment.skills|]];
    }
  }

  datatype OptionOutcome = OptionOutcome(optionIds: set<int>, equipment: Equipment, random: Random)

  /** Applies the rows in order and collects their ids: the stats and skills
      the rows contribute are appended in row order, after the existing
      ones. */
  function ApplyOptions(rows: seq<OptionRow>, skills: set<int>, random: Random, equipment: Equipment, ids: set<int>)
    : (r: OptionOutcome)
    ensures r.optionIds == ids + RowIds(rows)
    ensures |r.equipment.stats| >= |equipment.stats| && r.equipment.stats[..|equipment.stats|] == equipment.stats
    ensures |r.equipment.skills| >= |equipment.skills| && r.equipment.skills[..|equipment.skills|] == equipment.skills
    ensures StatTypesOf(r.equipment.stats) == StatTypesOf(equipment.stats) + StatTypes(rows)
    ensures SkillIdsOf(r.equipment.skills) == SkillIdsOf(equipment.skills) + SkillIds(rows, skills)
    ensures |r.equipment.stats| + |r.equipment.skills| <= |equipment.stats| + |equipment.skills| + |rows|
    ensures r.equipment.(stats := equipment.stats, skills := equipment.skills) == equipment
    decreases |rows|
  {
    if rows == [] then OptionOutcome(ids, equipment, random)
    else
      var step := ApplyOption(rows[0], skills, random, equipment);
      var equipment' := step.0;
      var r := ApplyOptions(rows[1..], skills, step.1, equipment', ids + {rows[0].id});
      RowIdsCons(rows);
      ApplyOptionExtends(rows[0], skills, random, equipment);
      PrefixChain(equipment.stats, equipment'.stats, r.equipment.stats);
      PrefixChain(equipment.skills, equipment'.skills, r.equipment.skills);
      ConcatChain(StatTypesOf(equipment.stats), StatTypesOf(equipment'.stats), StatTypesOf(r.equipment.stats),
                  RowStatType(rows[0]), StatTypes(rows[1..]));
      ConcatChain(SkillIdsOf(equipment.skills), SkillIdsOf(equipment'.skills), SkillIdsOf(r.equipment.skills),
                  RowSkillId(rows[0], skills), SkillIds(rows[1..], skills));
      r
  }

  lemma RowIdsCons(rows: seq<OptionRow>)
    requires rows != []
    ensures RowIds(rows) == {rows[0].id} + RowIds(rows[1..])
  {
    assert rows == [rows[0]] + rows[1..];
  }

  lemma PrefixChain<T>(a: seq<T>, b: seq<T>, c: seq<T>)
    requires |a| <= |b| && b[..|a|] == a
    requires |b| <= |c| && c[..|b|] == b
    ensures c[..|a|] == a
  {
    assert c[..|a|] == c[..|b|][..|a|];
  }

  lemma ConcatChain(a: seq<int>, b: seq<int>, c: seq<int>, x: seq<int>, y: seq<int>)
    requires b == a + x && c == b + y
    ensures c == a + (x + y)
  {
  }

  /** `SelectOption`: offers the sub-recipe's known options to the weighted
      selector and applies what it picks in ascending id order; when the
      selector throws, no option is applied and the id set is empty. */
  function SelectOption(table: map<int, OptionRow>, skills: set<int>, sub: SubRecipeRow, random: Random,
                        equipment: Equipment, select: (Random, seq<WeightedOption>, int) -> Selection)
    : (r: OptionOutcome)
    ensures r.optionIds <= OfferableIds(sub.options, table)
    ensures OptionsKeyed(table) ==> r.optionIds <= ListedIds(sub.options)
    ensures r.optionIds == RowIds(AppliedRows(table, sub, random, select))
    ensures StatTypesOf(r.equipment.stats) == StatTypesOf(equipment.stats) + StatTypes(AppliedRows(table, sub, random, select))
    ensures SkillIdsOf(r.equipment.skills) == SkillIdsOf(equipment.skills) + SkillIds(AppliedRows(table, sub, random, select), skills)
    ensures select(random, OfferedOptions(sub.options, table), sub.maxOptionLimit).SelectorFailed? ==>
      r == OptionOutcome({}, equipment, RandomAfterSelection(table, sub, random, select))
    ensures r.equipment.(stats := equipment.stats, skills := equipment.skills) == equipment
  {
    var rows := AppliedRows(table, sub, random, select);
    OfferableAreListed(sub.options, table);
    ApplyOptions(rows, skills, RandomAfterSelection(table, sub, random, select), equipment, {})
  }

  // ----- validation and preparation ------------------------------------

  /** `inventory.RemoveMaterial(itemId, count)`. */
  function RemoveMaterial(inventory: multiset<int>, itemId: int, count: nat): (r: Result<multiset<int>>)
    ensures r.Ok? <==> count <= inventory[itemId]
    ensures r.Err? ==> r.error == NotEnoughMaterial
    ensures r.Ok? ==> r.value <= inventory && r.value[itemId] == inventory[itemId] - count
    ensures r.Ok? ==> forall other :: other != itemId ==> r.value[other] == inventory[other]
  {
    if count <= inventory[itemId] then Ok(inventory[itemId := inventory[itemId] - count])
    else Err(NotEnoughMaterial)
  }

  datatype Consumed = Consumed(inventory: multiset<int>, materials: map<int, int>)

  /** Every listed material has a row in the material table. */
  predicate AllKnown(infos: seq<MaterialInfo>, table: map<int, MaterialRow>)
  {
    forall info :: info in infos ==> info.id in table
  }

  /** The inventory items a list of materials asks for: `count` copies of the
      item id of each material the table knows. */
  function Needed(infos: seq<MaterialInfo>, table: map<int, MaterialRow>): multiset<int>
  {
    if infos == [] then multiset{}
    else
      var here := if infos[0].id in table then multiset{}[table[infos[0].id].itemId := infos[0].count] else multiset{};
      here + Needed(infos[1..], table)
  }

  /** Taking `h` out of an inventory that holds it and then `n` is the same as
      taking `h + n` out at once, and succeeds exactly when that does. */
  lemma RemoveInTurn(inventory: multiset<int>, h: multiset<int>, n: multiset<int>)
    requires h <= inventory
    ensures n <= inventory - h <==> h + n <= inventory
    ensures (inventory - h) - n == inventory - (h + n)
  {
    if n <= inventory - h {
      forall x ensures (h + n)[x] <= inventory[x] {
        assert n[x] <= (inventory - h)[x];
      }
    }
    if h + n <= inventory {
      forall x ensures n[x] <= (inventory - h)[x] {
        assert (h + n)[x] <= inventory[x];
      }
    }
    forall x ensures ((inventory - h) - n)[x] == (inventory - (h + n))[x] {
    }
  }

  /** The material ids a list names. */
  ghost function MaterialIds(infos: seq<MaterialInfo>): set<int>
  {
    set info | info in infos :: info.id
  }

  /** No later entry of the list names the same material as entry `k`, so
      entry `k`'s count is the one recorded for it. */
  ghost predicate LastOfItsId(infos: seq<MaterialInfo>, k: int)
    requires 0 <= k < |infos|
  {
    forall j :: k < j < |infos| ==> infos[j].id != infos[k].id
  }

  /** The sub-recipe's materials, looked up and removed one after another:
      a material without a row is refused with its id, a shortage with
      `NotEnoughMaterial`, and otherwise exactly the listed counts leave the
      inventory. Which entry decides the error is `ConsumeFirstFailure`;
      what is recorded is `Recorded`, see `ConsumeRecordsKeys` and
      `ConsumeRecordsCounts`. */
  function ConsumeSubMaterials(inventory: multiset<int>, materials: map<int, int>, infos: seq<MaterialInfo>,
                               table: map<int, MaterialRow>): (r: Result<Consumed>)
    ensures r.Ok? <==> AllKnown(infos, table) && Needed(infos, table) <= inventory
    ensures r.Ok? ==> r.value.inventory == inventory - Needed(infos, table)
    ensures r.Ok? ==> materials.Keys <= r.value.materials.Keys
    ensures r.Ok? ==> forall info :: info in infos ==> info.id in r.value.materials
    ensures r.Ok? ==> r.value.materials == Recorded(materials, infos)
    ensures infos != [] && infos[0].id !in table ==> r == Err(SheetRowNotFound(MaterialItemSheet, infos[0].id))
    ensures AllKnown(infos, table) && !(Needed(infos, table) <= inventory) ==> r == Err(NotEnoughMaterial)
    ensures r.Err? ==> r.error == NotEnoughMaterial || r.error.SheetRowNotFound?
    decreases |infos|
  {
    if infos == [] then Ok(Consumed(inventory, materials))
    else if infos[0].id !in table then Err(SheetRowNotFound(MaterialItemSheet, infos[0].id))
    else
      var info := infos[0];
      var item := table[info.id].itemId;
      var here := multiset{}[item := info.count];
      NeededStep(infos, table);
      if inventory[item] < info.count then
        assert (here + Needed(infos[1..], table))[item] > inventory[item];
        Err(NotEnoughMaterial)
      else
        RemoveInTurn(inventory, here, Needed(infos[1..], table));
        ConsumeSubMaterials(inventory - here, materials[info.id := info.count], infos[1..], table)
  }

  /** The first entry that fails decides the error, as the source's loop
      throws at the first failing lookup or removal: with every earlier
      entry known and removable, an entry without a row is refused with its
      own id; with every entry up to `j` known, a shortage over the first
      `j` entries is refused as `NotEnoughMaterial`. */
  lemma {:induction false} ConsumeFirstFailure(inventory: multiset<int>, materials: map<int, int>,
                                               infos: seq<MaterialInfo>, table: map<int, MaterialRow>, j: int)
    requires 0 <= j <= |infos|
    ensures j < |infos| && AllKnown(infos[..j], table) && Needed(infos[..j], table) <= inventory && infos[j].id !in table
      ==> ConsumeSubMaterials(inventory, materials, infos, table) == Err(SheetRowNotFound(MaterialItemSheet, infos[j].id))
    ensures AllKnown(infos[..j], table) && !(Needed(infos[..j], table) <= inventory)
      ==> ConsumeSubMaterials(inventory, materials, infos, table) == Err(NotEnoughMaterial)
    decreases |infos|
  {
    if infos != [] && infos[0].id in table && 0 < j {
      var item := table[infos[0].id].itemId;
      var here := multiset{}[item := infos[0].count];
      PrefixStep(infos, table, j);
      if here <= inventory {
        assert inventory[item] >= infos[0].count by { assert here[item] == infos[0].count; }
        RemoveInTurn(inventory, here, Needed(infos[1..][..j - 1], table));
        ConsumeFirstFailure(inventory - here, materials[infos[0].id := infos[0].count], infos[1..], table, j - 1);
        assert infos[1..][j - 1 ..] == infos[j..];
      } else {
        assert inventory[item] < infos[0].count;
      }
    }
  }

  /** The dictionary the consumption loop leaves behind: each entry in turn
      writes its count under its material id, a later entry overwriting an
      earlier one. */
  function Recorded(materials: map<int, int>, infos: seq<MaterialInfo>): map<int, int>
    decreases |infos|
  {
    if infos == [] then materials
    else Recorded(materials[infos[0].id := infos[0].count], infos[1..])
  }

  /** The keys written are exactly the listed ids, and an earlier count the
      list does not overwrite is kept. */
  lemma {:induction false} RecordedKeys(materials: map<int, int>, infos: seq<MaterialInfo>)
    ensures Recorded(materials, infos).Keys == materials.Keys + MaterialIds(infos)
    ensures forall id :: id in materials && id !in MaterialIds(infos) ==> Recorded(materials, infos)[id] == materials[id]
    decreases |infos|
  {
    if infos != [] {
      RecordedKeys(materials[infos[0].id := infos[0].count], infos[1..]);
      MaterialIdsStep(infos);
    }
  }

  /** Entry `k`, when no later entry names its material, has its count
      recorded. */
  lemma {:induction false} RecordedCountAt(materials: map<int, int>, infos: seq<MaterialInfo>, k: int)
    requires 0 <= k < |infos| && LastOfItsId(infos, k)
    ensures infos[k].id in Recorded(materials, infos) && Recorded(materials, infos)[infos[k].id] == infos[k].count
    decreases |infos|
  {
    var next := materials[infos[0].id := infos[0].count];
    if k == 0 {
      RecordedKeys(next, infos[1..]);
      assert infos[0].id !in MaterialIds(infos[1..]);
    } else {
      assert infos[1..][k - 1] == infos[k];
      assert LastOfItsId(infos[1..], k - 1);
      RecordedCountAt(next, infos[1..], k - 1);
    }
  }

  /** What a successful consumption records: exactly the earlier keys and
      the listed material ids; every earlier count the list does not
      overwrite is kept. */
  lemma ConsumeRecordsKeys(inventory: multiset<int>, materials: map<int, int>,
                           infos: seq<MaterialInfo>, table: map<int, MaterialRow>)
    requires ConsumeSubMaterials(inventory, materials, infos, table).Ok?
    ensures
      var recorded := ConsumeSubMaterials(inventory, materials, infos, table).value.materials;
      && recorded.Keys == materials.Keys + MaterialIds(infos)
      && (forall id :: id in materials && id !in MaterialIds(infos) ==> recorded[id] == materials[id])
  {
    RecordedKeys(materials, infos);
  }

  /** The count recorded for each listed material is the last count the
      list gives for it, as each pass overwrites `materials[subMaterial]`. */
  lemma ConsumeRecordsCounts(inventory: multiset<int>, materials: map<int, int>,
                             infos: seq<MaterialInfo>, table: map<int, MaterialRow>)
    requires ConsumeSubMaterials(inventory, materials, infos, table).Ok?
    ensures
      var recorded := ConsumeSubMaterials(inventory, materials, infos, table).value.materials;
      forall k :: 0 <= k < |infos| && LastOfItsId(infos, k) ==>
        infos[k].id in recorded && recorded[infos[k].id] == infos[k].count
  {
    forall k | 0 <= k < |infos| && LastOfItsId(infos, k)
      ensures infos[k].id in Recorded(materials, infos) && Recorded(materials, infos)[infos[k].id] == infos[k].count
    {
      RecordedCountAt(materials, infos, k);
    }
  }

  /** The ids a list names are its first entry's and its tail's. */
  lemma MaterialIdsStep(infos: seq<MaterialInfo>)
    requires infos != []
    ensures MaterialIds(infos) == {infos[0].id} + MaterialIds(infos[1..])
  {
    assert forall i :: i in infos <==> i == infos[0] || i in infos[1..];
  }

  /** The first known material of a list, in front of the rest's needs. */
  lemma NeededStep(infos: seq<MaterialInfo>, table: map<int, MaterialRow>)
    requires infos != [] && infos[0].id in table
    ensures Needed(infos, table) == multiset{}[table[infos[0].id].itemId := infos[0].count] + Needed(infos[1..], table)
    ensures AllKnown(infos, table) <==> AllKnown(infos[1..], table)
    ensures forall i :: i in infos ==> i == infos[0] || i in infos[1..]
  {
    assert forall i :: i in infos[1..] ==> i in infos;
  }

  /** The first `j` entries of a list are its entry 0 followed by the
      first `j - 1` entries of its tail, in what the table knows and needs. */
  lemma PrefixStep(infos: seq<MaterialInfo>, table: map<int, MaterialRow>, j: int)
    requires 0 < j <= |infos| && infos[0].id in table
    ensures Needed(infos[..j], table) == multiset{}[table[infos[0].id].itemId := infos[0].count] + Needed(infos[1..][..j - 1], table)
    ensures AllKnown(infos[..j], table) <==> AllKnown(infos[1..][..j - 1], table)
  {
    assert infos[..j][1..] == infos[1..][..j - 1];
    assert infos[..j][0] == infos[0];
    assert forall i :: i in infos[..j] <==> i == infos[0] || i in infos[1..][..j - 1];
  }

  /** Everything the actual path has established when the gold and
      action-point checks begin. */
  datatype Plan = Plan(
    agent: Agent,
    avatar: Avatar,                 // materials already removed
    slot: CombinationSlot,
    recipe: RecipeRow,
    subRecipe: Option<SubRecipeRow>,
    requiredGold: int,
    requiredActionPoint: int,
    requiredBlockIndex: int,
    equipment: Equipment,
    optionIds: Option<set<int>>,
    materials: map<int, int>,
    random: Random)

  function SubRequiredGold(sub: Option<SubRecipeRow>): int
  {
    match sub
    case None => 0
    case Some(s) => s.requiredGold
  }

  function SubRequiredActionPoint(sub: Option<SubRecipeRow>): int
  {
    match sub
    case None => 0
    case Some(s) => s.requiredActionPoint
  }

  function SubRequiredBlockIndex(sub: Option<SubRecipeRow>): int
  {
    match sub
    case None => 0
    case Some(s) => s.requiredBlockIndex
  }

  /** The actual path up to the gold check: loads the agent, avatar and slot,
      validates the recipe and sub-recipe, removes the materials, creates the
      equipment and selects its options. */
  function Prepare(ctx: Context, p: Parameters, tables: Tables, co: Collaborators): (r: Result<Plan>)
    ensures r.Ok? ==>
      var plan := r.value;
      && p.recipeId in tables.recipes && plan.recipe == tables.recipes[p.recipeId]
      && (p.subRecipeId.None? <==> plan.subRecipe.None?)
      && (p.subRecipeId.Some? ==>
            && p.subRecipeId.value in plan.recipe.subRecipeIds
            && p.subRecipeId.value in tables.subRecipes
            && plan.subRecipe == Some(tables.subRecipes[p.subRecipeId.value]))
      && plan.requiredGold == plan.recipe.requiredGold + SubRequiredGold(plan.subRecipe)
      && plan.requiredActionPoint == plan.recipe.requiredActionPoint + SubRequiredActionPoint(plan.subRecipe)
      && (plan.optionIds.Some? <==> plan.subRecipe.Some?)
      && (plan.subRecipe.Some? ==> plan.optionIds.value <= OfferableIds(plan.subRecipe.value.options, tables.options))
    ensures r.Ok? ==>
      var plan := r.value;
      var states := ctx.previousStates;
      && GetAgentState(states, ctx.signer) == Some(plan.agent)
      && GetAvatarState(states, p.avatarAddress).Some?
      && plan.avatar == GetAvatarState(states, p.avatarAddress).value.(materials := plan.avatar.materials)
      && GetSlotState(states, SlotAddress(p.avatarAddress, p.slotIndex)) == Some(plan.slot)
      && plan.requiredBlockIndex == ctx.blockIndex + plan.recipe.requiredBlockIndex + SubRequiredBlockIndex(plan.subRecipe)
      && plan.equipment.equipmentId == plan.recipe.resultEquipmentId
      && plan.equipment.requiredBlockIndex == plan.requiredBlockIndex
      && (plan.subRecipe.None? ==> plan.equipment.stats == [] && plan.equipment.skills == [])
      && (plan.subRecipe.Some? ==>
            plan.optionIds == Some(RowIds(AppliedRows(tables.options, plan.subRecipe.value, NextGuid(ctx.random).1, co.selectOptions))))
  {
    var plan :- BasePlan(ctx, p, tables, co);
    match p.subRecipeId
    case None => Ok(plan)
    case Some(subId) => WithSubRecipe(plan, subId, tables, co)
  }

  /** The actual path without its sub-recipe part: loads the agent, avatar
      and slot, checks the slot, the recipe, the sub-recipe listing and the
      stage, removes the recipe's material and creates the equipment. The
      plan holds the loaded records, the avatar changed only in its
      materials, and the recipe's costs and wait. */
  function BasePlan(ctx: Context, p: Parameters, tables: Tables, co: Collaborators): (r: Result<Plan>)
    ensures r.Ok? ==>
      var plan := r.value;
      var states := ctx.previousStates;
      && GetAgentState(states, ctx.signer) == Some(plan.agent)
      && GetAvatarState(states, p.avatarAddress).Some?
      && plan.avatar == GetAvatarState(states, p.avatarAddress).value.(materials := plan.avatar.materials)
      && GetSlotState(states, SlotAddress(p.avatarAddress, p.slotIndex)) == Some(plan.slot)
      && p.recipeId in tables.recipes && plan.recipe == tables.recipes[p.recipeId]
      && (p.subRecipeId.Some? ==> p.subRecipeId.value in plan.recipe.subRecipeIds)
      && plan.subRecipe.None? && plan.optionIds.None?
      && plan.requiredGold == plan.recipe.requiredGold
      && plan.requiredActionPoint == plan.recipe.requiredActionPoint
      && plan.requiredBlockIndex == ctx.blockIndex + plan.recipe.requiredBlockIndex
      && plan.equipment.equipmentId == plan.recipe.resultEquipmentId
      && plan.equipment.requiredBlockIndex == plan.requiredBlockIndex
      && plan.equipment.stats == [] && plan.equipment.skills == []
      && plan.random == NextGuid(ctx.random).1
  {
    var states := ctx.previousStates;
    var agent := GetAgentState(states, ctx.signer);
    var avatar := GetAvatarState(states, p.avatarAddress);
    var _ :- Need(agent.Some? && avatar.Some?, FailedLoadState);
    var slot := GetSlotState(states, SlotAddress(p.avatarAddress, p.slotIndex));
    var _ :- Need(slot.Some?, FailedLoadState);
    var _ :- Need(co.slotUsable(slot.value, avatar.value, ctx.blockIndex), CombinationSlotUnlock);
    var _ :- Need(p.recipeId in tables.recipes, SheetRowNotFound(EquipmentItemRecipeSheet, p.recipeId));
    var recipe := tables.recipes[p.recipeId];
    var _ :- Need(p.subRecipeId.None? || p.subRecipeId.value in recipe.subRecipeIds, SheetRowColumn);
    var _ :- Need(co.stageCleared(avatar.value, recipe.unlockStage), NotEnoughClearedStageLevel);
    var _ :- Need(recipe.materialId in tables.materials, SheetRowNotFound(MaterialItemSheet, recipe.materialId));
    var material := tables.materials[recipe.materialId];
    var inventory :- RemoveMaterial(avatar.value.materials, material.itemId, recipe.materialCount);
    var materials := map[material.id := recipe.materialCount];
    var _ :- Need(recipe.resultEquipmentId in tables.equipment,
                  SheetRowNotFound(EquipmentItemSheet, recipe.resultEquipmentId));
    var requiredBlockIndex := ctx.blockIndex + recipe.requiredBlockIndex;
    var (guid, random) := NextGuid(ctx.random);
    var equipment := Equipment(guid, recipe.resultEquipmentId, requiredBlockIndex, [], []);
    Ok(Plan(agent.value, avatar.value.(materials := inventory), slot.value, recipe, None,
            recipe.requiredGold, recipe.requiredActionPoint, requiredBlockIndex, equipment, None,
            materials, random))
  }

  /** The sub-recipe part of the actual path, applied to the plan without
      it: looks the sub-recipe up, removes its materials, selects the
      options, and adds its costs and its wait. The loaded records and the
      recipe stay as they are, and the equipment changes only in its stats,
      its skills and its due block index. */
  function WithSubRecipe(plan: Plan, subId: int, tables: Tables, co: Collaborators): (r: Result<Plan>)
    ensures subId !in tables.subRecipes ==> r == Err(SheetRowNotFound(EquipmentItemSubRecipeSheet, subId))
    ensures subId in tables.subRecipes ==>
      var sub := tables.subRecipes[subId];
      var consumed := ConsumeSubMaterials(plan.avatar.materials, plan.materials, sub.materials, tables.materials);
      && (consumed.Err? ==> r == Err(consumed.error))
      && (consumed.Ok? ==> r.Ok? && r.value.avatar.materials == consumed.value.inventory)
    ensures r.Ok? ==>
      && subId in tables.subRecipes
      && r.value.subRecipe == Some(tables.subRecipes[subId])
      && r.value.agent == plan.agent && r.value.slot == plan.slot && r.value.recipe == plan.recipe
      && r.value.avatar == plan.avatar.(materials := r.value.avatar.materials)
      && r.value.requiredGold == plan.requiredGold + tables.subRecipes[subId].requiredGold
      && r.value.requiredActionPoint == plan.requiredActionPoint + tables.subRecipes[subId].requiredActionPoint
      && r.value.requiredBlockIndex == plan.requiredBlockIndex + tables.subRecipes[subId].requiredBlockIndex
      && r.value.equipment.(stats := plan.equipment.stats, skills := plan.equipment.skills,
                            requiredBlockIndex := plan.equipment.requiredBlockIndex) == plan.equipment
      && r.value.equipment.requiredBlockIndex == r.value.requiredBlockIndex
      && r.value.optionIds == Some(RowIds(AppliedRows(tables.options, tables.subRecipes[subId], plan.random, co.selectOptions)))
      && r.value.optionIds.value <= OfferableIds(tables.subRecipes[subId].options, tables.options)
  {
    var _ :- Need(subId in tables.subRecipes, SheetRowNotFound(EquipmentItemSubRecipeSheet, subId));
    var sub := tables.subRecipes[subId];
    var consumed :- ConsumeSubMaterials(plan.avatar.materials, plan.materials, sub.materials, tables.materials);
    var options := SelectOption(tables.options, tables.skills, sub, plan.random, plan.equipment, co.selectOptions);
    var blockIndex := plan.requiredBlockIndex + sub.requiredBlockIndex;
    Ok(plan.(avatar := plan.avatar.(materials := consumed.inventory), subRecipe := Some(sub),
             requiredGold := plan.requiredGold + sub.requiredGold,
             requiredActionPoint := plan.requiredActionPoint + sub.requiredActionPoint,
             requiredBlockIndex := blockIndex,
             equipment := options.equipment.(requiredBlockIndex := blockIndex),
             optionIds := Some(options.optionIds), materials := consumed.materials, random := options.random))
  }

  /** A sub-recipe the recipe does not list is refused right after the
      recipe lookup, before the stage check and before any material is
      looked at: the outcome is the same whatever the inventory holds. */
  lemma UnlistedSubRecipeRejected(ctx: Context, p: Parameters, tables: Tables, co: Collaborators)
    requires GetAgentState(ctx.previousStates, ctx.signer).Some?
    requires GetAvatarState(ctx.previousStates, p.avatarAddress).Some?
    requires GetSlotState(ctx.previousStates, SlotAddress(p.avatarAddress, p.slotIndex)).Some?
    requires co.slotUsable(GetSlotState(ctx.previousStates, SlotAddress(p.avatarAddress, p.slotIndex)).value,
                           GetAvatarState(ctx.previousStates, p.avatarAddress).value, ctx.blockIndex)
    requires p.recipeId in tables.recipes
    requires p.subRecipeId.Some? && p.subRecipeId.value !in tables.recipes[p.recipeId].subRecipeIds
    ensures Prepare(ctx, p, tables, co) == Err(SheetRowColumn)
  {
  }

  /** The first checks and the error each one raises, in order. */
  lemma PrepareCheckOrder(ctx: Context, p: Parameters, tables: Tables, co: Collaborators)
    ensures GetAgentState(ctx.previousStates, ctx.signer).None? ==> Prepare(ctx, p, tables, co) == Err(FailedLoadState)
    ensures GetAvatarState(ctx.previousStates, p.avatarAddress).None? ==> Prepare(ctx, p, tables, co) == Err(FailedLoadState)
    ensures GetAgentState(ctx.previousStates, ctx.signer).Some?
         && GetAvatarState(ctx.previousStates, p.avatarAddress).Some?
         && GetSlotState(ctx.previousStates, SlotAddress(p.avatarAddress, p.slotIndex)).None?
         ==> Prepare(ctx, p, tables, co) == Err(FailedLoadState)
    ensures GetAgentState(ctx.previousStates, ctx.signer).Some?
         && GetAvatarState(ctx.previousStates, p.avatarAddress).Some?
         && GetSlotState(ctx.previousStates, SlotAddress(p.avatarAddress, p.slotIndex)).Some?
         && !co.slotUsable(GetSlotState(ctx.previousStates, SlotAddress(p.avatarAddress, p.slotIndex)).value,
                           GetAvatarState(ctx.previousStates, p.avatarAddress).value, ctx.blockIndex)
         ==> Prepare(ctx, p, tables, co) == Err(CombinationSlotUnlock)
    ensures GetAgentState(ctx.previousStates, ctx.signer).Some?
         && GetAvatarState(ctx.previousStates, p.avatarAddress).Some?
         && GetSlotState(ctx.previousStates, SlotAddress(p.avatarAddress, p.slotIndex)).Some?
         && co.slotUsable(GetSlotState(ctx.previousStates, SlotAddress(p.avatarAddress, p.slotIndex)).value,
                          GetAvatarState(ctx.previousStates, p.avatarAddress).value, ctx.blockIndex)
         && p.recipeId !in tables.recipes
         ==> Prepare(ctx, p, tables, co) == Err(SheetRowNotFound(EquipmentItemRecipeSheet, p.recipeId))
  {
  }

  /** The loads, the slot check, the recipe lookup and the sub-recipe
      listing all pass. */
  predicate EarlyChecksPass(ctx: Context, p: Parameters, tables: Tables, co: Collaborators)
  {
    var states := ctx.previousStates;
    && GetAgentState(states, ctx.signer).Some?
    && GetAvatarState(states, p.avatarAddress).Some?
    && GetSlotState(states, SlotAddress(p.avatarAddress, p.slotIndex)).Some?
    && co.slotUsable(GetSlotState(states, SlotAddress(p.avatarAddress, p.slotIndex)).value,
                     GetAvatarState(states, p.avatarAddress).value, ctx.blockIndex)
    && p.recipeId in tables.recipes
    && (p.subRecipeId.None? || p.subRecipeId.value in tables.recipes[p.recipeId].subRecipeIds)
  }

  /** The recipe's own material, as inventory items. */
  function RecipeMaterial(tables: Tables, recipe: RecipeRow): multiset<int>
    requires recipe.materialId in tables.materials
  {
    multiset{}[tables.materials[recipe.materialId].itemId := recipe.materialCount]
  }

  /** The checks after the early ones pass, with the main recipe's own
      material taken and the result equipment known. */
  predicate MainChecksPass(ctx: Context, p: Parameters, tables: Tables, co: Collaborators)
  {
    && EarlyChecksPass(ctx, p, tables, co)
    && var avatar := GetAvatarState(ctx.previousStates, p.avatarAddress).value;
    && var recipe := tables.recipes[p.recipeId];
    && co.stageCleared(avatar, recipe.unlockStage)
    && recipe.materialId in tables.materials
    && RecipeMaterial(tables, recipe) <= avatar.materials
    && recipe.resultEquipmentId in tables.equipment
  }

  /** After the early checks: the stage, the material row, the material
      count and the equipment row are checked in that order, each with its
      own error. */
  lemma PrepareMainCheckOrder(ctx: Context, p: Parameters, tables: Tables, co: Collaborators)
    ensures EarlyChecksPass(ctx, p, tables, co) ==>
      var avatar := GetAvatarState(ctx.previousStates, p.avatarAddress).value;
      var recipe := tables.recipes[p.recipeId];
      && (!co.stageCleared(avatar, recipe.unlockStage) ==> Prepare(ctx, p, tables, co) == Err(NotEnoughClearedStageLevel))
      && (co.stageCleared(avatar, recipe.unlockStage) && recipe.materialId !in tables.materials ==>
            Prepare(ctx, p, tables, co) == Err(SheetRowNotFound(MaterialItemSheet, recipe.materialId)))
      && (co.stageCleared(avatar, recipe.unlockStage) && recipe.materialId in tables.materials
          && !(RecipeMaterial(tables, recipe) <= avatar.materials) ==>
            Prepare(ctx, p, tables, co) == Err(NotEnoughMaterial))
      && (co.stageCleared(avatar, recipe.unlockStage) && recipe.materialId in tables.materials
          && RecipeMaterial(tables, recipe) <= avatar.materials && recipe.resultEquipmentId !in tables.equipment ==>
            Prepare(ctx, p, tables, co) == Err(SheetRowNotFound(EquipmentItemSheet, recipe.resultEquipmentId)))
  {
    if EarlyChecksPass(ctx, p, tables, co) {
      var avatar := GetAvatarState(ctx.previousStates, p.avatarAddress).value;
      var recipe := tables.recipes[p.recipeId];
      if recipe.materialId in tables.materials {
        var item := tables.materials[recipe.materialId].itemId;
        if !(RecipeMaterial(tables, recipe) <= avatar.materials) {
          assert avatar.materials[item] < recipe.materialCount;
        } else {
          assert RecipeMaterial(tables, recipe)[item] <= avatar.materials[item];
        }
      }
    }
  }

  /** After the main checks: the sub-recipe row and then its materials are
      checked; when everything passes, preparation succeeds, and the avatar
      has lost exactly the recipe's material and the sub-recipe's ones. */
  lemma PrepareSubRecipeCheckOrder(ctx: Context, p: Parameters, tables: Tables, co: Collaborators)
    ensures MainChecksPass(ctx, p, tables, co) ==>
      var avatar := GetAvatarState(ctx.previousStates, p.avatarAddress).value;
      var recipe := tables.recipes[p.recipeId];
      var remaining := avatar.materials - RecipeMaterial(tables, recipe);
      && (p.subRecipeId.None? ==>
            && Prepare(ctx, p, tables, co).Ok?
            && Prepare(ctx, p, tables, co).value.avatar.materials == remaining)
      && (p.subRecipeId.Some? && p.subRecipeId.value !in tables.subRecipes ==>
            Prepare(ctx, p, tables, co) == Err(SheetRowNotFound(EquipmentItemSubRecipeSheet, p.subRecipeId.value)))
      && (p.subRecipeId.Some? && p.subRecipeId.value in tables.subRecipes ==>
            var sub := tables.subRecipes[p.subRecipeId.value];
            var consumed := ConsumeSubMaterials(remaining, map[tables.materials[recipe.materialId].id := recipe.materialCount],
                                                sub.materials, tables.materials);
            && (consumed.Err? ==> Prepare(ctx, p, tables, co) == Err(consumed.error))
            && (consumed.Ok? ==>
                  && Prepare(ctx, p, tables, co).Ok?
                  && Prepare(ctx, p, tables, co).value.avatar.materials
                       == remaining - Needed(sub.materials, tables.materials)))
  {
    if MainChecksPass(ctx, p, tables, co) {
      var avatar := GetAvatarState(ctx.previousStates, p.avatarAddress).value;
      var recipe := tables.recipes[p.recipeId];
      var item := tables.materials[recipe.materialId].itemId;
      assert RecipeMaterial(tables, recipe)[item] <= avatar.materials[item];
      assert RemoveMaterial(avatar.materials, item, recipe.materialCount).value
          == avatar.materials - RecipeMaterial(tables, recipe);
    }
  }

  // ----- settlement ----------------------------------------------------

  /** The actual path from the gold check on: refuses a signer holding less
      gold than required, then an avatar with fewer action points than
      required; otherwise deducts the action points, unlocks the selected
      options, moves the gold to the blacksmith when the price is positive,
      and writes the avatar, the slot and the agent. */
  function Settle(ctx: Context, p: Parameters, plan: Plan, co: Collaborators): (r: Result<World>)
    ensures
      var states := ctx.previousStates;
      var gold := co.goldCurrency;
      var price := Units(gold, plan.requiredGold);
      && (r == Err(InsufficientBalance) <==> Balance(states, ctx.signer, gold) < price)
      && (r == Err(NotEnoughActionPoint) <==>
            price <= Balance(states, ctx.signer, gold) && plan.avatar.actionPoint < plan.requiredActionPoint)
      && (r.Ok? <==>
            price <= Balance(states, ctx.signer, gold) && plan.requiredActionPoint <= plan.avatar.actionPoint)
    ensures r.Ok? ==> r.value.updatedStates == ctx.previousStates.updatedStates + WrittenAddresses(p, ctx.signer)
    ensures r.Ok? ==> forall a :: a !in WrittenAddresses(p, ctx.signer) ==>
      GetState(r.value, a) == GetState(ctx.previousStates, a)
    ensures r.Ok? ==>
      r.value.updatedBalances <=
        ctx.previousStates.updatedBalances + {(ctx.signer, co.goldCurrency), (BlacksmithAddress, co.goldCurrency)}
  {
    var states := ctx.previousStates;
    var gold := co.goldCurrency;
    var price := Units(gold, plan.requiredGold);
    var _ :- Need(price <= Balance(states, ctx.signer, gold), InsufficientBalance);
    var _ :- Need(plan.requiredActionPoint <= plan.avatar.actionPoint, NotEnoughActionPoint);
    var avatar := plan.avatar.(actionPoint := plan.avatar.actionPoint - plan.requiredActionPoint);
    var agent := match plan.optionIds
      case None => plan.agent
      case Some(ids) => plan.agent.(unlockedOptions := plan.agent.unlockedOptions + ids);
    // the balance check above leaves a positive price affordable
    var paid := if 0 < plan.requiredGold then Transfer(states, ctx.signer, BlacksmithAddress, gold, price).value else states;
    var (mailId, _) := NextGuid(plan.random);
    var result := CraftResult(plan.requiredActionPoint, plan.requiredGold, plan.materials, plan.equipment,
                              p.recipeId, if p.subRecipeId.Some? then Some(p.subRecipeId.value as int) else None, mailId);
    var slot := plan.slot.(result := Some(result), startBlockIndex := ctx.blockIndex,
                           unlockBlockIndex := plan.requiredBlockIndex);
    Ok(SetState(SetState(SetState(paid,
         p.avatarAddress, AvatarValue(avatar.(mails := avatar.mails + [result]))),
         SlotAddress(p.avatarAddress, p.slotIndex), SlotValue(slot)),
         ctx.signer, AgentValue(agent)))
  }

  /** What a successful settlement changes: the avatar loses exactly the
      required action points, the agent gains exactly the selected options,
      gold moves from the signer to the blacksmith only for a positive price
      and exactly by that price, no other balance moves, and exactly the
      avatar, slot and signer addresses are written. */
  lemma SettleEffects(ctx: Context, p: Parameters, plan: Plan, co: Collaborators)
    requires Settle(ctx, p, plan, co).Ok?
    requires ctx.signer != BlacksmithAddress
    requires p.avatarAddress != ctx.signer
    ensures
      var w := Settle(ctx, p, plan, co).value;
      var states := ctx.previousStates;
      var gold := co.goldCurrency;
      var price := Units(gold, plan.requiredGold);
      && w.updatedStates == states.updatedStates + {p.avatarAddress, SlotAddress(p.avatarAddress, p.slotIndex), ctx.signer}
      && GetAvatarState(w, p.avatarAddress).Some?
      && GetAvatarState(w, p.avatarAddress).value.actionPoint == plan.avatar.actionPoint - plan.requiredActionPoint
      && GetAgentState(w, ctx.signer).Some?
      && GetAgentState(w, ctx.signer).value.unlockedOptions ==
           plan.agent.unlockedOptions + (if plan.optionIds.Some? then plan.optionIds.value else {})
      && (0 < plan.requiredGold ==>
            && Balance(w, ctx.signer, gold) == Balance(states, ctx.signer, gold) - price
            && Balance(w, BlacksmithAddress, gold) == Balance(states, BlacksmithAddress, gold) + price
            && w.updatedBalances == states.updatedBalances + {(ctx.signer, gold), (BlacksmithAddress, gold)})
      && (plan.requiredGold <= 0 ==> w.balances == states.balances && w.updatedBalances == states.updatedBalances)
      && (forall a, c :: (a, c) != (ctx.signer, gold) && (a, c) != (BlacksmithAddress, gold) ==>
            Balance(w, a, c) == Balance(states, a, c))
  {
    SlotAddressNotAvatarOrSigner(p.avatarAddress, p.slotIndex, ctx.signer);
  }

  /** A slot address is derived from the avatar address, so it is neither the
      avatar's nor, when the signer is a key-pair account, the signer's. */
  lemma SlotAddressNotAvatarOrSigner(avatarAddress: Address, slotIndex: int, signer: Address)
    ensures SlotAddress(avatarAddress, slotIndex) != avatarAddress
    ensures signer.Account? ==> SlotAddress(avatarAddress, slotIndex) != signer
  {
  }

  /** Crafting never creates or destroys gold: over any set of addresses
      containing the signer and the blacksmith, the total is unchanged. */
  lemma SettleConservesGold(ctx: Context, p: Parameters, plan: Plan, co: Collaborators, accounts: set<Address>)
    requires Settle(ctx, p, plan, co).Ok?
    requires ctx.signer in accounts && BlacksmithAddress in accounts
    ensures Total(Settle(ctx, p, plan, co).value, accounts, co.goldCurrency) == Total(ctx.previousStates, accounts, co.goldCurrency)
  {
    var states := ctx.previousStates;
    var gold := co.goldCurrency;
    var w := Settle(ctx, p, plan, co).value;
    if 0 < plan.requiredGold {
      var price := Units(gold, plan.requiredGold);
      TransferConservesTotal(states, ctx.signer, BlacksmithAddress, gold, price, accounts);
      TotalAgrees(w, Transfer(states, ctx.signer, BlacksmithAddress, gold, price).value, accounts, gold);
    } else {
      TotalAgrees(w, states, accounts, gold);
    }
  }

  // ----- execution -----------------------------------------------------

  /** The addresses both paths write: the avatar, its crafting slot and the
      signer. They depend on the parameters and the signer only. */
  function WrittenAddresses(p: Parameters, signer: Address): set<Address>
  {
    {p.avatarAddress, SlotAddress(p.avatarAddress, p.slotIndex), signer}
  }

  /** The rehearsal path: marks the written addresses and the signer's and
      blacksmith's balances, reading nothing from the prior states. */
  function Rehearsal(ctx: Context, p: Parameters, co: Collaborators): (r: World)
    ensures r.updatedStates == ctx.previousStates.updatedStates + WrittenAddresses(p, ctx.signer)
    ensures forall a :: a in WrittenAddresses(p, ctx.signer) ==> GetState(r, a) == Some(MarkChanged)
    ensures forall a :: a !in WrittenAddresses(p, ctx.signer) ==> GetState(r, a) == GetState(ctx.previousStates, a)
    ensures r.balances == ctx.previousStates.balances
    ensures r.updatedBalances ==
      ctx.previousStates.updatedBalances + {(ctx.signer, co.goldCurrencyMock), (BlacksmithAddress, co.goldCurrencyMock)}
  {
    var states := SetState(SetState(SetState(ctx.previousStates,
      p.avatarAddress, MarkChanged),
      SlotAddress(p.avatarAddress, p.slotIndex), MarkChanged),
      ctx.signer, MarkChanged);
    MarkBalanceChanged(states, co.goldCurrencyMock, {ctx.signer, BlacksmithAddress})
  }

  /** `Execute`: the rehearsal path, which never fails, or the actual path;
      whichever runs, the states written are exactly the avatar, its slot and
      the signer, and no other address's state changes. */
  function Execute(ctx: Context, p: Parameters, tables: Tables, co: Collaborators): (r: Result<World>)
    ensures ctx.rehearsal ==> r.Ok?
    ensures r.Ok? ==> r.value.updatedStates == ctx.previousStates.updatedStates + WrittenAddresses(p, ctx.signer)
    ensures r.Ok? ==> forall a :: a !in WrittenAddresses(p, ctx.signer) ==> GetState(r.value, a) == GetState(ctx.previousStates, a)
  {
    if ctx.rehearsal then Ok(Rehearsal(ctx, p, co))
    else
      var plan :- Prepare(ctx, p, tables, co);
      Settle(ctx, p, plan, co)
  }

  /** The actual path writes exactly the addresses the rehearsal predicts, and
      every address whose state or balance it touches is one the rehearsal
      marks. */
  lemma RealWithinRehearsal(ctx: Context, p: Parameters, tables: Tables, co: Collaborators)
    requires !ctx.rehearsal
    requires Execute(ctx, p, tables, co).Ok?
    ensures
      var actual := Execute(ctx, p, tables, co).value;
      var predicted := Execute(ctx.(rehearsal := true), p, tables, co).value;
      && actual.updatedStates == predicted.updatedStates
      && UpdatedAddresses(actual) <= UpdatedAddresses(predicted)
  {
    var plan := Prepare(ctx, p, tables, co).value;
    var actual := Settle(ctx, p, plan, co).value;
    var predicted := Rehearsal(ctx, p, co);
    forall q | q in actual.updatedBalances
      ensures q.0 in UpdatedAddresses(predicted)
    {
      if q !in ctx.previousStates.updatedBalances {
        assert (q.0, co.goldCurrencyMock) in predicted.updatedBalances;
      }
    }
    UpdatedAddressesCovered(actual, predicted);
  }

  /** A successful crafting, stated against the prior ledger: the signer's
      agent and the avatar existed; the avatar stored afterwards has exactly
      the recipe's action points, plus the sub-recipe's, fewer than before;
      the agent stored afterwards has unlocked exactly the ids of the option
      rows applied to the equipment (none without a sub-recipe); and gold
      moves from the signer to the blacksmith by exactly the summed price
      when it is positive, and not at all otherwise. */
  lemma ExecuteEffects(ctx: Context, p: Parameters, tables: Tables, co: Collaborators)
    requires !ctx.rehearsal
    requires Execute(ctx, p, tables, co).Ok?
    requires ctx.signer != BlacksmithAddress && p.avatarAddress != ctx.signer
    ensures
      var states := ctx.previousStates;
      var w := Execute(ctx, p, tables, co).value;
      && GetAgentState(states, ctx.signer).Some?
      && GetAvatarState(states, p.avatarAddress).Some?
      && p.recipeId in tables.recipes
      && var recipe := tables.recipes[p.recipeId];
      && var sub := if p.subRecipeId.Some? then Some(tables.subRecipes[p.subRecipeId.value]) else None;
      && var gold := recipe.requiredGold + SubRequiredGold(sub);
      && var price := Units(co.goldCurrency, gold);
      && var agent := GetAgentState(states, ctx.signer).value;
      && GetAvatarState(w, p.avatarAddress).Some?
      && GetAvatarState(w, p.avatarAddress).value.actionPoint
           == GetAvatarState(states, p.avatarAddress).value.actionPoint
              - (recipe.requiredActionPoint + SubRequiredActionPoint(sub))
      && GetAgentState(w, ctx.signer).Some?
      && (p.subRecipeId.None? ==> GetAgentState(w, ctx.signer).value.unlockedOptions == agent.unlockedOptions)
      && (p.subRecipeId.Some? ==>
            GetAgentState(w, ctx.signer).value.unlockedOptions == agent.unlockedOptions
              + RowIds(AppliedRows(tables.options, sub.value, NextGuid(ctx.random).1, co.selectOptions)))
      && (0 < gold ==>
            && Balance(w, ctx.signer, co.goldCurrency) == Balance(states, ctx.signer, co.goldCurrency) - price
            && Balance(w, BlacksmithAddress, co.goldCurrency) == Balance(states, BlacksmithAddress, co.goldCurrency) + price)
      && (gold <= 0 ==> w.balances == states.balances)
  {
    var plan := Prepare(ctx, p, tables, co).value;
    SettleEffects(ctx, p, plan, co);
  }

  // ----- parameters ----------------------------------------------------

  /** `PlainValueInternal`: one entry per parameter, under its field name,
      the sub-recipe id written as null when absent. */
  function PlainValue(p: Parameters): (r: PlainDictionary)
    ensures r.Keys == {"avatarAddress", "recipeId", "subRecipeId", "slotIndex"}
    ensures p.subRecipeId.None? <==> r["subRecipeId"] == Null
  {
    map[
      "avatarAddress" := AddressBytes(p.avatarAddress),
      "recipeId" := Integer(p.recipeId),
      "subRecipeId" := EncodeNullableInt32(p.subRecipeId),
      "slotIndex" := Integer(p.slotIndex)]
  }

  /** `LoadPlainValueInternal`: every field is required. */
  function LoadPlainValue(plain: PlainDictionary): (r: Result<Parameters>)
    ensures r.Ok? ==> "avatarAddress" in plain && "recipeId" in plain && "subRecipeId" in plain && "slotIndex" in plain
    ensures r.Ok? ==>
      && plain["avatarAddress"] == AddressBytes(r.value.avatarAddress)
      && plain["recipeId"] == Integer(r.value.recipeId)
      && plain["slotIndex"] == Integer(r.value.slotIndex)
      && plain["subRecipeId"] == EncodeNullableInt32(r.value.subRecipeId)
  {
    var avatarAddress :- Lookup(plain, "avatarAddress");
    var recipeId :- Lookup(plain, "recipeId");
    var subRecipeId :- Lookup(plain, "subRecipeId");
    var slotIndex :- Lookup(plain, "slotIndex");
    var a :- ToAddress(avatarAddress);
    var r :- ToInt32(recipeId);
    var s :- ToNullableInt32(subRecipeId);
    var i :- ToInt32(slotIndex);
    Ok(Parameters(a, r, i, s))
  }

  lemma PlainValueRoundTrip(p: Parameters)
    ensures LoadPlainValue(PlainValue(p)) == Ok(p)
  {
    NullableInt32RoundTrip(p.subRecipeId);
  }
}
