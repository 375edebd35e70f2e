/**
 * The animal store's state and actions (project/src/stores/animalStore.ts):
 * the herd, the vaccination records, the milk production entries and the
 * archive of closed years, with the actions that add, update and delete
 * records, archive last year's milk entries and compute the milk summary.
 */
module Animals {
  import opened Options
  import opened Seqs
  import opened Decimal
  import opened FarmTypes
  import opened MilkLedger
  import opened Herd

  // ---------------------------------------------------------------------
  // Lookups and removals by id

  /** `animals.findIndex(a => a.id === id)`. */
  function AnimalIndex(animals: seq<Animal>, id: string): (i: int)
    ensures -1 <= i < |animals|
    ensures i == -1 <==> forall j :: 0 <= j < |animals| ==> animals[j].id != id
    ensures 0 <= i ==> animals[i].id == id && forall j :: 0 <= j < i ==> animals[j].id != id
  {
    FindIndex(animals, (a: Animal) => a.id == id)
  }

  /** `vaccinationRecords.findIndex(r => r.id === id)`. */
  function RecordIndex(records: seq<VaccinationRecord>, id: string): (i: int)
    ensures -1 <= i < |records|
    ensures i == -1 <==> forall j :: 0 <= j < |records| ==> records[j].id != id
    ensures 0 <= i ==> records[i].id == id && forall j :: 0 <= j < i ==> records[j].id != id
  {
    FindIndex(records, (r: VaccinationRecord) => r.id == id)
  }

  /** `milkProductions.findIndex(p => p.id === id)`, and the `find` of `addMilkExpense`. */
  function ProductionIndex(ps: seq<MilkProduction>, id: string): (i: int)
    ensures -1 <= i < |ps|
    ensures i == -1 <==> forall j :: 0 <= j < |ps| ==> ps[j].id != id
    ensures 0 <= i ==> ps[i].id == id && forall j :: 0 <= j < i ==> ps[j].id != id
  {
    FindIndex(ps, (p: MilkProduction) => p.id == id)
  }

  /** `animals.filter(a => a.id !== id)`. */
  function AnimalsWithout(animals: seq<Animal>, id: string): (r: seq<Animal>)
    ensures forall a :: a in r <==> a in animals && a.id != id
  {
    Filter(animals, (a: Animal) => a.id != id)
  }

  /** `vaccinationRecords.filter(r => r.id !== id)`. */
  function RecordsWithout(records: seq<VaccinationRecord>, id: string): (r: seq<VaccinationRecord>)
    ensures forall v :: v in r <==> v in records && v.id != id
  {
    Filter(records, (v: VaccinationRecord) => v.id != id)
  }

  /** The id `addAnimal` and `addMilkProduction` give: one more than the list's length. */
  function NextId(length: nat): string {
    NatToString(length + 1)
  }

  // ---------------------------------------------------------------------
  // Sequential ids

  /** The ids a list gets when it is only ever appended to: "1", "2", … in order. */
  predicate NumberedInOrder(animals: seq<Animal>) {
    forall j :: 0 <= j < |animals| ==> animals[j].id == NatToString(j + 1)
  }

  /** As long as nothing was deleted, the next sequential id is not in use. */
  lemma NextIdIsFresh(animals: seq<Animal>)
    requires NumberedInOrder(animals)
    ensures forall a :: a in animals ==> a.id != NextId(|animals|)
  {
    forall a | a in animals
      ensures a.id != NextId(|animals|)
    {
      var j :| 0 <= j < |animals| && animals[j] == a;
      if a.id == NextId(|animals|) {
        NatToStringInjective(j + 1, |animals| + 1);
      }
    }
  }

  /** Appending with the next sequential id keeps the ids numbered in order. */
  lemma AppendKeepsNumbering(animals: seq<Animal>, a: Animal)
    requires NumberedInOrder(animals)
    ensures NumberedInOrder(animals + [a.(id := NextId(|animals|))])
  {
  }

  function Calf(id: string): Animal {
    Animal(id, "Luna", Ganado, "Holstein", Female, "2023-04-01", "T-" + id, Active, "",
           Parentage("", ""), "Altamira", None, None, None, None)
  }

  /**
   * After a deletion the length-based id can repeat one in use: deleting
   * "1" from animals "1" and "2" and then adding an animal gives it id "2"
   * again, and a lookup of "2" still finds the older animal.
   */
  lemma NextIdCanRepeatAfterDelete()
    ensures var before := [Calf("1"), Calf("2")];
            var after := AnimalsWithout(before, "1");
            var added := Calf("x").(id := NextId(|after|));
            && after == [Calf("2")]
            && added.id == "2"
            && GetAnimalById(after + [added], "2") == Some(Calf("2"))
  {
    var before := [Calf("1"), Calf("2")];
    FilterAllBut(before, (a: Animal) => a.id != "1", 0);
    var after := AnimalsWithout(before, "1");
    assert after == [Calf("2")];
    LookupFindsEarliest(after + [Calf("x").(id := NextId(|after|))], 0, "2");
  }

  /** `splice(index, 1)` removes the one element at `index` and keeps the rest in order. */
  lemma SpliceRemovesOne(ps: seq<MilkProduction>, i: int)
    requires 0 <= i < |ps|
    ensures |ps[..i] + ps[i+1..]| == |ps| - 1
    ensures multiset(ps[..i] + ps[i+1..]) + multiset{ps[i]} == multiset(ps)
  {
    assert ps == ps[..i] + [ps[i]] + ps[i+1..];
  }

  /**
   * Two entries sharing an id: deleting that id removes only the first, so
   * the second is still listed.
   */
  lemma DeleteProductionKeepsLaterTwin(p: MilkProduction, q: MilkProduction)
    requires p.id == q.id
    ensures var i := ProductionIndex([p, q], p.id);
            i == 0 && ([p, q][..i] + [p, q][i+1..]) == [q]
  {
  }

  // ---------------------------------------------------------------------
  // The store

  class AnimalStore {
    var animals: seq<Animal>
    var vaccinationRecords: seq<VaccinationRecord>
    var milkProductions: seq<MilkProduction>
    /** One record per closed year, in the order the years were archived. */
    var historicalMilkData: seq<YearlyArchive>

    /** A store holding the given records and no archived years. */
    constructor (initialAnimals: seq<Animal>, initialRecords: seq<VaccinationRecord>, initialProductions: seq<MilkProduction>)
      ensures animals == initialAnimals && vaccinationRecords == initialRecords
      ensures milkProductions == initialProductions && historicalMilkData == []
    {
      animals := initialAnimals;
      vaccinationRecords := initialRecords;
      milkProductions := initialProductions;
      historicalMilkData := [];
    }

    /** `addVaccinationRecord`: appends the record under the fresh id. */
    method AddVaccinationRecord(record: VaccinationRecord, freshId: string)
      modifies this
      ensures vaccinationRecords == old(vaccinationRecords) + [record.(id := freshId)]
      ensures animals == old(animals) && milkProductions == old(milkProductions)
      ensures historicalMilkData == old(historicalMilkData)
    {
      vaccinationRecords := vaccinationRecords + [record.(id := freshId)];
    }

    /** `updateVaccinationRecord`: merges the updates into the first record with the id; nothing changes when there is none. */
    method UpdateVaccinationRecord(id: string, updates: VaccinationPatch)
      modifies this
      ensures var i := RecordIndex(old(vaccinationRecords), id);
              if i == -1 then vaccinationRecords == old(vaccinationRecords)
              else vaccinationRecords == old(vaccinationRecords)[i := MergeVaccination(old(vaccinationRecords)[i], updates)]
      ensures animals == old(animals) && milkProductions == old(milkProductions)
      ensures historicalMilkData == old(historicalMilkData)
    {
      var i := RecordIndex(vaccinationRecords, id);
      if i != -1 {
        vaccinationRecords := vaccinationRecords[i := MergeVaccination(vaccinationRecords[i], updates)];
      }
    }

    /** `deleteVaccinationRecord`: removes every record with the id; nothing changes when there is none. */
    method DeleteVaccinationRecord(id: string)
      modifies this
      ensures RecordIndex(old(vaccinationRecords), id) == -1 ==> vaccinationRecords == old(vaccinationRecords)
      ensures RecordIndex(old(vaccinationRecords), id) != -1 ==> vaccinationRecords == RecordsWithout(old(vaccinationRecords), id)
      ensures animals == old(animals) && milkProductions == old(milkProductions)
      ensures historicalMilkData == old(historicalMilkData)
    {
      var i := RecordIndex(vaccinationRecords, id);
      if i != -1 {
        vaccinationRecords := RecordsWithout(vaccinationRecords, id);
      }
    }

    /** `addAnimal`: appends the animal with id one more than the number of animals. */
    method AddAnimal(animal: Animal)
      modifies this
      ensures animals == old(animals) + [animal.(id := NextId(|old(animals)|))]
      ensures vaccinationRecords == old(vaccinationRecords) && milkProductions == old(milkProductions)
      ensures historicalMilkData == old(historicalMilkData)
    {
      var id := NatToString(|animals| + 1);
      animals := animals + [animal.(id := id)];
    }

    /** `updateAnimal`: merges the updates into the first animal with the id; nothing changes when there is none. */
    method UpdateAnimal(id: string, updates: AnimalPatch)
      modifies this
      ensures var i := AnimalIndex(old(animals), id);
              if i == -1 then animals == old(animals)
              else animals == old(animals)[i := MergeAnimal(old(animals)[i], updates)]
      ensures vaccinationRecords == old(vaccinationRecords) && milkProductions == old(milkProductions)
      ensures historicalMilkData == old(historicalMilkData)
    {
      var i := AnimalIndex(animals, id);
      if i != -1 {
        animals := animals[i := MergeAnimal(animals[i], updates)];
      }
    }

    /** `deleteAnimal`: false and no change for an unknown id; otherwise removes every animal with the id and answers true. */
    method DeleteAnimal(id: string) returns (ok: bool)
      modifies this
      ensures ok <==> exists a :: a in old(animals) && a.id == id
      ensures ok ==> animals == AnimalsWithout(old(animals), id)
      ensures !ok ==> animals == old(animals)
      ensures vaccinationRecords == old(vaccinationRecords) && milkProductions == old(milkProductions)
      ensures historicalMilkData == old(historicalMilkData)
    {
      var i := AnimalIndex(animals, id);
      if i == -1 {
        return false;
      }
      animals := AnimalsWithout(animals, id);
      return true;
    }

    /** `addMilkProduction`: appends the entry with id one more than the number of entries. */
    method AddMilkProduction(production: MilkProduction)
      modifies this
      ensures milkProductions == old(milkProductions) + [production.(id := NextId(|old(milkProductions)|))]
      ensures animals == old(animals) && vaccinationRecords == old(vaccinationRecords)
      ensures historicalMilkData == old(historicalMilkData)
    {
      var id := NatToString(|milkProductions| + 1);
      milkProductions := milkProductions + [production.(id := id)];
    }

    /**
     * `addMilkExpense`: appends the expense to the first entry with that id,
     * numbered one more than that entry's expenses; nothing changes when
     * there is no such entry.
     */
    method AddMilkExpense(productionId: string, expense: MilkExpense)
      modifies this
      ensures var i := ProductionIndex(old(milkProductions), productionId);
              if i == -1 then milkProductions == old(milkProductions)
              else
                var p := old(milkProductions)[i];
                milkProductions == old(milkProductions)[i := p.(expenses := p.expenses + [expense.(id := NextId(|p.expenses|))])]
      ensures animals == old(animals) && vaccinationRecords == old(vaccinationRecords)
      ensures historicalMilkData == old(historicalMilkData)
    {
      var i := ProductionIndex(milkProductions, productionId);
      if i != -1 {
        var production := milkProductions[i];
        var id := NatToString(|production.expenses| + 1);
        milkProductions := milkProductions[i := production.(expenses := production.expenses + [expense.(id := id)])];
      }
    }

    /** `updateMilkProduction`: merges the updates into the first entry with the id; nothing changes when there is none. */
    method UpdateMilkProduction(id: string, updates: ProductionPatch)
      modifies this
      ensures var i := ProductionIndex(old(milkProductions), id);
              if i == -1 then milkProductions == old(milkProductions)
              else milkProductions == old(milkProductions)[i := MergeProduction(old(milkProductions)[i], updates)]
      ensures animals == old(animals) && vaccinationRecords == old(vaccinationRecords)
      ensures historicalMilkData == old(historicalMilkData)
    {
      var i := ProductionIndex(milkProductions, id);
      if i != -1 {
        milkProductions := milkProductions[i := MergeProduction(milkProductions[i], updates)];
      }
    }

    /** `deleteMilkProduction`: removes only the first entry with the id; nothing changes when there is none. */
    method DeleteMilkProduction(id: string)
      modifies this
      ensures var i := ProductionIndex(old(milkProductions), id);
              if i == -1 then milkProductions == old(milkProductions)
              else milkProductions == old(milkProductions)[..i] + old(milkProductions)[i+1..]
      ensures animals == old(animals) && vaccinationRecords == old(vaccinationRecords)
      ensures historicalMilkData == old(historicalMilkData)
    {
      var i := ProductionIndex(milkProductions, id);
      if i != -1 {
        milkProductions := milkProductions[..i] + milkProductions[i+1..];
      }
    }

    /**
     * `archiveLastYearData`: when there are entries dated in the year before
     * `currentYear`, appends one archive record of them and keeps only the
     * entries dated in `currentYear`, in their order; entries of any other
     * year go without being archived. With no entries from last year
     * nothing changes.
     *
     * In the source the final filter names `currentYearStart` and
     * `currentYearEnd`, which are locals of the summary and not in scope in
     * the archiver; the current year is a parameter here, and the filter is
     * the one those names describe.
     */
    method ArchiveLastYearData(currentYear: int)
      modifies this
      ensures var last := InYear(old(milkProductions), currentYear - 1);
              if last == [] then
                milkProductions == old(milkProductions) && historicalMilkData == old(historicalMilkData)
              else
                && |historicalMilkData| == |old(historicalMilkData)| + 1
                && historicalMilkData[..|old(historicalMilkData)|] == old(historicalMilkData)
                && IsArchiveOf(historicalMilkData[|old(historicalMilkData)|], old(milkProductions), currentYear - 1)
                && milkProductions == InYear(old(milkProductions), currentYear)
      ensures animals == old(animals) && vaccinationRecords == old(vaccinationRecords)
    {
      var lastYear := currentYear - 1;
      var lastYearProductions := InYear(milkProductions, lastYear);
      if |lastYearProductions| == 0 {
        return;
      }
      var yearlyData := BuildYearlyArchive(lastYearProductions, lastYear);
      historicalMilkData := historicalMilkData + [yearlyData];
      milkProductions := InYear(milkProductions, currentYear);
    }

    /**
     * `milkProductionSummary`: archives first when some entry lies outside
     * `currentYear`, then summarises the entries dated in `currentYear`.
     * Either way the summary is that of the current-year entries held before
     * the call.
     */
    method MilkSummary(currentYear: int) returns (s: MilkProductionSummary)
      modifies this
      ensures IsSummaryOf(s, InYear(old(milkProductions), currentYear))
      ensures !NeedsArchiving(old(milkProductions), currentYear) ==>
                milkProductions == old(milkProductions) && historicalMilkData == old(historicalMilkData)
      ensures NeedsArchiving(old(milkProductions), currentYear) && InYear(old(milkProductions), currentYear - 1) != [] ==>
                && |historicalMilkData| == |old(historicalMilkData)| + 1
                && historicalMilkData[..|old(historicalMilkData)|] == old(historicalMilkData)
                && IsArchiveOf(historicalMilkData[|old(historicalMilkData)|], old(milkProductions), currentYear - 1)
                && milkProductions == InYear(old(milkProductions), currentYear)
      ensures NeedsArchiving(old(milkProductions), currentYear) && InYear(old(milkProductions), currentYear - 1) == [] ==>
                milkProductions == old(milkProductions) && historicalMilkData == old(historicalMilkData)
      ensures animals == old(animals) && vaccinationRecords == old(vaccinationRecords)
    {
      var needsArchiving := exists p :: p in milkProductions && p.date.year != currentYear;
      if needsArchiving {
        ArchiveLastYearData(currentYear);
        SelectIdempotent(old(milkProductions), YearOf, currentYear);
      }
      var currentYearProductions := InYear(milkProductions, currentYear);
      s := SummarizeEntries(currentYearProductions);
    }
  }
}
