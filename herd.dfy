/**
 * The animal store's pure queries (project/src/stores/animalStore.ts): the
 * active herd and its species counts, the financial summary of purchases and
 * sales, the vaccinations due within thirty days, the lookup by id, the
 * partial-update merges, and the Spanish age text of `calculateAge`.
 */
module Herd {
  import opened Options
  import opened Seqs
  import opened Decimal
  import opened FarmTypes

  // ---------------------------------------------------------------------
  // The active herd and its species counts

  predicate IsActive(a: Animal) {
    a.status == Active
  }

  predicate IsActiveCattle(a: Animal) {
    a.species == Ganado && a.status == Active
  }

  predicate IsActiveHorse(a: Animal) {
    a.species == Caballos && a.status == Active
  }

  /** `activeAnimals`: the animals whose status is 'active', in list order. */
  function ActiveAnimals(animals: seq<Animal>): (r: seq<Animal>)
    ensures |r| <= |animals|
    ensures forall a :: a in r <==> a in animals && a.status == Active
  {
    Filter(animals, IsActive)
  }

  /** `cattleCount`: how many active animals are cattle; zero exactly when no active animal is cattle. */
  function CattleCount(animals: seq<Animal>): (n: nat)
    ensures n <= |animals|
    ensures n == 0 <==> forall a :: a in animals ==> !(a.species == Ganado && a.status == Active)
    ensures n == |Filter(ActiveAnimals(animals), IsCattle)|
  {
    FilterOfFilter(animals, IsActive, IsCattle, IsActiveCattle);
    var cattle := Filter(animals, IsActiveCattle);
    assert cattle != [] ==> cattle[0] in cattle;
    |cattle|
  }

  /** `horseCount`: how many active animals are horses; zero exactly when no active animal is a horse. */
  function HorseCount(animals: seq<Animal>): (n: nat)
    ensures n <= |animals|
    ensures n == 0 <==> forall a :: a in animals ==> !(a.species == Caballos && a.status == Active)
    ensures n == |Filter(ActiveAnimals(animals), IsHorse)|
  {
    FilterOfFilter(animals, IsActive, IsHorse, IsActiveHorse);
    var horses := Filter(animals, IsActiveHorse);
    assert horses != [] ==> horses[0] in horses;
    |horses|
  }

  /**
   * There are only two species, so the cattle and horse counts add up to the
   * number of active animals.
   */
  lemma {:induction false} SpeciesCountsAddUp(animals: seq<Animal>)
    ensures CattleCount(animals) + HorseCount(animals) == |ActiveAnimals(animals)|
    decreases animals
  {
    if animals != [] {
      SpeciesCountsAddUp(animals[1..]);
      var a := animals[0];
      assert Filter(animals, IsActiveCattle) == (if IsActiveCattle(a) then [a] else []) + Filter(animals[1..], IsActiveCattle);
      assert Filter(animals, IsActiveHorse) == (if IsActiveHorse(a) then [a] else []) + Filter(animals[1..], IsActiveHorse);
      assert Filter(animals, IsActive) == (if IsActive(a) then [a] else []) + Filter(animals[1..], IsActive);
    }
  }

  // ---------------------------------------------------------------------
  // The financial summary

  /** How many animals of a species were bought (or sold), and for how much in all. */
  datatype Trades = Trades(count: nat, total: int)

  datatype SpeciesTrades = SpeciesTrades(purchases: Trades, sales: Trades)

  /** `financialSummary`: investment, sales, their balance, and both per species. */
  datatype FinancialSummary = FinancialSummary(
    totalInvestment: int,
    totalSales: int,
    balance: int,
    ganado: SpeciesTrades,
    caballos: SpeciesTrades)

  predicate WasPurchased(a: Animal) {
    a.purchaseInfo.Some?
  }

  predicate WasSold(a: Animal) {
    a.saleInfo.Some?
  }

  /** `a.purchaseInfo?.price || 0`. */
  function PurchasePrice(a: Animal): int {
    if a.purchaseInfo.Some? then a.purchaseInfo.value.price else 0
  }

  /** `a.saleInfo?.price || 0`. */
  function SalePrice(a: Animal): int {
    if a.saleInfo.Some? then a.saleInfo.value.price else 0
  }

  predicate IsCattle(a: Animal) {
    a.species == Ganado
  }

  predicate IsHorse(a: Animal) {
    a.species == Caballos
  }

  /** The count and price total of the animals of `group` that satisfy `ofSpecies`. */
  function TradesOf(group: seq<Animal>, ofSpecies: Animal -> bool, price: Animal -> int): Trades {
    var picked := Filter(group, ofSpecies);
    Trades(|picked|, SumBy(picked, price))
  }

  function FinancialSummaryOf(animals: seq<Animal>): FinancialSummary {
    var purchased := Filter(animals, WasPurchased);
    var sold := Filter(animals, WasSold);
    var totalInvestment := SumBy(purchased, PurchasePrice);
    var totalSales := SumBy(sold, SalePrice);
    FinancialSummary(
      totalInvestment,
      totalSales,
      totalSales - totalInvestment,
      SpeciesTrades(TradesOf(purchased, IsCattle, PurchasePrice), TradesOf(sold, IsCattle, SalePrice)),
      SpeciesTrades(TradesOf(purchased, IsHorse, PurchasePrice), TradesOf(sold, IsHorse, SalePrice)))
  }

  /**
   * The summary's figures: the balance is sales less investment, and because
   * every animal is either cattle or a horse, the two species' purchase counts
   * and totals add up to all purchases, and likewise for sales.
   */
  lemma FinancialSummaryAddsUp(animals: seq<Animal>)
    ensures var f := FinancialSummaryOf(animals);
            && f.balance == f.totalSales - f.totalInvestment
            && f.ganado.purchases.count + f.caballos.purchases.count == |Filter(animals, WasPurchased)|
            && f.ganado.purchases.total + f.caballos.purchases.total == f.totalInvestment
            && f.ganado.sales.count + f.caballos.sales.count == |Filter(animals, WasSold)|
            && f.ganado.sales.total + f.caballos.sales.total == f.totalSales
  {
    FilterSplit(Filter(animals, WasPurchased), IsCattle, IsHorse, PurchasePrice);
    FilterSplit(Filter(animals, WasSold), IsCattle, IsHorse, SalePrice);
  }

  /** Only purchased animals count as investment: an animal without purchase data adds nothing. */
  lemma {:induction false} InvestmentIsSumOfPrices(animals: seq<Animal>)
    ensures FinancialSummaryOf(animals).totalInvestment == SumBy(animals, PurchasePrice)
    decreases animals
  {
    if animals != [] {
      InvestmentIsSumOfPrices(animals[1..]);
      var a := animals[0];
      var rest := Filter(animals[1..], WasPurchased);
      if WasPurchased(a) {
        assert Filter(animals, WasPurchased) == [a] + rest;
        assert ([a] + rest)[1..] == rest;
      } else {
        assert Filter(animals, WasPurchased) == [] + rest == rest;
      }
    }
  }

  // ---------------------------------------------------------------------
  // Vaccinations due within thirty days

  /** Thirty days, in milliseconds (`addDays(now, 30)`). */
  const ThirtyDays := 30 * 86_400_000

  /** `dueDate <= thirtyDaysFromNow && dueDate >= now`. */
  predicate DueWithin(r: VaccinationRecord, now: int) {
    now <= r.nextDueDate <= now + ThirtyDays
  }

  /** `upcomingVaccinations`: the records due between now and thirty days from now, in list order. */
  function UpcomingVaccinations(records: seq<VaccinationRecord>, now: int): (r: seq<VaccinationRecord>)
    ensures forall v :: v in r <==> v in records && now <= v.nextDueDate <= now + ThirtyDays
    ensures |r| <= |records|
  {
    Filter(records, (v: VaccinationRecord) => DueWithin(v, now))
  }

  function Vaccine(due: int): VaccinationRecord {
    VaccinationRecord("v", "Aftosa", None, 0, due, AllSpecies, None, None)
  }

  /** A vaccine due now or in exactly thirty days is listed; one due a moment earlier or a moment after thirty days is not. */
  lemma UpcomingWindowEdges(now: int)
    ensures UpcomingVaccinations([Vaccine(now)], now) == [Vaccine(now)]
    ensures UpcomingVaccinations([Vaccine(now + ThirtyDays)], now) == [Vaccine(now + ThirtyDays)]
    ensures UpcomingVaccinations([Vaccine(now - 1)], now) == []
    ensures UpcomingVaccinations([Vaccine(now + ThirtyDays + 1)], now) == []
  {
    assert [Vaccine(now)][1..] == [];
    assert [Vaccine(now + ThirtyDays)][1..] == [];
    assert [Vaccine(now - 1)][1..] == [];
    assert [Vaccine(now + ThirtyDays + 1)][1..] == [];
  }

  // ---------------------------------------------------------------------
  // Lookup by id

  /** `getAnimalById`: the first animal with that id, if any. */
  function GetAnimalById(animals: seq<Animal>, id: string): (r: Option<Animal>)
    ensures r.None? <==> forall a :: a in animals ==> a.id != id
    ensures r.Some? ==> r.value in animals && r.value.id == id
  {
    Find(animals, (a: Animal) => a.id == id)
  }

  /** When two animals share an id, the lookup finds the earlier one. */
  lemma LookupFindsEarliest(animals: seq<Animal>, i: int, id: string)
    requires 0 <= i < |animals| && animals[i].id == id
    requires forall j :: 0 <= j < i ==> animals[j].id != id
    ensures GetAnimalById(animals, id) == Some(animals[i])
  {
    var f := (a: Animal) => a.id == id;
    var k := FindIndex(animals, f);
    assert f(animals[i]);
    assert k <= i && k >= i;
  }

  // ---------------------------------------------------------------------
  // Partial updates (`{ ...record, ...updates }`)

  /** The supplied value if there is one, otherwise the current one. */
  function Override<T>(update: Option<T>, current: T): T {
    if update.Some? then update.value else current
  }

  /** Two updates applied in turn: the later one wins where both supply a field. */
  function Latest<T>(first: Option<T>, second: Option<T>): Option<T> {
    if second.Some? then second else first
  }

  /**
   * `Partial<Animal>`: each field may be supplied or not; an optional field
   * may be supplied as absent, hence the nested option.
   */
  datatype AnimalPatch = AnimalPatch(
    id: Option<string>,
    name: Option<string>,
    species: Option<Species>,
    breed: Option<string>,
    gender: Option<Gender>,
    birthDate: Option<string>,
    tagNumber: Option<string>,
    status: Option<Status>,
    notes: Option<string>,
    parent: Option<Parentage>,
    farm: Option<string>,
    purchaseInfo: Option<Option<PurchaseInfo>>,
    saleInfo: Option<Option<SaleInfo>>,
    deceasedInfo: Option<Option<DeceasedInfo>>,
    imageUrl: Option<Option<string>>)
  {
    /** This patch, then `q`. */
    function Then(q: AnimalPatch): AnimalPatch {
      AnimalPatch(
        Latest(id, q.id), Latest(name, q.name), Latest(species, q.species), Latest(breed, q.breed),
        Latest(gender, q.gender), Latest(birthDate, q.birthDate), Latest(tagNumber, q.tagNumber),
        Latest(status, q.status), Latest(notes, q.notes), Latest(parent, q.parent), Latest(farm, q.farm),
        Latest(purchaseInfo, q.purchaseInfo), Latest(saleInfo, q.saleInfo),
        Latest(deceasedInfo, q.deceasedInfo), Latest(imageUrl, q.imageUrl))
    }
  }

  const NoAnimalChanges := AnimalPatch(None, None, None, None, None, None, None, None, None, None, None, None, None, None, None)

  /** `{ ...a, ...updates }` for an animal. */
  function MergeAnimal(a: Animal, u: AnimalPatch): Animal {
    Animal(
      Override(u.id, a.id), Override(u.name, a.name), Override(u.species, a.species), Override(u.breed, a.breed),
      Override(u.gender, a.gender), Override(u.birthDate, a.birthDate), Override(u.tagNumber, a.tagNumber),
      Override(u.status, a.status), Override(u.notes, a.notes), Override(u.parent, a.parent), Override(u.farm, a.farm),
      Override(u.purchaseInfo, a.purchaseInfo), Override(u.saleInfo, a.saleInfo),
      Override(u.deceasedInfo, a.deceasedInfo), Override(u.imageUrl, a.imageUrl))
  }

  /** Merging nothing changes nothing; merging twice is merging the combined update; merging again changes nothing more. */
  lemma MergeAnimalLaws(a: Animal, p: AnimalPatch, q: AnimalPatch)
    ensures MergeAnimal(a, NoAnimalChanges) == a
    ensures MergeAnimal(MergeAnimal(a, p), q) == MergeAnimal(a, p.Then(q))
    ensures MergeAnimal(MergeAnimal(a, p), p) == MergeAnimal(a, p)
  {
  }

  /** `Partial<VaccinationRecord>`. */
  datatype VaccinationPatch = VaccinationPatch(
    id: Option<string>,
    name: Option<string>,
    description: Option<Option<string>>,
    lastApplied: Option<int>,
    nextDueDate: Option<int>,
    species: Option<VaccineSpecies>,
    cost: Option<Option<int>>,
    notes: Option<Option<string>>)
  {
    function Then(q: VaccinationPatch): VaccinationPatch {
      VaccinationPatch(
        Latest(id, q.id), Latest(name, q.name), Latest(description, q.description),
        Latest(lastApplied, q.lastApplied), Latest(nextDueDate, q.nextDueDate), Latest(species, q.species),
        Latest(cost, q.cost), Latest(notes, q.notes))
    }
  }

  const NoVaccinationChanges := VaccinationPatch(None, None, None, None, None, None, None, None)

  /** `{ ...record, ...updates }` for a vaccination record. */
  function MergeVaccination(r: VaccinationRecord, u: VaccinationPatch): VaccinationRecord {
    VaccinationRecord(
      Override(u.id, r.id), Override(u.name, r.name), Override(u.description, r.description),
      Override(u.lastApplied, r.lastApplied), Override(u.nextDueDate, r.nextDueDate), Override(u.species, r.species),
      Override(u.cost, r.cost), Override(u.notes, r.notes))
  }

  lemma MergeVaccinationLaws(r: VaccinationRecord, p: VaccinationPatch, q: VaccinationPatch)
    ensures MergeVaccination(r, NoVaccinationChanges) == r
    ensures MergeVaccination(MergeVaccination(r, p), q) == MergeVaccination(r, p.Then(q))
    ensures MergeVaccination(MergeVaccination(r, p), p) == MergeVaccination(r, p)
  {
  }

  /** `Partial<MilkProduction>`. */
  datatype ProductionPatch = ProductionPatch(
    id: Option<string>,
    date: Option<Date>,
    farm: Option<string>,
    liters: Option<int>,
    pricePerLiter: Option<int>,
    expenses: Option<seq<MilkExpense>>)
  {
    function Then(q: ProductionPatch): ProductionPatch {
      ProductionPatch(
        Latest(id, q.id), Latest(date, q.date), Latest(farm, q.farm), Latest(liters, q.liters),
        Latest(pricePerLiter, q.pricePerLiter), Latest(expenses, q.expenses))
    }
  }

  const NoProductionChanges := ProductionPatch(None, None, None, None, None, None)

  /** `{ ...production, ...updates }` for a milk production entry. */
  function MergeProduction(p: MilkProduction, u: ProductionPatch): MilkProduction {
    MilkProduction(
      Override(u.id, p.id), Override(u.date, p.date), Override(u.farm, p.farm), Override(u.liters, p.liters),
      Override(u.pricePerLiter, p.pricePerLiter), Override(u.expenses, p.expenses))
  }

  lemma MergeProductionLaws(p: MilkProduction, u: ProductionPatch, v: ProductionPatch)
    ensures MergeProduction(p, NoProductionChanges) == p
    ensures MergeProduction(MergeProduction(p, u), v) == MergeProduction(p, u.Then(v))
    ensures MergeProduction(MergeProduction(p, u), u) == MergeProduction(p, u)
  {
  }

  // ---------------------------------------------------------------------
  // The age text of `calculateAge`

  /** JavaScript's `a % b`: the remainder takes the sign of the dividend. */
  function JsRem(a: int, b: int): (r: int)
    requires b > 0
    ensures -b < r < b
    ensures a >= 0 ==> r >= 0
    ensures a <= 0 ==> r <= 0
    ensures b == 12 ==> (a - r) % 12 == 0
  {
    if a >= 0 then a % b else -((-a) % b)
  }

  function YearWord(years: int): string {
    if years != 1 then "años" else "año"
  }

  function MonthWord(months: int): string {
    if months != 1 then "meses" else "mes"
  }

  /**
   * The text `calculateAge` builds from the whole years and the months
   * beyond them: "Y año(s)" followed by " y M mes(es)" when there are months,
   * and a trailing space when there are none; "M mes(es)" under one year.
   */
  function FormatAge(years: int, months: int): string {
    if years > 0 then
      CountOf(years, YearWord(years)) + " " + (if months > 0 then "y " + CountOf(months, MonthWord(months)) else "")
    else
      CountOf(months, MonthWord(months))
  }

  /** A number and the word for what it counts, such as "3 meses". */
  function CountOf(n: int, word: string): string {
    IntToString(n) + (" " + word)
  }

  /** `calculateAge` from the whole-year and whole-month differences between today and the birth date. */
  function CalculateAge(yearsDiff: int, monthsDiff: int): string {
    FormatAge(yearsDiff, JsRem(monthsDiff, 12))
  }

  /** Reads a number followed by exactly the word " mes" or " meses". */
  function ReadMonths(s: string): Option<int> {
    match ReadInt(s)
    case None => None
    case Some((n, rest)) => if rest == " mes" || rest == " meses" then Some(n) else None
  }

  /** Reads an age text back into (years, months). */
  function ParseAge(s: string): Option<(int, int)> {
    match ReadInt(s)
    case None => None
    case Some((n, rest)) => ParseUnits(n, rest)
  }

  /** What follows the leading number of an age text. */
  function ParseUnits(n: int, rest: string): Option<(int, int)> {
    if rest == " mes" || rest == " meses" then Some((0, n))
    else if rest == " año " || rest == " años " then Some((n, 0))
    else if |rest| >= 7 && rest[..7] == " año y " then
      (match ReadMonths(rest[7..]) case None => None case Some(m) => Some((n, m)))
    else if |rest| >= 8 && rest[..8] == " años y " then
      (match ReadMonths(rest[8..]) case None => None case Some(m) => Some((n, m)))
    else None
  }

  lemma UnitsOneYearAndMonths(n: int, digits: string, m: int)
    requires ReadMonths(digits) == Some(m) && |digits| >= 5
    ensures ParseUnits(n, " año y " + digits) == Some((n, m))
  {
    var rest := " año y " + digits;
    assert rest[..7] == " año y " && rest[7..] == digits;
    assert rest[1] == 'a' && |rest| > 7;
  }

  lemma UnitsYearsAndMonths(n: int, digits: string, m: int)
    requires ReadMonths(digits) == Some(m) && |digits| >= 5
    ensures ParseUnits(n, " años y " + digits) == Some((n, m))
  {
    var rest := " años y " + digits;
    assert rest[..8] == " años y " && rest[8..] == digits;
    assert rest[1] == 'a' && rest[4] == 's' && |rest| > 8;
  }

  lemma ReadMonthsOf(m: int)
    ensures ReadMonths(CountOf(m, MonthWord(m))) == Some(m)
  {
    var rest := " " + MonthWord(m);
    ReadIntToString(m, rest);
    assert rest == " mes" || rest == " meses";
  }

  /** Under a year, the text reads back as no years and the months. */
  lemma ParseMonthsOnly(months: int)
    ensures ParseAge(FormatAge(0, months)) == Some((0, months))
  {
    var rest := " " + MonthWord(months);
    ReadIntToString(months, rest);
    assert rest == " mes" || rest == " meses";
  }

  /** Whole years with no further months: the text, trailing space and all, reads back as the years alone. */
  lemma ParseYearsOnly(years: int)
    requires years > 0
    ensures ParseAge(FormatAge(years, 0)) == Some((years, 0))
  {
    var rest := " " + YearWord(years) + " ";
    assert FormatAge(years, 0) == IntToString(years) + rest;
    ReadIntToString(years, rest);
    assert rest == " año " || rest == " años ";
  }

  /** Regroups "N word" + " " + "y M months" around the year word, so the reader sees " word y " as one piece. */
  lemma SplitAtMonths(n: string, w: string, d: string)
    ensures n + (" " + w) + " " + ("y " + d) == n + ((" " + w + " y ") + d)
  {
  }

  /** Years and months read back as both. */
  lemma ParseYearsAndMonths(years: int, months: int)
    requires years > 0 && months > 0
    ensures ParseAge(FormatAge(years, months)) == Some((years, months))
  {
    var digits := CountOf(months, MonthWord(months));
    var word := " " + YearWord(years) + " y ";
    SplitAtMonths(IntToString(years), YearWord(years), digits);
    ReadIntToString(years, word + digits);
    ReadMonthsOf(months);
    assert |digits| >= 5;
    if years != 1 {
      assert word == " años y ";
      UnitsYearsAndMonths(years, digits, months);
    } else {
      assert word == " año y ";
      UnitsOneYearAndMonths(years, digits, months);
    }
  }

  /**
   * The age text can be read back: years and months when both are shown;
   * the months are lost when there are none beyond the whole years, and the
   * years when there is not yet a whole year.
   */
  lemma ParseFormatAge(years: int, months: int)
    ensures years > 0 && months > 0 ==> ParseAge(FormatAge(years, months)) == Some((years, months))
    ensures years > 0 && months <= 0 ==> ParseAge(FormatAge(years, months)) == Some((years, 0))
    ensures years <= 0 ==> ParseAge(FormatAge(years, months)) == Some((0, months))
  {
    if years > 0 && months > 0 {
      ParseYearsAndMonths(years, months);
    } else if years > 0 {
      assert FormatAge(years, months) == FormatAge(years, 0);
      ParseYearsOnly(years);
    } else {
      assert FormatAge(years, months) == FormatAge(0, months);
      ParseMonthsOnly(months);
    }
  }

  /** From one year on, the text starts with the years and joins the months with "y". */
  lemma YearsAndMonthsExample()
    ensures FormatAge(2, 3) == "2 años y 3 meses"
  {
  }

  /** Whole years with no further months leave a trailing space. */
  lemma WholeYearExample()
    ensures FormatAge(1, 0) == "1 año "
  {
  }

  /** A birth date in the future gives a negative month count, as JavaScript's remainder keeps the sign. */
  lemma FutureBirthExample()
    ensures CalculateAge(0, -5) == "-5 meses"
  {
  }
}
