/**
 * The records both stores keep (project/src/types/index.ts, and the archive
 * record declared inline in the animal store).
 *
 * Dates that the stores only carry are kept as their text; the date of a milk
 * production, which the summary parses, is a calendar date; vaccination dates,
 * which are compared with the current moment, are instants in milliseconds.
 * Money and volumes are integers.
 */
module FarmTypes {
  import opened Options

  /** A calendar date written "YYYY-MM-DD". */
  datatype Date = Date(year: int, month: int, day: int)

  /** The only two species the farm keeps: cattle ('Ganado') and horses ('Caballos'). */
  datatype Species = Ganado | Caballos

  datatype Gender = Male | Female

  datatype Status = Active | Sold | Deceased

  datatype Parentage = Parentage(motherId: string, fatherId: string)

  datatype PurchaseInfo = PurchaseInfo(date: string, price: int, seller: string)

  datatype SaleInfo = SaleInfo(date: string, price: int, buyer: string, notes: Option<string>)

  datatype DeceasedInfo = DeceasedInfo(date: string, cause: string, notes: Option<string>)

  datatype Animal = Animal(
    id: string,
    name: string,
    species: Species,
    breed: string,
    gender: Gender,
    birthDate: string,
    tagNumber: string,
    status: Status,
    notes: string,
    parent: Parentage,
    farm: string,
    purchaseInfo: Option<PurchaseInfo>,
    saleInfo: Option<SaleInfo>,
    deceasedInfo: Option<DeceasedInfo>,
    imageUrl: Option<string>)

  /** The species a vaccine applies to: one of the two, or 'all'. */
  datatype VaccineSpecies = ForSpecies(species: Species) | AllSpecies

  datatype VaccinationRecord = VaccinationRecord(
    id: string,
    name: string,
    description: Option<string>,
    lastApplied: int,
    nextDueDate: int,
    species: VaccineSpecies,
    cost: Option<int>,
    notes: Option<string>)

  datatype ExpenseCategory = Supplement | Medicine | Other

  datatype MilkExpense = MilkExpense(id: string, description: string, amount: int, category: ExpenseCategory, date: string)

  datatype MilkProduction = MilkProduction(
    id: string,
    date: Date,
    farm: string,
    liters: int,
    pricePerLiter: int,
    expenses: seq<MilkExpense>)

  /**
   * The four figures a summary, a farm bucket (FarmMilkSummary) and a month
   * bucket (MonthlyMilkData) each carry.
   */
  datatype Tally = Tally(liters: int, income: int, expenses: int, balance: int)
  {
    /** Figure-by-figure addition, as the stores' `+=` on each field. */
    function Plus(t: Tally): Tally {
      Tally(liters + t.liters, income + t.income, expenses + t.expenses, balance + t.balance)
    }

    /** The balance is what remains of the income after the expenses. */
    predicate Balanced() {
      balance == income - expenses
    }
  }

  const Zero := Tally(0, 0, 0, 0)

  /** A "YYYY-MM" month key. */
  datatype MonthKey = MonthKey(year: int, month: int)

  /** One month's figures, keyed by its "YYYY-MM" (the `date` field). */
  datatype MonthlyMilkData = MonthlyMilkData(date: MonthKey, totals: Tally)

  /** MilkProductionSummary: overall figures, one bucket per farm, month buckets in key order. */
  datatype MilkProductionSummary = MilkProductionSummary(
    totals: Tally,
    byFarm: map<string, Tally>,
    monthlyData: seq<MonthlyMilkData>)

  /** One element of `historicalMilkData`: a closed year's figures and its month buckets. */
  datatype YearlyArchive = YearlyArchive(year: int, totals: Tally, monthlyData: seq<MonthlyMilkData>)
}
