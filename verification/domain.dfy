/** The records of the dashboard's mock data layer (`src/data/mockData.ts`):
    the four business units, the per-unit summary figures, and the four
    stored entity kinds with their seed rows.

    Money and percentages are `real`; a calendar date is a day number counted
    from 1970-01-01 (local midnight, which is what `new Date(y, m, d)` and the
    date pickers produce). A field named `type` in the source is `kind` here,
    since `type` is a Dafny keyword. */
module Domain {
  import opened Wrappers
  import opened Seqs

  /* ----------------------------------------------------------------- dates */

  /** A calendar date as a number of days since 1970-01-01. */
  type Day = int

  /** `new Date(year, monthIndex, day)` at local midnight, as a day number.
      Like the JavaScript constructor, the month index counts from 0 and
      out-of-range months and days roll over into the neighbouring year or
      month. */
  function CivilDay(year: int, monthIndex: int, day: int): Day {
    var y := year + monthIndex / 12;
    var m := monthIndex % 12 + 1;
    var y' := if m <= 2 then y - 1 else y;
    var era := y' / 400;
    var yoe := y' - era * 400;
    var mp := if m > 2 then m - 3 else m + 9;
    var doy := (153 * mp + 2) / 5 + day - 1;
    var doe := yoe * 365 + yoe / 4 - yoe / 100 + doy;
    era * 146097 + doe - 719468
  }

  /** Day numbers count from the epoch; the next day is the next number; a
      day past the end of a month, or a thirteenth month, rolls over as the
      JavaScript constructor does. */
  lemma CivilDayLaws(year: int, monthIndex: int, day: int)
    ensures CivilDay(1970, 0, 1) == 0
    ensures CivilDay(year, monthIndex, day + 1) == CivilDay(year, monthIndex, day) + 1
    ensures CivilDay(year, monthIndex + 12, day) == CivilDay(year + 1, monthIndex, day)
    ensures CivilDay(2025, 0, 32) == CivilDay(2025, 1, 1)
    ensures CivilDay(2024, 1, 30) == CivilDay(2024, 2, 1)
  {
    CivilDayYearRollover(year, monthIndex, day);
    CivilDayEpoch();
    CivilDayJanuaryRollover();
    CivilDayLeapRollover();
  }

  lemma CivilDayYearRollover(year: int, monthIndex: int, day: int)
    ensures CivilDay(year, monthIndex + 12, day) == CivilDay(year + 1, monthIndex, day)
  {
    assert (monthIndex + 12) / 12 == monthIndex / 12 + 1;
    assert (monthIndex + 12) % 12 == monthIndex % 12;
  }

  lemma CivilDayEpoch()
    ensures CivilDay(1970, 0, 1) == 0
  {
  }

  lemma CivilDayJanuaryRollover()
    ensures CivilDay(2025, 0, 32) == CivilDay(2025, 1, 1)
  {
  }

  lemma CivilDayLeapRollover()
    ensures CivilDay(2024, 1, 30) == CivilDay(2024, 2, 1)
  {
  }

  /* ------------------------------------------------------ business units */

  /** The closed set of business units. */
  datatype Business = Honey | Weed | Fish | Mushrooms

  const AllBusinesses: seq<Business> := [Honey, Weed, Fish, Mushrooms]

  /** The string each unit is written as in records, filters and routes. */
  function BusinessKey(b: Business): string {
    match b
    case Honey => "honey"
    case Weed => "weed"
    case Fish => "fish"
    case Mushrooms => "mushrooms"
  }

  /** The unit a string names, if any. */
  function ParseBusiness(s: string): (r: Option<Business>)
    ensures r.Some? <==> s in {"honey", "weed", "fish", "mushrooms"}
    ensures r.Some? ==> BusinessKey(r.value) == s
  {
    if s == "honey" then Some(Honey)
    else if s == "weed" then Some(Weed)
    else if s == "fish" then Some(Fish)
    else if s == "mushrooms" then Some(Mushrooms)
    else None
  }

  /** Every unit is listed exactly once, and its key names it back. */
  lemma BusinessIsClosed(b: Business)
    ensures b in AllBusinesses
    ensures ParseBusiness(BusinessKey(b)) == Some(b)
    ensures forall c: Business :: BusinessKey(c) == BusinessKey(b) ==> c == b
  {
  }

  /* ------------------------------------------------------------- summary */

  datatype SummaryData = SummaryData(
    totalSales: real,
    totalExpenses: real,
    profit: real,
    inventoryStatus: string,
    inventoryValue: real)

  /** `mockSummaryData`, a record with one entry for every unit. */
  function MockSummary(b: Business): (d: SummaryData)
    ensures d.profit == d.totalSales - d.totalExpenses
    ensures 0.0 <= d.totalExpenses <= d.totalSales
  {
    match b
    case Honey => SummaryData(12500.0, 4500.0, 8000.0, "Good", 15000.0)
    case Weed => SummaryData(25000.0, 10000.0, 15000.0, "Low Stock", 8000.0)
    case Fish => SummaryData(8000.0, 3000.0, 5000.0, "Sufficient", 12000.0)
    case Mushrooms => SummaryData(15000.0, 6000.0, 9000.0, "High Stock", 18000.0)
  }

  /* -------------------------------------------------------- transactions */

  datatype TxType = Income | Expense

  /** The direction of money is carried by `kind`; `amount` is a magnitude. */
  datatype Transaction = Transaction(
    id: string,
    date: Day,
    description: string,
    amount: real,
    kind: TxType,
    category: Option<string>,
    business: Business)

  function TxId(t: Transaction): string { t.id }

  /** `mockTransactions`, the initial transaction store. */
  function SeedTransactions(): (s: seq<Transaction>)
    ensures |s| == 6
    ensures Unique(s, TxId)
    ensures forall i :: 0 <= i < |s| ==> s[i].amount > 0.0
  {
    [ Transaction("1", CivilDay(2025, 4, 15), "Honey jar sales", 250.0, Income, Some("Sales"), Honey),
      Transaction("2", CivilDay(2025, 4, 16), "Beekeeping supplies", 80.0, Expense, Some("Equipment"), Honey),
      Transaction("3", CivilDay(2025, 4, 17), "Weed dispensary sales", 1200.0, Income, Some("Sales"), Weed),
      Transaction("4", CivilDay(2025, 4, 18), "Growing nutrients", 150.0, Expense, Some("Supplies"), Weed),
      Transaction("5", CivilDay(2025, 4, 19), "Fish market sales", 400.0, Income, Some("Sales"), Fish),
      Transaction("6", CivilDay(2025, 4, 20), "Fish feed", 120.0, Expense, Some("Feed"), Fish) ]
  }

  /* ------------------------------------------------------------- strains */

  datatype StrainType = Indica | Sativa | Hybrid

  datatype Strain = Strain(
    id: string,
    name: string,
    kind: StrainType,
    thcPercentage: Option<real>,
    cbdPercentage: Option<real>,
    notes: Option<string>,
    dateAdded: Day)

  function StrainId(s: Strain): string { s.id }

  /** A percentage field that is either absent or within [0, 100], the rule
      `z.coerce.number().min(0).max(100).optional()` of the strain schema. */
  predicate PercentageOk(p: Option<real>) {
    p.None? || 0.0 <= p.value <= 100.0
  }

  /** `mockStrains`, the initial strain store. */
  function SeedStrains(): (s: seq<Strain>)
    ensures |s| == 3
    ensures Unique(s, StrainId)
    ensures forall i :: 0 <= i < |s| ==>
              PercentageOk(s[i].thcPercentage) && PercentageOk(s[i].cbdPercentage)
  {
    [ Strain("1", "Blue Dream", Hybrid, Some(22.0), Some(1.0), Some("Popular strain with balanced effects"), CivilDay(2025, 3, 10)),
      Strain("2", "OG Kush", Indica, Some(25.0), Some(0.5), Some("Classic indica with strong effects"), CivilDay(2025, 3, 15)),
      Strain("3", "Sour Diesel", Sativa, Some(20.0), Some(1.2), Some("Energizing sativa strain"), CivilDay(2025, 4, 1)) ]
  }

  /* ----------------------------------------------------------- customers */

  datatype CustomerStatus = Active | Inactive

  /** `totalOrders` and `totalSpent` are stored figures, never recomputed
      from the transaction history. */
  datatype Customer = Customer(
    id: string,
    name: string,
    email: string,
    phone: string,
    totalOrders: int,
    totalSpent: real,
    lastOrderDate: Day,
    status: CustomerStatus)

  function CustomerId(c: Customer): string { c.id }

  /** `mockCustomers`, the initial customer store. */
  function SeedCustomers(): (s: seq<Customer>)
    ensures |s| == 4
    ensures Unique(s, CustomerId)
  {
    [ Customer("1", "John Smith", "john@example.com", "555-0101", 15, 1250.0, CivilDay(2025, 4, 20), Active),
      Customer("2", "Sarah Johnson", "sarah@example.com", "555-0102", 8, 680.0, CivilDay(2025, 4, 18), Active),
      Customer("3", "Mike Wilson", "mike@example.com", "555-0103", 22, 2100.0, CivilDay(2025, 4, 22), Active),
      Customer("4", "Lisa Brown", "lisa@example.com", "555-0104", 5, 320.0, CivilDay(2025, 3, 15), Inactive) ]
  }

  /* ------------------------------------------------- compliance documents */

  datatype DocType = License | Certificate | Permit | Report

  /** Stored as given; never derived from `expiryDate`. */
  datatype DocStatus = Valid | ExpiringSoon | Expired | Pending

  datatype ComplianceDoc = ComplianceDoc(
    id: string,
    title: string,
    kind: DocType,
    status: DocStatus,
    expiryDate: Day,
    business: Business,
    description: Option<string>)

  function DocId(d: ComplianceDoc): string { d.id }

  /** `mockComplianceDocs`, the initial compliance store. */
  function SeedComplianceDocs(): (s: seq<ComplianceDoc>)
    ensures |s| == 4
    ensures Unique(s, DocId)
  {
    [ ComplianceDoc("1", "Beekeeping License", License, Valid, CivilDay(2026, 2, 15), Honey, Some("State beekeeping operation license")),
      ComplianceDoc("2", "Cannabis Cultivation License", License, ExpiringSoon, CivilDay(2025, 6, 30), Weed, Some("Legal cannabis cultivation permit")),
      ComplianceDoc("3", "Aquaculture Permit", Permit, Valid, CivilDay(2026, 8, 10), Fish, Some("Fish farming operation permit")),
      ComplianceDoc("4", "Food Safety Certificate", Certificate, Valid, CivilDay(2025, 11, 20), Mushrooms, Some("Food safety handling certification")) ]
  }
}
