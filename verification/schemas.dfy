/** The two form schemas of `src/components/forms/schemas.ts`
    (`transactionSchema`, `strainSchema`). A validator takes the raw form
    input, with enum fields still as strings and optional fields as `Option`,
    and yields either the typed payload or every field that failed, in the
    order the schema declares them (zod reports all issues, not the first). */
module Schemas {
  import opened Wrappers
  import opened Domain
  import opened Seqs

  /** The keys of the two schemas that can be rejected. */
  datatype Field =
    | DateField | DescriptionField | AmountField | TypeField
    | NameField | ThcField | CbdField

  /* --------------------------------------------------------- transaction */

  datatype TransactionInput = TransactionInput(
    date: Option<Day>,
    description: string,
    amount: real,
    kind: string,
    category: Option<string>)

  datatype TransactionFormData = TransactionFormData(
    date: Day,
    description: string,
    amount: real,
    kind: TxType,
    category: Option<string>)

  /** `z.enum(["income", "expense"])`. */
  function ParseTxType(s: string): (r: Option<TxType>)
    ensures r.Some? <==> s == "income" || s == "expense"
    ensures r.Some? ==> TxTypeName(r.value) == s
  {
    if s == "income" then Some(Income)
    else if s == "expense" then Some(Expense)
    else None
  }

  function TxTypeName(k: TxType): string {
    match k
    case Income => "income"
    case Expense => "expense"
  }

  /** The keys of `transactionSchema` that can be rejected, in declared order. */
  const TransactionFields: seq<Field> := [DateField, DescriptionField, AmountField, TypeField]

  /** The check each transaction field must pass (`date` required,
      `min(1)`, `positive()`, the enum). */
  predicate TransactionFieldOk(x: TransactionInput, f: Field) {
    match f
    case DateField => x.date.Some?
    case DescriptionField => |x.description| >= 1
    case AmountField => x.amount > 0.0
    case TypeField => ParseTxType(x.kind).Some?
    case _ => true
  }

  /** The rejected fields of a transaction form: the date is required, the
      description needs at least one character, the amount must be strictly
      positive, the type must be one of the two enum values; the category is
      optional and never rejected. */
  function TransactionIssues(x: TransactionInput): (r: seq<Field>)
    ensures DateField in r <==> x.date.None?
    ensures DescriptionField in r <==> x.description == ""
    ensures AmountField in r <==> x.amount <= 0.0
    ensures TypeField in r <==> x.kind != "income" && x.kind != "expense"
    ensures forall f :: f in r ==> f in {DateField, DescriptionField, AmountField, TypeField}
  {
    Filter(TransactionFields, f => !TransactionFieldOk(x, f))
  }

  /** `transactionSchema.safeParse`. */
  function ValidateTransaction(x: TransactionInput): (r: Result<TransactionFormData, seq<Field>>)
    ensures r.Success? <==>
              x.date.Some? && x.description != "" && x.amount > 0.0 &&
              (x.kind == "income" || x.kind == "expense")
    ensures r.Success? ==>
              && r.value.date == x.date.value
              && r.value.description == x.description
              && r.value.amount == x.amount
              && TxTypeName(r.value.kind) == x.kind
              && r.value.category == x.category
    ensures r.Failure? ==> r.error == TransactionIssues(x) && r.error != []
  {
    var issues := TransactionIssues(x);
    if issues == [] then
      Success(TransactionFormData(x.date.value, x.description, x.amount,
                                  ParseTxType(x.kind).value, x.category))
    else
      Failure(issues)
  }

  /** The form input that a typed transaction payload came from. */
  function TransactionToInput(d: TransactionFormData): TransactionInput {
    TransactionInput(Some(d.date), d.description, d.amount, TxTypeName(d.kind), d.category)
  }

  /** Validation and its inverse: a payload passes exactly when its amount is
      positive and its description non-empty, and then it comes back
      unchanged; an accepted input is the input of its own payload. */
  lemma TransactionRoundTrip(d: TransactionFormData, x: TransactionInput)
    ensures ValidateTransaction(TransactionToInput(d)) == Success(d) <==>
              d.amount > 0.0 && d.description != ""
    ensures ValidateTransaction(x).Success? ==>
              TransactionToInput(ValidateTransaction(x).value) == x
  {
    if d.amount > 0.0 && d.description != "" {
      assert ParseTxType(TxTypeName(d.kind)) == Some(d.kind) by {
        match d.kind
        case Income =>
        case Expense =>
      }
    }
    var r := ValidateTransaction(x);
    if r.Success? {
      assert x.date == Some(r.value.date);
    }
  }

  /** With every other field valid, zero is not a positive amount and a
      cent is. */
  lemma TransactionAmountBoundary(x: TransactionInput)
    requires x.date.Some? && x.description != "" && (x.kind == "income" || x.kind == "expense")
    ensures ValidateTransaction(x.(amount := 0.0)) == Failure([AmountField])
    ensures ValidateTransaction(x.(amount := 0.01)).Success?
  {
    var y := x.(amount := 0.0);
    assert ParseTxType(y.kind).Some?;
    assert TransactionIssues(y) == [AmountField];
    assert ValidateTransaction(y).Failure?;
  }

  /** Every seed transaction would pass the transaction form. */
  lemma SeedTransactionsPassSchema(i: int)
    requires 0 <= i < |SeedTransactions()|
    ensures
      var t := SeedTransactions()[i];
      ValidateTransaction(TransactionInput(Some(t.date), t.description, t.amount,
                                           TxTypeName(t.kind), t.category)).Success?
  {
    var t := SeedTransactions()[i];
    assert t.description != "";
    assert t.kind == Income || t.kind == Expense;
  }

  /* -------------------------------------------------------------- strain */

  datatype StrainInput = StrainInput(
    name: string,
    kind: string,
    thcPercentage: Option<real>,
    cbdPercentage: Option<real>,
    notes: Option<string>)

  datatype StrainFormData = StrainFormData(
    name: string,
    kind: StrainType,
    thcPercentage: Option<real>,
    cbdPercentage: Option<real>,
    notes: Option<string>)

  /** `z.enum(["Indica", "Sativa", "Hybrid"])`. */
  function ParseStrainType(s: string): (r: Option<StrainType>)
    ensures r.Some? <==> s in {"Indica", "Sativa", "Hybrid"}
    ensures r.Some? ==> StrainTypeName(r.value) == s
  {
    if s == "Indica" then Some(Indica)
    else if s == "Sativa" then Some(Sativa)
    else if s == "Hybrid" then Some(Hybrid)
    else None
  }

  function StrainTypeName(k: StrainType): string {
    match k
    case Indica => "Indica"
    case Sativa => "Sativa"
    case Hybrid => "Hybrid"
  }

  /** The keys of `strainSchema` that can be rejected, in declared order. */
  const StrainFields: seq<Field> := [NameField, TypeField, ThcField, CbdField]

  /** The check each strain field must pass. */
  predicate StrainFieldOk(x: StrainInput, f: Field) {
    match f
    case NameField => |x.name| >= 1
    case TypeField => ParseStrainType(x.kind).Some?
    case ThcField => PercentageOk(x.thcPercentage)
    case CbdField => PercentageOk(x.cbdPercentage)
    case _ => true
  }

  function StrainRejects(x: StrainInput): Field -> bool {
    f => !StrainFieldOk(x, f)
  }

  /** The rejected fields of a strain form: the name needs at least one
      character, the type must be one of three values, and each percentage,
      when present, must lie in [0, 100]; notes are never rejected. */
  function StrainIssues(x: StrainInput): (r: seq<Field>)
    ensures NameField in r <==> x.name == ""
    ensures TypeField in r <==> x.kind !in {"Indica", "Sativa", "Hybrid"}
    ensures ThcField in r <==> x.thcPercentage.Some? &&
                               (x.thcPercentage.value < 0.0 || x.thcPercentage.value > 100.0)
    ensures CbdField in r <==> x.cbdPercentage.Some? &&
                               (x.cbdPercentage.value < 0.0 || x.cbdPercentage.value > 100.0)
    ensures forall f :: f in r ==> f in {NameField, TypeField, ThcField, CbdField}
  {
    Filter(StrainFields, StrainRejects(x))
  }

  /** `strainSchema.safeParse`. */
  function ValidateStrain(x: StrainInput): (r: Result<StrainFormData, seq<Field>>)
    ensures r.Success? <==>
              && x.name != ""
              && x.kind in {"Indica", "Sativa", "Hybrid"}
              && PercentageOk(x.thcPercentage)
              && PercentageOk(x.cbdPercentage)
    ensures r.Success? ==>
              && r.value.name == x.name
              && StrainTypeName(r.value.kind) == x.kind
              && r.value.thcPercentage == x.thcPercentage
              && r.value.cbdPercentage == x.cbdPercentage
              && r.value.notes == x.notes
    ensures r.Failure? ==> r.error == StrainIssues(x) && r.error != []
  {
    var issues := StrainIssues(x);
    StrainIssuesEmpty(x);
    if issues == [] then
      Success(StrainFormData(x.name, ParseStrainType(x.kind).value,
                             x.thcPercentage, x.cbdPercentage, x.notes))
    else
      Failure(issues)
  }

  /** A strain form has no issues exactly when every field passes. */
  lemma StrainIssuesEmpty(x: StrainInput)
    ensures StrainIssues(x) == [] <==>
              && x.name != ""
              && x.kind in {"Indica", "Sativa", "Hybrid"}
              && PercentageOk(x.thcPercentage)
              && PercentageOk(x.cbdPercentage)
  {
    var issues := StrainIssues(x);
    if issues != [] {
      assert issues[0] in issues;
    }
  }

  /** The form input that a typed strain payload came from. */
  function StrainToInput(d: StrainFormData): StrainInput {
    StrainInput(d.name, StrainTypeName(d.kind), d.thcPercentage, d.cbdPercentage, d.notes)
  }

  /** Validation and its inverse, as for transactions: a payload passes
      exactly when its name is non-empty and its percentages are in range,
      and an accepted input is the input of its own payload. */
  lemma StrainRoundTrip(d: StrainFormData, x: StrainInput)
    ensures ValidateStrain(StrainToInput(d)) == Success(d) <==>
              d.name != "" && PercentageOk(d.thcPercentage) && PercentageOk(d.cbdPercentage)
    ensures ValidateStrain(x).Success? ==> StrainToInput(ValidateStrain(x).value) == x
  {
    assert ParseStrainType(StrainTypeName(d.kind)) == Some(d.kind) by {
      match d.kind
      case Indica =>
      case Sativa =>
      case Hybrid =>
    }
  }

  /** Both ends of the percentage range are accepted, and so is leaving
      the field out. */
  lemma StrainPercentageBoundary(x: StrainInput)
    requires x.name != "" && x.kind in {"Indica", "Sativa", "Hybrid"} && PercentageOk(x.cbdPercentage)
    ensures ValidateStrain(x.(thcPercentage := Some(0.0))).Success?
    ensures ValidateStrain(x.(thcPercentage := Some(100.0))).Success?
    ensures ValidateStrain(x.(thcPercentage := None)).Success?
  {
    assert ParseStrainType(x.kind).Some?;
  }

  /** A tenth outside either end of the range is rejected, and the
      percentage is then the only field reported. */
  lemma StrainPercentageOutOfRange(x: StrainInput, p: real)
    requires x.name != "" && x.kind in {"Indica", "Sativa", "Hybrid"} && PercentageOk(x.cbdPercentage)
    requires p == 100.1 || p == -0.1
    ensures ValidateStrain(x.(thcPercentage := Some(p))) == Failure([ThcField])
  {
    var y := x.(thcPercentage := Some(p));
    assert ParseStrainType(y.kind).Some?;
    assert |y.name| >= 1;
    FilterOnlyOne(StrainFields, StrainRejects(y), 2);
  }
}
