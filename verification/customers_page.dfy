/** The summary figures of the customers page (`src/pages/CustomersPage.tsx`).
    The page keeps its own customer list with its own record shape, in which
    a customer may also be a Lead; it is not the access layer's customer. */
module CustomersPage {
  import opened Wrappers
  import opened Seqs
  import Domain

  datatype Status = Active | Inactive | Lead

  datatype Customer = Customer(
    id: string,
    name: string,
    email: string,
    company: Option<string>,
    lastOrderDate: Option<Domain.Day>,
    totalSpent: real,
    status: Status)

  /** The page's fixture list. */
  function PageCustomers(): (s: seq<Customer>)
    ensures |s| == 5
  {
    [ Customer("1", "John Doe", "john.doe@example.com", Some("Doe Industries"), Some(Domain.CivilDay(2025, 4, 15)), 1250.75, Active),
      Customer("2", "Jane Smith", "jane.smith@example.com", Some("Smith & Co."), Some(Domain.CivilDay(2025, 3, 20)), 850.00, Active),
      Customer("3", "Robert Johnson", "rob.j@example.com", None, None, 0.0, Lead),
      Customer("4", "Emily White", "emily.w@example.com", Some("White Goods Inc."), Some(Domain.CivilDay(2024, 11, 5)), 2300.50, Inactive),
      Customer("5", "Michael Brown", "michael.b@example.com", None, Some(Domain.CivilDay(2025, 5, 1)), 500.20, Active) ]
  }

  function HasStatus(st: Status): Customer -> bool {
    (c: Customer) => c.status == st
  }

  function Spent(c: Customer): real { c.totalSpent }

  /** `customers.filter(c => c.status === 'Active').length`. */
  function ActiveCount(cs: seq<Customer>): nat {
    |Filter(cs, HasStatus(Active))|
  }

  /** `customers.filter(c => c.status === 'Lead').length`. */
  function LeadCount(cs: seq<Customer>): nat {
    |Filter(cs, HasStatus(Lead))|
  }

  /** The total spent by Active customers: filter, then reduce. */
  function ActiveRevenue(cs: seq<Customer>): real {
    SumOf(Filter(cs, HasStatus(Active)), Spent)
  }

  /** How many customers have status `st`, counted one by one. */
  function CountOf(cs: seq<Customer>, st: Status): nat
    decreases |cs|
  {
    if |cs| == 0 then 0 else (if cs[0].status == st then 1 else 0) + CountOf(cs[1..], st)
  }

  /** The filtered length is the one-by-one count of that status. */
  lemma {:induction false} FilterCountIsCount(cs: seq<Customer>, st: Status)
    ensures |Filter(cs, HasStatus(st))| == CountOf(cs, st)
    decreases |cs|
  {
    if |cs| > 0 {
      FilterCountIsCount(cs[1..], st);
    }
  }

  /** The three statuses partition the list: the active and lead cards
      together with the Inactive customers, who appear on neither card,
      account for every customer exactly once. */
  lemma StatusCountsPartition(cs: seq<Customer>)
    ensures ActiveCount(cs) + LeadCount(cs) + CountOf(cs, Inactive) == |cs|
    ensures ActiveCount(cs) == CountOf(cs, Active) && LeadCount(cs) == CountOf(cs, Lead)
  {
    FilterCountIsCount(cs, Active);
    FilterCountIsCount(cs, Lead);
    CountsAddUp(cs);
  }

  lemma {:induction false} CountsAddUp(cs: seq<Customer>)
    ensures CountOf(cs, Active) + CountOf(cs, Lead) + CountOf(cs, Inactive) == |cs|
    decreases |cs|
  {
    if |cs| > 0 {
      CountsAddUp(cs[1..]);
    }
  }

  /** What one customer adds to the active revenue. */
  function ActiveShare(c: Customer): real {
    if c.status == Active then c.totalSpent else 0.0
  }

  /** Active revenue is the sum over all customers of their active share:
      Lead and Inactive customers contribute nothing, whatever they spent. */
  lemma ActiveRevenueIsSumOfShares(cs: seq<Customer>)
    ensures ActiveRevenue(cs) == SumOf(cs, ActiveShare)
  {
    SumFilter(cs, HasStatus(Active), Spent, ActiveShare);
  }

  /** Changing what a non-active customer spent leaves the active revenue
      as it was. */
  lemma ActiveRevenueIgnoresOthers(a: seq<Customer>, c: Customer, b: seq<Customer>, spent: real)
    requires c.status != Active
    ensures ActiveRevenue(a + [c] + b) == ActiveRevenue(a + [c.(totalSpent := spent)] + b)
  {
    var c' := c.(totalSpent := spent);
    ActiveRevenueIsSumOfShares(a + [c] + b);
    ActiveRevenueIsSumOfShares(a + [c'] + b);
    SumConcat(a + [c], b, ActiveShare);
    SumConcat(a + [c'], b, ActiveShare);
    SumConcat(a, [c], ActiveShare);
    SumConcat(a, [c'], ActiveShare);
    assert [c][1..] == [] && [c'][1..] == [];
  }

  /** On the fixture list: 3 active customers, 1 lead, and
      1250.75 + 850.00 + 500.20 of active revenue. */
  lemma PageFigures()
    ensures ActiveCount(PageCustomers()) == 3
    ensures LeadCount(PageCustomers()) == 1
    ensures ActiveRevenue(PageCustomers()) == 2600.95
  {
    var s := PageCustomers();
    assert s == [s[0]] + [s[1]] + [s[2]] + [s[3]] + [s[4]];
    FilterCountIsCount(s, Active);
    FilterCountIsCount(s, Lead);
    assert s[1..] == [s[1], s[2], s[3], s[4]];
    assert s[2..] == [s[2], s[3], s[4]];
    assert s[1..][1..] == s[2..] && s[2..][1..] == s[3..] && s[3..][1..] == s[4..];
    assert s[4..][1..] == [];
    ActiveRevenueIsSumOfShares(s);
  }

  datatype BadgeVariant = Default | Secondary | Destructive | Outline

  /** `getStatusBadgeVariant`. */
  function StatusBadgeVariant(st: Status): BadgeVariant {
    match st
    case Active => Default
    case Inactive => Secondary
    case Lead => Outline
  }

  /** The badge tells the statuses apart and never uses the destructive
      variant. */
  lemma BadgeVariantDistinguishes(a: Status, b: Status)
    ensures StatusBadgeVariant(a) == StatusBadgeVariant(b) <==> a == b
    ensures StatusBadgeVariant(a) != Destructive
  {
  }
}
