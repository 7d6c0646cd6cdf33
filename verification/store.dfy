/** The process-wide store behind `mockApi`: one sequence per entity kind,
    seeded with the fixture rows, changed only through the access-layer
    methods. Each method runs the corresponding pure operation of `Api` on
    its own collection and leaves the other collections alone. */
module MockApi {
  import opened Wrappers
  import opened Domain
  import opened Schemas
  import Api

  class Store {
    var transactions: seq<Transaction>
    var strains: seq<Strain>
    var customers: seq<Customer>
    var complianceDocs: seq<ComplianceDoc>

    constructor()
      ensures transactions == SeedTransactions() && strains == SeedStrains()
      ensures customers == SeedCustomers() && complianceDocs == SeedComplianceDocs()
    {
      transactions := SeedTransactions();
      strains := SeedStrains();
      customers := SeedCustomers();
      complianceDocs := SeedComplianceDocs();
    }

    method GetTransactions(business: Option<string>) returns (r: seq<Transaction>)
      ensures r == Api.GetTransactions(transactions, business)
    {
      r := Api.GetTransactions(transactions, business);
    }

    method AddTransaction(id: string, data: TransactionFormData, business: Business)
      returns (t: Transaction)
      modifies this
      ensures transactions == old(transactions) + [t]
      ensures t == Api.AddTransaction(old(transactions), id, data, business).record
      ensures strains == old(strains) && customers == old(customers)
      ensures complianceDocs == old(complianceDocs)
    {
      var c := Api.AddTransaction(transactions, id, data, business);
      transactions := c.store;
      t := c.record;
    }

    method DeleteTransaction(id: string)
      modifies this
      ensures transactions == Api.DeleteTransaction(old(transactions), id)
      ensures strains == old(strains) && customers == old(customers)
      ensures complianceDocs == old(complianceDocs)
    {
      transactions := Api.DeleteTransaction(transactions, id);
    }

    /** `getStrains()`: the whole collection, in order; the store is not
        changed (the method has no `modifies` clause). */
    method GetStrains() returns (r: seq<Strain>)
      ensures r == strains
    {
      r := strains;
    }

    method AddStrain(id: string, now: Day, data: StrainFormData) returns (s: Strain)
      modifies this
      ensures strains == old(strains) + [s]
      ensures s == Api.AddStrain(old(strains), id, now, data).record
      ensures transactions == old(transactions) && customers == old(customers)
      ensures complianceDocs == old(complianceDocs)
    {
      var c := Api.AddStrain(strains, id, now, data);
      strains := c.store;
      s := c.record;
    }

    method DeleteStrain(id: string)
      modifies this
      ensures strains == Api.DeleteStrain(old(strains), id)
      ensures transactions == old(transactions) && customers == old(customers)
      ensures complianceDocs == old(complianceDocs)
    {
      strains := Api.DeleteStrain(strains, id);
    }

    /** `getCustomers()`: the whole collection, in order; the store is not
        changed. */
    method GetCustomers() returns (r: seq<Customer>)
      ensures r == customers
    {
      r := customers;
    }

    method AddCustomer(id: string, now: Day, data: Api.NewCustomer) returns (n: Customer)
      modifies this
      ensures customers == old(customers) + [n]
      ensures n == Api.AddCustomer(old(customers), id, now, data).record
      ensures transactions == old(transactions) && strains == old(strains)
      ensures complianceDocs == old(complianceDocs)
    {
      var c := Api.AddCustomer(customers, id, now, data);
      customers := c.store;
      n := c.record;
    }

    method GetComplianceDocs(business: Option<string>) returns (r: seq<ComplianceDoc>)
      ensures r == Api.GetComplianceDocs(complianceDocs, business)
    {
      r := Api.GetComplianceDocs(complianceDocs, business);
    }

    method AddComplianceDoc(id: string, data: Api.DocFields) returns (d: ComplianceDoc)
      modifies this
      ensures complianceDocs == old(complianceDocs) + [d]
      ensures d == Api.AddComplianceDoc(old(complianceDocs), id, data).record
      ensures transactions == old(transactions) && strains == old(strains)
      ensures customers == old(customers)
    {
      var c := Api.AddComplianceDoc(complianceDocs, id, data);
      complianceDocs := c.store;
      d := c.record;
    }
  }
}
