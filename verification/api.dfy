/** The mock access layer (`src/services/mockApi.ts`) as pure transformers
    of the store's sequences. Each operation takes the collection it reads or
    changes and, for a change, returns the new collection. The timestamp the
    source turns into an id (`Date.now().toString()`) and the current date
    (`new Date()`) are parameters `id` and `now`; the artificial delays are
    timing only and have no counterpart. */
module Api {
  import opened Wrappers
  import opened Seqs
  import opened Domain
  import opened Schemas

  /** What an add operation yields: the collection after the push, and the
      record it created (the promise's value). */
  datatype Created<T> = Created(store: seq<T>, record: T)

  /** `business ? ... : ...`: the filter applies only when the argument is
      present and not the empty string, the two falsy values a string
      argument can have. */
  predicate FilterGiven(business: Option<string>) {
    business.Some? && business.value != ""
  }

  function TxOf(key: string): Transaction -> bool {
    (t: Transaction) => BusinessKey(t.business) == key
  }

  function DocOf(key: string): ComplianceDoc -> bool {
    (d: ComplianceDoc) => BusinessKey(d.business) == key
  }

  function TxHasId(id: string): Transaction -> bool {
    (t: Transaction) => t.id == id
  }

  function TxLacksId(id: string): Transaction -> bool {
    (t: Transaction) => t.id != id
  }

  function StrainHasId(id: string): Strain -> bool {
    (s: Strain) => s.id == id
  }

  function StrainLacksId(id: string): Strain -> bool {
    (s: Strain) => s.id != id
  }

  /* -------------------------------------------------------- transactions */

  /** `getTransactions(business?)`: with a filter, exactly the transactions of
      that unit (each as often as it is stored); without one, everything. */
  function GetTransactions(store: seq<Transaction>, business: Option<string>): (r: seq<Transaction>)
    ensures !FilterGiven(business) ==> r == store
    ensures FilterGiven(business) ==>
              forall t {:trigger multiset(r)[t]} ::
                multiset(r)[t] ==
                  (if BusinessKey(t.business) == business.value then multiset(store)[t] else 0)
  {
    if FilterGiven(business) then Filter(store, TxOf(business.value)) else store
  }

  /** The listing keeps store order: listing a store made of two parts lists
      the first part's matches before the second part's. */
  lemma GetTransactionsKeepsOrder(a: seq<Transaction>, b: seq<Transaction>, business: Option<string>)
    ensures GetTransactions(a + b, business) == GetTransactions(a, business) + GetTransactions(b, business)
  {
    if FilterGiven(business) {
      FilterConcat(a, b, TxOf(business.value));
    }
  }

  /** A filter string that names no unit matches nothing. */
  lemma GetTransactionsUnknownUnit(store: seq<Transaction>, key: string)
    requires key != "" && ParseBusiness(key).None?
    ensures GetTransactions(store, Some(key)) == []
  {
    forall i | 0 <= i < |store|
      ensures !TxOf(key)(store[i])
    {
      assert ParseBusiness(BusinessKey(store[i].business)).Some?;
    }
    FilterDropsAll(store, TxOf(key));
  }

  /** `addTransaction(data)`: the new record carries the fresh id and the
      caller's fields; it is pushed at the end and nothing before it moves. */
  function AddTransaction(store: seq<Transaction>, id: string, data: TransactionFormData,
                          business: Business): (c: Created<Transaction>)
    ensures |c.store| == |store| + 1
    ensures c.store[..|store|] == store && c.store[|store|] == c.record
    ensures c.record.id == id
    ensures c.record.date == data.date && c.record.description == data.description
    ensures c.record.amount == data.amount && c.record.kind == data.kind
    ensures c.record.category == data.category && c.record.business == business
  {
    var t := Transaction(id, data.date, data.description, data.amount, data.kind,
                         data.category, business);
    Created(store + [t], t)
  }

  /** `deleteTransaction(id)`: the first transaction with that id is taken
      out; when there is none the store is left as it was. */
  function DeleteTransaction(store: seq<Transaction>, id: string): (r: seq<Transaction>)
    ensures Fresh(store, TxId, id) ==> r == store
    ensures !Fresh(store, TxId, id) ==>
              |r| == |store| - 1 &&
              exists i :: IsFirstMatch(store, TxHasId(id), i) && r == store[..i] + store[i + 1..]
  {
    RemoveFirst(store, TxHasId(id))
  }

  /** Deleting takes out only that one record: every record with another id
      is still there, in the same relative order. */
  lemma DeleteTransactionKeepsOthers(store: seq<Transaction>, id: string)
    ensures Filter(DeleteTransaction(store, id), TxLacksId(id)) == Filter(store, TxLacksId(id))
  {
    RemoveFirstKeepsOthers(store, TxHasId(id), TxLacksId(id));
  }

  /** With unique ids, deleting the same id a second time changes nothing. */
  lemma DeleteTransactionTwice(store: seq<Transaction>, id: string)
    requires Unique(store, TxId)
    ensures DeleteTransaction(DeleteTransaction(store, id), id) == DeleteTransaction(store, id)
  {
    UniqueAtMostOne(store, TxId, id, TxHasId(id));
    RemoveFirstTwice(store, TxHasId(id));
  }

  /** Adding with a fresh id keeps ids unique; deleting always does. */
  lemma TransactionIdsStayUnique(store: seq<Transaction>, id: string, data: TransactionFormData,
                                 business: Business, gone: string)
    requires Unique(store, TxId)
    ensures Fresh(store, TxId, id) ==> Unique(AddTransaction(store, id, data, business).store, TxId)
    ensures Unique(DeleteTransaction(store, gone), TxId)
  {
    var c := AddTransaction(store, id, data, business);
    if Fresh(store, TxId, id) {
      UniqueAppend(store, TxId, c.record);
    }
    UniqueRemoveFirst(store, TxId, TxHasId(gone));
  }

  /** Create round trip: after an add with a fresh id, the unit's listing is
      the old listing followed by the new record, and deleting that id gives
      back the store as it was before the add. */
  lemma AddTransactionRoundTrip(store: seq<Transaction>, id: string, data: TransactionFormData,
                                business: Business)
    requires Fresh(store, TxId, id)
    ensures
      var c := AddTransaction(store, id, data, business);
      && GetTransactions(c.store, Some(BusinessKey(business)))
           == GetTransactions(store, Some(BusinessKey(business))) + [c.record]
      && DeleteTransaction(c.store, id) == store
  {
    var c := AddTransaction(store, id, data, business);
    var key := BusinessKey(business);
    GetTransactionsKeepsOrder(store, [c.record], Some(key));
    assert Filter([c.record], TxOf(key)) == [c.record] by {
      assert [c.record][1..] == [];
    }
    var i := FindIndex(c.store, TxHasId(id));
    assert TxHasId(id)(c.store[|store|]);
    assert i == |store| by {
      forall k | 0 <= k < |store|
        ensures !TxHasId(id)(c.store[k])
      {
        assert c.store[k] == store[k];
      }
    }
    assert c.store[..i] == store;
  }

  /* ------------------------------------------------------------- strains */

  /** `addStrain(data)`: the new strain carries the fresh id, the caller's
      fields and `now` as its date added; it is pushed at the end. */
  function AddStrain(store: seq<Strain>, id: string, now: Day, data: StrainFormData)
    : (c: Created<Strain>)
    ensures |c.store| == |store| + 1
    ensures c.store[..|store|] == store && c.store[|store|] == c.record
    ensures c.record.id == id && c.record.dateAdded == now
    ensures c.record.name == data.name && c.record.kind == data.kind
    ensures c.record.thcPercentage == data.thcPercentage
    ensures c.record.cbdPercentage == data.cbdPercentage
    ensures c.record.notes == data.notes
  {
    var s := Strain(id, data.name, data.kind, data.thcPercentage, data.cbdPercentage,
                    data.notes, now);
    Created(store + [s], s)
  }

  /** `deleteStrain(id)`: as for transactions, the first strain with that id
      is taken out and an unknown id changes nothing. */
  function DeleteStrain(store: seq<Strain>, id: string): (r: seq<Strain>)
    ensures Fresh(store, StrainId, id) ==> r == store
    ensures !Fresh(store, StrainId, id) ==>
              |r| == |store| - 1 &&
              exists i :: IsFirstMatch(store, StrainHasId(id), i) && r == store[..i] + store[i + 1..]
  {
    RemoveFirst(store, StrainHasId(id))
  }

  /** Deleting a strain keeps every strain with another id, in order, in any
      store, duplicate ids included. */
  lemma DeleteStrainKeepsOthers(store: seq<Strain>, id: string)
    ensures Filter(DeleteStrain(store, id), StrainLacksId(id)) == Filter(store, StrainLacksId(id))
  {
    RemoveFirstKeepsOthers(store, StrainHasId(id), StrainLacksId(id));
  }

  /** With unique ids a second delete of the same id changes nothing; ids
      stay unique through an add with a fresh id and through any delete. */
  lemma StrainStoreLaws(store: seq<Strain>, id: string, now: Day, data: StrainFormData)
    requires Unique(store, StrainId)
    ensures DeleteStrain(DeleteStrain(store, id), id) == DeleteStrain(store, id)
    ensures Unique(DeleteStrain(store, id), StrainId)
    ensures Fresh(store, StrainId, id) ==> Unique(AddStrain(store, id, now, data).store, StrainId)
  {
    UniqueAtMostOne(store, StrainId, id, StrainHasId(id));
    RemoveFirstTwice(store, StrainHasId(id));
    UniqueRemoveFirst(store, StrainId, StrainHasId(id));
    if Fresh(store, StrainId, id) {
      UniqueAppend(store, StrainId, AddStrain(store, id, now, data).record);
    }
  }

  /* ----------------------------------------------------------- customers */

  /** The caller-supplied part of a customer: everything except the id and
      the four fields the access layer fills in. */
  datatype NewCustomer = NewCustomer(name: string, email: string, phone: string)

  /** `addCustomer(data)`: a new customer starts Active, with no orders, no
      spending and `now` as its last order date. */
  function AddCustomer(store: seq<Customer>, id: string, now: Day, data: NewCustomer)
    : (c: Created<Customer>)
    ensures |c.store| == |store| + 1
    ensures c.store[..|store|] == store && c.store[|store|] == c.record
    ensures c.record.id == id
    ensures c.record.name == data.name && c.record.email == data.email
    ensures c.record.phone == data.phone
    ensures c.record.totalOrders == 0 && c.record.totalSpent == 0.0
    ensures c.record.lastOrderDate == now && c.record.status == Active
  {
    var n := Customer(id, data.name, data.email, data.phone, 0, 0.0, now, Active);
    Created(store + [n], n)
  }

  /** Ids stay unique through an add with a fresh id. */
  lemma CustomerIdsStayUnique(store: seq<Customer>, id: string, now: Day, data: NewCustomer)
    requires Unique(store, CustomerId) && Fresh(store, CustomerId, id)
    ensures Unique(AddCustomer(store, id, now, data).store, CustomerId)
  {
    UniqueAppend(store, CustomerId, AddCustomer(store, id, now, data).record);
  }

  /* ------------------------------------------------- compliance documents */

  /** `getComplianceDocs(business?)`: the same filter as for transactions. */
  function GetComplianceDocs(store: seq<ComplianceDoc>, business: Option<string>)
    : (r: seq<ComplianceDoc>)
    ensures !FilterGiven(business) ==> r == store
    ensures FilterGiven(business) ==>
              forall d {:trigger multiset(r)[d]} ::
                multiset(r)[d] ==
                  (if BusinessKey(d.business) == business.value then multiset(store)[d] else 0)
  {
    if FilterGiven(business) then Filter(store, DocOf(business.value)) else store
  }

  /** The document listing keeps store order. */
  lemma GetComplianceDocsKeepsOrder(a: seq<ComplianceDoc>, b: seq<ComplianceDoc>,
                                    business: Option<string>)
    ensures GetComplianceDocs(a + b, business)
              == GetComplianceDocs(a, business) + GetComplianceDocs(b, business)
  {
    if FilterGiven(business) {
      FilterConcat(a, b, DocOf(business.value));
    }
  }

  /** Every field of a compliance document except its id. */
  datatype DocFields = DocFields(
    title: string,
    kind: DocType,
    status: DocStatus,
    expiryDate: Day,
    business: Business,
    description: Option<string>)

  function WithoutId(d: ComplianceDoc): DocFields {
    DocFields(d.title, d.kind, d.status, d.expiryDate, d.business, d.description)
  }

  /** `addComplianceDoc(data)`: the caller's fields are kept as given and only
      an id is added. */
  function AddComplianceDoc(store: seq<ComplianceDoc>, id: string, data: DocFields)
    : (c: Created<ComplianceDoc>)
    ensures |c.store| == |store| + 1
    ensures c.store[..|store|] == store && c.store[|store|] == c.record
    ensures c.record.id == id && WithoutId(c.record) == data
  {
    var d := ComplianceDoc(id, data.title, data.kind, data.status, data.expiryDate,
                           data.business, data.description);
    Created(store + [d], d)
  }

  /** Ids stay unique through an add with a fresh id. */
  lemma DocIdsStayUnique(store: seq<ComplianceDoc>, id: string, data: DocFields)
    requires Unique(store, DocId) && Fresh(store, DocId, id)
    ensures Unique(AddComplianceDoc(store, id, data).store, DocId)
  {
    UniqueAppend(store, DocId, AddComplianceDoc(store, id, data).record);
  }

  /* ---------------------------------------------------------- seed views */

  function Ids(s: seq<Transaction>): seq<string>
    decreases |s|
  {
    if |s| == 0 then [] else [s[0].id] + Ids(s[1..])
  }

  /** On the seed store, the weed listing is transactions 3 and 4, and the
      mushrooms listing is empty. */
  lemma SeedListings()
    ensures Ids(GetTransactions(SeedTransactions(), Some("weed"))) == ["3", "4"]
    ensures GetTransactions(SeedTransactions(), Some("mushrooms")) == []
  {
    var s := SeedTransactions();
    SeedWeedListing();
    var w := GetTransactions(s, Some("weed"));
    assert w == [s[2], s[3]];
    assert [s[2], s[3]][1..] == [s[3]];
    assert Ids([s[3]]) == ["4"];
    SeedMushroomsListing();
  }

  lemma SeedWeedListing()
    ensures Filter(SeedTransactions(), TxOf("weed")) == SeedTransactions()[2..4]
  {
    var s := SeedTransactions();
    var weed := TxOf("weed");
    assert s == s[..2] + s[2..4] + s[4..];
    FilterConcat(s[..2] + s[2..4], s[4..], weed);
    FilterConcat(s[..2], s[2..4], weed);
    FilterDropsAll(s[..2], weed);
    FilterDropsAll(s[4..], weed);
    FilterKeepsAll(s[2..4], weed);
  }

  lemma SeedMushroomsListing()
    ensures Filter(SeedTransactions(), TxOf("mushrooms")) == []
  {
    FilterDropsAll(SeedTransactions(), TxOf("mushrooms"));
  }
}
