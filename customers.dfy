/**
 * The customers page (src/pages/customers.jsx). Its list is the `data` of a
 * query, so it is absent (`None`) until the query has data, and every
 * expression over it uses optional chaining with a `|| 0` fallback.
 */
module CustomersPage {
  import opened Wrappers
  import opened Strings
  import opened Lists
  import opened Records

  /** The search test of `filteredCustomers`. */
  predicate MatchesSearch(c: Customer, search: string) {
    ContainsFolded(c.name, search) || ContainsFolded(c.email, search)
  }

  /** `customers?.filter(...)`: absent while there is no data. */
  function FilteredCustomers(customers: Option<seq<Customer>>, search: string): (r: Option<seq<Customer>>)
    ensures r.Some? <==> customers.Some?
  {
    if customers.None? then None else Some(Filter(customers.value, c => MatchesSearch(c, search)))
  }

  lemma FilteredCustomersSpec(customers: seq<Customer>, search: string)
    ensures forall c :: c in FilteredCustomers(Some(customers), search).value <==> c in customers && MatchesSearch(c, search)
    ensures IsSubsequence(FilteredCustomers(Some(customers), search).value, customers)
  {
    FilterSpec(customers, c => MatchesSearch(c, search));
  }

  predicate IsActive(c: Customer) { c.isActive }
  predicate IsInactive(c: Customer) { !c.isActive }

  /** `xs?.filter(p).length || 0`. */
  function CountWhere(customers: Option<seq<Customer>>, p: Customer -> bool): nat {
    if customers.None? then 0 else |Filter(customers.value, p)|
  }

  /** The "Total Customers" card: `customers?.length || 0`. */
  function Total(customers: Option<seq<Customer>>): nat {
    if customers.None? then 0 else |customers.value|
  }

  /** The "Active" and "Inactive" cards add up to the "Total" card, with or without data. */
  lemma ActivePlusInactiveIsTotal(customers: Option<seq<Customer>>)
    ensures CountWhere(customers, IsActive) + CountWhere(customers, IsInactive) == Total(customers)
  {
    if customers.Some? {
      FilterComplementCount(customers.value, IsActive, IsInactive);
    }
  }

  /** The test of the "New This Month" card, with `now` the current month. */
  predicate JoinedIn(c: Customer, now: YearMonth) {
    c.createdAt.Some? && c.createdAt.value.month == now.month && c.createdAt.value.year == now.year
  }

  /** The "New This Month" card: `customers?.filter(...).length || 0`. */
  function NewThisMonth(customers: Option<seq<Customer>>, now: YearMonth): (n: nat)
    ensures n <= Total(customers)
    ensures customers.None? ==> n == 0
  {
    CountWhere(customers, c => JoinedIn(c, now))
  }

  /** The card counts exactly this month's sign-ups, never a customer without `createdAt`, and no more than the total. */
  lemma NewThisMonthSpec(customers: seq<Customer>, now: YearMonth)
    ensures forall c :: c in Filter(customers, c => JoinedIn(c, now)) <==>
                        c in customers && c.createdAt == Some(now)
    ensures NewThisMonth(Some(customers), now) <= Total(Some(customers))
  {
    FilterSpec(customers, c => JoinedIn(c, now));
  }

  /** The badge text. */
  function StatusLabel(isActive: bool): (t: string)
    ensures t == "Active" <==> isActive
    ensures t == "Inactive" <==> !isActive
  {
    if isActive then "Active" else "Inactive"
  }
}
