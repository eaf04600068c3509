/**
 * The stored records of the eight financial modules, with the fields the export, the pages
 * and the admin utility read. Amounts are integers (they are only added, subtracted and
 * multiplied); the two profit margins are percentages and stay real numbers. The schema field
 * `type`, a reserved word in Dafny, is called `kind`.
 */
module Records {
  import opened Wrappers

  /** A document identifier (`_id`). */
  type Id = nat

  datatype Sale = Sale(
    date: string, description: string, cost: int, sellingPrice: int, grossProfit: int,
    grossProfitMargin: real, expenses: int, netProfit: int, netProfitMargin: real)

  datatype Expense = Expense(
    date: string, category: string, description: string, vendor: string, amount: int, status: string)

  datatype Liability = Liability(
    lenderParty: string, liabilityType: string, startDate: string, dueDate: string,
    originalAmount: int, outstandingBalance: int, description: Option<string>)

  datatype Salary = Salary(
    employeeName: string, role: string, month: string, netSalary: int,
    paymentStatus: string, paymentDate: Option<string>)

  datatype CashflowEntry = CashflowEntry(
    date: string, kind: string, category: string, description: string, amount: int)

  datatype BankPdc = BankPdc(
    bank: string, chequeNumber: string, code: string, supplier: string, description: string,
    amount: int, status: string, date: string)

  datatype BusinessInHandRecord = BusinessInHandRecord(
    kind: string, description: string, amount: int, expectedDate: string, status: string,
    currency: Option<string>)

  datatype FutureNeed = FutureNeed(
    month: string, description: string, quantity: int, amount: int, status: string)

  /** JavaScript truthiness of an optional string: present and not empty. */
  predicate Truthy(s: Option<string>) {
    s.Some? && s.value != ""
  }

  /** `s || fallback` on an optional string. */
  function OrElse(s: Option<string>, fallback: string): (r: string)
    ensures Truthy(s) ==> r == s.value
    ensures !Truthy(s) ==> r == fallback
  {
    if Truthy(s) then s.value else fallback
  }
}
