/**
  Owner-scoped record tables of the expenses tracker: income sources,
  expenses and bills ("bills holders", each linking an income source to an
  expense for a month and year). Every record carries the id of the user
  who created it. Reads show the records of the caller together with those
  of the admin (owner 0); updates touch only the caller's own row with the
  given id; adds append a row stamped with the caller.

  The tables are in-memory sequences; each identity column is a counter that
  gives the next row its id. The caller's id and the current time are
  explicit parameters.
*/
module Finance {
  import opened Application

  /** A timestamp; Unset is the value of a row no modelled operation stamps. */
  datatype Stamp = Unset | At(ticks: int)

  /** Income sources and expenses have the same shape. */
  datatype Entry = Entry(Id: int, Name: string, Amount: real, CreatedBy: int, UpdatedAt: Stamp)
  type IncomeSource = Entry
  type Expense = Entry

  datatype EntryRequest = EntryRequest(Name: string, Amount: real)
  type IncomeSourceRequest = EntryRequest
  type ExpenseRequest = EntryRequest

  datatype UpdateById<T> = UpdateById(Id: int, Data: T)

  datatype BillsHolder = BillsHolder(
    Id: int, IncomeSourceId: int, ExpenseId: int,
    MonthId: int, YearId: int, IsPaid: bool,
    CreatedBy: int, UpdatedAt: Stamp)

  datatype BillsHolderRequest = BillsHolderRequest(IncomeSourceId: int, ExpenseId: int, MonthId: int, Year: int, IsPaid: bool)

  /** What a bill read returns (the joined income-source and expense names are not modelled). */
  datatype BillResponse = BillResponse(Id: int, MonthId: int, Month: string, Year: int, Paid: bool)

  /** The owner whose records every user sees. */
  const Admin: int := 0

  /** The owners whose records a read shows: the admin and the caller. */
  function GetUserWithAdmin(userId: int): (owners: seq<int>)
    ensures |owners| == 2
    ensures forall o :: o in owners <==> o == Admin || o == userId
  {
    [Admin, userId]
  }

  // ---------------------------------------------------------------------
  // Month names

  /** The culture's name of a month in 1..12 (English names here). */
  function CultureMonthName(monthId: int): string
    requires 1 <= monthId <= 12
  {
    match monthId
    case 1 => "January"
    case 2 => "February"
    case 3 => "March"
    case 4 => "April"
    case 5 => "May"
    case 6 => "June"
    case 7 => "July"
    case 8 => "August"
    case 9 => "September"
    case 10 => "October"
    case 11 => "November"
    case _ => "December"
  }

  /** "Unknown" is returned for exactly the month numbers outside 1..12. */
  function GetMonthName(monthId: int): (name: string)
    ensures name == "Unknown" <==> monthId < 1 || monthId > 12
  {
    if monthId < 1 || monthId > 12 then "Unknown" else CultureMonthName(monthId)
  }

  // ---------------------------------------------------------------------
  // Filtering, the `Where` of the queries

  /** A filter is never longer than its input and keeps only elements of it that satisfy the condition. */
  function Filter<T>(s: seq<T>, p: T -> bool): (r: seq<T>)
    ensures |r| <= |s|
    ensures forall x :: x in r ==> x in s && p(x)
  {
    if s == [] then [] else (if p(s[0]) then [s[0]] else []) + Filter(s[1..], p)
  }

  /** A filter keeps every element that satisfies the condition, as often as it occurs, and nothing else. */
  lemma {:induction false} FilterCount<T>(s: seq<T>, p: T -> bool, x: T)
    ensures multiset(Filter(s, p))[x] == if p(x) then multiset(s)[x] else 0
  {
    if s != [] {
      FilterCount(s[1..], p, x);
      assert s == [s[0]] + s[1..];
      assert multiset(s) == multiset{s[0]} + multiset(s[1..]);
    }
  }

  lemma FilterMember<T>(s: seq<T>, p: T -> bool, x: T)
    ensures x in Filter(s, p) <==> x in s && p(x)
  {
    FilterCount(s, p, x);
  }

  // ---------------------------------------------------------------------
  // Queries

  function OwnedEntry(owners: seq<int>): Entry -> bool
  {
    (e: Entry) => e.CreatedBy in owners
  }

  function OwnedBill(owners: seq<int>): BillsHolder -> bool
  {
    (b: BillsHolder) => b.CreatedBy in owners
  }

  /** GetIncomeQuery and GetExpenseQuery: the rows created by one of `owners`. */
  function EntryQuery(t: seq<Entry>, owners: seq<int>): (r: seq<Entry>)
    ensures |r| <= |t|
    ensures forall e :: e in r ==> e in t && e.CreatedBy in owners
  {
    Filter(t, OwnedEntry(owners))
  }

  /** The projection of a bill to a response keeps its id, month, year and paid flag, and names the month. */
  function ToResponse(b: BillsHolder): (r: BillResponse)
    ensures r.Id == b.Id && r.MonthId == b.MonthId && r.Year == b.YearId && r.Paid == b.IsPaid
    ensures r.Month == "Unknown" <==> b.MonthId < 1 || b.MonthId > 12
  {
    BillResponse(b.Id, b.MonthId, GetMonthName(b.MonthId), b.YearId, b.IsPaid)
  }

  function Responses(bills: seq<BillsHolder>): seq<BillResponse>
  {
    seq(|bills|, i requires 0 <= i < |bills| => ToResponse(bills[i]))
  }

  /** GetBillsQuery: the bills created by one of `owners`, as responses. */
  function BillsQuery(t: seq<BillsHolder>, owners: seq<int>): (r: seq<BillResponse>)
    ensures |r| <= |t|
    ensures forall i :: 0 <= i < |r| ==> exists b :: b in t && b.CreatedBy in owners && ToResponse(b) == r[i]
  {
    var visible := Filter(t, OwnedBill(owners));
    assert forall i :: 0 <= i < |visible| ==>
      visible[i] in visible && Responses(visible)[i] == ToResponse(visible[i]);
    Responses(visible)
  }

  function PaidIn(monthId: int, yearId: int): BillResponse -> bool
  {
    (r: BillResponse) => r.Paid && r.MonthId == monthId && r.Year == yearId
  }

  function UnpaidIn(monthId: int, yearId: int): BillResponse -> bool
  {
    (r: BillResponse) => !r.Paid && r.MonthId == monthId && r.Year == yearId
  }

  function InPeriod(monthId: int, yearId: int): BillResponse -> bool
  {
    (r: BillResponse) => r.MonthId == monthId && r.Year == yearId
  }

  function NotPaid(): BillResponse -> bool
  {
    (r: BillResponse) => !r.Paid
  }

  /** The data of GetPaidBillsForTheMonth. */
  function PaidBillsForTheMonth(t: seq<BillsHolder>, userId: int, monthId: int, yearId: int): (r: seq<BillResponse>)
    ensures |r| <= |t|
    ensures forall x :: x in r ==> x.Paid && x.MonthId == monthId && x.Year == yearId
  {
    Filter(BillsQuery(t, GetUserWithAdmin(userId)), PaidIn(monthId, yearId))
  }

  /** The data of GetUnPaidBillsForTheMonth. */
  function UnPaidBillsForTheMonth(t: seq<BillsHolder>, userId: int, monthId: int, yearId: int): (r: seq<BillResponse>)
    ensures |r| <= |t|
    ensures forall x :: x in r ==> !x.Paid && x.MonthId == monthId && x.Year == yearId
  {
    Filter(BillsQuery(t, GetUserWithAdmin(userId)), UnpaidIn(monthId, yearId))
  }

  /** The data of GetUnpaidBills. */
  function UnpaidBills(t: seq<BillsHolder>, userId: int): (r: seq<BillResponse>)
    ensures |r| <= |t|
    ensures forall x :: x in r ==> !x.Paid
  {
    Filter(BillsQuery(t, GetUserWithAdmin(userId)), NotPaid())
  }

  /** A caller sees exactly the income sources or expenses owned by the admin or by the caller, each as often as it is stored. */
  lemma VisibleEntries(t: seq<Entry>, userId: int, e: Entry)
    ensures multiset(EntryQuery(t, GetUserWithAdmin(userId)))[e]
         == if e.CreatedBy == Admin || e.CreatedBy == userId then multiset(t)[e] else 0
    ensures e in EntryQuery(t, GetUserWithAdmin(userId)) <==> e in t && (e.CreatedBy == Admin || e.CreatedBy == userId)
  {
    FilterCount(t, OwnedEntry(GetUserWithAdmin(userId)), e);
  }

  /** A bill response is read exactly when it is the response of a stored bill of one of `owners`. */
  lemma BillsQueryMember(t: seq<BillsHolder>, owners: seq<int>, r: BillResponse)
    ensures r in BillsQuery(t, owners) <==> exists b :: b in t && b.CreatedBy in owners && ToResponse(b) == r
  {
    var v := Filter(t, OwnedBill(owners));
    if b :| b in t && b.CreatedBy in owners && ToResponse(b) == r {
      FilterMember(t, OwnedBill(owners), b);
      var i :| 0 <= i < |v| && v[i] == b;
      assert Responses(v)[i] == r;
    }
  }

  /**
    A bill response is read exactly when it is the response of a stored bill
    owned by the admin or by the caller, and as many times as there are such bills.
  */
  lemma VisibleBills(t: seq<BillsHolder>, userId: int, r: BillResponse)
    ensures r in BillsQuery(t, GetUserWithAdmin(userId))
        <==> exists b :: b in t && (b.CreatedBy == Admin || b.CreatedBy == userId) && ToResponse(b) == r
    ensures multiset(BillsQuery(t, GetUserWithAdmin(userId)))[r] == |Filter(t, RespondsAs(GetUserWithAdmin(userId), r))|
    ensures |BillsQuery(t, GetUserWithAdmin(userId))| <= |t|
  {
    BillsQueryMember(t, GetUserWithAdmin(userId), r);
    BillsQueryCount(t, GetUserWithAdmin(userId), r);
  }

  /** The stored bills of one of `owners` whose response is `r`. */
  function RespondsAs(owners: seq<int>, r: BillResponse): BillsHolder -> bool
  {
    (b: BillsHolder) => b.CreatedBy in owners && ToResponse(b) == r
  }

  lemma {:induction false} ResponsesAppend(a: seq<BillsHolder>, b: seq<BillsHolder>)
    ensures Responses(a + b) == Responses(a) + Responses(b)
  {
  }

  /** The bill query holds each response once for every stored bill of an owner that projects to it. */
  lemma {:induction false} BillsQueryCount(t: seq<BillsHolder>, owners: seq<int>, r: BillResponse)
    ensures multiset(BillsQuery(t, owners))[r] == |Filter(t, RespondsAs(owners, r))|
  {
    if t != [] {
      BillsQueryCount(t[1..], owners, r);
      var head := if OwnedBill(owners)(t[0]) then [t[0]] else [];
      assert Filter(t, OwnedBill(owners)) == head + Filter(t[1..], OwnedBill(owners));
      ResponsesAppend(head, Filter(t[1..], OwnedBill(owners)));
    }
  }

  lemma {:induction false} FilterNone<T>(s: seq<T>, p: T -> bool)
    requires forall j :: 0 <= j < |s| ==> !p(s[j])
    ensures Filter(s, p) == []
  {
    if s != [] {
      FilterNone(s[1..], p);
    }
  }

  lemma {:induction false} FilterSingle<T>(s: seq<T>, p: T -> bool, i: int)
    requires 0 <= i < |s| && p(s[i])
    requires forall j :: 0 <= j < |s| && p(s[j]) ==> j == i
    ensures Filter(s, p) == [s[i]]
  {
    if i == 0 {
      FilterNone(s[1..], p);
    } else {
      FilterSingle(s[1..], p, i - 1);
    }
  }

  /** With distinct ids, every stored bill the caller may see is read exactly once. */
  lemma BillReadOnce(t: seq<BillsHolder>, next: int, userId: int, i: int)
    requires IdsValid(BillIds(t), next)
    requires 0 <= i < |t| && (t[i].CreatedBy == Admin || t[i].CreatedBy == userId)
    ensures multiset(BillsQuery(t, GetUserWithAdmin(userId)))[ToResponse(t[i])] == 1
  {
    var owners := GetUserWithAdmin(userId);
    var p := RespondsAs(owners, ToResponse(t[i]));
    forall j | 0 <= j < |t| && p(t[j])
      ensures j == i
    {
      assert BillIds(t)[j] == BillIds(t)[i];
    }
    FilterSingle(t, p, i);
    BillsQueryCount(t, owners, ToResponse(t[i]));
  }

  /** GetPaidBillsForTheMonth reads exactly the visible bills that are paid and belong to the month and year. */
  lemma PaidBillsExactly(t: seq<BillsHolder>, userId: int, monthId: int, yearId: int, r: BillResponse)
    ensures r in PaidBillsForTheMonth(t, userId, monthId, yearId)
        <==> exists b :: && b in t && (b.CreatedBy == Admin || b.CreatedBy == userId)
                        && b.IsPaid && b.MonthId == monthId && b.YearId == yearId
                        && ToResponse(b) == r
    ensures multiset(PaidBillsForTheMonth(t, userId, monthId, yearId))[r]
         == if r.Paid && r.MonthId == monthId && r.Year == yearId then |Filter(t, RespondsAs(GetUserWithAdmin(userId), r))| else 0
  {
    FilterMember(BillsQuery(t, GetUserWithAdmin(userId)), PaidIn(monthId, yearId), r);
    FilterCount(BillsQuery(t, GetUserWithAdmin(userId)), PaidIn(monthId, yearId), r);
    VisibleBills(t, userId, r);
  }

  /** GetUnPaidBillsForTheMonth reads exactly the visible bills that are unpaid and belong to the month and year. */
  lemma UnpaidBillsOfMonthExactly(t: seq<BillsHolder>, userId: int, monthId: int, yearId: int, r: BillResponse)
    ensures r in UnPaidBillsForTheMonth(t, userId, monthId, yearId)
        <==> exists b :: && b in t && (b.CreatedBy == Admin || b.CreatedBy == userId)
                        && !b.IsPaid && b.MonthId == monthId && b.YearId == yearId
                        && ToResponse(b) == r
    ensures multiset(UnPaidBillsForTheMonth(t, userId, monthId, yearId))[r]
         == if !r.Paid && r.MonthId == monthId && r.Year == yearId then |Filter(t, RespondsAs(GetUserWithAdmin(userId), r))| else 0
  {
    FilterMember(BillsQuery(t, GetUserWithAdmin(userId)), UnpaidIn(monthId, yearId), r);
    FilterCount(BillsQuery(t, GetUserWithAdmin(userId)), UnpaidIn(monthId, yearId), r);
    VisibleBills(t, userId, r);
  }

  /** GetUnpaidBills reads every visible unpaid bill, whatever its month or year. */
  lemma AllUnpaidBillsExactly(t: seq<BillsHolder>, userId: int, r: BillResponse)
    ensures r in UnpaidBills(t, userId)
        <==> exists b :: b in t && (b.CreatedBy == Admin || b.CreatedBy == userId) && !b.IsPaid && ToResponse(b) == r
    ensures multiset(UnpaidBills(t, userId))[r]
         == if !r.Paid then |Filter(t, RespondsAs(GetUserWithAdmin(userId), r))| else 0
  {
    FilterMember(BillsQuery(t, GetUserWithAdmin(userId)), NotPaid(), r);
    FilterCount(BillsQuery(t, GetUserWithAdmin(userId)), NotPaid(), r);
    VisibleBills(t, userId, r);
  }

  /**
    The paid and the unpaid bills of a month are disjoint and together are
    the visible bills of that month, counted with multiplicity.
  */
  lemma MonthPartition(t: seq<BillsHolder>, userId: int, monthId: int, yearId: int)
    ensures var visible := BillsQuery(t, GetUserWithAdmin(userId));
      multiset(PaidBillsForTheMonth(t, userId, monthId, yearId)) + multiset(UnPaidBillsForTheMonth(t, userId, monthId, yearId))
      == multiset(Filter(visible, InPeriod(monthId, yearId)))
    ensures forall r :: r in PaidBillsForTheMonth(t, userId, monthId, yearId) ==> r !in UnPaidBillsForTheMonth(t, userId, monthId, yearId)
  {
    var visible := BillsQuery(t, GetUserWithAdmin(userId));
    var paid := PaidBillsForTheMonth(t, userId, monthId, yearId);
    var unpaid := UnPaidBillsForTheMonth(t, userId, monthId, yearId);
    forall r
      ensures multiset(paid)[r] + multiset(unpaid)[r] == multiset(Filter(visible, InPeriod(monthId, yearId)))[r]
      ensures r in paid ==> r !in unpaid
    {
      FilterCount(visible, PaidIn(monthId, yearId), r);
      FilterCount(visible, UnpaidIn(monthId, yearId), r);
      FilterCount(visible, InPeriod(monthId, yearId), r);
    }
    assert multiset(paid) + multiset(unpaid) == multiset(Filter(visible, InPeriod(monthId, yearId)));
  }

  // ---------------------------------------------------------------------
  // Row updates (ExecuteUpdate over a Where)

  /** UpdateIncomeSource / UpdateExpense on a table: the caller's rows with the id get the new Name, Amount and UpdatedAt. */
  function UpdateEntries(t: seq<Entry>, userId: int, update: UpdateById<EntryRequest>, now: int): (r: seq<Entry>)
    ensures |r| == |t|
    ensures forall i :: 0 <= i < |t| ==> r[i].Id == t[i].Id && r[i].CreatedBy == t[i].CreatedBy
    ensures forall i :: 0 <= i < |t| && (t[i].CreatedBy != userId || t[i].Id != update.Id) ==> r[i] == t[i]
    ensures forall i :: 0 <= i < |t| && t[i].CreatedBy == userId && t[i].Id == update.Id ==>
      r[i].Name == update.Data.Name && r[i].Amount == update.Data.Amount && r[i].UpdatedAt == At(now)
  {
    seq(|t|, i requires 0 <= i < |t| =>
      if t[i].CreatedBy == userId && t[i].Id == update.Id
      then t[i].(Name := update.Data.Name, Amount := update.Data.Amount, UpdatedAt := At(now))
      else t[i])
  }

  /** EditBillsHolder on the table: the caller's rows with the id take the request's fields and the time. */
  function EditBills(t: seq<BillsHolder>, userId: int, b: BillsHolderRequest, id: int, now: int): (r: seq<BillsHolder>)
    ensures |r| == |t|
    ensures forall i :: 0 <= i < |t| ==> r[i].Id == t[i].Id && r[i].CreatedBy == t[i].CreatedBy
    ensures forall i :: 0 <= i < |t| && (t[i].Id != id || t[i].CreatedBy != userId) ==> r[i] == t[i]
    ensures forall i :: 0 <= i < |t| && t[i].Id == id && t[i].CreatedBy == userId ==>
      && r[i].IncomeSourceId == b.IncomeSourceId && r[i].ExpenseId == b.ExpenseId
      && r[i].MonthId == b.MonthId && r[i].YearId == b.Year && r[i].IsPaid == b.IsPaid
      && r[i].UpdatedAt == At(now)
  {
    seq(|t|, i requires 0 <= i < |t| =>
      if t[i].Id == id && t[i].CreatedBy == userId
      then t[i].(IncomeSourceId := b.IncomeSourceId, ExpenseId := b.ExpenseId, MonthId := b.MonthId,
                 YearId := b.Year, IsPaid := b.IsPaid, UpdatedAt := At(now))
      else t[i])
  }

  /** FlagIsPaid on the table: the caller's rows with the id take the paid flag and the time. */
  function FlagPaid(t: seq<BillsHolder>, userId: int, id: int, isPaid: bool, now: int): (r: seq<BillsHolder>)
    ensures |r| == |t|
    ensures forall i :: 0 <= i < |t| && (t[i].Id != id || t[i].CreatedBy != userId) ==> r[i] == t[i]
    ensures forall i :: 0 <= i < |t| && t[i].Id == id && t[i].CreatedBy == userId ==>
      r[i] == t[i].(IsPaid := isPaid, UpdatedAt := At(now))
  {
    seq(|t|, i requires 0 <= i < |t| =>
      if t[i].Id == id && t[i].CreatedBy == userId then t[i].(IsPaid := isPaid, UpdatedAt := At(now)) else t[i])
  }

  /** Identity values: positive, below the next value to hand out, and increasing along the table. */
  ghost predicate IdsValid(ids: seq<int>, next: int)
  {
    && 1 <= next
    && (forall i :: 0 <= i < |ids| ==> 1 <= ids[i] < next)
    && (forall i, j :: 0 <= i < j < |ids| ==> ids[i] < ids[j])
  }

  /** The identity column of a table of income sources or expenses. */
  function EntryIds(t: seq<Entry>): (ids: seq<int>)
    ensures |ids| == |t| && forall i :: 0 <= i < |t| ==> ids[i] == t[i].Id
  {
    seq(|t|, i requires 0 <= i < |t| => t[i].Id)
  }

  /** The identity column of the bills table. */
  function BillIds(t: seq<BillsHolder>): (ids: seq<int>)
    ensures |ids| == |t| && forall i :: 0 <= i < |t| ==> ids[i] == t[i].Id
  {
    seq(|t|, i requires 0 <= i < |t| => t[i].Id)
  }

  /** With distinct ids an update changes at most one row; an id the caller does not own changes nothing. */
  lemma UpdateEntriesOneRow(t: seq<Entry>, next: int, userId: int, update: UpdateById<EntryRequest>, now: int)
    requires IdsValid(EntryIds(t), next)
    ensures var r := UpdateEntries(t, userId, update, now);
      forall i, j :: 0 <= i < |t| && 0 <= j < |t| && r[i] != t[i] && r[j] != t[j] ==> i == j
    ensures (forall i :: 0 <= i < |t| ==> t[i].Id != update.Id || t[i].CreatedBy != userId)
      ==> UpdateEntries(t, userId, update, now) == t
  {
  }

  /** The same for EditBillsHolder and FlagIsPaid. */
  lemma BillUpdatesOneRow(t: seq<BillsHolder>, next: int, userId: int, b: BillsHolderRequest, id: int, isPaid: bool, now: int)
    requires IdsValid(BillIds(t), next)
    ensures var r := EditBills(t, userId, b, id, now);
      forall i, j :: 0 <= i < |t| && 0 <= j < |t| && r[i] != t[i] && r[j] != t[j] ==> i == j
    ensures var r := FlagPaid(t, userId, id, isPaid, now);
      forall i, j :: 0 <= i < |t| && 0 <= j < |t| && r[i] != t[i] && r[j] != t[j] ==> i == j
    ensures (forall i :: 0 <= i < |t| ==> t[i].Id != id || t[i].CreatedBy != userId)
      ==> EditBills(t, userId, b, id, now) == t && FlagPaid(t, userId, id, isPaid, now) == t
  {
  }

  // ---------------------------------------------------------------------
  // Adds

  /** The bulk AddExpense projection: one new row per request, same Name and Amount, owned by the caller, with consecutive ids. */
  function NewExpenses(expenses: seq<ExpenseRequest>, userId: int, firstId: int): (r: seq<Expense>)
    ensures |r| == |expenses|
    ensures forall i :: 0 <= i < |expenses| ==>
      r[i] == Entry(firstId + i, expenses[i].Name, expenses[i].Amount, userId, Unset)
    decreases |expenses|
  {
    if expenses == [] then []
    else [Entry(firstId, expenses[0].Name, expenses[0].Amount, userId, Unset)]
         + NewExpenses(expenses[1..], userId, firstId + 1)
  }

  /** The AddBillsHolder and LinkIncomeToExpense initializer: the request's fields, owned by the caller, with the next id. */
  function NewBill(b: BillsHolderRequest, userId: int, id: int): (r: BillsHolder)
    ensures r.Id == id && r.CreatedBy == userId && r.UpdatedAt == Unset
    ensures r.IncomeSourceId == b.IncomeSourceId && r.ExpenseId == b.ExpenseId
    ensures r.MonthId == b.MonthId && r.YearId == b.Year && r.IsPaid == b.IsPaid
  {
    BillsHolder(id, b.IncomeSourceId, b.ExpenseId, b.MonthId, b.Year, b.IsPaid, userId, Unset)
  }

  // ---------------------------------------------------------------------
  // The service

  class FinanceService {
    var incomeSources: seq<IncomeSource>
    var expenses: seq<Expense>
    var billsHolders: seq<BillsHolder>
    /** The next values of the three identity columns. */
    var nextIncomeSourceId: int
    var nextExpenseId: int
    var nextBillsHolderId: int

    ghost predicate Valid()
      reads this
    {
      && IdsValid(EntryIds(incomeSources), nextIncomeSourceId)
      && IdsValid(EntryIds(expenses), nextExpenseId)
      && IdsValid(BillIds(billsHolders), nextBillsHolderId)
    }

    constructor ()
      ensures Valid()
      ensures incomeSources == [] && expenses == [] && billsHolders == []
      ensures nextIncomeSourceId == 1 && nextExpenseId == 1 && nextBillsHolderId == 1
    {
      incomeSources, expenses, billsHolders := [], [], [];
      nextIncomeSourceId, nextExpenseId, nextBillsHolderId := 1, 1, 1;
    }

    method AddIncomeSource(userId: int, income: IncomeSourceRequest)
      requires Valid()
      modifies this
      ensures Valid()
      ensures incomeSources == old(incomeSources) + [Entry(old(nextIncomeSourceId), income.Name, income.Amount, userId, Unset)]
      ensures nextIncomeSourceId == old(nextIncomeSourceId) + 1
      ensures expenses == old(expenses) && billsHolders == old(billsHolders)
      ensures nextExpenseId == old(nextExpenseId) && nextBillsHolderId == old(nextBillsHolderId)
    {
      incomeSources := incomeSources + [Entry(nextIncomeSourceId, income.Name, income.Amount, userId, Unset)];
      nextIncomeSourceId := nextIncomeSourceId + 1;
    }

    method UpdateIncomeSource(userId: int, now: int, income: UpdateById<IncomeSourceRequest>)
      requires Valid()
      modifies this
      ensures Valid()
      ensures incomeSources == UpdateEntries(old(incomeSources), userId, income, now)
      ensures expenses == old(expenses) && billsHolders == old(billsHolders)
      ensures nextIncomeSourceId == old(nextIncomeSourceId) && nextExpenseId == old(nextExpenseId)
      ensures nextBillsHolderId == old(nextBillsHolderId)
    {
      incomeSources := UpdateEntries(incomeSources, userId, income, now);
    }

    method UpdateExpense(userId: int, now: int, expense: UpdateById<ExpenseRequest>)
      requires Valid()
      modifies this
      ensures Valid()
      ensures expenses == UpdateEntries(old(expenses), userId, expense, now)
      ensures incomeSources == old(incomeSources) && billsHolders == old(billsHolders)
      ensures nextIncomeSourceId == old(nextIncomeSourceId) && nextExpenseId == old(nextExpenseId)
      ensures nextBillsHolderId == old(nextBillsHolderId)
    {
      expenses := UpdateEntries(expenses, userId, expense, now);
    }

    /** The bulk overload of AddExpense. */
    method AddExpenses(userId: int, requests: seq<ExpenseRequest>)
      requires Valid()
      modifies this
      ensures Valid()
      ensures expenses == old(expenses) + NewExpenses(requests, userId, old(nextExpenseId))
      ensures nextExpenseId == old(nextExpenseId) + |requests|
      ensures incomeSources == old(incomeSources) && billsHolders == old(billsHolders)
      ensures nextIncomeSourceId == old(nextIncomeSourceId) && nextBillsHolderId == old(nextBillsHolderId)
    {
      var added := NewExpenses(requests, userId, nextExpenseId);
      expenses := expenses + added;
      nextExpenseId := nextExpenseId + |requests|;
    }

    method AddExpense(userId: int, expense: ExpenseRequest)
      requires Valid()
      modifies this
      ensures Valid()
      ensures expenses == old(expenses) + [Entry(old(nextExpenseId), expense.Name, expense.Amount, userId, Unset)]
      ensures nextExpenseId == old(nextExpenseId) + 1
      ensures incomeSources == old(incomeSources) && billsHolders == old(billsHolders)
      ensures nextIncomeSourceId == old(nextIncomeSourceId) && nextBillsHolderId == old(nextBillsHolderId)
    {
      expenses := expenses + [Entry(nextExpenseId, expense.Name, expense.Amount, userId, Unset)];
      nextExpenseId := nextExpenseId + 1;
    }

    method AddBillsHolder(userId: int, billsHolder: BillsHolderRequest)
      requires Valid()
      modifies this
      ensures Valid()
      ensures billsHolders == old(billsHolders) + [NewBill(billsHolder, userId, old(nextBillsHolderId))]
      ensures nextBillsHolderId == old(nextBillsHolderId) + 1
      ensures incomeSources == old(incomeSources) && expenses == old(expenses)
      ensures nextIncomeSourceId == old(nextIncomeSourceId) && nextExpenseId == old(nextExpenseId)
    {
      billsHolders := billsHolders + [NewBill(billsHolder, userId, nextBillsHolderId)];
      nextBillsHolderId := nextBillsHolderId + 1;
    }

    method EditBillsHolder(userId: int, now: int, b: BillsHolderRequest, id: int)
      requires Valid()
      modifies this
      ensures Valid()
      ensures billsHolders == EditBills(old(billsHolders), userId, b, id, now)
      ensures incomeSources == old(incomeSources) && expenses == old(expenses)
      ensures nextIncomeSourceId == old(nextIncomeSourceId) && nextExpenseId == old(nextExpenseId)
      ensures nextBillsHolderId == old(nextBillsHolderId)
    {
      billsHolders := EditBills(billsHolders, userId, b, id, now);
    }

    method FlagIsPaid(userId: int, now: int, id: int, isPaid: bool)
      requires Valid()
      modifies this
      ensures Valid()
      ensures billsHolders == FlagPaid(old(billsHolders), userId, id, isPaid, now)
      ensures incomeSources == old(incomeSources) && expenses == old(expenses)
      ensures nextIncomeSourceId == old(nextIncomeSourceId) && nextExpenseId == old(nextExpenseId)
      ensures nextBillsHolderId == old(nextBillsHolderId)
    {
      billsHolders := FlagPaid(billsHolders, userId, id, isPaid, now);
    }

    /** The same insert as AddBillsHolder. */
    method LinkIncomeToExpense(userId: int, billsHolder: BillsHolderRequest)
      requires Valid()
      modifies this
      ensures Valid()
      ensures billsHolders == old(billsHolders) + [NewBill(billsHolder, userId, old(nextBillsHolderId))]
      ensures nextBillsHolderId == old(nextBillsHolderId) + 1
      ensures incomeSources == old(incomeSources) && expenses == old(expenses)
      ensures nextIncomeSourceId == old(nextIncomeSourceId) && nextExpenseId == old(nextExpenseId)
    {
      var link := NewBill(billsHolder, userId, nextBillsHolderId);
      billsHolders := billsHolders + [link];
      nextBillsHolderId := nextBillsHolderId + 1;
    }

    method GetIncomeSources(userId: int) returns (result: ReturnObject, incomes: seq<IncomeSource>)
      ensures fresh(result) && result.Status && result.source == "get"
      ensures result.Message() == FetchedMessage
      ensures incomes == EntryQuery(incomeSources, GetUserWithAdmin(userId))
    {
      result := new ReturnObject();
      incomes := EntryQuery(incomeSources, GetUserWithAdmin(userId));
      result.Status := true;
    }

    method GetExpenses(userId: int) returns (result: ReturnObject, expenseRows: seq<Expense>)
      ensures fresh(result) && result.Status && result.source == "get"
      ensures result.Message() == FetchedMessage
      ensures expenseRows == EntryQuery(expenses, GetUserWithAdmin(userId))
    {
      result := new ReturnObject();
      expenseRows := EntryQuery(expenses, GetUserWithAdmin(userId));
      result.Status := true;
    }

    method GetPaidBillsForTheMonth(userId: int, monthId: int, yearId: int) returns (result: ReturnObject, bills: seq<BillResponse>)
      ensures fresh(result) && result.Status && result.source == "get"
      ensures result.Message() == FetchedMessage
      ensures bills == PaidBillsForTheMonth(billsHolders, userId, monthId, yearId)
    {
      result := new ReturnObject();
      bills := PaidBillsForTheMonth(billsHolders, userId, monthId, yearId);
      result.Status := true;
    }

    method GetUnPaidBillsForTheMonth(userId: int, monthId: int, yearId: int) returns (result: ReturnObject, bills: seq<BillResponse>)
      ensures fresh(result) && result.Status && result.source == "get"
      ensures result.Message() == FetchedMessage
      ensures bills == UnPaidBillsForTheMonth(billsHolders, userId, monthId, yearId)
    {
      result := new ReturnObject();
      bills := UnPaidBillsForTheMonth(billsHolders, userId, monthId, yearId);
      result.Status := true;
    }

    method GetUnpaidBills(userId: int) returns (result: ReturnObject, bills: seq<BillResponse>)
      ensures fresh(result) && result.Status && result.source == "get"
      ensures result.Message() == FetchedMessage
      ensures bills == UnpaidBills(billsHolders, userId)
    {
      result := new ReturnObject();
      bills := UnpaidBills(billsHolders, userId);
      result.Status := true;
    }
  }
}
