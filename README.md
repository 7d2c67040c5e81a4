# Expenses tracker core in Dafny

This project models three parts of the expenses tracker's back end and proves properties about them.

- **Interest calculator** (`InterestCalculator`, in `interest.dfy`). It takes a principal and a start and end date. The duration picks a monthly rate from a seven-tier table. Each round earns `currentPrincipal × (monthlyRate/100) × totalMonths`, and that interest becomes the next round's principal. The rounds go on while the interest is at least 10,000. The running total starts at the principal and adds every reinvested interest. The first interest below 10,000 is returned too, but it is not added. Both results are rounded to cents, ties to the even cent. An end date not after the start date is an error. A duration over 365 days returns `(0, 0)`.
- **Finance service** (`Finance`, in `finance.dfy`). It keeps three tables: income sources, expenses and bills holders. A bills holder links an income source and an expense for a month and year, with a paid flag. Every row records the user who created it (`CreatedBy`). A read shows the rows of the admin (owner `0`) and of the caller. An update changes only the caller's own rows with the given id. An add appends a row stamped with the caller. The class `FinanceService` holds the tables as sequences. Its methods change them in place. The queries are pure functions over the tables.
- **Response envelope** (`Application.ReturnObject`, in `return_object.dfy`). It has a status, a source tag and an optional stored message. The `Message` getter derives the text from these three.

Decisions:
- `decimal` is modelled as `real`.
- A date is a point on a real-valued day line, so `endDate - startDate` is the number of days, fractions included.
- The caller's user id and the current time are explicit parameters.
- A table's identity column is modelled as a counter that gives each new row the next id.

Facts about the code that shape the model:
- The running total starts at the principal (Helper/InterestCalculator.cs:21). So 10,000,000 over 30 days gives `(10,123,750.00, 1,531.41)`, and 100,000 over 30 days gives `(100,000.00, 1,237.50)`.
- FinanceService contains no bill-allocation logic. Bills are only added, edited, flagged and read.
- Editing a bill overwrites its income source, expense, month, year and paid flag (Infrastructure/FinanceService.cs:112-124).

## Model

| member | source | states |
|---|---|---|
| `InterestCalculator.RateTable` | Helper/InterestCalculator.cs:41-65 | The tiers have inclusive upper bounds: 30→1.2375, 31 and 60→1.35, 90→1.50, 120→1.575, 180→1.65, 270→1.725, 365→1.80, and 366 or 400→0. |
| `InterestCalculator.MonthlyRate` | Helper/InterestCalculator.cs:41-65 | The rate is 0 exactly when the duration exceeds 365 days. Up to 365 days it lies between 1.2375 and 1.80. |
| `InterestCalculator.RateMonotone` | Helper/InterestCalculator.cs:43-62 | On (0, 365] the rate lies between 1.2375 and 1.80 and never falls as the duration grows. |
| `InterestCalculator.FactorBounds` | Helper/InterestCalculator.cs:16-17 | On (0, 365] the per-round factor (monthlyRate/100)·totalMonths is positive and at most 0.219. |
| `InterestCalculator.LoopInterest` | Helper/InterestCalculator.cs:26 | The loop's interest expression, with rate and months held in locals, equals the per-round interest over the same duration. |
| `InterestCalculator.InterestShrinks` | Helper/InterestCalculator.cs:24-36 | An interest that reaches the 10,000 threshold is at least one unit below the principal that earned it. So a non-positive principal stops at once, and a positive one shrinks, which is why the loop terminates. |
| `InterestCalculator.Reinvest` | Helper/InterestCalculator.cs:21-36 | The rounds end with a total no smaller than the starting total. The interest they report is below the 10,000 threshold. |
| `InterestCalculator.NearestEven` | Helper/InterestCalculator.cs:38 | The whole number chosen lies within 0.5 of the scaled amount, and on an exact half it is even (`MidpointRounding.ToEven`, the default of `Math.Round`). |
| `InterestCalculator.RoundHalfEven2` | Helper/InterestCalculator.cs:38 | `Math.Round(x, 2)` returns whole cents within half a cent of x. On an exact half cent the result is the even cent. |
| `InterestCalculator.RoundTieExamples` | Helper/InterestCalculator.cs:38 | 0.125 rounds to 0.12, 0.135 to 0.14, -0.125 to -0.12, and 0.126 to 0.13. |
| `InterestCalculator.RoundMonotone` | Helper/InterestCalculator.cs:38 | Rounding to cents preserves order. |
| `InterestCalculator.RoundWholeCents` | Helper/InterestCalculator.cs:38 | An amount already in whole cents is left unchanged by rounding. |
| `InterestCalculator.CalculateSpecialInterestWithReinvestment` | Helper/InterestCalculator.cs:3-39 | The imperative `while (true)` loop with its `break` computes exactly `Projection`: an error for a bad interval, `(0, 0)` beyond the table, otherwise the rounded total and remainder of the reinvestment rounds. |
| `InterestCalculator.CompoundedShift` | Helper/InterestCalculator.cs:35 | Reinvesting the interest as the next principal shifts the geometric progression by one term. |
| `InterestCalculator.CompoundedSumShift` | Helper/InterestCalculator.cs:34 | The first interest plus the sum of the later ones is the sum of the progression one term longer. |
| `InterestCalculator.ReinvestIsGeometric` | Helper/InterestCalculator.cs:21-38 | With n reinvested rounds, the total is the principal plus interests 1..n of the progression principal·factor^k. Each of those interests is at least 10,000. Interest n+1 is below 10,000, is the second result, and is not added. |
| `InterestCalculator.Projection` | Helper/InterestCalculator.cs:3-39 | The result is an error exactly when the end date is not after the start date. Both amounts of a successful result are whole cents. |
| `InterestCalculator.ProjectionBeyondTable` | Helper/InterestCalculator.cs:17-20 | A duration over 365 days returns `(0, 0)` without any round. |
| `InterestCalculator.ProjectionSingleRound` | Helper/InterestCalculator.cs:21-31 | If the first interest is below 10,000, the total is the (rounded) principal and the remainder is that first interest, rounded. |
| `InterestCalculator.ProjectionBounds` | Helper/InterestCalculator.cs:21-38 | Within the table the call succeeds, the rounded total is at least the rounded principal, and the rounded remainder is at most 10,000. |
| `InterestCalculator.ExampleTenMillion` | Helper/InterestCalculator.cs:16-38 | 10,000,000 over 30 days gives `(10,123,750.00, 1,531.41)`. |
| `InterestCalculator.ExampleThirtyOneDays` | Helper/InterestCalculator.cs:16-38 | 500 over 31 days gives `(500.00, 6.98)`: the interest 6.975 is a tie and goes to the even cent. |
| `InterestCalculator.ExampleHundredThousand` | Helper/InterestCalculator.cs:16-38 | 100,000 over 30 days gives `(100,000.00, 1,237.50)`. |
| `Application.ReturnObject.constructor` | Application/ReturnObject.cs:24-27 | The source tag defaults to "get". A new object has a false Status and no stored message. |
| `Application.ReturnObject.Message` | Application/ReturnObject.cs:10-17 | The message read is never empty. |
| `Application.ReturnObject.SetMessage` | Application/ReturnObject.cs:18 | Setting the message stores only the backing field and leaves Status and source unchanged. With a true Status a non-empty set value is what is read back, and an empty one reads the source's default text. With a false Status the error text is read. |
| `Application.ErrorHidesStoredMessage` | Application/ReturnObject.cs:14 | A false Status gives "An error occurred", whatever message is stored. |
| `Application.StoredMessageWins` | Application/ReturnObject.cs:15 | A true Status and a non-empty stored message give that message. |
| `Application.DefaultMessageBySource` | Application/ReturnObject.cs:16 | A true Status and no (or an empty) stored message give "Record Added Successfully" for source "post" and "Record fetched successfully" for any other source. |
| `Application.MessageIsOneOf` | Application/ReturnObject.cs:12-17 | The message read is the error text, one of the two defaults, or the stored message. |
| `Finance.GetUserWithAdmin` | Infrastructure/FinanceService.cs:40-41 | The owners a read shows are exactly the admin (0) and the caller. |
| `Finance.GetMonthName` | Infrastructure/FinanceService.cs:237-243 | The result is "Unknown" exactly for month numbers outside 1..12. |
| `Finance.FilterCount` | Infrastructure/FinanceService.cs:159-160 | A `Where` keeps each element that meets its condition, as often as it occurs, and drops every other element. |
| `Finance.FilterMember` | Infrastructure/FinanceService.cs:185-186 | An element is in a `Where` result exactly when it is in the input and meets the condition. |
| `Finance.Filter` | Infrastructure/FinanceService.cs:220-221 | A `Where` result is never longer than its input, and holds only input elements that meet the condition. |
| `Finance.EntryQuery` | Infrastructure/FinanceService.cs:210-217 | The income-source or expense query is never longer than the table. It returns only stored rows created by one of the given owners. |
| `Finance.ToResponse` | Infrastructure/FinanceService.cs:225-234 | A bill response keeps the bill's id, month number, year and paid flag. Its month name is "Unknown" exactly when the month number is outside 1..12. |
| `Finance.BillsQuery` | Infrastructure/FinanceService.cs:218-236 | The bill query is never longer than the table. Each response in it is the projection of a stored bill created by one of the given owners. |
| `Finance.PaidBillsForTheMonth` | Infrastructure/FinanceService.cs:159-160 | The paid-bills month data is never longer than the table. Every response in it is paid and has the given month and year. |
| `Finance.UnPaidBillsForTheMonth` | Infrastructure/FinanceService.cs:173-174 | The unpaid-bills month data is never longer than the table. Every response in it is unpaid and has the given month and year. |
| `Finance.UnpaidBills` | Infrastructure/FinanceService.cs:185-186 | The unpaid-bills data is never longer than the table. Every response in it is unpaid. |
| `Finance.VisibleEntries` | Infrastructure/FinanceService.cs:210-217 | Income-source and expense reads return exactly the rows owned by the admin or the caller, each as often as it is stored. |
| `Finance.VisibleBills` | Infrastructure/FinanceService.cs:218-236 | A bill response is read exactly when it is the projection of a stored bill owned by the admin or the caller. It is read as many times as there are such stored bills. |
| `Finance.BillsQueryMember` | Infrastructure/FinanceService.cs:218-236 | For any owners, a response is in the bill query exactly when a stored bill of those owners projects to it. |
| `Finance.BillsQueryCount` | Infrastructure/FinanceService.cs:218-236 | For any owners, the bill query holds each response once for every stored bill of those owners that projects to it. |
| `Finance.BillReadOnce` | Infrastructure/FinanceService.cs:218-236 | With distinct, increasing bill ids, every stored bill of the admin or the caller is read exactly once. |
| `Finance.PaidBillsExactly` | Infrastructure/FinanceService.cs:155-167 | The paid-bills month query returns exactly the visible bills that are paid and have that month and year, each response as often as the visible bills that project to it. |
| `Finance.UnpaidBillsOfMonthExactly` | Infrastructure/FinanceService.cs:169-181 | The unpaid-bills month query returns exactly the visible unpaid bills of that month and year, each response as often as the visible bills that project to it. |
| `Finance.AllUnpaidBillsExactly` | Infrastructure/FinanceService.cs:182-192 | The unpaid-bills query returns every visible unpaid bill, whatever its month or year, each response as often as the visible bills that project to it. |
| `Finance.MonthPartition` | Infrastructure/FinanceService.cs:159-174 | The paid and unpaid month queries are disjoint. Together, with multiplicity, they are the visible bills of that month and year. |
| `Finance.UpdateEntries` | Infrastructure/FinanceService.cs:55-74 | Only the caller's rows with the given id change, and only their Name, Amount and UpdatedAt. Ids and owners stay the same, and every other row is unchanged. |
| `Finance.EditBills` | Infrastructure/FinanceService.cs:112-124 | Only the caller's rows with the id change. Their income source, expense, month, year, paid flag and UpdatedAt take the request's values. Id and owner stay the same, and every other row is unchanged. |
| `Finance.FlagPaid` | Infrastructure/FinanceService.cs:125-133 | Only the caller's rows with the id change, and only in IsPaid and UpdatedAt. Every other row is unchanged. |
| `Finance.UpdateEntriesOneRow` | Infrastructure/FinanceService.cs:55-74 | With distinct ids, an income-source or expense update changes at most one row. An id the caller does not own (an admin row, or a missing id) changes nothing. |
| `Finance.BillUpdatesOneRow` | Infrastructure/FinanceService.cs:112-133 | With distinct ids, EditBillsHolder and FlagIsPaid each change at most one row. An id the caller does not own changes nothing. |
| `Finance.NewBill` | Infrastructure/FinanceService.cs:101-109 | A new bill has the request's income source, expense, month, year and paid flag, the caller as owner, the next id, and no update stamp. |
| `Finance.NewExpenses` | Infrastructure/FinanceService.cs:77-84 | The bulk add builds exactly one row per request, with the same Name and Amount, owned by the caller, with consecutive ids. |
| `Finance.FinanceService.AddIncomeSource` | Infrastructure/FinanceService.cs:43-53 | Appends one income source with the request's Name and Amount and `CreatedBy` = caller, and changes nothing else. |
| `Finance.FinanceService.UpdateIncomeSource` | Infrastructure/FinanceService.cs:55-64 | The income table becomes `UpdateEntries` of the old one, and the other tables are unchanged. |
| `Finance.FinanceService.UpdateExpense` | Infrastructure/FinanceService.cs:65-74 | The expense table becomes `UpdateEntries` of the old one, and the other tables are unchanged. |
| `Finance.FinanceService.AddExpenses` | Infrastructure/FinanceService.cs:75-88 | Appends `NewExpenses` of the requests to the expense table, and changes nothing else. |
| `Finance.FinanceService.AddExpense` | Infrastructure/FinanceService.cs:89-98 | Appends one expense with the request's Name and Amount and `CreatedBy` = caller, and changes nothing else. |
| `Finance.FinanceService.AddBillsHolder` | Infrastructure/FinanceService.cs:99-111 | Appends one bill built from the request, with `CreatedBy` = caller, and changes nothing else. |
| `Finance.FinanceService.EditBillsHolder` | Infrastructure/FinanceService.cs:112-124 | The bill table becomes `EditBills` of the old one, and the other tables are unchanged. |
| `Finance.FinanceService.FlagIsPaid` | Infrastructure/FinanceService.cs:125-133 | The bill table becomes `FlagPaid` of the old one, and the other tables are unchanged. |
| `Finance.FinanceService.LinkIncomeToExpense` | Infrastructure/FinanceService.cs:195-209 | Has the same effect as AddBillsHolder: one appended bill owned by the caller. |
| `Finance.FinanceService.GetIncomeSources` | Infrastructure/FinanceService.cs:136-143 | Returns a fresh successful "get" envelope, whose message reads "Record fetched successfully", and the income sources visible to the caller. |
| `Finance.FinanceService.GetExpenses` | Infrastructure/FinanceService.cs:145-153 | The same for the expenses visible to the caller. |
| `Finance.FinanceService.GetPaidBillsForTheMonth` | Infrastructure/FinanceService.cs:155-167 | A fresh successful envelope and the paid bills of the month and year visible to the caller. |
| `Finance.FinanceService.GetUnPaidBillsForTheMonth` | Infrastructure/FinanceService.cs:169-181 | A fresh successful envelope and the unpaid bills of the month and year visible to the caller. |
| `Finance.FinanceService.GetUnpaidBills` | Infrastructure/FinanceService.cs:182-192 | A fresh successful envelope and all unpaid bills visible to the caller. |

## Left out

- Persistence is not modelled: Entity Framework, `SaveChangesAsync`, `ExecuteUpdateAsync`, transactions and async tasks. Each call is one sequential update of in-memory sequences. Database constraints are not enforced either: the unique (ExpenseId, IncomeSourceId) index in `Infrastructure/ApplicationDbContext.cs` and the foreign keys. So in the model every add succeeds.
- The `Include` joins are left out. A bill response therefore has no `IncomeSourceName` or `ExpenseName` (Infrastructure/FinanceService.cs:222-230).
- Month names for 1..12 depend on `CultureInfo.CurrentCulture`. The model uses fixed English names and models only the "Unknown" guard faithfully.
- `DateTime` arithmetic, `TimeSpan.TotalDays` (a `double`) and `DateTime.UtcNow` are not modelled. The duration and the update timestamp are inputs.
- New rows carry the timestamp value `Unset`. The entity base class that gives new rows their `CreatedAt`/`UpdatedAt` is not part of this model, and neither is `CreatedAt` itself.
- `IsDeleted` is not modelled. No FinanceService operation reads or writes it, so reads return soft-deleted rows as well.
- The service gets the caller from the HTTP context (`UserId`, `Helper/HttpContextExtensions.cs`). Its failure when no context exists is not modelled, because the user id is a parameter.
- `ReturnObject.Data` (a `dynamic` payload) is not modelled. The read methods return the data beside the envelope.
- `CalculateSpecialInterestWithReinvestment`: the second guard (`totalDays <= 0`, Helper/InterestCalculator.cs:13-14) is not written out. It can never fire once `endDate > startDate`.
- `InterestCalculator.Projection`: the range of `decimal` is not modelled. Adding an interest to a total past `decimal.MaxValue` (about 7.9·10^28) throws an OverflowException at Helper/InterestCalculator.cs:34, while the model returns a total. The products at line 26 never exceed the principal, because the factor is at most 0.219, so only the sum at line 34 can overflow.
- `InterestCalculator.Projection`: the 28-digit precision of `System.Decimal` is not modelled either. Arithmetic is exact over the reals, but the source cuts `totalDays / 30m` to 28 decimal places (Helper/InterestCalculator.cs:16) and rounds the product at line 26 the same way. This can change the cents of the result. For 500 over 31 days the model's interest is exactly 6.975, a tie that rounds to 6.98 (`ExampleThirtyOneDays`). In `decimal` the interest is 6.97499…98, which `Math.Round` turns into 6.97. `Math.Round` itself (line 38) is exact.
- Read order: the queries have no `OrderBy` (Infrastructure/FinanceService.cs:139, 148, 159-162, 173-176, 185-187 and 210-236), so the database returns rows in no fixed order. An updated row may come back in a different place. `GetIncomeSources`, `GetExpenses`, `GetPaidBillsForTheMonth`, `GetUnPaidBillsForTheMonth` and `GetUnpaidBills` return the rows in table order. Only their multiset statements describe the source: `VisibleEntries`, `VisibleBills`, `BillsQueryCount`, `BillReadOnce`, `PaidBillsExactly`, `UnpaidBillsOfMonthExactly`, `AllUnpaidBillsExactly` and `MonthPartition`.
- `Infrastructure/LoginService.cs`, `Program.cs`, `GrpcServices/FinanceGrpcService.cs` and the migrations are not part of this model. They hold password hashing, token signing, routing and schema history.
- InvestmentHolder persistence is not modelled, because neither FinanceService nor the interest calculator stores projections.
