# The accounting books, and three smaller state machines, in Dafny

This project models the parts of the assistant that keep promises over time, and proves those
promises.

* **The double-entry books** (`internal/accounting`). Invoices, credit notes, payments, expenses,
  owner funding, manual postings and reversals all write one journal. `Books` has every service
  operation as a function from one state to the next or to a refusal; `Service` has the same
  operations as methods that change a service object's tables in place, each proved to do exactly
  what its function says. A run is any sequence of operations by any callers, together with
  arbitrary changes by the CRM to clients and timesheets and arbitrary changes of today's date.
  A refused operation changes nothing.
* **Moving-average cost** (`internal/fintech/service.go`). The replay of the trade ledger into
  positions and realized profit, over exact rationals.
* **Off-the-record conversations** (`internal/agent/transcript.go`). The bounded memory pool, the
  durable store, the record switch, and turns still being answered when it is thrown.
* **The brace scanner** (`internal/fintech/structured.go`), as a left inverse of writing JSON out.

## How the proofs are built

The journal is a sequence of dated entries; every figure of every report is a sum over its lines.
`Ledger` exchanges the sum by entry for the sum by account, so an entry that balances moves
nothing in total. `Journal` proves once what any step does to the journal and the chart of
accounts; `Statements` turns that into reports that always balance and closed periods that never
move. `Soundness` is the invariant that ties each table row to the entry it posted and each
document to its receipts. `Reconciliation` is a conservation law on top of it: on any account and
over any window, the journal is what the live rows post there plus a drift that is spelled out
step by step. `ControlAccounts` reads the receivables and VAT reconciliations off that law.

Laws that hold between operations leave open what each one computes. That is pinned beside them, in
terms of what the caller handed in: `Settlement`, `Recordings`, `Drafting`, `Closing`, `Removals`
and `Housekeeping` give for each operation the exact condition under which it is taken and what
the books hold afterwards, and `Figures` reads every statement in plain debits and credits.

| file | holds |
|---|---|
| `Sums.dfy`, `Ordering.dfy`, `Text.dfy` | sums over sequences; lists in query order; decimal text, padding, trimming, 64-bit wrap |
| `Money.dfy` | rounding, VAT, line extension, printing and parsing amounts |
| `Ledger.dfy`, `Documents.dfy` | accounts, entries, windows; pricing a draft, posting a document |
| `Books.dfy`, `Service.dfy`, `Reports.dfy` | the operations as functions; the same as methods; the report loops |
| `Journal.dfy`, `Statements.dfy`, `Closing.dfy` | every step keeps the journal; every report balances; which dates a saved period closes, and that they stay closed |
| `Figures.dfy`, `Recordings.dfy` | the figures in debits and credits; what a document, funding or an expense does to accounts, statements and return |
| `Soundness.dfy`, `Provenance.dfy`, `Settlement.dfy` | rows, the entries they posted and the payments that settle them; no entry is shared; what a status tells |
| `Reconciliation.dfy`, `ControlAccounts.dfy` | conservation; receivables and VAT |
| `Numbering.dfy`, `TimeBilling.dfy`, `OwnerLoan.dfy` | issued documents and their numbers, time, the owner's loan |
| `Drafts.dfy`, `Drafting.dfy`, `Crediting.dfy` | which drafts are accepted; what each says, field by field; from draft to full credit |
| `Removals.dfy`, `Undo.dfy` | when a void or a deletion is accepted, and what it takes back |
| `FiledReturns.dfy`, `Housekeeping.dfy` | what can move a return already filed; what the settings handlers keep in order |
| `Cases.dfy` | concrete books in which the code does what its comments would not suggest |
| `Portfolio.dfy`, `Scanner.dfy`, `Ephemeral.dfy`, `Transcripts.dfy` | the other three state machines |

## Where the code and its comments part

The model follows the code. Each point names the theorems that state it, with the exact condition
where there is one.

* `CreateDraft` stores the paid total its caller hands in, so the payment bookkeeping survives a
  new draft exactly when that total is zero (`DraftMustBeUnpaid`). Theorems over whole runs assume
  it is, as the callers inside the repository guarantee.
* Status moves back when a payment is deleted (`DeletingUndoesPayment`). What holds is that an
  issued document never returns to draft and that void is final (`IssuedDocumentsAreFrozen`).
* `Void` asks only whether today is open, and the rate table can be edited at any time although
  the return reads the treatment of a line off the rate as it stands now. Both can change a VAT
  return for a locked period. `StepMovesReturn` says by how much for every step, `FiledReturnMoves`
  for every run, and `FiledReturnStandsWhen` exactly when nothing moves; the journal's figures,
  the purchases and the input tax never do. A document without tax still moves its box
  (`VoidMovesABox`), and relabelling a rate in use moves one with nothing voided
  (`RateEditMovesABox`).
* `Void` leaves the CRM's invoiced flag, so hours are not offered again
  (`VoidingDoesNotReleaseTime`).
* The owner's loan is guarded in two places, and each guard looks at one date and one account. Over
  any step of any kind the loan stays whole exactly when its balance covers the entry the step
  appends, on its date and on every later one (`WhenStepKeepsLoanWhole`). A backdated repayment can
  overdraw it later (`WhenRepaymentKeepsLoanWhole`, `BackdatedRepaymentOverdraws`), and one that
  draws down another account is checked against the default loan all the same
  (`GuardWatchesTheDefaultLoan`). Deleting a loan ignores repayments dated ahead
  (`WhenDeletingKeepsLoanWhole`, `DeletedLoanOverdraws`). Deleting an expense the owner paid, or
  reversing an entry by hand, has no guard (`WhenExpenseDeletionKeepsLoanWhole`,
  `WhenReversalKeepsLoanWhole`, `DeletedExpenseOverdraws`).
* A credit note's stored total is positive; only posting and reporting negate it. A full credit
  prices the copied lines again at today's rates, so it cancels its invoice exactly when the lines'
  tax at those rates comes to the invoice's own (`WhenFullCreditCancels`). That always holds while
  rates, the default rate and the income accounts stand (`FullCreditUndoesTheInvoice`), and fails
  once a rate was edited (`RateEditBreaksTheCredit`). Which credits are accepted at all is
  `DraftIsAcceptedWhen`.
* Documents do not go through `Post`, but voiding one does. `WhenVoidSucceeds` is the exact
  condition. A document worth nothing posts an entry without lines and can never be voided
  (`WorthlessCannotBeVoided`), and any document is beyond voiding once an account it posted to is
  archived (`ArchivedAccountBlocksVoid`). The deletions of payments, expenses and funding have
  their own exact conditions.
* `ArchiveAccount` refuses a system account, but an account edit that carries the flag archives
  one, and nothing else does (`WhoArchivesASystemAccount`).
* A line of quantity zero is priced as one unit, so a time entry of zero hours bills one hour
  (`ZeroIsBilledAsOne`, `NoHoursBillOneHour`).
* A line that names no rate, where there is no default one, is taxed at whatever percentage its
  caller sends, inside 0 to 100 per cent or not (`PreparedTaxIsWithin`).
* The agent picks a turn's route once, and the record switch, or the eviction caused by another
  conversation, can overtake it. A turn that began on the record goes on writing to the store
  after the switch is thrown (`TurnInFlightReachesTheStore`); one overtaken by off and on again
  writes to disk what memory never learns (`OffAndOnComesApart`); one whose conversation is
  evicted starts memory again without what is on disk (`EvictionComesApart`).
  `WhenMemoryAndStoreAgree` says exactly which runs keep both promises. Going off the record a
  second time forgets what was said off the record before (`SecondSwitchForgets`).
* The first question put to a conversation without a title becomes its title, on disk, whether or
  not the conversation is on the record (`WhenTheTitleTells`, `TitleTellsTheFirstQuestion`), and the
  switch erases message rows only (`TitleSurvivesTheSwitch`).
* The eviction scan uses the empty id for "none yet", so an empty id is never dropped for its age
  (`EmptyIdEscapes`). Eviction leaves exactly the newest sessions if and only if the empty id is not
  one that has to go (`Ephemeral.EvictLocked`).

## Model

| member | source | states |
|---|---|---|
| Amounts.RoundsToNearest | internal/accounting/money.go:121-143 | An integer is the nearest one, an exact half going away from zero, if and only if it is what the rounding step of `Extend` and `VAT` returns. |
| Amounts.RoundingIsMonotone | internal/accounting/money.go:121-143 | A larger amount never rounds to a smaller one. |
| Amounts.AmountsMirror | internal/accounting/money.go:121-143 | Tax and line amounts of a negated amount are the exact negation, so a credit mirrors its invoice line by line. |
| Amounts.AmountsMonotone | internal/accounting/money.go:121-143 | At a non-negative rate or quantity, a larger amount is never taxed or extended to less. |
| Amounts.PerLineTaxIsClose | internal/accounting/money.go:129-143 | Tax rounded on each of k lines at one rate differs from tax on their total by at most (k+1)/2 units. |
| Amounts.PerLineTaxCanDiffer | internal/accounting/money.go:129-143 | The difference is real: three lines at 21 per cent come one unit below the tax on their total. |
| Amounts.MoneyRoundTrip | internal/accounting/money.go:34-92 | Every 64-bit amount, the smallest included, parses back from its own print-out, with sign, comma and space stripping and 64-bit wrap modelled. |
| Amounts.MoneyReads | internal/accounting/money.go:34-46 | Any other amount reads as a minus sign if negative, its whole units without leading zeros, a point and two digits of cents. |
| Text.TrimTakesTheBlanks | internal/accounting/invoice.go:200-216 | Trimming takes all blanks off both ends of a text and nothing else. |
| Text.LessIsDictionaryOrder | internal/accounting/reports_repo.go:14-48 | Codes are listed in dictionary order: a proper prefix first, otherwise by the first difference. |
| Ledger.LinesAcrossAccounts | internal/accounting/reports_repo.go:14-48 | Summed over every account, what a set of lines moves is its debits less its credits: nothing is counted twice or dropped by grouping by account. |
| Ledger.LedgerNetsToZero | internal/accounting/reports_repo.go:14-48 | Over any window, the net movements of all accounts come to zero when every entry balances. |
| Ledger.MirrorCancels | internal/accounting/service.go:291-318 | A reversal moves every account by exactly minus what the original moved. |
| Documents.PriceLines | internal/accounting/invoice.go:225-276 | Prices every line in order or none: on success the i-th priced line is the price of the i-th line. |
| Documents.GroupingKeepsTheTotal | internal/accounting/invoice.go:331-352 | The income postings grouped by account come to the sum of the lines' net amounts, whatever accounts the lines share. |
| Documents.IncomeOrderIsExact | internal/accounting/invoice.go:331-352 | Each income account gets one posting, and exactly the accounts some line names get one. |
| Documents.IncomeAsFirstNamed | internal/accounting/invoice.go:331-345 | The accounts are posted to in the order the lines first name them. |
| Documents.PostingsInOrder | internal/accounting/invoice.go:315-381 | Receivable first, then the income accounts in that order, then the tax, if any. |
| Documents.PostingsBalance | internal/accounting/invoice.go:315-393 | The "does not balance" error is unreachable for totals summed from lines, and the entry moves each account by exactly its receivable, income and tax. |
| Documents.DocRowsAccepted | internal/accounting/invoice_repo.go:278-296 | Every row of a document's entry has one side, is non-negative and names an account, so the table's checks accept it. |
| Documents.PricingIsSettled | internal/accounting/invoice.go:225-276 | Pricing lines that were already priced changes nothing, with or without their time links. |
| Documents.CreditNegatesInvoice | internal/accounting/invoice.go:315-393 | A credit note for the same lines posts the exact negation of the invoice on every account, for the same total and tax. |
| Drafts.DraftIsAcceptedWhen | internal/accounting/invoice.go:168-278 | A draft is accepted if and only if it names a known client, has lines, is not due before it is issued, carries a VAT number and a usable rate when reverse-charged, and every line has a description, an income account and a known rate. |
| Drafting.PreparedAsAsked | internal/accounting/invoice.go:168-278 | Every field of a prepared draft: dated as asked or today, on the terms asked or the default ones, due as asked or that many days on, client, engagement, treatment, trimmed VAT number and correction as asked; each line with what was open filled in, extended and taxed at its rate to the nearest unit; totals the sums of the lines. |
| Drafting.CreatedAsAsked | internal/accounting/invoice.go:114-131 | A draft created is appended exactly so, unnumbered, and nothing else changes. |
| Drafting.UpdatedAsAsked | internal/accounting/invoice_repo.go:165-200 | An edited draft says what the edit asks, but keeps its kind, number, paid total, correction and entry. |
| Drafting.WhenDraftIsUpdated | internal/accounting/invoice.go:133-151 | An edit is taken if and only if the document is a draft and the same contents could be drafted. |
| Drafting.WhenDraftIsDeleted | internal/accounting/invoice.go:153-163 | Exactly drafts are deleted, and no other document goes with one. |
| Drafting.IssuedAsAsked | internal/accounting/invoice.go:285-305 | From draft to document: what is issued is the draft as asked, and its entry is dated on the day asked or the day it was drafted and moves every account by what the draft came to. |
| Drafting.WhenCreditIsDrafted | internal/accounting/invoice.go:436-474 | Which credit notes are drafted, in terms of the invoice, the lines and the books: exactly those of a live invoice whose header and lines can be drafted today. |
| Drafting.CreditAsAsked | internal/accounting/invoice.go:436-474 | The note is dated today on the invoice's terms, client, treatment and VAT number, corrects it, and holds the lines given or, when none are, all of the invoice's without their time. |
| Drafts.ReverseChargeCarriesNoTax | internal/accounting/invoice.go:205-276 | A reverse-charged draft carries no tax and tags every line with a reverse-charge rate still in use, so the return counts it in its own box. |
| Drafts.FirstRateIsOfKind | internal/accounting/repository.go:560-571 | The rate found is the first one of the treatment that is not archived, and none is found only when there is none. |
| Drafts.PreparedStaysPriced | internal/accounting/invoice.go:168-278 | A prepared draft's lines price to themselves for as long as rates, defaults and its income accounts stay. |
| Crediting.GoesOnPricing | internal/accounting/invoice.go:168-278 | From before its draft was made, through any run that leaves rates, the default rate and the income accounts alone, a document's lines price to themselves. |
| Crediting.FullCreditUndoesTheInvoice | internal/accounting/invoice.go:436-474 | After any such run, crediting the invoice in full raises a note for the same total and tax, without its time, that negates it on every account. |
| Crediting.WhenFullCreditCancels | internal/accounting/invoice.go:436-474 | Whatever happened to the rates, an accepted full credit is for the same total and tax and negates the invoice on every account if and only if the lines' tax at today's rates comes to the invoice's own. |
| Cases.RateEditBreaksTheCredit | internal/accounting/service.go:162-189 | A concrete invoice whose rate was edited since, and whose full credit does not cancel it. |
| Journal.ReversalGrows | internal/accounting/service.go:291-318 | A reversal that is accepted appends one entry: the mirrored lines, under the original's source, dated where asked or today, in an open period. |
| Journal.StepGrowsJournal | internal/accounting/service.go:200-260 | Every step of every kind leaves the journal alone or appends one balanced entry on existing accounts, dated outside every locked period. |
| Journal.StepKeepsChart | internal/accounting/service.go:92-132 | No step removes or re-keys an account, and none changes the type of an account that was posted to. |
| Journal.RunKeepsJournal | internal/accounting/repository.go:269-310 | Over any run the journal only grows, every entry stays good, and every account once posted to keeps its type. |
| Statements.TrialBalanceAgrees | internal/accounting/reports.go:84-114 | Over any window the two columns of a trial balance are equal when every entry balances. |
| Statements.BalanceSheetAgrees | internal/accounting/reports.go:151-199 | Assets equal liabilities, equity and earnings to date, by exchanging the sum over entries for the sum over accounts by type. |
| Statements.BooksAlwaysBalance | internal/accounting/reports.go:84-199 | After any run, every trial balance and every balance sheet balances, and current earnings are the profit from the beginning to that date. |
| Statements.LockedWindowStandsStill | internal/accounting/repository.go:471-485 | While a window stays inside locked periods, no sum over its journal lines changes, whatever else happens. |
| Statements.ClosedBooksStayClosed | internal/accounting/service.go:354-363 | Any column of any statement over a window that stays locked is the same in every later state, retyped and archived accounts included. |
| Statements.ClosedStatements | internal/accounting/reports.go:84-147 | In particular the trial balance totals and the net profit of a closed window. |
| Closing.WhatSavingAPeriodCloses | internal/accounting/repository.go:445-485 | Saving a period touches nothing else, and afterwards a date is closed if and only if the period as saved is locked and holds it, or a locked period other than the one it replaced does; under an id that is not there nothing changes. |
| Closing.NewPeriodOnlyCloses | internal/accounting/repository.go:445-457 | A new period closes exactly its own dates, if it is locked, and reopens none. |
| Closing.ClosedPeriodStaysClosed | internal/accounting/service.go:335-363 | Once a locked period is saved, and until another period is, no step of any run appends an entry dated inside it or changes one that is there. |
| Closing.ClosingFixesTheFigures | internal/accounting/service.go:354-363 | Every column of every statement over dates of that period stays through any such run as it was when the period was closed. |
| Figures.FigureOfAnAccount | internal/accounting/reports.go:118-199 | An asset or expense account shows its debit total less its credit total over the window, the other types the reverse. |
| Figures.TypeIsItsAccounts | internal/accounting/reports.go:118-199 | The total of a type is the sum of those over its accounts. |
| Figures.ProfitIsIncomeLessExpense | internal/accounting/reports.go:118-147 | Net profit is credits less debits summed over the income accounts, less debits less credits summed over the expense accounts. |
| Figures.SidesAreExcesses | internal/accounting/reports.go:84-114 | The two totals of a trial balance are the accounts' excesses of debit and their excesses of credit. |
| Figures.TypeIsItsLines | internal/accounting/reports_repo.go:14-48 | On a good journal the total of a type is also the sum over the journal lines dated in the window: the exchange from accounts to lines, type by type. |
| Figures.IssuingMovesStatements | internal/accounting/invoice.go:285-393 | Issuing an invoice raises the assets, debts and profit of exactly the windows that hold its date by its total, tax and subtotal; a credit note lowers them. |
| Statements.ListingIsExact | internal/accounting/reports.go:92-112 | A statement lists exactly the accounts that hold something, once each and by account code, with what they hold. |
| Ordering.OrderedIsExact | internal/accounting/crm_bridge.go:64-77 | A list in query order holds exactly the wanted ids, each once, in the order asked for. |
| Statements.ListingAddsUp | internal/accounting/reports.go:92-112 | The rows a statement shows come to the total it shows. |
| Reports.TrialBalance | internal/accounting/reports.go:84-114 | One pass puts every account on its side; rows and totals are the columns of the balances, and the flag says whether the totals agree. |
| Reports.ProfitAndLoss | internal/accounting/reports.go:118-147 | One pass lists income and expense accounts, skipping those at zero; total income is credits less debits over the income balances, total expenses debits less credits over the expense balances, and the profit their difference. |
| Reports.ReportedInDebitsAndCredits | internal/accounting/reports.go:118-199 | Over any balances, assets and expenses are reported by debit less credit and the other types by credit less debit, row by row and in total. |
| Reports.BalanceSheet | internal/accounting/reports.go:151-199 | One pass lists assets by debit less credit and liabilities and equity the other way, and sets income less expense beside equity as current earnings. |
| Reports.ReadOffTheJournal | internal/accounting/reports_repo.go:14-48 | A report over the balances of a window is the statement read directly off the journal, row by row and in total. |
| Soundness.StepKeepsSound | internal/accounting/invoice_repo.go:236-320 | Every step keeps the invariant tying documents, payments, expenses and funding to their entries and to each other. |
| Soundness.ReachableIsSound | internal/accounting/payment.go:55-154 | In every reachable state each row points at an entry with its own date and lines, each document's paid total is the sum of its payments and, when anything is paid, never above its total; drafts and void documents carry no payment. Which status goes with which paid total is `StatusTellsWhatWasReceived`. |
| Settlement.StatusTellsWhatWasReceived | internal/accounting/invoice.go:476-489 | In every reachable state a live document is issued if and only if nothing was received on it, partly paid if and only if something short of its total was, and paid if and only if exactly its positive total was. |
| Settlement.WhenPaymentIsTaken | internal/accounting/payment.go:55-134 | On sound books a payment is taken if and only if the document is live, the amount is positive and at most the total less the sum of the payment rows, the date is open, the account it goes into exists and is an asset, and there is a receivables account. |
| Settlement.PaymentSettles | internal/accounting/payment.go:230-279 | A payment taken raises what its document has received by its amount, makes it paid when that is the total and partly paid otherwise, and touches no other document. |
| Settlement.PaymentMovesMoney | internal/accounting/payment.go:97-134 | It moves its amount from receivables into the account it was paid into, on the day asked or today, and no other account; its row says so. |
| Settlement.DeletionUnsettles | internal/accounting/payment.go:139-154 | Deleting a payment lowers what its document has received by its amount; the document is issued again when that was all, partly paid otherwise. |
| Provenance.EveryRowIsTraced | internal/accounting/invoice_repo.go:268-300 | In every reachable state that entry carries the row's own kind and id and reverses nothing. |
| Provenance.NoEntryIsShared | internal/accounting/repository.go:269-310 | Two rows of whatever tables that point at one entry are one row. |
| Soundness.DraftMustBeUnpaid | internal/accounting/invoice_repo.go:133-163 | A new draft leaves the payment bookkeeping true if and only if its caller claimed nothing paid. |
| Soundness.NewDraftSettles | internal/accounting/invoice_repo.go:133-163 | An id just given out has no payments, so a draft under it settles exactly when it claims none. |
| Reconciliation.StepMovesGap | internal/accounting/invoice.go:398-428 | On every account and window, each step moves journal less live rows by exactly its drift: nothing for recording, the posting itself by hand, and the shift between two dates for removals. |
| Reconciliation.LedgerIsItsSources | internal/accounting/reports_repo.go:14-48 | From fresh books, after any run, on every account and over every window, the journal is the live rows plus the drift of the run, to the unit. |
| Reconciliation.NoDriftOverall | internal/accounting/payment.go:139-154 | Over all time, removals leave no drift: a void or deletion takes back exactly what was recorded. |
| ControlAccounts.ReceivablesReconcile | internal/accounting/invoice.go:315-381 | With no other use of the receivables account, its balance is what is still owed on the live documents, credit notes counted the other way. |
| ControlAccounts.PaidTotalsAreReceipts | internal/accounting/invoice_repo.go:352-369 | Paid totals summed by document equal receipts summed by payment row. |
| ControlAccounts.OutputTaxReconciles | internal/accounting/reports_repo.go:80-155 | Over any window, the return's output tax less the control account is exactly the drift of the run on that account. |
| ControlAccounts.InputTaxReconciles | internal/accounting/reports_repo.go:80-155 | The same for reclaimable tax on expenses against the input control account. |
| ControlAccounts.NoteMeansDrift | internal/accounting/reports.go:374-386 | The mismatch note appears if and only if there is drift; never over any window while nothing was voided, deleted or posted by hand, and never over all time while hand postings kept off the two accounts. |
| FiledReturns.StepMovesReturn | internal/accounting/reports_repo.go:80-134 | For a locked window, over any step of any kind: purchases and input tax stand, output tax loses the tax of a document voided inside, and each box loses that document's net in it or takes or gives up the sales at a rate whose treatment was edited. |
| FiledReturns.FiledReturnStandsWhen | internal/accounting/reports_repo.go:80-134 | A step leaves the whole return as it was if and only if it voids no document inside that carries tax or sales in a box, and carries no rate with sales inside from one box to another. |
| FiledReturns.FiledReturnMoves | internal/accounting/reports_repo.go:80-155 | Over any run that keeps the window locked, the control accounts, purchases and input tax never move; output tax and the boxes move by exactly what was voided inside and what rate edits carried across. |
| FiledReturns.FiledReturnStands | internal/accounting/service.go:354-363 | Without a void or a rate edit, a return for a window that stays locked is the one that was filed, mismatch note included. |
| Cases.VoidMovesABox | internal/accounting/invoice.go:398-428 | A reverse-charged invoice without tax, voided after its day was locked, takes its net out of the box of that day. |
| Cases.VoidLeavesOutputTax | internal/accounting/invoice.go:398-428 | The same void leaves the output tax of the day alone. |
| Cases.RateEditMovesABox | internal/accounting/service.go:162-189 | Relabelling a rate in use moves the sales of a locked day from one box to another. |
| ControlAccounts.BoxesAddUp | internal/accounting/reports_repo.go:80-134 | However rates are edited, the four boxes of a return come to the net sales of its documents, credit notes negated. |
| Removals.WhenReverseSucceeds | internal/accounting/service.go:291-318 | An entry of a sound journal can be reversed if and only if it has lines, its date is open, and no account it names is archived. |
| Removals.WhenVoidSucceeds | internal/accounting/invoice.go:398-428 | A document can be voided if and only if it is live and unpaid, today is open, and it posted something, only to accounts that are not archived. |
| Removals.WhenPaymentDeletionSucceeds | internal/accounting/payment.go:139-154 | A payment can be deleted if and only if its date and today are open and neither of its accounts is archived. |
| Removals.WhenExpenseDeletionSucceeds | internal/accounting/expense.go:164-181 | An expense can be deleted if and only if it was not rebilled, its date and today are open, and no account it posted to is archived. |
| Removals.WhenFundingDeletionSucceeds | internal/accounting/funding.go:243-273 | A funding movement can be deleted if and only if its date and today are open, neither account is archived, and a loan is still covered today. |
| Removals.WhoArchivesASystemAccount | internal/accounting/service.go:92-132 | The only step that archives a system account is an accepted edit of it that carries the flag. |
| Removals.ZeroIsBilledAsOne | internal/accounting/invoice.go:225-276 | A line of quantity zero is priced exactly as one unit, at its unit price. |
| Removals.NoHoursBillOneHour | internal/accounting/crm_bridge.go:116-194 | A time entry of no hours bills one hour at its rate. |
| Cases.WorthlessCannotBeVoided | internal/accounting/invoice.go:398-428 | A live, unpaid document worth nothing, with today open, whose void is refused. |
| Cases.ArchivedAccountBlocksVoid | internal/accounting/service.go:92-119 | An edit archives the sales account, which archiving refuses to do, and the invoice that could be voided before cannot be any more. |
| Removals.WhenPostIsTaken | internal/accounting/service.go:200-260 | A posting is taken if and only if its date is open, each line fills exactly one side with a positive amount on an account in use, and the sides are equal; it is then appended as handed in. |
| Recordings.WhenFundingIsTaken | internal/accounting/funding.go:92-235 | Funding is taken if and only if it is positive, its date is open, the cash account is an asset, the owner's account is there, of the right type and in use when named, and a repayment is within the loan balance at its date. |
| Recordings.FundingMovesMoney | internal/accounting/funding.go:82-182 | Capital and loans move their amount from the owner's account into cash, repayments out of it, on the day asked or today; no other account moves. |
| Recordings.FundingMovesStatements | internal/accounting/funding.go:82-91 | Capital raises assets and equity, a loan assets and debts, a repayment lowers both, and none of them is profit. |
| Recordings.WhenExpenseIsTaken | internal/accounting/expense.go:72-158 | An expense is taken if and only if its date is open, it has a vendor or description, a positive net, a cost or asset account, an asset or liability to pay from, a known rate or none, tax that is not negative, a client when billable, and an input tax account when there is tax to reclaim. |
| Recordings.ExpenseMovesMoney | internal/accounting/expense.go:126-158 | It moves net and tax at its rate out of what it was paid from: tax to the input account when reclaimable, and into the cost otherwise. |
| Recordings.ExpenseMovesStatements | internal/accounting/expense.go:62-71 | It lowers the profit of the windows that hold its date by its cost, or becomes an asset, and tax that is reclaimed is no cost. |
| Recordings.ExpenseMovesReturn | internal/accounting/reports_repo.go:120-132 | It adds its net, not its gross, to the purchases of the windows that hold its date, and its tax to the input tax when reclaimable. |
| Recordings.DeletionMovesReturn | internal/accounting/reports_repo.go:120-132 | Deleting it takes exactly that out again. |
| Recordings.IssuingMovesReturn | internal/accounting/reports_repo.go:80-118 | A document issued adds its tax to the output tax and each line to one box, zero-rated, exempt and reverse-charged sales apart and standard, reduced and untagged ones together; a credit note takes them out. |
| Undo.DeletingUndoesPayment | internal/accounting/payment.go:139-154 | Deleting a payment just recorded restores every document and the balance of every account, and leaves the rest of the books alone. |
| Undo.DeletingUndoesExpense | internal/accounting/expense.go:164-181 | Deleting an expense just recorded restores the balance of every account and leaves the rest of the books alone. |
| Undo.DeletingUndoesFunding | internal/accounting/funding.go:243-273 | The same for a funding movement of any kind. |
| Undo.VoidingUndoesIssue | internal/accounting/invoice.go:398-428 | Voiding a document just issued restores the balance of every account; the document stays, void, under the number it was given. |
| Numbering.IssuedDocumentsAreFrozen | internal/accounting/invoice_repo.go:165-231 | Through any further run an issued document keeps its number, lines, totals, dates and entry, never returns to draft, and once void stays as it is. |
| Numbering.NumberReads | internal/accounting/invoice_repo.go:325-340 | A number is the prefix of its series and its count in decimal, padded with zeros to four digits and no further. |
| Numbering.IssueTakesTheNextNumber | internal/accounting/invoice_repo.go:236-268 | Issuing gives a document the next number of its own series and moves that series by one and the other not at all. |
| Numbering.PrintedIsInjective | internal/accounting/invoice_repo.go:325-340 | Whatever the prefixes and paddings, a printed number determines its series and count, so long as neither prefix reads as the other with a number begun. |
| Numbering.ContinuingPrefixesCollide | internal/accounting/invoice_repo.go:325-340 | That condition is needed: under prefixes "A" and "A1" two series print alike. |
| Numbering.NextNumberIsFree | internal/accounting/invoice_repo.go:325-340 | No document holds the next number of a series, so the uniqueness constraint never fires on issue. |
| Numbering.NumberingIsGapFree | internal/accounting/invoice_repo.go:236-340 | In every reachable state the numbers held in each series are exactly those from its start up to the next one, each held by one document, and drafts hold none. |
| Numbering.IssueIsNeverRejected | internal/accounting/invoice.go:285-305 | Issuing succeeds if and only if the document is a draft dated in an open period and the system accounts it needs exist. |
| Drafting.WhatIsOffered | internal/accounting/crm_bridge.go:49-71 | Time is offered if and only if it is billable, not flagged, within the filter, and on no line of a document that is not void. |
| Drafting.OrderOfTheOffer | internal/accounting/crm_bridge.go:71-75 | It is offered by client, then engagement, then date, then id. |
| Drafting.WhenTimeIsBilled | internal/accounting/crm_bridge.go:116-194 | Time is billed if and only if a client or engagement is named, something is on offer, all of it for one known client at rates that are not zero, and the books can price it. |
| Drafting.BilledAsOffered | internal/accounting/crm_bridge.go:116-194 | The draft is an invoice of today with one line per entry in that order, its hours at its rate and its id, for the client they share and the engagement if they share one. |
| TimeBilling.IssuingFlagsWhatItBills | internal/accounting/invoice_repo.go:307-314 | Issuing flags exactly the entries the document's lines name and changes nothing else of the timesheet. |
| TimeBilling.TimeIsBilledOnce | internal/accounting/crm_bridge.go:49-194 | Over any run whose time links come from the timesheet, each time entry is on at most one line of the documents that are not void, however the CRM rewrites its flags. |
| TimeBilling.VoidingDoesNotReleaseTime | internal/accounting/invoice_repo.go:307-314 | Once a document is issued, the hours it billed are not offered again whatever the books do next, voiding included, until the CRM itself clears the flag. |
| Books.Unbilled | internal/accounting/crm_bridge.go:49-97 | The entries that can be billed, each once, in billing order; which those are and what the order is, is `WhatIsOffered` and `OrderOfTheOffer`. |
| OwnerLoan.LoanIsNeverOverdrawn | internal/accounting/funding.go:92-182 | With loan entries dated in order and not in the future, the loan balance is never negative as of any date. |
| OwnerLoan.WhenStepKeepsLoanWhole | internal/accounting/funding.go:347-359 | Over any step of any kind, a loan that was never overdrawn stays so if and only if its balance covers what the appended entry takes out, on its date and on every later one. |
| OwnerLoan.WhenReversalKeepsLoanWhole | internal/accounting/service.go:291-318 | A reversal leaves no date overdrawn if and only if the balance covers what the entry had lent, from its date on. |
| OwnerLoan.WhenExpenseDeletionKeepsLoanWhole | internal/accounting/expense.go:164-181 | The deletion of an expense leaves no date overdrawn if and only if the balance covers, today and later, what it lent. |
| OwnerLoan.DeletedExpenseOverdraws | internal/accounting/expense.go:112-124 | A concrete expense, paid by the owner and repaid since, whose deletion is accepted and overdraws the loan. |
| OwnerLoan.WhenRepaymentKeepsLoanWhole | internal/accounting/funding.go:144-160 | A recorded repayment leaves no date overdrawn if and only if the balance covers it on its own date and every later one. |
| OwnerLoan.BackdatedRepaymentOverdraws | internal/accounting/funding.go:144-160 | A concrete backdated repayment that passes the guard and overdraws a later date. |
| OwnerLoan.GuardWatchesTheDefaultLoan | internal/accounting/funding.go:144-160 | A repayment naming another liability account is checked against the default loan's balance, which it leaves alone, and not against the account it draws down. |
| OwnerLoan.WhenDeletingKeepsLoanWhole | internal/accounting/funding.go:243-273 | A deleted loan leaves no date overdrawn if and only if the balance covers it today and on every later date. |
| OwnerLoan.DeletedLoanOverdraws | internal/accounting/funding.go:243-273 | A concrete loan, with a repayment dated ahead, whose deletion passes the guard and overdraws that later date. |
| OwnerLoan.DeletingOnLoan | internal/accounting/funding.go:243-273 | Deleting a loan or repayment takes it back from today on and leaves earlier dates as they were; a loan goes only while the balance still covers it. |
| Housekeeping.StaysTidy | internal/accounting/service.go:80-189 | In every reachable state rates lie between 0 and 10000 basis points and untaxed kinds at 0, the default rate exists and terms are at most a year, no period ends before it starts, and account codes are trimmed and all different. |
| Housekeeping.StepKeepsNames | internal/accounting/service.go:80-132 | No step leaves an account with a blank or untrimmed code or name, or two accounts with one code. |
| Housekeeping.StepKeepsRates | internal/accounting/service.go:162-189 | No step leaves a rate outside its bounds, an untaxed kind that charges, or a rate missing that was there. |
| Housekeeping.StepKeepsSettings | internal/accounting/service.go:369-388 | No step leaves default terms outside 0 to 365 days or a default rate that does not exist. |
| Housekeeping.StepKeepsPeriods | internal/accounting/service.go:335-350 | No step leaves a period that ends before it starts; what saving one closes is `WhatSavingAPeriodCloses`. |
| Housekeeping.WhenAccountIsOpened | internal/accounting/service.go:80-90 | An account is opened if and only if its code and name are not blank and no account has the code; it is added as asked, trimmed, and never as a system account. |
| Housekeeping.WhenAccountIsEdited | internal/accounting/service.go:92-119 | An edit is taken if and only if the account exists, its code stays its own and its type changes only while no journal line names it; the key stays, the rest is as asked. |
| Housekeeping.WhenAccountIsArchived | internal/accounting/service.go:121-132 | Any account but a system account is archived, any is taken back into use, and nothing else about it or the books changes. |
| Housekeeping.WhenRateIsSaved | internal/accounting/service.go:162-189 | A rate is saved if and only if it is between 0 and 10000 basis points, at 0 for a kind that charges nothing, and new or already there; it is stored as given and no other rate moves. |
| Housekeeping.WhenSettingsAreSaved | internal/accounting/service.go:369-388 | Settings are saved if and only if terms are 0 to 365 days and the default rate is none or exists. |
| Housekeeping.TaxStaysWithin | internal/accounting/invoice.go:225-276 | In every reachable state, every document line is its quantity times its price, rounded, and one that names a rate names one on file and its tax lies between nothing and its net. |
| Housekeeping.PreparedTaxIsWithin | internal/accounting/invoice.go:250-272 | A prepared line's tax lies between nothing and its net unless it names no rate, there is no default one, and its caller's own percentage is outside 0 to 100. |
| Service.AccountingService.LockPeriod | internal/accounting/service.go:335-350 | Accepts a period unless it ends before it starts; afterwards a date is closed if and only if the period as saved is locked and holds it, or another locked period does. |
| Service.AccountingService.UpdateAccount | internal/accounting/service.go:92-119 | Keeps the system key and refuses to retype an account that was posted to. |
| Service.AccountingService.Post | internal/accounting/service.go:200-260 | The validation loop accepts exactly the postable entries in open periods and appends them; anything else changes nothing. |
| Service.AccountingService.Reverse | internal/accounting/service.go:291-318 | Posts the mirror of an entry under the original's source, through the same validation. |
| Service.AccountingService.PriceDraftLines | internal/accounting/invoice.go:225-276 | Stops at the first line that cannot be priced; otherwise the totals are the sums of the priced lines. |
| Service.AccountingService.PrepareDraft | internal/accounting/invoice.go:168-278 | The draft or the refusal of the specification; what each field of the draft is, is `PreparedAsAsked`. |
| Service.AccountingService.CreateDraft | internal/accounting/invoice.go:114-131 | Appends the prepared draft for a client the CRM knows, or changes nothing; what it then says is `CreatedAsAsked`. |
| Service.AccountingService.UpdateDraft | internal/accounting/invoice.go:133-151 | Replaces a draft, keeping its kind, number, paid total, correction and entry; refuses anything issued. |
| Service.AccountingService.DeleteDraft | internal/accounting/invoice.go:153-163 | Removes a draft and nothing else; refuses anything issued. |
| Service.AccountingService.CreditNote | internal/accounting/invoice.go:436-474 | Drafts a note against an issued invoice, with the lines given or all of the original's without their time. |
| Service.AccountingService.InvoicePostings | internal/accounting/invoice.go:315-381 | Receivable first, income grouped in first-named order, then tax; fails only if the sides differ. |
| Service.AccountingService.GroupIncome | internal/accounting/invoice.go:331-345 | The map holds, for exactly the accounts the lines name, the sum of their net amounts. |
| Service.AccountingService.AllocateNumber | internal/accounting/invoice_repo.go:325-340 | Gives out the next number of the series and bumps that series alone. |
| Service.AccountingService.Issue | internal/accounting/invoice.go:285-305 | Issues a draft in an open period with the accounts it needs, or changes nothing. |
| Service.AccountingService.IssueInvoice | internal/accounting/invoice_repo.go:236-320 | Number, entry, document and time flags move together or not at all. |
| Service.AccountingService.VoidInvoice | internal/accounting/invoice.go:398-428 | Reverses an unpaid document's entry today and marks it void, or changes nothing. |
| Service.AccountingService.RecalcInvoicePayments | internal/accounting/invoice_repo.go:352-369 | The paid total becomes the sum of the payment rows; a live document is issued at nothing, partly paid below its total and paid from there on. |
| Service.AccountingService.RecordPayment | internal/accounting/payment.go:55-134 | Does exactly what the state machine's step does, or changes nothing; which payments that takes and what it does to document and accounts is `WhenPaymentIsTaken`, `PaymentSettles` and `PaymentMovesMoney`. |
| Service.AccountingService.StorePayment | internal/accounting/payment.go:230-279 | The row, its two-sided entry and the refreshed document together. |
| Service.AccountingService.DeletePayment | internal/accounting/payment.go:139-154 | Reverses the entry, removes the row and refreshes the document, or changes nothing. |
| Service.AccountingService.RecordExpense | internal/accounting/expense.go:72-158 | Does exactly what the state machine's step does, or changes nothing; which expenses that takes, at what tax, and what they move is `WhenExpenseIsTaken` and `ExpenseMovesMoney`. |
| Service.AccountingService.StoreExpense | internal/accounting/expense.go:269-316 | The row and its entry together, subject to the tables' checks. |
| Service.AccountingService.DeleteExpense | internal/accounting/expense.go:164-181 | Reverses and removes an expense that was not rebilled, or changes nothing. |
| Service.AccountingService.RecordFunding | internal/accounting/funding.go:92-182 | Does exactly what the state machine's step does, or changes nothing; which funding that takes and which way the money moves is `WhenFundingIsTaken` and `FundingMovesMoney`. |
| Service.AccountingService.DeleteFunding | internal/accounting/funding.go:243-273 | Reverses and removes a movement, unless it is a loan today's balance no longer covers. |
| Service.AccountingService.UnbilledTime | internal/accounting/crm_bridge.go:49-97 | The loop returns exactly the unbilled entries of the specification, in the order the query asks for. |
| Service.AccountingService.DraftFromUnbilledTime | internal/accounting/crm_bridge.go:116-194 | Drafts one line per entry for one client at non-zero rates, pinned to an engagement when there is just one. |
| Service.AccountingService.TrialBalance | internal/accounting/reports.go:84-114 | The report over the service's own journal: each account's excess of debit on the one side, of credit on the other, balanced whenever every entry is. |
| Service.AccountingService.ProfitAndLoss | internal/accounting/reports.go:118-147 | Income accounts by what they were credited beyond their debits over the window, expense accounts the other way, and the profit as the one sum less the other. |
| Service.AccountingService.BalanceSheet | internal/accounting/reports.go:151-199 | The position at a date: assets by debit less credit, liabilities and equity by credit less debit, earnings to date, balanced whenever every entry is. |
| Service.AccountingService.VATReturnSummary | internal/accounting/reports.go:357-387 | The boxes and taxes of a period and whether the control accounts disagree. |
| Service.AccountingService.Purchases | internal/accounting/reports_repo.go:120-132 | Net purchases of the window, and the tax of the reclaimable ones. |
| Service.AccountingService.NetSales | internal/accounting/reports_repo.go:80-134 | Net sales of one treatment over live documents in the window, credit notes negated. |
| Portfolio.HoldingsFromLedger | internal/fintech/service.go:300-373 | The in-place replay returns the open positions in first-seen order and the realized total of the specification, and fails if and only if some quantity does not parse. |
| Portfolio.RoundCentsIsNearest | internal/fintech/service.go:378-382 | Rounding a rational number of cents moves it by at most half a cent, and an exact half away from zero. |
| Portfolio.HoldingsShowPositions | internal/fintech/service.go:347-373 | What is listed shows what is left: the quantity, the nearest cent to the cost still in it, and the nearest cent to that cost per unit. |
| Portfolio.OpenPositionsAreListed | internal/fintech/service.go:347-352 | Exactly the instruments of which something is left are listed. |
| Portfolio.UnitsAreConserved | internal/fintech/service.go:325-346 | Over any ledger the quantity of a position is what was bought of the instrument less what was sold, below nothing when oversold. |
| Portfolio.InstrumentsAsFirstNamed | internal/fintech/service.go:312-321 | They are listed in the order the ledger first names them. |
| Portfolio.ReplayConserves | internal/fintech/service.go:300-346 | Over any ledger at all, oversold ones included, realized profit less the cost left in all positions is the net cash of the trades, to within half a cent per sell. |
| Portfolio.ClosedMeansCostless | internal/fintech/service.go:329-352 | A position sold down to nothing has no cost left, so dropping it loses nothing. |
| Portfolio.MoneyIsConserved | internal/fintech/service.go:300-373 | Realized profit less the cost of open holdings is the net cash of all trades, to within half a cent per sell and per holding. |
| Portfolio.SellKeepsAverage | internal/fintech/service.go:329-339 | A partial sell leaves the average cost of what remains unchanged. |
| Portfolio.AverageStaysWithinBuys | internal/fintech/service.go:325-346 | The average cost of an open position lies between its cheapest and its dearest unit cost ever paid. |
| Portfolio.RealizedByInstrument | internal/fintech/service.go:312-346 | Realized profit is the sum of what each instrument's own rows realize. |
| Portfolio.InterleavingDoesNotMatter | internal/fintech/service.go:312-346 | Ledgers that agree on each instrument's own rows give the same positions and realized total, however they interleave. |
| Scanner.JsonObjectIn | internal/fintech/structured.go:187-219 | The scanning loop answers what the specification does: nothing found, never closed, does not parse, or the object as written. |
| Scanner.ClosingBrace | internal/fintech/structured.go:193-216 | The loop over depth, strings and escapes counts the characters up to the brace that closes the first one, or finds none. |
| Scanner.FindsTheObject | internal/fintech/structured.go:187-219 | Any JSON object, whatever its strings hold, is returned exactly as written from behind any prefix without an opening brace and before anything at all. |
| Scanner.TruncationIsReported | internal/fintech/structured.go:187-219 | A reply cut off anywhere inside the object is reported as never closed. |
| EphemeralPool.Ephemeral.EvictLocked | internal/agent/transcript.go:198-225 | Leaves exactly the newest unexpired sessions up to the limit under last use then id, whatever order the map yields, if and only if the empty id is not one that has to go. |
| EphemeralPool.Ephemeral.OldestId | internal/agent/transcript.go:209-223 | The scan finds the least recently used session, the smallest id among ties, in any iteration order, unless that id is empty. |
| EphemeralPool.Ephemeral.Append | internal/agent/transcript.go:115-140 | Adds the messages and evicts; the size bound holds afterwards. |
| EphemeralPool.Ephemeral.Seed | internal/agent/transcript.go:159-167 | Replaces what is held and evicts; the size bound holds afterwards. |
| EphemeralPool.Ephemeral.Messages | internal/agent/transcript.go:142-154 | Returns what is held and counts as a use. |
| EphemeralPool.Ephemeral.Drop | internal/agent/transcript.go:190-194 | Forgets one session and no other. |
| EphemeralPool.NewestSize | internal/agent/transcript.go:198-225 | Eviction keeps the whole pool when it fits and exactly the maximum otherwise. |
| EphemeralPool.KeptAreNewer | internal/agent/transcript.go:198-225 | Everything kept is kept as it was and is newer than everything dropped. |
| EphemeralPool.DroppingTheOldest | internal/agent/transcript.go:198-225 | Dropping the oldest of too many never changes which are the newest k. |
| EphemeralPool.PickIsOldest | internal/agent/transcript.go:209-223 | The victim chosen is the oldest whatever the iteration order and whatever other ids are held, when its own id is not empty. |
| EphemeralPool.EmptyIdEscapes | internal/agent/transcript.go:209-223 | When the oldest id is empty, the choice depends on the iteration order. |
| EphemeralPool.JustWrittenSurvives | internal/agent/transcript.go:115-140 | While the clock does not run backwards, the session just written survives its own eviction if and only if fewer than the maximum share its instant with a greater id. |
| EphemeralPool.WrittenSurvives | internal/agent/transcript.go:159-225 | Whatever the clock does, a session written now survives if and only if fewer than the maximum of the other unexpired ones would still be newer, which can be looked up before writing. |
| Transcripts.WhenMemoryAndStoreAgree | internal/agent/transcript.go:234-305 | Over any run, with evictions, failed writes, deletions and restarts: at every moment the stored messages are an ordered part of memory, nothing said off the record is on disk in a message row or a title, and of a conversation off the record no message row is on disk, if and only if every write and every naming met the conditions that can be looked up before it. |
| Transcripts.WhenWritingAgrees | internal/agent/transcript.go:264-277 | On every route, whether or not the store takes the write: exactly when what is on disk stays an ordered part of memory. |
| Transcripts.FreshRouteKeeps | internal/agent/transcript.go:234-248 | A route chosen now keeps both promises whatever is written to it, so a turn not overtaken is safe. |
| Transcripts.WhenSayingStaysPrivate | internal/agent/transcript.go:264-277 | A turn that has something to say keeps it off the disk when it should if and only if the write fails, the route does not persist, or the conversation is still on the record. |
| Transcripts.WhenTheTitleTells | internal/api/turn.go:62-69 | A question said off the record ends up on disk as the title if and only if it is the first put to a conversation without a title that is off the record. |
| Transcripts.TitleTellsTheFirstQuestion | internal/api/turn.go:62-69 | A run, for any conversation, question and limits, that is off the record from the start and writes where it should, and whose first question is the stored title. |
| Transcripts.TitleSurvivesTheSwitch | internal/store/sessions.go:162-191 | Throwing the switch erases message rows and leaves the title as it was. |
| Transcripts.Agent.PostMessage | internal/api/turn.go:43-69 | A blank question is refused; any other names a conversation without a title and then picks the turn's route. |
| Transcripts.OffAndOnComesApart | internal/agent/transcript.go:264-277 | A run, for any conversation, text and limits, in which a turn overtaken by off and on again leaves on disk what memory lacks. |
| Transcripts.EvictionComesApart | internal/agent/transcript.go:198-277 | A run, for any two conversations and any limits, in which eviction in the middle of a turn leaves memory without what is on disk. |
| Transcripts.TurnInFlightReachesTheStore | internal/agent/agent.go:188-210 | A run, for any conversation and text, in which a turn already begun writes to the store after the switch. |
| Transcripts.SecondSwitchForgets | internal/agent/transcript.go:294-305 | Switching off again starts memory from the store. |
| Transcripts.Agent.TranscriptFor | internal/agent/transcript.go:234-248 | Memory when off the record or already held there, otherwise the store. |
| Transcripts.Agent.Append | internal/agent/transcript.go:264-277 | Memory first, then the store when the route persists; a refused store write keeps what memory took. |
| Transcripts.Agent.DeleteMessage | internal/store/sessions.go:228-246 | One message leaves the disk, its conversation keeps the rest in order, and memory keeps what it holds. |
| Transcripts.Agent.AppendToStore | internal/store/sessions.go:306-345 | All the messages or none, and none for a conversation that is gone. |
| Transcripts.Agent.SetRecord | internal/agent/transcript.go:294-305 | Memory is seeded before the rows are erased, so a failed erase loses nothing. |

## Left out

* HTTP handlers, tool servers, the browser and terminal interfaces, configuration, and everything that calls a foreign service.
* SQL text and drivers: tables are sequences, and each service call is one step, so a crash between a reversal and the deletion it belongs to is not modelled. Failures of the database itself are modelled for the transcript store only.
* Memos, labels, notes, error texts, display joins, account parents, currency, fiscal-year month and the names of VAT rates. Four kinds of refusal are kept apart: not found, invalid, period locked, rejected by a table check.
* Dates are ordered integers, so malformed date strings and the calendar are not modelled.
* Amounts in the books are unbounded integers; 64-bit wrap is modelled where amounts are printed and parsed and nowhere else.
* Floating point: `FromFloat`, `MilliFromFloat` and the float step inside `ratToCents` and the average cost are replaced by exact rounding.
* `Milli.String`, `ParseMoney` on text that was not printed by `String`, and the decimal text of a holding's quantity.
* Aged receivables and the dashboard.
* Rebilling an expense: an expense row keeps its rebilled reference, but document lines do not carry the expense they rebill.
* Trade recording and its duplicate check, the reversed display order of the ledger, and market values.
* `json.Valid` is a parameter of the scanner. Its JSON texts are a superset of the grammar in sections 4 and 7 of RFC 8259, read as characters instead of bytes; the characters that steer the scan are all ASCII.
* The audit log, which records tool calls and their outcomes whether or not a conversation is on the record. Titles are cut at 60 characters instead of 60 bytes.
* The retry loop around the scanner, and the agent's turn loop: what a model answers is arbitrary text here.
* An agent without a memory pool, the search indexer, and the scoping of conversations to a client.
- Service.AccountingService.BalanceSheet: the flag is proved true for every journal a run can reach; it is not claimed of a journal written by other means.
