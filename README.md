# Bank account ledger — a Dafny model

This project models an in-memory bank-account ledger that runs behind a text
menu: create an account, list the accounts, deposit, withdraw, rename an
account holder, exit. The ledger is an insertion-ordered list of accounts.
Each account has an account number, a holder name and a balance. Nothing is
persisted.

Two modules follow the program's two parts:

- `BankAccounts` (`account.dfy`) models the `BankAccount` class. The datatype
  `Account` is the value of an account at one moment. The functions
  `Deposited`, `Withdrawn` and `Renamed` say what each guarded operation does
  to that value and which `Outcome` it reports (`Ok`, `InvalidAmount`,
  `InsufficientFunds`). The class `BankAccount` keeps the three fields and
  updates them in place; its methods are proved against those functions. The
  getters `GetAccountNumber`, `GetAccountHolderName` and `GetBalance` are
  plain reads of the components of `Value()`.
- `Ledger` (`ledger.dfy`) models the menu loop in `main`. The functions on
  `seq<Account>` give the ledger's value after each action: `FirstIndex` is
  the first account with a number, `ApplyAtFirst` applies an account
  operation to that account only, `Step` is one pass through the `switch`,
  and `Run` is the whole `do`/`while` loop over a sequence of menu entries.
  The class `AccountLedger` holds distinct `BankAccount` objects, as the
  source's vector of values does. `Create`, `UpdateFirst` and `Dispatch`
  change the ledger in place; `List` and `FindFirst` only read it. `RunMenu`
  is the loop itself. Each of them is proved against those functions.

The balance is a `real`, so arithmetic is exact. Menu input reaches the model
already parsed: an `Entry` carries the menu choice and the account number,
name and amount that the chosen action reads. Each action returns a `Report`
value in place of printed text; a lookup that finds no account reports
`AccountNotFound`.

The model keeps the source's lenient behaviour. Account numbers need not be
unique, and the initial balance of a new account is not checked. A lookup by
number finds only the first account with that number.

## Model

| member | source | states |
|---|---|---|
| `BankAccounts.Deposited` | main.cpp:29-36 | A deposit succeeds exactly when the amount is positive, and then the balance grows by exactly the amount. A non-positive amount reports an invalid amount and leaves the account unchanged. The number and holder never change. |
| `BankAccounts.Withdrawn` | main.cpp:39-50 | The non-positive check comes first: amount ≤ 0 gives an invalid amount. Otherwise amount > balance gives insufficient funds. The withdrawal succeeds exactly when 0 < amount ≤ balance. On success the balance drops by the amount and ends at least 0, so `amount == balance` leaves 0. A refused withdrawal leaves the account unchanged, and the number and holder never change. |
| `BankAccounts.Renamed` | main.cpp:26 | Renaming sets the holder to the new name, which may be empty. The number and balance are kept. |
| `BankAccounts.WithdrawUndoesDeposit` | main.cpp:29-50 | On a non-negative balance, depositing a positive amount and then withdrawing the same amount gives back the original account, and both steps report Ok. |
| `BankAccounts.NegativeBalanceBlocksRoundTrip` | main.cpp:17-50 | On a negative balance, which only an unchecked initial balance can produce, the same deposit-then-withdraw round trip is refused with insufficient funds. |
| `BankAccounts.GuardsKeepBalanceNonNegative` | main.cpp:29-50 | Neither deposit nor withdrawal can make a non-negative balance negative. |
| `BankAccounts.BankAccount.GetAccountNumber` | main.cpp:21 | A pure read (`reads this`, no `modifies`) that returns the number component of the account's value. |
| `BankAccounts.BankAccount.GetAccountHolderName` | main.cpp:22 | A pure read that returns the holder component of the account's value. |
| `BankAccounts.BankAccount.GetBalance` | main.cpp:23 | A pure read that returns the balance component of the account's value. |
| `BankAccounts.BankAccount.Empty` | main.cpp:14 | The default account has an empty number, an empty name and a zero balance. |
| `BankAccounts.BankAccount.constructor` | main.cpp:17-18 | A new account holds exactly the given number, name and initial balance, with no check on the balance. |
| `BankAccounts.BankAccount.SetAccountHolderName` | main.cpp:26 | The object's new value is `Renamed` of its old value: only the name changes, and it changes unconditionally. |
| `BankAccounts.BankAccount.Deposit` | main.cpp:29-36 | The returned outcome and the object's new value are those `Deposited` gives for the old value. |
| `BankAccounts.BankAccount.Withdraw` | main.cpp:39-50 | The returned outcome and the object's new value are those `Withdrawn` gives for the old value. |
| `Ledger.FirstIndex` | main.cpp:148-156 | The result is the position of the first account with the given number. No earlier account has that number. There is no result exactly when no account has it. |
| `Ledger.Apply` | main.cpp:151-194 | The account method a ledger action calls (deposit at line 151, withdraw at 172, rename at 194). It never changes the account number, and a refused operation leaves the account as it was. A rename always reports Ok and changes only the holder name. A deposit or withdrawal never changes the holder name. |
| `Ledger.ApplyAtFirst` | main.cpp:148-200 | The scan-and-update of cases 3 to 5. The ledger keeps its length and every account number. The result is "not found" exactly when no account has the number, and then the ledger is unchanged. Which account changes, and how, is stated by `Ledger.ApplyAtFirstTouchesOnlyFirst`. |
| `Ledger.ApplyAtFirstTouchesOnlyFirst` | main.cpp:148-200 | Only the first account with the number may change. It becomes what the account operation makes of it, and that operation's outcome is reported. Every other account stays unchanged, later duplicates included. |
| `Ledger.CreateAppends` | main.cpp:105-121 | Create appends exactly one account at the end, with the given number, name and balance. All earlier accounts are unchanged, and the report is always "created". |
| `Ledger.CreateIsLenient` | main.cpp:105-119 | Create accepts an account number that is already in use and a negative initial balance. The resulting ledger holds a duplicate number and a negative balance. |
| `Ledger.ListIsIdempotent` | main.cpp:124-137 | Listing reports "no accounts" exactly when the ledger is empty. Otherwise it reports every account once, in insertion order. It never changes the ledger, so listing twice reports the same thing both times. |
| `Ledger.OtherChoicesChangeNothing` | main.cpp:204-209 | Exit (choice 6) and any choice outside 1 to 6 leave the ledger unchanged. They report goodbye and invalid choice respectively. |
| `Ledger.Step` | main.cpp:104-210 | One pass through the `switch`. No action removes an account or changes an account number, so the old ledger's numbers are a prefix of the new one's. List, exit and every choice outside 1 to 6 leave the ledger unchanged. What each case reports is stated by `Ledger.CreateAppends`, `Ledger.ListIsIdempotent`, `Ledger.OtherChoicesChangeNothing` and `Ledger.ApplyAtFirst`. |
| `Ledger.StepKeepsNonNegative` | main.cpp:104-210 | If every balance is non-negative and a create uses a non-negative initial balance, every balance is still non-negative after any menu action. |
| `Ledger.Run` | main.cpp:99-212 | The `do`/`while` loop over a sequence of menu entries. It handles at least one entry when there is input, never more entries than there are, and produces one report per entry handled. When the loop stops is stated by `Ledger.RunEndsOnlyAtExit`. |
| `Ledger.RunCons` | main.cpp:99-212 | One pass of the loop: the session over `e` followed by more entries is the pass for `e`, then stop if `e` chose 6, else the session over the rest from the new ledger. |
| `Ledger.RunEndsOnlyAtExit` | main.cpp:99-212 | No handled entry except the last chose 6. The loop stops before the input runs out only right after an entry that chose 6. |
| `Ledger.RunKeepsNumbers` | main.cpp:99-212 | Over a whole session, accounts are never removed or renumbered. |
| `Ledger.RunKeepsNonNegative` | main.cpp:99-212 | A session that starts with non-negative balances and only creates accounts with non-negative initial balances ends with non-negative balances. |
| `Ledger.SampleSteps` | main.cpp:104-210 | Gives the ledger and the report after each pass of a sample session. |
| `Ledger.SampleSessionTail` | main.cpp:99-212 | The last three passes of the sample session (rename, deposit into the unknown Z9, exit) report Ok, not found and goodbye, and end with A1 held by Alicia. |
| `Ledger.SampleSession` | main.cpp:99-212 | The sample session runs: create A1 for Alice with 100, deposit 50, withdraw 200, rename to Alicia, deposit into the unknown Z9, exit. It reports created, Ok, insufficient funds, Ok, not found, goodbye. It ends with A1 held by Alicia with balance 150. |
| `Ledger.AccountLedger.constructor` | main.cpp:96 | The ledger starts empty. |
| `Ledger.AccountLedger.Create` | main.cpp:105-121 | The ledger's new value is its old value with the new account appended. The new account object is fresh. |
| `Ledger.AccountLedger.List` | main.cpp:124-137 | The loop over the accounts reports "no accounts" exactly when the ledger is empty. Otherwise it reports the list of every account's number, holder and balance, in insertion order. |
| `Ledger.AccountLedger.FindFirst` | main.cpp:148-155 | The scan with a found flag and a break finds an account exactly when some account has the number. The index it returns is the first such account, which is the index `FirstIndex` gives. |
| `Ledger.ApplyTo` | main.cpp:151-194 | Calling the account method that matches the operation (deposit, withdraw or rename) changes that one account object as `Apply` says. |
| `Ledger.AccountLedger.UpdateFirst` | main.cpp:139-201 | Deposit, withdraw and rename by number change the ledger's value exactly as `ApplyAtFirst` says, in place. The ledger keeps the same account objects. |
| `Ledger.AccountLedger.Dispatch` | main.cpp:104-210 | One pass through the `switch` changes the ledger's value and reports exactly as `Step` says for the entry's choice. |
| `Ledger.RunMenu` | main.cpp:94-215 | Starting from an empty ledger, the `do`/`while` loop ends with the ledger value, the reports and the number of passes that `Run` gives for the entries. |

## Left out

- Reading input (`readDouble`, `readInt`, `std::cin >>` tokens and `getline` lines, main.cpp:54-81 and the reads in each case). These are console I/O. Each menu pass takes an already parsed `Entry`, so the retry loop on malformed numbers is not modelled.
- The menu text and every printed message (`showMenu`, main.cpp:83-92, and each `std::cout`). Actions return a `Report` value instead. A successful deposit or withdrawal does not carry the printed new balance, but the ledger's new value holds it.
- The `double` balance. Balances and amounts are exact `real`s, so IEEE-754 rounding, overflow, infinities and NaN are not modelled.
- End of input. The source's `readInt` would re-prompt forever at end of input. `Run` and `RunMenu` instead stop when the entries run out.

