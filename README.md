# Bank account console: a Dafny model

This project models a small bank-account console program written in C++ (`pr4.cpp`):
- The class hierarchy: `BankAccount` and its three variants, `SavingsAccount`, `CheckingAccount` and `FixedDepositAccount`.
- The rules by which each variant deposits, withdraws and computes interest.
- The `vector<BankAccount*>` registry that the menu loop appends to and searches.
- The `do … while` menu loop that dispatches on the number the user types.

It has four modules:

- `Accounts` (`accounts.dfy`) models one account as a value.
  - `Kind` tags the dynamic class. `Plain` is the base class, `Savings(rate)`, `Checking(overdraftLimit)` and `FixedDeposit(term, rate)` are the variants.
  - `Deposit`, `Withdraw` and `InterestOf` model the member functions; virtual dispatch becomes a `match` on the kind.
  - `Floor` is the lowest balance a successful withdrawal may leave: 0, or `-overdraftLimit` for checking.
- `Registry` (`registry.dfy`) models the registry as a sequence of accounts in insertion order.
  - `FirstMatch` is the lookup by account number: the first match in insertion order.
  - `Transact` runs a deposit or withdrawal on the first match, or reports `NotFound`.
- `Menu` (`menu.dfy`) models the menu loop.
  - One `Entry` is the choice and the fields typed in one round.
  - `Step` is the `if (choice == …)` chain.
  - `RunFrom`/`Run` repeat `Step` until choice 8 or the end of the input.
- `Bank` (`bank.dfy`) holds the imperative model, proved against the three value modules.
  - `BankAccount` is a class whose `balance` is updated in place.
  - `AccountRegistry` is a class holding a `seq<BankAccount>`. It appends new accounts and finds the first match with a `found` flag and a `break`.
  - `RunMenu` is the menu loop.

Money is `real`. `term / 12.0` is the real division of `term as real`. Results are values instead of printed text:
- `Outcome`: `Created`, `Deposited`, `Withdrawn`, `InsufficientFunds`, `OverdraftExceeded`, `NotFound`, `Listed`, `Interests`, `NoAction`.
- `Interest`: `Amount`, `NoInterest`, `NotApplicable`.

Two behaviours of the code are kept as they are:
- The code never checks account numbers for uniqueness, so duplicates are allowed and the earliest is always found (`EarliestDuplicateWins`).
- Nothing stops a savings or fixed-deposit balance going negative: deposit has no sign check and the opening balance is taken as typed. Only withdrawal respects the floor (`WithdrawKeepsStanding`, `NegativeDepositCanOverdraw`).

## Model

| member | source | states |
|---|---|---|
| `Accounts.Deposit` | pr4.cpp:20-23 | a deposit always succeeds, adds exactly the amount whatever its sign, keeps number, holder and kind, and reports the new balance |
| `Accounts.Withdraw` | pr4.cpp:25-84 | savings, fixed-deposit and base accounts use the base rule (pr4.cpp:25-32); checking uses its override (pr4.cpp:77-84). A withdrawal succeeds exactly when the balance after it stays at or above the floor of its kind. On success the balance drops by exactly the amount and stays in standing. On refusal the account is unchanged and the report is `OverdraftExceeded` for checking, `InsufficientFunds` otherwise |
| `Accounts.InterestOf` | pr4.cpp:48-104 | savings and fixed deposit report an amount, checking reports no interest, the base class reports not applicable |
| `Accounts.WithdrawThenDepositRestores` | pr4.cpp:20-32 | depositing the amount of a successful withdrawal gives back the original account |
| `Accounts.DepositThenWithdrawRestores` | pr4.cpp:20-32 | after depositing an amount, withdrawing the same amount succeeds if and only if the account was in standing, and then restores it |
| `Accounts.WithdrawKeepsStanding` | pr4.cpp:25-84 | no withdrawal, accepted or refused, takes an account below the floor of its kind |
| `Accounts.NonNegativeDepositKeepsStanding` | pr4.cpp:20-23 | a non-negative deposit keeps an account in standing |
| `Accounts.NegativeDepositCanOverdraw` | pr4.cpp:20-23 | a negative deposit takes a savings account below zero, though the same withdrawal is refused |
| `Accounts.SavingsInterestExample` | pr4.cpp:62-65 | balance 1000 at 5 percent gives savings interest 50 |
| `Accounts.FixedDepositInterestExample` | pr4.cpp:101-104 | balance 1000 at 5 percent for 24 months gives fixed-deposit interest 100 |
| `Accounts.FixedDepositIsSavingsScaledByTerm` | pr4.cpp:62-104 | fixed-deposit interest is savings interest at the same rate times term/12, and equals it for a 12-month term |
| `Accounts.InterestNonNegative` | pr4.cpp:62-104 | non-negative balance, rate and term give non-negative interest |
| `Registry.FirstMatch` | pr4.cpp:178-185 | the result is the least index whose account number matches, or none if no account has the number |
| `Registry.Apply` | pr4.cpp:181-200 | the account operation of choice 4 or 5 (`acc->deposit` at pr4.cpp:181, virtual `acc->withdraw` at pr4.cpp:200): it keeps the account's identity, never reports "not found", and a deposit always reports `Deposited` |
| `Registry.Transact` | pr4.cpp:170-207 | keeps the registry's length and every identity; reports "not found" exactly when `FirstMatch` finds nothing, and then changes nothing; every account other than the first match is unchanged |
| `Registry.TransactTouchesOnlyFirstMatch` | pr4.cpp:178-188 | a deposit or withdrawal by number leaves every account other than the first match unchanged |
| `Registry.TransactRunsAccountOperation` | pr4.cpp:197-207 | the first match is updated by that account's own deposit or withdraw rule, which also gives the reported outcome |
| `Registry.EarliestDuplicateWins` | pr4.cpp:178-185 | with duplicate numbers, a later account with the number is never changed |
| `Registry.NotFoundIffNoMatch` | pr4.cpp:186-188 | "not found" is reported if and only if no account has the number; then nothing changes, and an empty registry always reports it |
| `Registry.TransactKeepsIdentities` | pr4.cpp:170-207 | a deposit or withdrawal never changes any account's number, holder or kind |
| `Registry.FirstMatchFollowsNumbers` | pr4.cpp:180 | lookup depends only on the account numbers, so changing balances does not move the first match |
| `Registry.DepositThenWithdrawRestoresRegistry` | pr4.cpp:170-207 | depositing into an account in standing, then withdrawing the same amount by the same number, restores the whole registry |
| `Menu.Opened` | pr4.cpp:125-168 | the account a creation choice opens carries the typed number, holder and opening balance; choice 1 gives savings, 2 checking, 3 fixed deposit |
| `Menu.Step` | pr4.cpp:125-216 | choices 1 to 3 append the opened account and report `Created`; choices 4 and 5 keep the length and report "not found" exactly when no account has the number; every other choice leaves the registry unchanged; no round changes an existing account's identity |
| `Menu.RunFrom` | pr4.cpp:112-217 | continuing a run keeps the outcomes already reported as a prefix, never shrinks the registry, and adds at most one outcome per round of input |
| `Menu.Run` | pr4.cpp:108-217 | a session reports at most one outcome per round; with no choice 8 it reads every round; no round before the last one read is a choice 8 |
| `Menu.CreationAppends` | pr4.cpp:125-169 | choices 1, 2 and 3 append exactly one account at the end with the typed fields and the matching kind, leave earlier entries unchanged and do not check the number |
| `Menu.InertChoices` | pr4.cpp:208-217 | choices 6, 7, 8 and any number outside 1 to 8 leave the registry unchanged. Choice 6 lists the accounts, choice 7 reports every account's interest, the rest report nothing |
| `Menu.StepKeepsIdentities` | pr4.cpp:125-216 | no round removes an account or changes an existing account's identity |
| `Menu.OnlyExitTerminates` | pr4.cpp:112-217 | a run reads one round per outcome, never reads past the first choice 8, stops before the end of the input only right after a choice 8, and reads every round when no choice 8 is typed |
| `Menu.InputAfterExitIgnored` | pr4.cpp:217 | input after a choice 8 has no effect on the run |
| `Menu.RunKeepsIdentities` | pr4.cpp:112-217 | over a whole run, the accounts at the start keep their positions and identities |
| `Menu.SavingsScenario` | pr4.cpp:20-65 | open savings S1 with 1000 at 5 percent; withdrawing 1500 is refused; depositing 500 gives 1500; interest is 75 |
| `Menu.CheckingScenario` | pr4.cpp:77-84 | open checking C1 with 200 and limit 300; withdrawing 400 gives -200; a second 400 exceeds the overdraft and leaves -200 |
| `Menu.InterestsOf` | pr4.cpp:212-215 | choice 7 reports one interest per account, in registry order |
| `Bank.BankAccount.constructor` | pr4.cpp:15-16 | a new account holds the given number, holder, kind and balance |
| `Bank.BankAccount.Deposit` | pr4.cpp:20-23 | the balance becomes the old balance plus the amount, as `Accounts.Deposit` says |
| `Bank.BankAccount.Withdraw` | pr4.cpp:25-84 | the balance and outcome follow `Accounts.Withdraw`: unchanged on refusal, lowered by exactly the amount and within the floor on success |
| `Bank.BankAccount.CalculateInterest` | pr4.cpp:48-104 | dispatches on the dynamic class to the formula of `Accounts.InterestOf` and changes nothing |
| `Bank.AccountRegistry.constructor` | pr4.cpp:109 | the registry starts empty |
| `Bank.AccountRegistry.Open` | pr4.cpp:125-169 | `push_back` of a fresh account object: the registry becomes the old one plus the new account, and entries stay distinct objects |
| `Bank.AccountRegistry.Find` | pr4.cpp:178-185 | the scan with `found` and `break` finds an account exactly when `FirstMatch` does, and returns its index |
| `Bank.AccountRegistry.Transact` | pr4.cpp:170-207 | choices 4 and 5 change the account objects exactly as `Registry.Transact` changes the values, and no other object |
| `Bank.AccountRegistry.Interests` | pr4.cpp:212-215 | the loop of choice 7 reports `InterestOf` of every account in order |
| `Bank.AccountRegistry.Step` | pr4.cpp:125-216 | one round changes the objects as `Menu.Step` changes the values, and any account it adds is new |
| `Bank.RunMenu` | pr4.cpp:108-217 | the loop over the typed rounds returns a fresh, valid registry whose accounts and outcomes are those `Menu.Run` gives |

## Left out

- Console text: the menu, prompts and messages are not modelled. Each operation reports an `Outcome` or `Interest` value instead.
- Reading `cin` is not modelled. Each round is an `Entry` with every field already parsed, so non-numeric input (undefined behaviour in the source) is not modelled either.
- End of input: the source keeps looping after `cin` fails. `RunMenu` and `Run` take a finite sequence of rounds and stop when it runs out.
- `displayAccountInfo` only prints. Choice 6 reports the accounts' values as `Listed(accounts)` instead of formatted text.
- `getBalance` and `getAccountNumber` are const getters, modelled as direct reads of `balance` and `accountNumber`.
- `new`/`delete` ownership and the cleanup loop at exit: objects are garbage-collected in Dafny. The registry's invariant `Valid()` keeps one distinct object per entry.
- IEEE-754 rounding and the int-to-double conversion of `term`: money is `real`, and no rule depends on rounding.
- `main` and the process exit code.
