# Pillar Bank ATM — account state machine in Dafny

This project models the in-memory core of the Pillar Bank console ATM.

- **`Account`** is a mutable record. Its account number and PIN are fixed when it
  is created. Its balance is in pesos. Its transaction log keeps the five most
  recent entries.
- **The decision logic of the `Main` driver**:
  - the three seed accounts;
  - the first-match account lookup;
  - the three-attempt PIN check, which shuts the machine down after three wrong PINs;
  - the bill-type menu;
  - the effect of each menu choice on the logged-in account;
  - the session loop that runs menu choices until logout.

Files:

- `transaction_log.dfy`, module `TransactionLog`. The capacity-5 log used by
  `addTransaction`: `Record` adds one entry. The lemma `RecordAllKeepsNewest`
  proves that, after any series of additions, the log holds the newest five
  entries in insertion order.
- `account.dfy`, module `Bank`:
  - the datatypes `Entry` (one abstract log line) and `Bill`;
  - the value `AccountState` (balance and log). Its functions `Deposit` and
    `Withdraw` are the specification;
  - the class `Account`. Its methods change the fields in place. Each method
    is proved to move `State()` exactly as the specification says.
- `atm.dfy`, module `Atm`:
  - `SeedAccounts`, `FindAccount`;
  - the PIN check. `Authenticate` is a declarative reference. `VerifyPin` is
    the loop, and it is proved equal to `Authenticate`;
  - `BillType`;
  - the per-choice effect. `Step` is a pure function over `AccountState`.
    `Perform` carries a command out on an `Account` object through its
    methods, and is proved equal to `Step`;
  - the session loop. `Session` is pure and `RunSession` is its imperative form.

Modelling decisions:

- Amounts are exact integers in pesos, not `double`. The withdrawal rule
  `amount % 100 != 0` holds or fails for the same amounts under Dafny's
  Euclidean `%` as under Java's truncating `%`, negative amounts included.
- Log entries are the abstract datatype `Entry`: `Deposited(a)`, `Withdrawn(a)`,
  `Paid(bill, a)` and `CheckedBalance(b)`. They are not formatted strings.
- Commands, PINs and amounts arrive already parsed. A `Command` is one of
  `Withdraw(a)`, `Deposit(a)`, `Balance`, `Mini`, `PayBill(choice, a)`, `Logout`
  or `Invalid`. `PayBill` always carries an amount. The console only reads the
  amount when the bill choice is valid, so for an invalid choice the amount is
  ignored.
- The entered PINs are a finite sequence. Java's `Scanner` throws when input
  runs out before a verdict. The model reports that case as `InputEnded`; it
  is not a precondition.
- `findAccount` reads a static list in the source. Here the list is a
  parameter.
- Bill payment is the account's `withdraw` followed by one extra `Paid`
  entry (Main.java:176-178); `Account` has no payment or transfer operation
  of its own. The multiple-of-100 rule applies to menu withdrawals
  (Main.java:99) and not to bill payments (Main.java:176).

## Model

| member | source | states |
|---|---|---|
| TransactionLog.Record | Account.java:68-77 | adding to a log of at most 5 keeps it at most 5 long; the result is the last min(5, n+1) elements of the old log plus the new entry, and the new entry is always last |
| TransactionLog.RecordEvictsOldest | Account.java:73-76 | the oldest entry is dropped exactly when the log already held 5 or more entries; otherwise the new log is the old one plus the entry |
| TransactionLog.RecordAllKeepsNewest | Account.java:68-82 | after any series of additions to a log within capacity, the log is exactly the newest 5 entries in insertion order, oldest first, as the mini statement shows them |
| Bank.AccountState.Deposit | Account.java:40-48 | a non-positive amount changes neither balance nor log; a positive one raises the balance by exactly the amount and appends exactly one `Deposited` entry, subject to the 5-cap; the invariant is kept |
| Bank.AccountState.Withdraw | Account.java:52-64 | the state changes iff 0 < amount <= balance; then the balance drops by exactly the amount and one `Withdrawn` entry is appended; otherwise nothing changes; a non-negative balance stays non-negative |
| Bank.ReplayKeepsInvariant | Account.java:40-64 | across any sequence of deposits and withdrawals a non-negative balance stays non-negative and a log within capacity stays within it |
| Bank.Account.constructor | Account.java:16-21 | stores number, PIN and balance and starts with an empty log; number and PIN are `const`, so no later call changes them |
| Bank.Account.CheckPin | Account.java:25-27 | returns true iff the entered PIN equals the stored one; has no `modifies`, so it changes nothing |
| Bank.Account.GetAccountNumber | Account.java:30-32 | returns the number fixed at creation and changes nothing |
| Bank.Account.GetBalance | Account.java:35-37 | returns the current balance and changes nothing |
| Bank.Account.Deposit | Account.java:40-48 | the object's new state is exactly `AccountState.Deposit` of the old one; the invariant is preserved |
| Bank.Account.Withdraw | Account.java:52-64 | returns true iff 0 < amount <= balance; the new state is exactly `AccountState.Withdraw` of the old one; the invariant is preserved |
| Bank.Account.AddTransaction | Account.java:68-77 | the balance is untouched and the log becomes `Record(old log, info)` |
| Bank.Account.GetMiniStatement | Account.java:80-82 | returns the current log in insertion order, at most 5 entries when the invariant holds |
| Atm.SeedAccounts | Main.java:22-24 | creates accounts 1001/1111/500, 1002/2222/1000 and 1234/3333/100, each with an empty log; their numbers are pairwise distinct |
| Atm.FindAccount | Main.java:256-263 | returns the first account in list order whose number equals the one given; returns null iff no account has it; with distinct numbers the match is the only one |
| Atm.Authenticate | Main.java:51-74 | login succeeds iff one of the first 3 PINs entered matches; it then consumes the PINs up to and including the first match, at most 3; three misses end in termination; fewer than 3 PINs with no match is the input running out |
| Atm.VerifyPin | Main.java:51-74 | the attempt loop, calling `checkPin` on each entered PIN, gives exactly the outcome `Authenticate` defines |
| Atm.BillType | Main.java:161-171 | choices 1, 2 and 3 map to Electricity, Water and WiFi; every other choice is invalid |
| Atm.BillTypeRoundTrip | Main.java:161-166 | each biller is selected by its own menu number |
| Atm.Step | Main.java:94-195 | every menu choice keeps the account invariant; only a deposit can raise the balance, and only a withdrawal or bill payment can lower it; the mini statement, logout and an invalid choice leave the account unchanged, and the mini statement shows the log, at most 5 entries |
| Atm.WithdrawChoice | Main.java:95-109 | an amount that is not a multiple of 100 leaves the account untouched; otherwise the result is exactly the account's withdrawal; cash comes out iff the amount is a positive multiple of 100 within the balance, so 0 is refused |
| Atm.DepositChoice | Main.java:115-124 | an amount of 0 or less leaves the account untouched; otherwise the balance rises by the amount and one `Deposited` entry is logged |
| Atm.BalanceChoice | Main.java:128-131 | the balance is unchanged and exactly one `CheckedBalance` entry is appended, subject to the 5-cap |
| Atm.PayBillChoice | Main.java:152-182 | an invalid bill type changes nothing; a refused amount changes nothing; a payment lowers the balance by the amount and appends `Withdrawn` then `Paid <type>` |
| Atm.Perform | Main.java:94-195 | dispatching a command on an `Account` object through its methods leaves it exactly in the state `Step` gives, with the same outcome |
| Atm.Session | Main.java:77-196 | choices run until the first logout, which is included, or until the input ends; no earlier choice is a logout; the invariant holds throughout |
| Atm.RunSession | Main.java:77-196 | the session loop over the account object ends in the state and choice count `Session` gives |

## Left out

- Console I/O. This covers the prompts and printing, `getValidDouble` re-prompting on non-numeric input, and closing the scanner.
- The "another transaction? [Y/N]" prompt (`again`). An answer other than Y ends the whole program. The model's session ends only at logout or when the commands run out. In the source, input running out at the menu prompt makes `getValidDouble` throw (Main.java:212-216); the model ends the session normally there instead.
- The outer account-number loop: the `exit` keyword (case-insensitive), and the restart after an unknown account number. Only its parts are modelled: the lookup, the PIN check and the session.
- `printReceipt`. It only prints, and it reads the clock (`LocalDate.now`, `LocalTime.now`).
- `double` arithmetic. This covers rounding in `balance += amount` and `-= amount`, `%` on doubles, and the `(int)` casts of the PIN and the menu choices. All amounts are exact integers.
- The text of log entries and the amounts rendered in them. Entries are abstract values.
- Aliasing of the list returned by `getMiniStatement`. The model returns a value (`seq`), so callers cannot change the log through it. No caller shown does so.
