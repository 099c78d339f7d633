# Bank: a verified model of one customer's sub-account ledger

The modelled program keeps one customer's money in a fixed table of four
sub-accounts: Checking, College, Investing and Saving. Each starts at zero. The
`Bank` class changes that table in place through guarded operations:

- `deposit` rejects an unknown account, then a non-positive amount, and otherwise adds.
- `withdraw` makes the same checks, then rejects a balance below the amount, and otherwise subtracts.
- `transfer` is a `withdraw` followed by a `deposit`. The two steps are independent, so the deposit runs even when the withdrawal was rejected.
- `getBalance` is a lookup that yields nothing (`null`) for an unknown name.
- `printStatement` lists the owner and every sub-account with its balance.

`bank.dfy` holds one module, `Ledger`:

- Three pure functions, `DepositStep`, `WithdrawStep` and `TransferStep`, give each operation's effect on a balance table (`map<string, real>`). They also give the `Outcome` that replaces the console message: `Ok(newBalance)`, `UnknownAccount`, `InvalidAmount` or `InsufficientFunds`.
- The class `Bank` holds the customer's `name` and the `accounts` map. Its methods `Deposit`, `Withdraw` and `Transfer` update `accounts` in place (`modifies this`). Each is proved to leave exactly the table the matching step function gives. They also keep the object invariant `Valid()`: the keys are the four names and no balance is negative.
- `Transfer` calls `Withdraw` and then `Deposit`, as the original does.
- `GetBalance` is a read-only function. `Statement` is a read-only method with a loop over the four names, in creation order.
- Lemmas prove the following:
  - the invariant holds after any sequence of operations;
  - a successful deposit and a successful withdrawal of the same amount undo each other;
  - the effect of each operation on the customer's total;
  - a fully successful transfer preserves the total;
  - a rejected withdrawal inside a transfer still credits the target, which creates money;
  - a successful withdrawal inside a transfer to a name that is not a sub-account still debits the source, which destroys money.
- `ExampleUsage` replays the example script at the end of the source file and states the balances it ends with.

The account-name check is modelled as the source writes it: the name is a key of the
table. `RejectsExactlyUnknownNames` shows that, under the invariant, deposit and withdraw
report an unknown account exactly for names outside the four sub-accounts.

## Model

| member | source | states |
|---|---|---|
| `Ledger.Initial` | Bank.js:11-16 | the initial table has exactly the four sub-accounts, each with balance 0, and satisfies the invariant |
| `Ledger.Bank.constructor` | Bank.js:6-16 | stores the customer's name; the table is `Initial()`: exactly Checking, College, Investing and Saving at 0; the invariant holds |
| `Ledger.RejectsExactlyUnknownNames` | Bank.js:26-29 | on a well-formed table, deposit and withdraw report UnknownAccount exactly when the name is not one of the four sub-accounts, and in that case leave the table unchanged |
| `Ledger.DepositStep` | Bank.js:24-41 | unknown account gives UnknownAccount; a known account with amount <= 0 gives InvalidAmount; both leave the table unchanged; otherwise only the named account changes, it grows by exactly `amount`, and Ok reports the new balance; the key set never changes |
| `Ledger.WithdrawStep` | Bank.js:48-70 | UnknownAccount and InvalidAmount as for deposit; InsufficientFunds exactly when the balance is below a positive amount; every rejection leaves the table unchanged; otherwise only the named account shrinks by exactly `amount`, and the new balance is >= 0 |
| `Ledger.TransferStep` | Bank.js:78-83 | the withdrawal half reports what a withdraw from `from` reports; the deposit half succeeds exactly when `to` exists and the amount is positive, whatever the withdrawal did; accounts other than `from` and `to` are unchanged; when both halves are rejected nothing changes |
| `Ledger.Bank.Deposit` | Bank.js:24-41 | the new `accounts` and the outcome are those of `DepositStep` on the old table; the invariant is kept |
| `Ledger.Bank.Withdraw` | Bank.js:48-70 | the new `accounts` and the outcome are those of `WithdrawStep` on the old table; the invariant is kept |
| `Ledger.Bank.Transfer` | Bank.js:78-83 | performs `Withdraw(from)` and then `Deposit(to)`; the new table and both outcomes are those of `TransferStep`; the invariant is kept |
| `Ledger.Bank.GetBalance` | Bank.js:90-96 | yields None exactly for a name that is not one of the four sub-accounts, and otherwise the stored balance, which is >= 0; reads the object and changes nothing |
| `Ledger.Bank.Statement` | Bank.js:101-107 | returns the owner's name and one entry per sub-account, in creation order, each with its current balance; changes nothing |
| `Ledger.DepositPreservesWellFormed` | Bank.js:31-36 | a deposit keeps the four names and keeps every balance >= 0 |
| `Ledger.WithdrawPreservesWellFormed` | Bank.js:55-65 | a withdrawal keeps the four names and keeps every balance >= 0 |
| `Ledger.TransferPreservesWellFormed` | Bank.js:78-83 | a transfer keeps the four names and keeps every balance >= 0 |
| `Ledger.RunPreservesWellFormed` | Bank.js:24-83 | after any sequence of deposits, withdrawals and transfers, the table still holds exactly the four sub-accounts and every balance is >= 0 |
| `Ledger.WithdrawUndoesDeposit` | Bank.js:36-65 | on a well-formed table, withdrawing what was just deposited succeeds and restores the table exactly |
| `Ledger.DepositUndoesWithdraw` | Bank.js:36-65 | depositing what was just withdrawn succeeds and restores the table exactly |
| `Ledger.SumOverUpdate` | Bank.js:36 | setting one account to a new value moves a sum over distinct account names by the difference if the account is listed, and not at all otherwise |
| `Ledger.DepositSum` | Bank.js:36 | summed over any list of distinct account names, a successful deposit adds exactly `amount` when the account is listed and nothing otherwise |
| `Ledger.WithdrawSum` | Bank.js:65 | summed over any list of distinct account names, a successful withdrawal takes exactly `amount` when the account is listed and nothing otherwise |
| `Ledger.DepositTotal` | Bank.js:36 | a successful deposit raises the customer's total by exactly `amount` |
| `Ledger.WithdrawTotal` | Bank.js:65 | a successful withdrawal lowers the customer's total by exactly `amount` |
| `Ledger.TransferPreservesTotal` | Bank.js:78-83 | when both halves succeed, the total is unchanged; between distinct accounts `from` loses and `to` gains exactly `amount`; from an account to itself the table is unchanged |
| `Ledger.TransferCreditsDespiteFailedWithdrawal` | Bank.js:78-83 | if the withdrawal is rejected but `to` is a sub-account and the amount is positive, `to` still grows by `amount` and so does the total |
| `Ledger.TransferDebitsDespiteFailedDeposit` | Bank.js:78-83 | if the withdrawal succeeds but `to` is not a sub-account, the deposit reports UnknownAccount, `from` alone is debited by `amount`, and the total shrinks by `amount` |
| `Ledger.TransferFromEmptyCreatesMoney` | Bank.js:78-83 | concrete case: on a new bank, a transfer of 50 from the empty College account to Checking reports InsufficientFunds for the withdrawal, yet credits Checking with 50 |
| `Ledger.ExampleUsage` | Bank.js:113-119 | the example script: the College withdrawal is rejected for insufficient funds, Checking ends at 350, and the statement for Michael lists Checking 350, College 0, Investing 150 and Saving 200 |

## Left out

- Console output and formatting are not modelled. This covers `console.log` and `console.error`, `toFixed(2)`, and the statement's bullet layout. Each message becomes an `Outcome` value, and the statement becomes a list of (name, balance) pairs.
- Amounts are mathematical reals, so JavaScript floating-point rounding is not modelled. Neither are NaN and non-numeric amounts. For example, NaN would pass the `amount <= 0` guard, and `toFixed` on a non-number throws at the start of `transfer`.
- The JavaScript `in` operator also accepts inherited property names such as `toString`. The model's table is a map, so only its own keys pass the account check.
- `Ledger.Bank.Statement`: lists the four sub-accounts in the order in which the constructor creates them. No operation on one of the four names adds or removes a key, so in the source `Object.entries` lists them in this order. In the source, a withdrawal of a positive amount on an inherited name such as `valueOf` stores NaN under a new own key, which the statement then lists. For example, `withdraw("valueOf", 1)` passes every guard because the comparisons with a function are false. A deposit on an inherited name such as `toString` stores a string and throws at Bank.js:39, and a later statement throws at that entry (Bank.js:104). On `__proto__` neither stores anything, because its setter ignores a non-object; the withdrawal throws at Bank.js:68 and the deposit at Bank.js:39. The model has no inherited names, so it has neither behaviour.
- The customer's name is a `const` field. The source never reassigns it after construction.
- The example script is stated as the method `ExampleUsage` with postconditions. It is not a module-level program.
- Concurrency is not modelled. The source has none and assumes one caller.
