/**
  A model of one customer's bank: four fixed sub-accounts (Checking, College,
  Investing, Saving) whose balances start at zero and are changed in place by
  guarded deposits, withdrawals and (non-atomic) transfers.

  The balance table is a `map<string, real>`. Amounts are mathematical reals.
  Each guard that the original reports on the console becomes an `Outcome`.

  The pure functions `DepositStep`, `WithdrawStep` and `TransferStep` give the
  meaning of one operation on a balance table; the class `Bank` updates its
  `accounts` field in place and is proved against them.
*/
module Ledger {

  type Balances = map<string, real>

  datatype Option<T> = None | Some(value: T)

  /** What an operation reports in place of a console message. */
  datatype Outcome =
    | Ok(balance: real)      // the operation was applied; the account's new balance
    | UnknownAccount         // the account name is not in the table
    | InvalidAmount          // the amount is not positive
    | InsufficientFunds      // a withdrawal larger than the balance

  /** A balance table together with what the operation that produced it reported. */
  datatype Step = Step(balances: Balances, outcome: Outcome)

  /** A transfer reports both of its halves. */
  datatype TransferReport = TransferReport(balances: Balances, withdrawal: Outcome, deposit: Outcome)

  /** The four sub-accounts, in the order in which the table is created and listed. */
  const Names: seq<string> := ["Checking", "College", "Investing", "Saving"]

  /** The four sub-account names; under `WellFormed` the table's keys are exactly these. */
  predicate IsAccount(name: string) {
    name in Names
  }

  /** The table holds exactly the four sub-accounts and no balance is negative. */
  ghost predicate WellFormed(m: Balances) {
    && (forall a :: a in m <==> IsAccount(a))
    && (forall a :: a in m ==> m[a] >= 0.0)
  }

  /** The table a new bank starts with. */
  function Initial(): (m: Balances)
    ensures WellFormed(m)
    ensures forall a :: IsAccount(a) ==> a in m && m[a] == 0.0
  {
    map["Checking" := 0.0, "College" := 0.0, "Investing" := 0.0, "Saving" := 0.0]
  }

  // ---------------------------------------------------------------------------
  // The operations, as functions on a balance table
  // ---------------------------------------------------------------------------

  /** deposit: unknown account, then non-positive amount, are rejected with no change;
      otherwise exactly the named account grows by `amount`. */
  function DepositStep(m: Balances, account: string, amount: real): (r: Step)
    ensures r.outcome == UnknownAccount <==> account !in m
    ensures r.outcome == InvalidAmount <==> account in m && amount <= 0.0
    ensures !r.outcome.InsufficientFunds?
    ensures !r.outcome.Ok? ==> r.balances == m
    ensures r.balances.Keys == m.Keys
    ensures r.outcome.Ok? ==> r.balances[account] == m[account] + amount == r.outcome.balance
    ensures forall a :: a in m && a != account ==> r.balances[a] == m[a]
  {
    if account !in m then Step(m, UnknownAccount)
    else if amount <= 0.0 then Step(m, InvalidAmount)
    else
      var balances := m[account := m[account] + amount];
      Step(balances, Ok(balances[account]))
  }

  /** withdraw: the deposit checks, then a balance below `amount` is rejected with no
      change; otherwise exactly the named account shrinks by `amount`, never below zero. */
  function WithdrawStep(m: Balances, account: string, amount: real): (r: Step)
    ensures r.outcome == UnknownAccount <==> account !in m
    ensures r.outcome == InvalidAmount <==> account in m && amount <= 0.0
    ensures r.outcome == InsufficientFunds <==> account in m && 0.0 < amount && m[account] < amount
    ensures !r.outcome.Ok? ==> r.balances == m
    ensures r.balances.Keys == m.Keys
    ensures r.outcome.Ok? ==> r.balances[account] == m[account] - amount == r.outcome.balance >= 0.0
    ensures forall a :: a in m && a != account ==> r.balances[a] == m[a]
  {
    if account !in m then Step(m, UnknownAccount)
    else if amount <= 0.0 then Step(m, InvalidAmount)
    else if m[account] < amount then Step(m, InsufficientFunds)
    else
      var balances := m[account := m[account] - amount];
      Step(balances, Ok(balances[account]))
  }

  /** transfer: a withdrawal from `from` followed by a deposit into `to`, the deposit
      taking place whatever became of the withdrawal. */
  function TransferStep(m: Balances, from: string, to: string, amount: real): (r: TransferReport)
    ensures r.withdrawal == WithdrawStep(m, from, amount).outcome
    ensures r.balances.Keys == m.Keys
    ensures forall a :: a in m && a != from && a != to ==> r.balances[a] == m[a]
    ensures r.deposit.Ok? <==> to in m && amount > 0.0
    ensures !r.withdrawal.Ok? && !r.deposit.Ok? ==> r.balances == m
  {
    var w := WithdrawStep(m, from, amount);
    var d := DepositStep(w.balances, to, amount);
    TransferReport(d.balances, w.outcome, d.outcome)
  }

  /** On a well-formed table, deposit and withdraw report an unknown account exactly
      for a name that is not one of the four sub-accounts, and then change nothing. */
  lemma RejectsExactlyUnknownNames(m: Balances, account: string, amount: real)
    requires WellFormed(m)
    ensures DepositStep(m, account, amount).outcome == UnknownAccount <==> !IsAccount(account)
    ensures WithdrawStep(m, account, amount).outcome == UnknownAccount <==> !IsAccount(account)
    ensures !IsAccount(account) ==> DepositStep(m, account, amount).balances == m
    ensures !IsAccount(account) ==> WithdrawStep(m, account, amount).balances == m
  {
  }

  // ---------------------------------------------------------------------------
  // Invariant: the names are fixed and no balance goes negative
  // ---------------------------------------------------------------------------

  lemma DepositPreservesWellFormed(m: Balances, account: string, amount: real)
    requires WellFormed(m)
    ensures WellFormed(DepositStep(m, account, amount).balances)
  {
  }

  lemma WithdrawPreservesWellFormed(m: Balances, account: string, amount: real)
    requires WellFormed(m)
    ensures WellFormed(WithdrawStep(m, account, amount).balances)
  {
  }

  lemma TransferPreservesWellFormed(m: Balances, from: string, to: string, amount: real)
    requires WellFormed(m)
    ensures WellFormed(TransferStep(m, from, to, amount).balances)
  {
    WithdrawPreservesWellFormed(m, from, amount);
    DepositPreservesWellFormed(WithdrawStep(m, from, amount).balances, to, amount);
  }

  /** A call of one of the mutating operations. */
  datatype Op =
    | DepositOp(account: string, amount: real)
    | WithdrawOp(account: string, amount: real)
    | TransferOp(from: string, to: string, amount: real)

  function Apply(m: Balances, op: Op): Balances {
    match op
    case DepositOp(a, x) => DepositStep(m, a, x).balances
    case WithdrawOp(a, x) => WithdrawStep(m, a, x).balances
    case TransferOp(f, t, x) => TransferStep(m, f, t, x).balances
  }

  /** The table after a sequence of calls, made one after the other. */
  function Run(m: Balances, ops: seq<Op>): Balances
    decreases |ops|
  {
    if ops == [] then m else Run(Apply(m, ops[0]), ops[1..])
  }

  /** Whatever sequence of deposits, withdrawals and transfers is made, the table keeps
      exactly the four sub-accounts and every balance stays non-negative. */
  lemma {:induction false} RunPreservesWellFormed(m: Balances, ops: seq<Op>)
    requires WellFormed(m)
    ensures WellFormed(Run(m, ops))
    decreases |ops|
  {
    if ops != [] {
      match ops[0] {
        case DepositOp(a, x) => DepositPreservesWellFormed(m, a, x);
        case WithdrawOp(a, x) => WithdrawPreservesWellFormed(m, a, x);
        case TransferOp(f, t, x) => TransferPreservesWellFormed(m, f, t, x);
      }
      RunPreservesWellFormed(Apply(m, ops[0]), ops[1..]);
    }
  }

  // ---------------------------------------------------------------------------
  // Deposit and withdrawal undo each other
  // ---------------------------------------------------------------------------

  /** A successful deposit is undone, exactly, by withdrawing the same amount. */
  lemma WithdrawUndoesDeposit(m: Balances, account: string, amount: real)
    requires WellFormed(m)
    requires DepositStep(m, account, amount).outcome.Ok?
    ensures WithdrawStep(DepositStep(m, account, amount).balances, account, amount) == Step(m, Ok(m[account]))
  {
  }

  /** A successful withdrawal is undone, exactly, by depositing the same amount. */
  lemma DepositUndoesWithdraw(m: Balances, account: string, amount: real)
    requires WithdrawStep(m, account, amount).outcome.Ok?
    ensures DepositStep(WithdrawStep(m, account, amount).balances, account, amount) == Step(m, Ok(m[account]))
  {
  }

  // ---------------------------------------------------------------------------
  // Totals, and what a transfer does to them
  // ---------------------------------------------------------------------------

  /** The balance of `a`, or zero when there is no such account. */
  function Get(m: Balances, a: string): real {
    if a in m then m[a] else 0.0
  }

  function SumOver(m: Balances, names: seq<string>): real
    decreases |names|
  {
    if names == [] then 0.0 else Get(m, names[0]) + SumOver(m, names[1..])
  }

  /** The customer's money over all four sub-accounts. */
  function Total(m: Balances): real {
    SumOver(m, Names)
  }

  predicate Distinct(names: seq<string>) {
    forall i, j :: 0 <= i < j < |names| ==> names[i] != names[j]
  }

  /** Setting one account to `v` moves a sum over distinct names by the difference,
      when the account is among them, and not at all otherwise. */
  lemma {:induction false} SumOverUpdate(m: Balances, names: seq<string>, a: string, v: real)
    requires Distinct(names)
    ensures SumOver(m[a := v], names) == SumOver(m, names) + (if a in names then v - Get(m, a) else 0.0)
    decreases |names|
  {
    if names != [] {
      assert Distinct(names[1..]) by {
        forall i, j | 0 <= i < j < |names[1..]| ensures names[1..][i] != names[1..][j] {
          assert names[1..][i] == names[i + 1] && names[1..][j] == names[j + 1];
        }
      }
      SumOverUpdate(m, names[1..], a, v);
      if names[0] == a {
        assert a !in names[1..] by {
          forall k | 0 <= k < |names[1..]| ensures names[1..][k] != a {
            assert names[1..][k] == names[k + 1];
          }
        }
      } else {
        assert (a in names) == (a in names[1..]) by {
          assert names == [names[0]] + names[1..];
        }
      }
    }
  }

  /** Summed over any list of distinct names, a successful deposit adds `amount` when
      the account is listed and nothing otherwise. */
  lemma DepositSum(m: Balances, names: seq<string>, account: string, amount: real)
    requires Distinct(names)
    requires DepositStep(m, account, amount).outcome.Ok?
    ensures SumOver(DepositStep(m, account, amount).balances, names)
         == SumOver(m, names) + (if account in names then amount else 0.0)
  {
    SumOverUpdate(m, names, account, m[account] + amount);
  }

  /** Summed over any list of distinct names, a successful withdrawal takes `amount` when
      the account is listed and nothing otherwise. */
  lemma WithdrawSum(m: Balances, names: seq<string>, account: string, amount: real)
    requires Distinct(names)
    requires WithdrawStep(m, account, amount).outcome.Ok?
    ensures SumOver(WithdrawStep(m, account, amount).balances, names)
         == SumOver(m, names) - (if account in names then amount else 0.0)
  {
    SumOverUpdate(m, names, account, m[account] - amount);
  }

  /** A successful deposit adds `amount` to the total. */
  lemma DepositTotal(m: Balances, account: string, amount: real)
    requires WellFormed(m)
    requires DepositStep(m, account, amount).outcome.Ok?
    ensures Total(DepositStep(m, account, amount).balances) == Total(m) + amount
  {
    DepositSum(m, Names, account, amount);
  }

  /** A successful withdrawal takes `amount` from the total. */
  lemma WithdrawTotal(m: Balances, account: string, amount: real)
    requires WellFormed(m)
    requires WithdrawStep(m, account, amount).outcome.Ok?
    ensures Total(WithdrawStep(m, account, amount).balances) == Total(m) - amount
  {
    WithdrawSum(m, Names, account, amount);
  }

  /** When both halves of a transfer succeed the customer's total is unchanged; between
      two distinct accounts, `from` loses and `to` gains exactly `amount`. */
  lemma TransferPreservesTotal(m: Balances, from: string, to: string, amount: real)
    requires WellFormed(m)
    requires TransferStep(m, from, to, amount).withdrawal.Ok?
    requires TransferStep(m, from, to, amount).deposit.Ok?
    ensures Total(TransferStep(m, from, to, amount).balances) == Total(m)
    ensures from != to ==> TransferStep(m, from, to, amount).balances == m[from := m[from] - amount][to := m[to] + amount]
    ensures from == to ==> TransferStep(m, from, to, amount).balances == m
  {
    var w := WithdrawStep(m, from, amount);
    WithdrawTotal(m, from, amount);
    WithdrawPreservesWellFormed(m, from, amount);
    DepositTotal(w.balances, to, amount);
  }

  /** The transfer is not atomic: when the withdrawal is rejected (unknown source,
      insufficient funds) but `to` exists and `amount` is positive, `to` is still
      credited, and the customer's total grows by `amount`. */
  lemma TransferCreditsDespiteFailedWithdrawal(m: Balances, from: string, to: string, amount: real)
    requires WellFormed(m)
    requires !WithdrawStep(m, from, amount).outcome.Ok?
    requires IsAccount(to) && amount > 0.0
    ensures TransferStep(m, from, to, amount).deposit == Ok(m[to] + amount)
    ensures TransferStep(m, from, to, amount).balances == m[to := m[to] + amount]
    ensures Total(TransferStep(m, from, to, amount).balances) == Total(m) + amount
  {
    DepositTotal(m, to, amount);
  }

  /** The other half of the same quirk: when the withdrawal succeeds but `to` is not a
      sub-account, `from` is debited, the deposit is rejected, and the customer's total
      shrinks by `amount`. */
  lemma TransferDebitsDespiteFailedDeposit(m: Balances, from: string, to: string, amount: real)
    requires WellFormed(m)
    requires WithdrawStep(m, from, amount).outcome.Ok?
    requires !IsAccount(to)
    ensures TransferStep(m, from, to, amount).deposit == UnknownAccount
    ensures TransferStep(m, from, to, amount).balances == m[from := m[from] - amount]
    ensures Total(TransferStep(m, from, to, amount).balances) == Total(m) - amount
  {
    WithdrawTotal(m, from, amount);
  }

  /** An instance of the credit case: from a new bank, moving 50 out of the empty College
      account is rejected, yet Checking receives 50. */
  lemma TransferFromEmptyCreatesMoney()
    ensures var r := TransferStep(Initial(), "College", "Checking", 50.0);
      && r.withdrawal == InsufficientFunds
      && r.deposit == Ok(50.0)
      && Total(r.balances) == Total(Initial()) + 50.0
  {
    TransferCreditsDespiteFailedWithdrawal(Initial(), "College", "Checking", 50.0);
  }

  // ---------------------------------------------------------------------------
  // The bank object
  // ---------------------------------------------------------------------------

  class Bank {
    /** The customer's name. */
    const name: string
    /** The balance of each sub-account, updated in place. */
    var accounts: Balances

    ghost predicate Valid()
      reads this
    {
      WellFormed(accounts)
    }

    /** A new bank for `name`: the four sub-accounts, each at zero. */
    constructor(name: string)
      ensures Valid()
      ensures this.name == name
      ensures accounts == Initial()
      ensures accounts.Keys == {"Checking", "College", "Investing", "Saving"}
      ensures forall a :: a in accounts ==> accounts[a] == 0.0
    {
      this.name := name;
      accounts := Initial();
    }

    method Deposit(accountName: string, amount: real) returns (outcome: Outcome)
      requires Valid()
      modifies this
      ensures Valid()
      ensures accounts == DepositStep(old(accounts), accountName, amount).balances
      ensures outcome == DepositStep(old(accounts), accountName, amount).outcome
    {
      if accountName !in accounts {
        return UnknownAccount;
      }
      if amount <= 0.0 {
        return InvalidAmount;
      }
      accounts := accounts[accountName := accounts[accountName] + amount];
      outcome := Ok(accounts[accountName]);
    }

    method Withdraw(accountName: string, amount: real) returns (outcome: Outcome)
      requires Valid()
      modifies this
      ensures Valid()
      ensures accounts == WithdrawStep(old(accounts), accountName, amount).balances
      ensures outcome == WithdrawStep(old(accounts), accountName, amount).outcome
    {
      if accountName !in accounts {
        return UnknownAccount;
      }
      if amount <= 0.0 {
        return InvalidAmount;
      }
      if accounts[accountName] < amount {
        return InsufficientFunds;
      }
      accounts := accounts[accountName := accounts[accountName] - amount];
      outcome := Ok(accounts[accountName]);
    }

    /** Withdraw, then deposit, as two independent calls. */
    method Transfer(from: string, to: string, amount: real) returns (withdrawal: Outcome, deposit: Outcome)
      requires Valid()
      modifies this
      ensures Valid()
      ensures accounts == TransferStep(old(accounts), from, to, amount).balances
      ensures withdrawal == TransferStep(old(accounts), from, to, amount).withdrawal
      ensures deposit == TransferStep(old(accounts), from, to, amount).deposit
    {
      withdrawal := Withdraw(from, amount);
      deposit := Deposit(to, amount);
    }

    /** The balance of a sub-account, or None for a name that is not one. */
    function GetBalance(accountName: string): (r: Option<real>)
      reads this
      requires Valid()
      ensures r.None? <==> !IsAccount(accountName)
      ensures r.Some? ==> accountName in accounts && r.value == accounts[accountName] && r.value >= 0.0
    {
      if accountName in accounts then Some(accounts[accountName]) else None
    }

    /** The statement: the customer's name and each sub-account with its balance,
        in the order the accounts were created. */
    method Statement() returns (owner: string, entries: seq<(string, real)>)
      requires Valid()
      ensures owner == name
      ensures |entries| == |Names|
      ensures forall i :: 0 <= i < |entries| ==> entries[i] == (Names[i], accounts[Names[i]])
    {
      owner := name;
      entries := [];
      var i := 0;
      while i < |Names|
        invariant 0 <= i <= |Names|
        invariant |entries| == i
        invariant forall k :: 0 <= k < i ==> entries[k] == (Names[k], accounts[Names[k]])
      {
        entries := entries + [(Names[i], accounts[Names[i]])];
        i := i + 1;
      }
    }
  }

  /** The tables the example script passes through. */
  const AfterDeposits: Balances := map["Checking" := 500.0, "College" := 0.0, "Investing" := 0.0, "Saving" := 200.0]
  const AfterTransfer: Balances := map["Checking" := 350.0, "College" := 0.0, "Investing" := 150.0, "Saving" := 200.0]
  const FinalStatement: seq<(string, real)> :=
    [("Checking", 350.0), ("College", 0.0), ("Investing", 150.0), ("Saving", 200.0)]

  lemma ExampleDeposits()
    ensures DepositStep(DepositStep(Initial(), "Checking", 500.0).balances, "Saving", 200.0).balances == AfterDeposits
  {
  }

  lemma ExampleWithdrawal()
    ensures WithdrawStep(AfterDeposits, "College", 50.0) == Step(AfterDeposits, InsufficientFunds)
  {
  }

  lemma ExampleTransfer()
    ensures TransferStep(AfterDeposits, "Checking", "Investing", 150.0).balances == AfterTransfer
  {
  }

  lemma ExampleStatement(entries: seq<(string, real)>)
    requires |entries| == |Names|
    requires forall i :: 0 <= i < |entries| ==> entries[i] == (Names[i], AfterTransfer[Names[i]])
    ensures entries == FinalStatement
  {
  }

  /** The example script: a bank for Michael, two deposits, a rejected withdrawal from
      the empty College account, and a transfer of 150 from Checking to Investing. */
  method ExampleUsage() returns (college: Outcome, checking: Option<real>, owner: string, entries: seq<(string, real)>)
    ensures college == InsufficientFunds
    ensures checking == Some(350.0)
    ensures owner == "Michael"
    ensures entries == FinalStatement
  {
    var bank := new Bank("Michael");
    var _ := bank.Deposit("Checking", 500.0);
    var _ := bank.Deposit("Saving", 200.0);
    ExampleDeposits();
    college := bank.Withdraw("College", 50.0);
    ExampleWithdrawal();
    var _, _ := bank.Transfer("Checking", "Investing", 150.0);
    ExampleTransfer();
    checking := bank.GetBalance("Checking");
    owner, entries := bank.Statement();
    ExampleStatement(entries);
  }
}
