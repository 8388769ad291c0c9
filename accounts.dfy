/**
 * The account model of the bank console: one account as a value, and the
 * per-variant rules for deposit, withdraw and interest.
 *
 * The C++ class hierarchy (BankAccount with the overrides in SavingsAccount,
 * CheckingAccount and FixedDepositAccount) becomes the tag `Kind`; virtual
 * dispatch becomes a `match` on that tag. Money is `real`.
 */
module Accounts {

  /** Which class an account is, with that class's own immutable fields. */
  datatype Kind =
    | Plain                                        // BankAccount itself
    | Savings(interestRate: real)                  // percent
    | Checking(overdraftLimit: real)
    | FixedDeposit(term: int, interestRate: real)  // term in months

  /** The state of one account: identity, holder, variant and balance. */
  datatype Account = Account(number: string, holder: string, kind: Kind, balance: real)

  /** What `calculateInterest` reports: an amount, or one of the two messages. */
  datatype Interest =
    | Amount(value: real)
    | NoInterest      // checking accounts
    | NotApplicable   // the base class

  /** What an operation reports instead of the text it prints. */
  datatype Outcome =
    | Created
    | Deposited(amount: real, newBalance: real)
    | Withdrawn(amount: real, remaining: real)
    | InsufficientFunds
    | OverdraftExceeded
    | NotFound
    | Listed(accounts: seq<Account>)
    | Interests(reports: seq<Interest>)
    | NoAction

  /** The part of an account that no operation ever changes. */
  function Identity(a: Account): (string, string, Kind)
  {
    (a.number, a.holder, a.kind)
  }

  /**
   * The lowest balance a successful withdrawal may leave behind: zero, or
   * minus the overdraft limit for a checking account.
   */
  function Floor(k: Kind): real
  {
    if k.Checking? then -k.overdraftLimit else 0.0
  }

  /** The account is at or above the floor of its variant. */
  predicate InStanding(a: Account)
  {
    a.balance >= Floor(a.kind)
  }

  /** `deposit`: adds the amount, whatever its sign, and always succeeds. */
  function Deposit(a: Account, amount: real): (r: (Account, Outcome))
    ensures Identity(r.0) == Identity(a)
    ensures r.0.balance - a.balance == amount
    ensures r.1 == Deposited(amount, r.0.balance)
  {
    var b := a.balance + amount;
    (a.(balance := b), Deposited(amount, b))
  }

  /** Takes the amount off without any check; shared by both withdraw rules. */
  function Debit(a: Account, amount: real): (Account, Outcome)
  {
    var b := a.balance - amount;
    (a.(balance := b), Withdrawn(amount, b))
  }

  /**
   * `withdraw`: the base rule (refuse when the amount exceeds the balance),
   * inherited by savings and fixed-deposit accounts, and the checking
   * override (refuse when it exceeds balance plus overdraft limit).
   * A refusal leaves the account as it was; a success never goes below the floor.
   */
  function Withdraw(a: Account, amount: real): (r: (Account, Outcome))
    ensures Identity(r.0) == Identity(a)
    ensures r.1.Withdrawn? <==> a.balance - amount >= Floor(a.kind)
    ensures r.1.Withdrawn? ==>
      r.0.balance == a.balance - amount && InStanding(r.0) && r.1 == Withdrawn(amount, r.0.balance)
    ensures !r.1.Withdrawn? ==>
      r.0 == a && r.1 == (if a.kind.Checking? then OverdraftExceeded else InsufficientFunds)
  {
    match a.kind
    case Checking(limit) =>
      if amount > a.balance + limit then (a, OverdraftExceeded) else Debit(a, amount)
    case _ =>
      if amount > a.balance then (a, InsufficientFunds) else Debit(a, amount)
  }

  /** `calculateInterest` of each variant; it reads the account and changes nothing. */
  function InterestOf(a: Account): (r: Interest)
    ensures r.Amount? <==> a.kind.Savings? || a.kind.FixedDeposit?
    ensures r == NoInterest <==> a.kind.Checking?
    ensures r == NotApplicable <==> a.kind.Plain?
  {
    match a.kind
    case Plain => NotApplicable
    case Savings(rate) => Amount(a.balance * rate / 100.0)
    case Checking(_) => NoInterest
    case FixedDeposit(term, rate) => Amount(a.balance * rate / 100.0 * (term as real / 12.0))
  }

  /** A successful withdrawal is undone by depositing the same amount. */
  lemma WithdrawThenDepositRestores(a: Account, amount: real)
    requires Withdraw(a, amount).1.Withdrawn?
    ensures Deposit(Withdraw(a, amount).0, amount).0 == a
  {
  }

  /**
   * Depositing and then withdrawing the same amount is accepted and restores
   * the account, exactly when the account was in standing to begin with.
   */
  lemma DepositThenWithdrawRestores(a: Account, amount: real)
    ensures Withdraw(Deposit(a, amount).0, amount).1.Withdrawn? <==> InStanding(a)
    ensures InStanding(a) ==> Withdraw(Deposit(a, amount).0, amount).0 == a
  {
  }

  /** A withdrawal, accepted or refused, never takes an account out of standing. */
  lemma WithdrawKeepsStanding(a: Account, amount: real)
    requires InStanding(a)
    ensures InStanding(Withdraw(a, amount).0)
  {
  }

  /** A deposit of a non-negative amount keeps an account in standing. */
  lemma NonNegativeDepositKeepsStanding(a: Account, amount: real)
    requires InStanding(a) && amount >= 0.0
    ensures InStanding(Deposit(a, amount).0)
  {
  }

  /**
   * Since `deposit` has no sign check, a negative deposit can take a savings
   * account below zero, which no withdrawal could do.
   */
  lemma NegativeDepositCanOverdraw()
    ensures var a := Account("S1", "Alice", Savings(5.0), 100.0);
      InStanding(a) && !InStanding(Deposit(a, -150.0).0) && !Withdraw(a, 150.0).1.Withdrawn?
  {
  }

  /** Savings: balance 1000 at 5 percent earns 50. */
  lemma SavingsInterestExample()
    ensures InterestOf(Account("S1", "Alice", Savings(5.0), 1000.0)) == Amount(50.0)
  {
  }

  /** Fixed deposit: balance 1000 at 5 percent for 24 months earns 100. */
  lemma FixedDepositInterestExample()
    ensures InterestOf(Account("F1", "Carol", FixedDeposit(24, 5.0), 1000.0)) == Amount(100.0)
  {
  }

  /**
   * A fixed deposit earns the savings interest at the same rate scaled by
   * its term in years; over a twelve-month term the two are equal.
   */
  lemma FixedDepositIsSavingsScaledByTerm(number: string, holder: string, balance: real, term: int, rate: real)
    ensures var s := InterestOf(Account(number, holder, Savings(rate), balance));
      InterestOf(Account(number, holder, FixedDeposit(term, rate), balance))
        == Amount(s.value * (term as real / 12.0))
    ensures InterestOf(Account(number, holder, FixedDeposit(12, rate), balance))
        == InterestOf(Account(number, holder, Savings(rate), balance))
  {
  }

  /** With a non-negative balance, rate and term, interest is never negative. */
  lemma InterestNonNegative(a: Account)
    requires a.balance >= 0.0
    requires a.kind.Savings? || a.kind.FixedDeposit?
    requires a.kind.interestRate >= 0.0
    requires a.kind.FixedDeposit? ==> a.kind.term >= 0
    ensures InterestOf(a).value >= 0.0
  {
  }
}
