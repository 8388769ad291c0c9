/**
 * The objects of the console program: accounts whose balance is updated in
 * place, the registry that owns them in insertion order, and the menu loop
 * that drives both. Each method is proved against the value model in
 * modules Accounts, Registry and Menu.
 */
module Bank {
  import opened Accounts
  import opened Registry
  import opened Menu

  /** One account object; `kind` stands for its dynamic class. */
  class BankAccount {
    const accountNumber: string
    const accountHolderName: string
    const kind: Kind
    var balance: real

    /** The account as a value. */
    function State(): Account
      reads this
    {
      Account(accountNumber, accountHolderName, kind, balance)
    }

    constructor (accNum: string, accHolder: string, bal: real, k: Kind)
      ensures State() == Account(accNum, accHolder, k, bal)
    {
      accountNumber, accountHolderName, kind, balance := accNum, accHolder, k, bal;
    }

    method Deposit(amount: real) returns (o: Outcome)
      modifies this
      ensures balance == old(balance) + amount
      ensures (State(), o) == Accounts.Deposit(old(State()), amount)
    {
      balance := balance + amount;
      o := Deposited(amount, balance);
    }

    /** The base `withdraw`, or the checking override when `kind` is Checking. */
    method Withdraw(amount: real) returns (o: Outcome)
      modifies this
      ensures (State(), o) == Accounts.Withdraw(old(State()), amount)
      ensures o.Withdrawn? ==> balance == old(balance) - amount && balance >= Floor(kind)
      ensures !o.Withdrawn? ==> balance == old(balance)
    {
      if kind.Checking? {
        if amount > balance + kind.overdraftLimit {
          o := OverdraftExceeded;
        } else {
          balance := balance - amount;
          o := Withdrawn(amount, balance);
        }
      } else {
        if amount > balance {
          o := InsufficientFunds;
        } else {
          balance := balance - amount;
          o := Withdrawn(amount, balance);
        }
      }
    }

    /** `calculateInterest` of the dynamic class; it changes nothing. */
    method CalculateInterest() returns (r: Interest)
      ensures r == InterestOf(State())
    {
      match kind
      case Plain =>
        r := NotApplicable;
      case Savings(rate) =>
        r := Amount(balance * rate / 100.0);
      case Checking(_) =>
        r := NoInterest;
      case FixedDeposit(term, rate) =>
        r := Amount(balance * rate / 100.0 * (term as real / 12.0));
    }
  }

  /** The accounts of a sequence of account objects, as values. */
  function StatesOf(s: seq<BankAccount>): (r: seq<Account>)
    reads set a | a in s
    ensures |r| == |s|
    ensures forall i :: 0 <= i < |s| ==> r[i] == s[i].State()
  {
    if s == [] then [] else StatesOf(s[..|s| - 1]) + [s[|s| - 1].State()]
  }

  /** The `vector<BankAccount*>` of the menu, with the operations it runs on it. */
  class AccountRegistry {
    var accounts: seq<BankAccount>

    /** Every entry is its own object, as every entry comes from its own `new`. */
    ghost predicate Valid()
      reads this
    {
      forall i, j :: 0 <= i < j < |accounts| ==> accounts[i] != accounts[j]
    }

    ghost function View(): seq<Account>
      reads this, set a | a in accounts
    {
      StatesOf(accounts)
    }

    constructor ()
      ensures Valid() && accounts == [] && View() == []
    {
      accounts := [];
    }

    /** Choices 1 to 3: `push_back` of a new account of the given variant. */
    method Open(number: string, holder: string, initial: real, kind: Kind) returns (a: BankAccount)
      requires Valid()
      modifies this
      ensures Valid() && fresh(a)
      ensures accounts == old(accounts) + [a]
      ensures View() == old(View()) + [Account(number, holder, kind, initial)]
    {
      a := new BankAccount(number, holder, initial, kind);
      accounts := accounts + [a];
    }

    /** The scan of choices 4 and 5: the first account, in order, with the number. */
    method Find(number: string) returns (found: bool, k: nat)
      ensures found <==> FirstMatch(View(), number).Some?
      ensures found ==> FirstMatch(View(), number) == Some(k) && k < |accounts|
    {
      found, k := false, 0;
      var i := 0;
      while i < |accounts|
        invariant 0 <= i <= |accounts|
        invariant forall j :: 0 <= j < i ==> accounts[j].accountNumber != number
      {
        if accounts[i].accountNumber == number {
          found, k := true, i;
          break;
        }
        i := i + 1;
      }
      ghost var v := View();
      assert forall j :: 0 <= j < |v| ==> v[j].number == accounts[j].accountNumber;
    }

    /** Choices 4 and 5: run the transaction on the first match, or report "not found". */
    method Transact(number: string, t: Transaction) returns (o: Outcome)
      requires Valid()
      modifies set a | a in accounts
      ensures Valid()
      ensures (View(), o) == Registry.Transact(old(View()), number, t)
    {
      ghost var before := View();
      var found, k := Find(number);
      if !found {
        o := NotFound;
        return;
      }
      var acc := accounts[k];
      ghost var prior := acc.State();
      assert prior == before[k];
      match t {
        case DepositOf(amount) =>
          o := acc.Deposit(amount);
        case WithdrawalOf(amount) =>
          o := acc.Withdraw(amount);
      }
      assert forall j :: 0 <= j < |accounts| && j != k ==> accounts[j] != acc;
      assert (acc.State(), o) == Apply(prior, t);
      assert View() == before[k := acc.State()];
    }

    /** Choice 7: the interest report of every account, in order. */
    method Interests() returns (rs: seq<Interest>)
      ensures rs == InterestsOf(View())
    {
      rs := [];
      var i := 0;
      while i < |accounts|
        invariant 0 <= i <= |accounts|
        invariant |rs| == i
        invariant forall j :: 0 <= j < i ==> rs[j] == InterestOf(accounts[j].State())
      {
        var r := accounts[i].CalculateInterest();
        rs := rs + [r];
        i := i + 1;
      }
    }

    /** One round of the menu. */
    method Step(e: Entry) returns (o: Outcome)
      requires Valid()
      modifies this, set a | a in accounts
      ensures Valid()
      ensures (View(), o) == Menu.Step(old(View()), e)
      ensures forall a | a in accounts :: a in old(accounts) || fresh(a)
    {
      if e.choice == 1 {
        var _ := Open(e.number, e.holder, e.initial, Savings(e.rate));
        o := Created;
      } else if e.choice == 2 {
        var _ := Open(e.number, e.holder, e.initial, Checking(e.overdraft));
        o := Created;
      } else if e.choice == 3 {
        var _ := Open(e.number, e.holder, e.initial, FixedDeposit(e.term, e.rate));
        o := Created;
      } else if e.choice == 4 {
        o := Transact(e.number, DepositOf(e.amount));
      } else if e.choice == 5 {
        o := Transact(e.number, WithdrawalOf(e.amount));
      } else if e.choice == 6 {
        o := Listed(StatesOf(accounts));
      } else if e.choice == 7 {
        var rs := Interests();
        o := Accounts.Interests(rs);
      } else {
        o := NoAction;
      }
    }
  }

  /**
   * `menu()`: the do-while loop over the rounds typed by the user, starting
   * from an empty registry and stopping after choice 8 or at the end of input.
   */
  method RunMenu(entries: seq<Entry>) returns (registry: AccountRegistry, outcomes: seq<Outcome>)
    ensures fresh(registry) && registry.Valid()
    ensures Session(registry.View(), outcomes) == Run(entries)
  {
    registry := new AccountRegistry();
    outcomes := [];
    var i := 0;
    while i < |entries|
      invariant 0 <= i <= |entries|
      invariant fresh(registry) && registry.Valid()
      invariant forall a | a in registry.accounts :: fresh(a)
      invariant RunFrom(Session(registry.View(), outcomes), entries[i..]) == Run(entries)
    {
      ghost var s := Session(registry.View(), outcomes);
      var e := entries[i];
      var o := registry.Step(e);
      outcomes := outcomes + [o];
      i := i + 1;
      assert entries[i - 1..][1..] == entries[i..];
      if e.choice == 8 {
        break;
      }
    }
  }
}
