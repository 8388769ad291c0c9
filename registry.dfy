/**
 * The account registry as a value: the accounts in insertion order, the
 * find-first lookup by account number, and a deposit or withdrawal applied
 * to the account that lookup finds. Account numbers are never checked for
 * uniqueness, so the earliest account with a number is the one found.
 */
module Registry {
  import opened Accounts

  datatype Option<T> = None | Some(value: T)

  /** A transaction the menu applies to one account. */
  datatype Transaction = DepositOf(amount: real) | WithdrawalOf(amount: real)

  /** The account operation a transaction runs (`withdraw` dispatches on the variant). */
  function Apply(a: Account, t: Transaction): (r: (Account, Outcome))
    ensures Identity(r.0) == Identity(a)
    ensures r.1 != NotFound
    ensures t.DepositOf? ==> r.1.Deposited?
  {
    match t
    case DepositOf(amount) => Deposit(a, amount)
    case WithdrawalOf(amount) => Withdraw(a, amount)
  }

  /** The position of the first account, in insertion order, whose number matches. */
  function FirstMatch(rs: seq<Account>, number: string): (r: Option<nat>)
    ensures r.Some? ==>
      r.value < |rs| && rs[r.value].number == number &&
      forall j :: 0 <= j < r.value ==> rs[j].number != number
    ensures r.None? ==> forall j :: 0 <= j < |rs| ==> rs[j].number != number
  {
    if rs == [] then None
    else if rs[0].number == number then Some(0)
    else match FirstMatch(rs[1..], number)
      case None => None
      case Some(k) => Some(k + 1)
  }

  /**
   * Choices 4 and 5 of the menu: find the first account with the number and
   * run the transaction on it, or report that no account has that number.
   */
  function Transact(rs: seq<Account>, number: string, t: Transaction): (r: (seq<Account>, Outcome))
    ensures |r.0| == |rs|
    ensures r.1 == NotFound <==> FirstMatch(rs, number).None?
    ensures r.1 == NotFound ==> r.0 == rs
    ensures forall j :: 0 <= j < |rs| && FirstMatch(rs, number) != Some(j) ==> r.0[j] == rs[j]
    ensures forall j :: 0 <= j < |rs| ==> Identity(r.0[j]) == Identity(rs[j])
  {
    match FirstMatch(rs, number)
    case None => (rs, NotFound)
    case Some(k) =>
      var (a, o) := Apply(rs[k], t);
      (rs[k := a], o)
  }

  /** The identities of the accounts, in order. */
  function Identities(rs: seq<Account>): (ids: seq<(string, string, Kind)>)
    ensures |ids| == |rs|
    ensures forall i :: 0 <= i < |rs| ==> ids[i] == Identity(rs[i])
  {
    seq(|rs|, i requires 0 <= i < |rs| => Identity(rs[i]))
  }

  /** Every account other than the first match comes out exactly as it went in. */
  lemma TransactTouchesOnlyFirstMatch(rs: seq<Account>, number: string, t: Transaction, j: nat)
    requires j < |rs|
    requires FirstMatch(rs, number) != Some(j)
    ensures Transact(rs, number, t).0[j] == rs[j]
  {
  }

  /** The first match itself is updated by the account operation, which also gives the outcome. */
  lemma TransactRunsAccountOperation(rs: seq<Account>, number: string, t: Transaction, k: nat)
    requires FirstMatch(rs, number) == Some(k)
    ensures Transact(rs, number, t).0[k] == Apply(rs[k], t).0
    ensures Transact(rs, number, t).1 == Apply(rs[k], t).1
  {
  }

  /**
   * With duplicate numbers the earliest account wins: a later account with
   * the same number is never changed.
   */
  lemma EarliestDuplicateWins(rs: seq<Account>, number: string, t: Transaction, i: nat, j: nat)
    requires i < j < |rs|
    requires rs[i].number == number && rs[j].number == number
    ensures Transact(rs, number, t).0[j] == rs[j]
  {
  }

  /**
   * "Account not found" is reported exactly when no account has the number,
   * and then nothing changes; in particular on an empty registry.
   */
  lemma NotFoundIffNoMatch(rs: seq<Account>, number: string, t: Transaction)
    ensures Transact(rs, number, t).1 == NotFound <==>
      forall j :: 0 <= j < |rs| ==> rs[j].number != number
    ensures Transact(rs, number, t).1 == NotFound ==> Transact(rs, number, t).0 == rs
    ensures Transact([], number, t) == ([], NotFound)
  {
  }

  /** A transaction never changes which accounts exist or who they are. */
  lemma TransactKeepsIdentities(rs: seq<Account>, number: string, t: Transaction)
    ensures Identities(Transact(rs, number, t).0) == Identities(rs)
  {
  }

  /** Lookup depends only on the numbers, so a transaction does not move the first match. */
  lemma FirstMatchFollowsNumbers(rs: seq<Account>, rs': seq<Account>, number: string)
    requires |rs| == |rs'|
    requires forall i :: 0 <= i < |rs| ==> rs'[i].number == rs[i].number
    ensures FirstMatch(rs', number) == FirstMatch(rs, number)
  {
  }

  /**
   * Depositing an amount into an account in standing and then withdrawing
   * the same amount by the same number restores the whole registry.
   */
  lemma DepositThenWithdrawRestoresRegistry(rs: seq<Account>, number: string, amount: real)
    requires FirstMatch(rs, number).Some?
    requires InStanding(rs[FirstMatch(rs, number).value])
    ensures Transact(Transact(rs, number, DepositOf(amount)).0, number, WithdrawalOf(amount)).0 == rs
  {
  }
}
