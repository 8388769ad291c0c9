/**
 * The menu loop of the console as a value: one `Entry` is what the user
 * types for one round (the choice and the fields the chosen action reads),
 * `Step` is the dispatch on the choice, and `RunFrom` repeats it until
 * choice 8 or until the input runs out.
 */
module Menu {
  import opened Accounts
  import opened Registry

  /**
   * One round of input. Only the fields the choice prompts for are read:
   * 1 reads number, holder, initial, rate; 2 number, holder, initial,
   * overdraft; 3 number, holder, initial, term, rate; 4 and 5 number, amount.
   */
  datatype Entry = Entry(
    choice: int,
    number: string,
    holder: string,
    initial: real,
    rate: real,
    overdraft: real,
    term: int,
    amount: real)

  /** Accounts and the outcomes reported so far, one per round. */
  datatype Session = Session(accounts: seq<Account>, outcomes: seq<Outcome>)

  /** The interest report of every account, in registry order (choice 7). */
  function InterestsOf(rs: seq<Account>): (r: seq<Interest>)
    ensures |r| == |rs|
    ensures forall i :: 0 <= i < |rs| ==> r[i] == InterestOf(rs[i])
  {
    seq(|rs|, i requires 0 <= i < |rs| => InterestOf(rs[i]))
  }

  /** The account a creation choice (1, 2 or 3) opens. */
  function Opened(e: Entry): (a: Account)
    requires 1 <= e.choice <= 3
    ensures a.number == e.number && a.holder == e.holder && a.balance == e.initial
    ensures e.choice == 1 <==> a.kind.Savings?
    ensures e.choice == 2 <==> a.kind.Checking?
    ensures e.choice == 3 <==> a.kind.FixedDeposit?
  {
    var kind :=
      if e.choice == 1 then Savings(e.rate)
      else if e.choice == 2 then Checking(e.overdraft)
      else FixedDeposit(e.term, e.rate);
    Account(e.number, e.holder, kind, e.initial)
  }

  /** One round of the menu: the chain of `if (choice == …)` branches. */
  function Step(rs: seq<Account>, e: Entry): (r: (seq<Account>, Outcome))
    ensures 1 <= e.choice <= 3 ==> r == (rs + [Opened(e)], Created)
    ensures 4 <= e.choice <= 5 ==> |r.0| == |rs| && (r.1 == NotFound <==> FirstMatch(rs, e.number).None?)
    ensures !(1 <= e.choice <= 5) ==> r.0 == rs
    ensures forall j :: 0 <= j < |rs| ==> Identity(r.0[j]) == Identity(rs[j])
  {
    if 1 <= e.choice <= 3 then (rs + [Opened(e)], Created)
    else if e.choice == 4 then Transact(rs, e.number, DepositOf(e.amount))
    else if e.choice == 5 then Transact(rs, e.number, WithdrawalOf(e.amount))
    else if e.choice == 6 then (rs, Listed(rs))
    else if e.choice == 7 then (rs, Interests(InterestsOf(rs)))
    else (rs, NoAction)
  }

  /** Runs rounds from `s` until a round with choice 8 or the end of the input. */
  function RunFrom(s: Session, es: seq<Entry>): (r: Session)
    ensures |s.outcomes| <= |r.outcomes| <= |s.outcomes| + |es|
    ensures r.outcomes[..|s.outcomes|] == s.outcomes
    ensures |r.accounts| >= |s.accounts|
    decreases |es|
  {
    if es == [] then s
    else
      var (rs, o) := Step(s.accounts, es[0]);
      var s' := Session(rs, s.outcomes + [o]);
      if es[0].choice == 8 then s' else RunFrom(s', es[1..])
  }

  /** A whole session, starting with an empty registry. */
  function Run(es: seq<Entry>): (r: Session)
    ensures |r.outcomes| <= |es|
    ensures (forall j :: 0 <= j < |es| ==> es[j].choice != 8) ==> |r.outcomes| == |es|
    ensures forall j :: 0 <= j < |r.outcomes| - 1 ==> es[j].choice != 8
  {
    OnlyExitTerminates(Session([], []), es);
    RunFrom(Session([], []), es)
  }

  /**
   * Creation choices append exactly one new account at the end, with the
   * typed fields and the chosen variant, whatever number it has.
   */
  lemma CreationAppends(rs: seq<Account>, e: Entry)
    requires 1 <= e.choice <= 3
    ensures var rs' := Step(rs, e).0;
      |rs'| == |rs| + 1 && rs'[..|rs|] == rs && rs'[|rs|].number == e.number &&
      rs'[|rs|].holder == e.holder && rs'[|rs|].balance == e.initial &&
      rs'[|rs|].kind == (if e.choice == 1 then Savings(e.rate)
                         else if e.choice == 2 then Checking(e.overdraft)
                         else FixedDeposit(e.term, e.rate))
  {
  }

  /** Choices 6, 7, 8 and every number outside 1 to 8 leave the registry as it is. */
  lemma InertChoices(rs: seq<Account>, e: Entry)
    requires !(1 <= e.choice <= 5)
    ensures Step(rs, e).0 == rs
    ensures e.choice == 6 ==> Step(rs, e).1 == Listed(rs)
    ensures e.choice == 7 ==> Step(rs, e).1 == Interests(InterestsOf(rs))
    ensures !(6 <= e.choice <= 7) ==> Step(rs, e).1 == NoAction
  {
  }

  /** No round removes an account or changes any account's number, holder or variant. */
  lemma StepKeepsIdentities(rs: seq<Account>, e: Entry)
    ensures var rs' := Step(rs, e).0;
      |rs'| >= |rs| && Identities(rs'[..|rs|]) == Identities(rs)
  {
  }

  /**
   * Only choice 8 ends the loop: a run reports one outcome per round it
   * reads, never reads past the first choice 8, and stops before the end of
   * the input only right after a choice 8.
   */
  lemma {:induction false} OnlyExitTerminates(s: Session, es: seq<Entry>)
    ensures var r := RunFrom(s, es);
      var n := |r.outcomes| - |s.outcomes|;
      0 <= n <= |es| && r.outcomes[..|s.outcomes|] == s.outcomes &&
      (forall j :: 0 <= j < n - 1 ==> es[j].choice != 8) &&
      (n < |es| ==> n > 0 && es[n - 1].choice == 8) &&
      ((forall j :: 0 <= j < |es| ==> es[j].choice != 8) ==> n == |es|)
    decreases |es|
  {
    if es != [] {
      var (rs, o) := Step(s.accounts, es[0]);
      var s' := Session(rs, s.outcomes + [o]);
      if es[0].choice != 8 {
        OnlyExitTerminates(s', es[1..]);
        var r := RunFrom(s, es);
        assert r == RunFrom(s', es[1..]);
        assert r.outcomes[..|s'.outcomes|] == s'.outcomes;
        assert r.outcomes[..|s.outcomes|] == s'.outcomes[..|s.outcomes|];
        var n := |r.outcomes| - |s.outcomes|;
        forall j | 0 <= j < n - 1 ensures es[j].choice != 8 {
          if j > 0 { assert es[j] == es[1..][j - 1]; }
        }
        if n < |es| {
          assert es[n - 1] == es[1..][n - 2];
        }
      }
    }
  }

  /** Nothing typed after a choice 8 is ever read. */
  lemma {:induction false} InputAfterExitIgnored(s: Session, es: seq<Entry>, rest: seq<Entry>, x: nat)
    requires x < |es| && es[x].choice == 8
    ensures RunFrom(s, es + rest) == RunFrom(s, es)
    decreases |es|
  {
    assert (es + rest)[0] == es[0];
    if es[0].choice != 8 {
      var (rs, o) := Step(s.accounts, es[0]);
      var s' := Session(rs, s.outcomes + [o]);
      assert (es + rest)[1..] == es[1..] + rest;
      assert es[1..][x - 1] == es[x];
      InputAfterExitIgnored(s', es[1..], rest, x - 1);
    }
  }

  /**
   * Over a whole run accounts are only ever appended: the identities of the
   * accounts at the start are the first identities at the end.
   */
  lemma {:induction false} RunKeepsIdentities(s: Session, es: seq<Entry>)
    ensures var rs' := RunFrom(s, es).accounts;
      |rs'| >= |s.accounts| && Identities(rs'[..|s.accounts|]) == Identities(s.accounts)
    decreases |es|
  {
    var rs := s.accounts;
    if es == [] {
      assert rs[..|rs|] == rs;
    } else {
      var (mid, o) := Step(rs, es[0]);
      StepKeepsIdentities(rs, es[0]);
      var s' := Session(mid, s.outcomes + [o]);
      if es[0].choice != 8 {
        RunKeepsIdentities(s', es[1..]);
        var fin := RunFrom(s', es[1..]).accounts;
        assert fin[..|rs|] == fin[..|mid|][..|rs|];
        forall i | 0 <= i < |rs|
          ensures Identity(fin[..|rs|][i]) == Identity(rs[i])
        {
          assert Identities(fin[..|mid|])[i] == Identities(mid)[i];
          assert Identities(mid[..|rs|])[i] == Identities(rs)[i];
        }
      } else {
        assert mid[..|rs|] == mid[..|mid|][..|rs|];
      }
    }
  }

  /**
   * Savings scenario: open S1 with 1000 at 5 percent, withdraw 1500 (refused,
   * balance stays 1000), deposit 500 (balance 1500), interest is 75.
   */
  lemma SavingsScenario()
    ensures var e := Entry(0, "S1", "Alice", 1000.0, 5.0, 0.0, 0, 0.0);
      var r := Run([e.(choice := 1), e.(choice := 5, amount := 1500.0),
                    e.(choice := 4, amount := 500.0), e.(choice := 7)]);
      r.outcomes == [Created, InsufficientFunds, Deposited(500.0, 1500.0), Interests([Amount(75.0)])] &&
      r.accounts == [Account("S1", "Alice", Savings(5.0), 1500.0)]
  {
    var e := Entry(0, "S1", "Alice", 1000.0, 5.0, 0.0, 0, 0.0);
    var es := [e.(choice := 1), e.(choice := 5, amount := 1500.0),
               e.(choice := 4, amount := 500.0), e.(choice := 7)];
    var a := Account("S1", "Alice", Savings(5.0), 1000.0);
    var b := a.(balance := 1500.0);
    // open
    assert [] + [a] == [a];
    assert [] + [Created] == [Created];
    var s1 := Session([a], [Created]);
    assert Run(es) == RunFrom(s1, es[1..]);
    assert es[1..][0] == es[1] && es[1..][1..] == es[2..];
    assert [Created] + [InsufficientFunds] == [Created, InsufficientFunds];
    // withdraw 1500: refused
    assert [a][0 := a] == [a];
    assert Step([a], es[1]) == ([a], InsufficientFunds);
    var s2 := Session([a], [Created, InsufficientFunds]);
    assert RunFrom(s1, es[1..]) == RunFrom(s2, es[2..]);
    assert es[2..][0] == es[2] && es[2..][1..] == es[3..];
    assert s2.outcomes + [Deposited(500.0, 1500.0)] == [Created, InsufficientFunds, Deposited(500.0, 1500.0)];
    // deposit 500
    assert [a][0 := b] == [b];
    assert Step([a], es[2]) == ([b], Deposited(500.0, 1500.0));
    var s3 := Session([b], [Created, InsufficientFunds, Deposited(500.0, 1500.0)]);
    assert RunFrom(s2, es[2..]) == RunFrom(s3, es[3..]);
    // interest
    assert InterestsOf([b]) == [Amount(75.0)];
    assert es[3..] == [es[3]];
    assert s3.outcomes + [Interests([Amount(75.0)])]
        == [Created, InsufficientFunds, Deposited(500.0, 1500.0), Interests([Amount(75.0)])];
    assert RunFrom(s3, es[3..]) == Session([b], s3.outcomes + [Interests([Amount(75.0)])]);
  }

  /**
   * Checking scenario: open C1 with 200 and overdraft limit 300, withdraw
   * 400 (balance -200), withdraw 400 again (refused, balance stays -200).
   */
  lemma CheckingScenario()
    ensures var e := Entry(2, "C1", "Bob", 200.0, 0.0, 300.0, 0, 400.0);
      var r := Run([e, e.(choice := 5), e.(choice := 5)]);
      r.outcomes == [Created, Withdrawn(400.0, -200.0), OverdraftExceeded] &&
      r.accounts == [Account("C1", "Bob", Checking(300.0), -200.0)]
  {
    var e := Entry(2, "C1", "Bob", 200.0, 0.0, 300.0, 0, 400.0);
    var es := [e, e.(choice := 5), e.(choice := 5)];
    var a := Account("C1", "Bob", Checking(300.0), 200.0);
    var b := a.(balance := -200.0);
    // open
    assert [] + [a] == [a];
    assert [] + [Created] == [Created];
    var s1 := Session([a], [Created]);
    assert Run(es) == RunFrom(s1, es[1..]);
    assert es[1..][0] == es[1] && es[1..][1..] == es[2..];
    assert [Created] + [Withdrawn(400.0, -200.0)] == [Created, Withdrawn(400.0, -200.0)];
    // withdraw 400: within the overdraft limit
    assert [a][0 := b] == [b];
    assert Step([a], es[1]) == ([b], Withdrawn(400.0, -200.0));
    var s2 := Session([b], [Created, Withdrawn(400.0, -200.0)]);
    assert RunFrom(s1, es[1..]) == RunFrom(s2, es[2..]);
    // withdraw 400 again: exceeds the limit
    assert [b][0 := b] == [b];
    assert Step([b], es[2]) == ([b], OverdraftExceeded);
    assert es[2..] == [es[2]];
    assert s2.outcomes + [OverdraftExceeded]
        == [Created, Withdrawn(400.0, -200.0), OverdraftExceeded];
    assert RunFrom(s2, es[2..]) == Session([b], s2.outcomes + [OverdraftExceeded]);
  }
}
