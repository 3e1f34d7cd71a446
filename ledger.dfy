/**
 * The ledger driven by main.cpp's menu: an insertion-ordered list of
 * accounts, and one action per menu choice (1 create, 2 list, 3 deposit,
 * 4 withdraw, 5 rename, 6 exit, anything else invalid).
 *
 * The functions on `seq<Account>` say what each action does to the ledger's
 * value; the class `AccountLedger` does it in place on account objects, as
 * the source's `std::vector<BankAccount>` does, and its methods are proved
 * against those functions.
 */
module Ledger {
  import opened BankAccounts

  datatype Option<T> = None | Some(value: T)

  /**
   * One pass through the menu loop: the choice read, then the already parsed
   * values the chosen action reads (the account number, the holder name,
   * and the initial balance or the amount). Actions ignore what they do not
   * read.
   */
  datatype Entry = Entry(choice: int, number: string, name: string, amount: real)

  /** What one pass through the menu reports, in place of printed text. */
  datatype Report =
    | AccountCreated
    | NoAccounts
    | AccountList(rows: seq<Account>)
    | Done(outcome: Outcome)
    | AccountNotFound
    | Goodbye
    | InvalidChoice

  /** The account operation an action applies to the account it finds. */
  datatype Op = DepositOp(amount: real) | WithdrawOp(amount: real) | RenameOp(newName: string)

  /**
   * The account method an action calls. A refused operation leaves the
   * account as it was, and no operation changes the account number.
   */
  function Apply(a: Account, op: Op): (r: (Outcome, Account))
    ensures r.1.number == a.number
    ensures r.0 != Ok ==> r.1 == a
    ensures op.RenameOp? ==> r.0 == Ok && r.1.holder == op.newName && r.1.balance == a.balance
    ensures !op.RenameOp? ==> r.1.holder == a.holder
  {
    match op
    case DepositOp(x) => Deposited(a, x)
    case WithdrawOp(x) => Withdrawn(a, x)
    case RenameOp(n) => (Ok, Renamed(a, n))
  }

  /** The position of the first account with number `id`, if any. */
  function FirstIndex(s: seq<Account>, id: string): (r: Option<nat>)
    ensures r.Some? ==> r.value < |s| && s[r.value].number == id
    ensures r.Some? ==> forall j :: 0 <= j < r.value ==> s[j].number != id
    ensures r.None? <==> forall j :: 0 <= j < |s| ==> s[j].number != id
  {
    if s == [] then None
    else if s[0].number == id then Some(0)
    else
      match FirstIndex(s[1..], id)
      case None => None
      case Some(k) => Some(k + 1)
  }

  /**
   * Apply `op` to the first account numbered `id`; no account number
   * changes. With no such account the result is None (not found) and the
   * ledger is unchanged.
   */
  function ApplyAtFirst(s: seq<Account>, id: string, op: Op): (r: (Option<Outcome>, seq<Account>))
    ensures |r.1| == |s|
    ensures r.0 == None <==> forall j :: 0 <= j < |s| ==> s[j].number != id
    ensures r.0 == None ==> r.1 == s
    ensures forall j :: 0 <= j < |s| ==> r.1[j].number == s[j].number
  {
    match FirstIndex(s, id)
    case None => (None, s)
    case Some(k) =>
      var (o, a) := Apply(s[k], op);
      (Some(o), s[k := a])
  }

  /**
   * Only the first account numbered `id` may change, and it becomes what
   * `op` makes of it, with `op`'s outcome reported; every other account,
   * later duplicates included, stays as it was.
   */
  lemma ApplyAtFirstTouchesOnlyFirst(s: seq<Account>, id: string, op: Op)
    ensures var r := ApplyAtFirst(s, id, op);
      && (forall j :: 0 <= j < |s| && r.1[j] != s[j] ==>
            s[j].number == id && forall i :: 0 <= i < j ==> s[i].number != id)
      && (forall j :: 0 <= j < |s| && s[j].number == id && (forall i :: 0 <= i < j ==> s[i].number != id) ==>
            r.0 == Some(Apply(s[j], op).0) && r.1[j] == Apply(s[j], op).1)
  {
  }

  /** The report of a deposit, withdrawal or rename by number. */
  function Reported(o: Option<Outcome>): Report
  {
    match o
    case None => AccountNotFound
    case Some(x) => Done(x)
  }

  /** The balances in `s` are all at least zero. */
  predicate AllNonNegative(s: seq<Account>)
  {
    forall j :: 0 <= j < |s| ==> s[j].balance >= 0.0
  }

  /**
   * One pass through the `switch` of the menu loop, on the ledger's value.
   * No action removes an account or changes an account's number, so the old
   * ledger's numbers are a prefix of the new one's; only create, deposit,
   * withdraw and rename can change the ledger at all.
   */
  function Step(s: seq<Account>, e: Entry): (r: (Report, seq<Account>))
    ensures |s| <= |r.1|
    ensures forall j :: 0 <= j < |s| ==> r.1[j].number == s[j].number
    ensures e.choice !in {1, 3, 4, 5} ==> r.1 == s
  {
    match e.choice
    case 1 => (AccountCreated, s + [Account(e.number, e.name, e.amount)])
    case 2 => (if s == [] then NoAccounts else AccountList(s), s)
    case 3 =>
      var (o, t) := ApplyAtFirst(s, e.number, DepositOp(e.amount));
      (Reported(o), t)
    case 4 =>
      var (o, t) := ApplyAtFirst(s, e.number, WithdrawOp(e.amount));
      (Reported(o), t)
    case 5 =>
      var (o, t) := ApplyAtFirst(s, e.number, RenameOp(e.name));
      (Reported(o), t)
    case 6 => (Goodbye, s)
    case _ => (InvalidChoice, s)
  }

  /** The final ledger, the reports and the number of passes of a session. */
  datatype Session = Session(ledger: seq<Account>, reports: seq<Report>, steps: nat)

  /**
   * The `do`/`while` menu loop over a sequence of entries: every entry is
   * handled, and the loop stops right after an entry whose choice is 6, or
   * when the entries run out.
   */
  function Run(s: seq<Account>, inputs: seq<Entry>): (r: Session)
    ensures r.steps <= |inputs|
    ensures |r.reports| == r.steps
    ensures inputs != [] ==> r.steps >= 1
    decreases |inputs|
  {
    if inputs == [] then Session(s, [], 0)
    else
      var (report, t) := Step(s, inputs[0]);
      if inputs[0].choice == 6 then Session(t, [report], 1)
      else
        var rest := Run(t, inputs[1..]);
        Session(rest.ledger, [report] + rest.reports, rest.steps + 1)
  }

  /** `reports` and `steps` already done, followed by the session `rest`. */
  function Continue(reports: seq<Report>, steps: nat, rest: Session): Session
  {
    Session(rest.ledger, reports + rest.reports, steps + rest.steps)
  }

  /** Create appends exactly one account, with no duplicate-number or sign check. */
  lemma CreateAppends(s: seq<Account>, e: Entry)
    requires e.choice == 1
    ensures Step(s, e).0 == AccountCreated
    ensures |Step(s, e).1| == |s| + 1
    ensures Step(s, e).1[..|s|] == s
    ensures Step(s, e).1[|s|] == Account(e.number, e.name, e.amount)
  {
  }

  /**
   * Listing reports NoAccounts exactly on an empty ledger, otherwise every
   * account once in insertion order; it changes nothing, so listing twice
   * reports the same both times.
   */
  lemma ListIsIdempotent(s: seq<Account>, e1: Entry, e2: Entry)
    requires e1.choice == 2 && e2.choice == 2
    ensures Step(s, e1).1 == s
    ensures Step(s, e1).0 == NoAccounts <==> s == []
    ensures s != [] ==> Step(s, e1).0 == AccountList(s)
    ensures Step(Step(s, e1).1, e2) == Step(s, e1)
  {
  }

  /** Exit and every choice outside 1 to 6 leave the ledger unchanged. */
  lemma OtherChoicesChangeNothing(s: seq<Account>, e: Entry)
    requires e.choice !in {1, 2, 3, 4, 5}
    ensures Step(s, e).1 == s
    ensures Step(s, e).0 == if e.choice == 6 then Goodbye else InvalidChoice
  {
  }

  /**
   * Deposit, withdraw and rename keep every balance non-negative; only
   * create, which does not check the initial balance, can add a negative one.
   */
  lemma StepKeepsNonNegative(s: seq<Account>, e: Entry)
    requires AllNonNegative(s)
    requires e.choice == 1 ==> e.amount >= 0.0
    ensures AllNonNegative(Step(s, e).1)
  {
  }

  /** The source accepts a duplicate account number and a negative initial balance. */
  lemma CreateIsLenient(s: seq<Account>, e: Entry)
    requires e.choice == 1 && e.amount < 0.0
    requires exists j :: 0 <= j < |s| && s[j].number == e.number
    ensures !AllNonNegative(Step(s, e).1)
    ensures exists i, j :: 0 <= i < j < |Step(s, e).1| && Step(s, e).1[i].number == Step(s, e).1[j].number
  {
    var t := Step(s, e).1;
    var j :| 0 <= j < |s| && s[j].number == e.number;
    assert t[j].number == t[|s|].number;
    assert t[|s|].balance < 0.0;
  }

  /**
   * The menu loop handles the entries in order and ends only on choice 6:
   * no entry before the last one handled chose 6, and it stops early only
   * right after an entry that did.
   */
  lemma {:induction false} RunEndsOnlyAtExit(s: seq<Account>, inputs: seq<Entry>)
    ensures forall j :: 0 <= j < Run(s, inputs).steps - 1 ==> inputs[j].choice != 6
    ensures Run(s, inputs).steps < |inputs| ==> inputs[Run(s, inputs).steps - 1].choice == 6
    decreases |inputs|
  {
    if inputs != [] && inputs[0].choice != 6 {
      var t := Step(s, inputs[0]).1;
      RunEndsOnlyAtExit(t, inputs[1..]);
      var rest := Run(t, inputs[1..]);
      assert Run(s, inputs).steps == rest.steps + 1;
      forall j | 1 <= j < rest.steps + 1 - 1
        ensures inputs[j].choice != 6
      {
        assert inputs[j] == inputs[1..][j - 1];
      }
      if rest.steps + 1 < |inputs| {
        assert inputs[rest.steps] == inputs[1..][rest.steps - 1];
      }
    }
  }

  /** Over a whole session, accounts are never removed or renumbered. */
  lemma {:induction false} RunKeepsNumbers(s: seq<Account>, inputs: seq<Entry>)
    ensures |s| <= |Run(s, inputs).ledger|
    ensures forall j :: 0 <= j < |s| ==> Run(s, inputs).ledger[j].number == s[j].number
    decreases |inputs|
  {
    if inputs != [] {
      var t := Step(s, inputs[0]).1;
      if inputs[0].choice != 6 {
        RunKeepsNumbers(t, inputs[1..]);
      }
    }
  }

  /**
   * A session that starts with non-negative balances and creates accounts
   * only with non-negative initial balances ends with non-negative balances.
   */
  lemma {:induction false} RunKeepsNonNegative(s: seq<Account>, inputs: seq<Entry>)
    requires AllNonNegative(s)
    requires forall j :: 0 <= j < |inputs| && inputs[j].choice == 1 ==> inputs[j].amount >= 0.0
    ensures AllNonNegative(Run(s, inputs).ledger)
    decreases |inputs|
  {
    if inputs != [] {
      var t := Step(s, inputs[0]).1;
      StepKeepsNonNegative(s, inputs[0]);
      if inputs[0].choice != 6 {
        forall j | 0 <= j < |inputs[1..]| && inputs[1..][j].choice == 1
          ensures inputs[1..][j].amount >= 0.0
        {
          assert inputs[1..][j] == inputs[j + 1];
        }
        RunKeepsNonNegative(t, inputs[1..]);
      }
    }
  }

  /**
   * A sample session: create A1 for Alice with 100, deposit 50, withdraw
   * 200 (refused), rename to Alicia, deposit into the unknown Z9, exit.
   */
  const OpenA1 := Entry(1, "A1", "Alice", 100.0)
  const Deposit50 := Entry(3, "A1", "", 50.0)
  const Withdraw200 := Entry(4, "A1", "", 200.0)
  const RenameAlicia := Entry(5, "A1", "Alicia", 0.0)
  const DepositZ9 := Entry(3, "Z9", "", 10.0)
  const Quit := Entry(6, "", "", 0.0)
  const SampleEntries := [OpenA1] + ([Deposit50] + ([Withdraw200] + ([RenameAlicia] + ([DepositZ9] + [Quit]))))

  /** The ledger after each pass of the sample session that changes it. */
  const Created := [Account("A1", "Alice", 100.0)]
  const Deposited50 := [Account("A1", "Alice", 150.0)]
  const RenamedAlicia := [Account("A1", "Alicia", 150.0)]

  lemma SampleSteps()
    ensures Step([], OpenA1) == (AccountCreated, Created)
    ensures Step(Created, Deposit50) == (Done(Ok), Deposited50)
    ensures Step(Deposited50, Withdraw200) == (Done(InsufficientFunds), Deposited50)
    ensures Step(Deposited50, RenameAlicia) == (Done(Ok), RenamedAlicia)
    ensures Step(RenamedAlicia, DepositZ9) == (AccountNotFound, RenamedAlicia)
    ensures Step(RenamedAlicia, Quit) == (Goodbye, RenamedAlicia)
  {
    assert [] + [Account("A1", "Alice", 100.0)] == Created;
    assert FirstIndex(Created, "A1") == Some(0);
    assert Created[0 := Account("A1", "Alice", 150.0)] == Deposited50;
    assert FirstIndex(Deposited50, "A1") == Some(0);
    assert Deposited50[0 := Deposited50[0]] == Deposited50;
    assert Deposited50[0 := Account("A1", "Alicia", 150.0)] == RenamedAlicia;
    assert FirstIndex(RenamedAlicia, "Z9") == None;
  }

  /** One pass of the menu loop, then the rest of the session. */
  lemma RunCons(s: seq<Account>, e: Entry, rest: seq<Entry>)
    ensures Run(s, [e] + rest) ==
              if e.choice == 6 then Session(Step(s, e).1, [Step(s, e).0], 1)
              else Continue([Step(s, e).0], 1, Run(Step(s, e).1, rest))
  {
    assert ([e] + rest)[1..] == rest;
  }

  /** The last three passes of the sample session: rename, unknown account, exit. */
  lemma SampleSessionTail()
    ensures Run(Deposited50, [RenameAlicia] + ([DepositZ9] + [Quit])) ==
            Session(RenamedAlicia, [Done(Ok), AccountNotFound, Goodbye], 3)
  {
    SampleSteps();
    assert Run(RenamedAlicia, [Quit]) == Session(RenamedAlicia, [Goodbye], 1) by {
      RunCons(RenamedAlicia, Quit, []);
      assert [Quit] + [] == [Quit];
    }
    assert Run(RenamedAlicia, [DepositZ9] + [Quit]) == Session(RenamedAlicia, [AccountNotFound, Goodbye], 2) by {
      RunCons(RenamedAlicia, DepositZ9, [Quit]);
    }
    RunCons(Deposited50, RenameAlicia, [DepositZ9] + [Quit]);
  }

  lemma SampleSession()
    ensures Run([], SampleEntries).ledger == RenamedAlicia
    ensures Run([], SampleEntries).reports ==
              [AccountCreated, Done(Ok), Done(InsufficientFunds), Done(Ok), AccountNotFound, Goodbye]
  {
    SampleSteps();
    SampleSessionTail();
    var t3 := [RenameAlicia] + ([DepositZ9] + [Quit]);
    var t2 := [Withdraw200] + t3;
    var t1 := [Deposit50] + t2;
    assert Run(Deposited50, t2) ==
           Session(RenamedAlicia, [Done(InsufficientFunds), Done(Ok), AccountNotFound, Goodbye], 4) by {
      RunCons(Deposited50, Withdraw200, t3);
    }
    assert Run(Created, t1) ==
           Session(RenamedAlicia, [Done(Ok), Done(InsufficientFunds), Done(Ok), AccountNotFound, Goodbye], 5) by {
      RunCons(Created, Deposit50, t2);
    }
    RunCons([], OpenA1, t1);
  }

  /** The values of a sequence of account objects, in order. */
  ghost function Values(s: seq<BankAccount>): (r: seq<Account>)
    reads s
    ensures |r| == |s|
    ensures forall i :: 0 <= i < |s| ==> r[i] == s[i].Value()
  {
    if s == [] then [] else Values(s[..|s| - 1]) + [s[|s| - 1].Value()]
  }

  /** The source's `std::vector<BankAccount>`: distinct account objects in insertion order. */
  class AccountLedger {
    var accounts: seq<BankAccount>
    ghost var Repr: set<object>

    ghost predicate Valid()
      reads this, Repr
    {
      this in Repr &&
      (forall i :: 0 <= i < |accounts| ==> accounts[i] in Repr) &&
      (forall i, j :: 0 <= i < j < |accounts| ==> accounts[i] != accounts[j])
    }

    /** The ledger's value. */
    ghost function Contents(): seq<Account>
      reads this, accounts
    {
      Values(accounts)
    }

    constructor ()
      ensures Valid() && fresh(Repr)
      ensures Contents() == []
    {
      accounts := [];
      Repr := {this};
    }

    /** Case 1: append a new account. */
    method Create(accNum: string, holder: string, initialBalance: real)
      requires Valid()
      modifies this
      ensures Valid() && fresh(Repr - old(Repr))
      ensures |accounts| == |old(accounts)| + 1 && accounts[..|old(accounts)|] == old(accounts)
      ensures fresh(accounts[|accounts| - 1])
      ensures Contents() == old(Contents()) + [Account(accNum, holder, initialBalance)]
    {
      var acc := new BankAccount(accNum, holder, initialBalance);
      accounts := accounts + [acc];
      Repr := Repr + {acc};
    }

    /** Case 2: every account's fields, in insertion order. */
    method List() returns (report: Report)
      ensures report == NoAccounts <==> Contents() == []
      ensures report != NoAccounts ==> report == AccountList(Contents())
    {
      if accounts == [] {
        return NoAccounts;
      }
      var rows := [];
      var i := 0;
      while i < |accounts|
        invariant 0 <= i <= |accounts|
        invariant rows == Contents()[..i]
      {
        rows := rows + [accounts[i].Value()];
        i := i + 1;
      }
      report := AccountList(rows);
    }

    /** The linear scan of cases 3 to 5: the first account numbered `id`. */
    method FindFirst(id: string) returns (found: bool, index: nat)
      ensures found ==> index < |accounts| && accounts[index].accountNumber == id
      ensures found <==> exists j :: 0 <= j < |accounts| && accounts[j].accountNumber == id
      ensures (if found then Some(index) else None) == FirstIndex(Contents(), id)
    {
      found, index := false, 0;
      var i := 0;
      while i < |accounts|
        invariant 0 <= i <= |accounts|
        invariant forall j :: 0 <= j < i ==> accounts[j].accountNumber != id
      {
        if accounts[i].GetAccountNumber() == id {
          found, index := true, i;
          break;
        }
        i := i + 1;
      }
    }

    /** Cases 3 to 5: find the first account numbered `id` and apply `op` to it. */
    method UpdateFirst(id: string, op: Op) returns (outcome: Option<Outcome>)
      requires Valid()
      modifies Repr
      ensures Valid() && Repr == old(Repr) && accounts == old(accounts)
      ensures (outcome, Contents()) == ApplyAtFirst(old(Contents()), id, op)
    {
      ghost var before := Contents();
      var found, i := FindFirst(id);
      if !found {
        return None;
      }
      var acc := accounts[i];
      ghost var (o, a) := Apply(before[i], op);
      assert ApplyAtFirst(before, id, op) == (Some(o), before[i := a]);
      var done := ApplyTo(acc, op);
      assert (done, acc.Value()) == (o, a);
      outcome := Some(done);
      forall j | 0 <= j < |accounts|
        ensures Contents()[j] == before[i := a][j]
      {
        if j != i {
          assert accounts[j] != acc;
        }
      }
      assert Contents() == before[i := a];
    }

    /** One pass through the `switch` on the menu choice. */
    method Dispatch(e: Entry) returns (report: Report)
      requires Valid()
      modifies Repr
      ensures Valid() && fresh(Repr - old(Repr))
      ensures (report, Contents()) == Step(old(Contents()), e)
    {
      match e.choice {
        case 1 =>
          Create(e.number, e.name, e.amount);
          report := AccountCreated;
        case 2 =>
          report := List();
        case 3 =>
          var o := UpdateFirst(e.number, DepositOp(e.amount));
          report := Reported(o);
        case 4 =>
          var o := UpdateFirst(e.number, WithdrawOp(e.amount));
          report := Reported(o);
        case 5 =>
          var o := UpdateFirst(e.number, RenameOp(e.name));
          report := Reported(o);
        case 6 =>
          report := Goodbye;
        case _ =>
          report := InvalidChoice;
      }
    }
  }

  /** Call the account method that `op` names on `acc`. */
  method ApplyTo(acc: BankAccount, op: Op) returns (outcome: Outcome)
    modifies acc
    ensures (outcome, acc.Value()) == Apply(old(acc.Value()), op)
  {
    match op {
      case DepositOp(x) =>
        outcome := acc.Deposit(x);
      case WithdrawOp(x) =>
        outcome := acc.Withdraw(x);
      case RenameOp(n) =>
        acc.SetAccountHolderName(n);
        outcome := Ok;
    }
  }

  /**
   * The menu loop of `main`: start from an empty ledger and dispatch entries
   * until one chooses 6 or the entries run out.
   */
  method RunMenu(inputs: seq<Entry>) returns (ledger: AccountLedger, reports: seq<Report>, steps: nat)
    ensures ledger.Valid()
    ensures Session(ledger.Contents(), reports, steps) == Run([], inputs)
  {
    ledger := new AccountLedger();
    reports, steps := [], 0;
    var choice := 0;
    ghost var goal := Run([], inputs);
    assert inputs[0..] == inputs;
    while steps < |inputs| && choice != 6
      invariant ledger.Valid() && fresh(ledger.Repr)
      invariant steps <= |inputs|
      invariant choice == 6 ==> goal == Session(ledger.Contents(), reports, steps)
      invariant choice != 6 ==> goal == Continue(reports, steps, Run(ledger.Contents(), inputs[steps..]))
      decreases |inputs| - steps
    {
      var e := inputs[steps];
      ghost var before := ledger.Contents();
      assert inputs[steps..][0] == e && inputs[steps..][1..] == inputs[steps + 1..];
      choice := e.choice;
      var report := ledger.Dispatch(e);
      assert Run(before, inputs[steps..]) ==
             if choice == 6 then Session(ledger.Contents(), [report], 1)
             else Continue([report], 1, Run(ledger.Contents(), inputs[steps + 1..]));
      reports := reports + [report];
      steps := steps + 1;
    }
  }
}
