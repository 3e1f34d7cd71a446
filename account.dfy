/**
 * One bank account: an account number, the holder's name and a balance,
 * with the guarded deposit and withdrawal of main.cpp's BankAccount class.
 *
 * The balance is an exact `real`; the source's `double` rounding is not
 * modelled. Each operation reports an `Outcome` in place of the message the
 * source prints.
 */
module BankAccounts {

  /** What an account operation reports. */
  datatype Outcome = Ok | InvalidAmount | InsufficientFunds

  /** The value of an account at one moment. */
  datatype Account = Account(number: string, holder: string, balance: real)

  /** Deposit: a non-positive amount is refused, any other amount is added. */
  function Deposited(a: Account, amount: real): (r: (Outcome, Account))
    ensures r.0 == Ok <==> amount > 0.0
    ensures r.0 != Ok ==> r.0 == InvalidAmount && r.1 == a
    ensures r.0 == Ok ==> r.1.balance == a.balance + amount && r.1.balance > a.balance
    ensures r.1.number == a.number && r.1.holder == a.holder
  {
    if amount <= 0.0 then (InvalidAmount, a)
    else (Ok, a.(balance := a.balance + amount))
  }

  /**
   * Withdrawal: a non-positive amount is refused first, then an amount above
   * the balance; otherwise the amount is taken off, so a successful
   * withdrawal never leaves the balance negative.
   */
  function Withdrawn(a: Account, amount: real): (r: (Outcome, Account))
    ensures r.0 == InvalidAmount <==> amount <= 0.0
    ensures r.0 == InsufficientFunds <==> 0.0 < amount && a.balance < amount
    ensures r.0 == Ok <==> 0.0 < amount <= a.balance
    ensures r.0 != Ok ==> r.1 == a
    ensures r.0 == Ok ==> r.1.balance == a.balance - amount && 0.0 <= r.1.balance < a.balance
    ensures r.1.number == a.number && r.1.holder == a.holder
  {
    if amount <= 0.0 then (InvalidAmount, a)
    else if amount > a.balance then (InsufficientFunds, a)
    else (Ok, a.(balance := a.balance - amount))
  }

  /** Renaming overwrites the holder's name, with no check at all. */
  function Renamed(a: Account, newName: string): (r: Account)
    ensures r.holder == newName
    ensures r.number == a.number && r.balance == a.balance
  {
    a.(holder := newName)
  }

  /**
   * On a non-negative balance, a deposit followed by a withdrawal of the same
   * amount restores the account.
   */
  lemma WithdrawUndoesDeposit(a: Account, amount: real)
    requires amount > 0.0 && a.balance >= 0.0
    ensures Deposited(a, amount).0 == Ok
    ensures Withdrawn(Deposited(a, amount).1, amount) == (Ok, a)
  {
  }

  /**
   * On a negative balance the same round trip is refused: the deposit does
   * not bring the balance up to the amount, so the withdrawal reports
   * insufficient funds.
   */
  lemma NegativeBalanceBlocksRoundTrip(a: Account, amount: real)
    requires amount > 0.0 && a.balance < 0.0
    ensures Withdrawn(Deposited(a, amount).1, amount).0 == InsufficientFunds
  {
  }

  /** Neither deposit nor withdrawal can make a non-negative balance negative. */
  lemma GuardsKeepBalanceNonNegative(a: Account, amount: real)
    requires a.balance >= 0.0
    ensures Deposited(a, amount).1.balance >= 0.0
    ensures Withdrawn(a, amount).1.balance >= 0.0
  {
  }

  /** The account object whose fields the operations update in place. */
  class BankAccount {
    var accountNumber: string
    var accountHolderName: string
    var balance: real

    /** The account's current value. */
    function Value(): Account
      reads this
    {
      Account(accountNumber, accountHolderName, balance)
    }

    /** The getters read one component of the account's value and change nothing. */
    function GetAccountNumber(): (r: string)
      reads this
      ensures r == Value().number
    {
      accountNumber
    }

    function GetAccountHolderName(): (r: string)
      reads this
      ensures r == Value().holder
    {
      accountHolderName
    }

    function GetBalance(): (r: real)
      reads this
      ensures r == Value().balance
    {
      balance
    }

    /** The default account: empty number and name, zero balance. */
    constructor Empty()
      ensures Value() == Account("", "", 0.0)
    {
      accountNumber, accountHolderName, balance := "", "", 0.0;
    }

    /** An account with the given fields; the initial balance is not checked. */
    constructor (accNum: string, holder: string, initialBalance: real)
      ensures Value() == Account(accNum, holder, initialBalance)
    {
      accountNumber, accountHolderName, balance := accNum, holder, initialBalance;
    }

    method SetAccountHolderName(newName: string)
      modifies this
      ensures Value() == Renamed(old(Value()), newName)
    {
      accountHolderName := newName;
    }

    method Deposit(amount: real) returns (outcome: Outcome)
      modifies this
      ensures (outcome, Value()) == Deposited(old(Value()), amount)
    {
      if amount <= 0.0 {
        return InvalidAmount;
      }
      balance := balance + amount;
      outcome := Ok;
    }

    method Withdraw(amount: real) returns (outcome: Outcome)
      modifies this
      ensures (outcome, Value()) == Withdrawn(old(Value()), amount)
    {
      if amount <= 0.0 {
        return InvalidAmount;
      }
      if amount > balance {
        return InsufficientFunds;
      }
      balance := balance - amount;
      outcome := Ok;
    }
  }
}
