/**
 * One bank account: an account number and PIN fixed at creation, a
 * balance in pesos, and the bounded log of its recent transactions.
 */
module Bank {
  import opened TransactionLog

  /** The billers a bill payment can go to. */
  datatype Bill = Electricity | Water | WiFi

  /** One line of the mini statement, kept abstract instead of as text. */
  datatype Entry =
    | Deposited(amount: int)
    | Withdrawn(amount: int)
    | Paid(bill: Bill, amount: int)
    | CheckedBalance(balance: int)

  /**
   * The part of an account that operations change, as a value: the
   * specification the methods of class Account are proved against.
   */
  datatype AccountState = AccountState(balance: int, log: seq<Entry>) {

    /** The account's invariant: never overdrawn, log within capacity. */
    predicate Valid() {
      balance >= 0 && |log| <= Capacity
    }

    /** Effect of a deposit: only a positive amount is taken. */
    function Deposit(amount: int): (r: AccountState)
      ensures amount <= 0 ==> r == this
      ensures amount > 0 ==> r.balance == balance + amount && |r.log| > 0 && r.log[|r.log| - 1] == Deposited(amount)
      ensures amount > 0 && |log| <= Capacity ==> r.log == LastN(log + [Deposited(amount)], Capacity)
      ensures Valid() ==> r.Valid()
    {
      if amount > 0 then AccountState(balance + amount, Record(log, Deposited(amount))) else this
    }

    /** Whether a withdrawal of `amount` is allowed. */
    predicate CanWithdraw(amount: int) {
      amount > 0 && amount <= balance
    }

    /** Effect of a withdrawal: an allowed amount is taken off and logged. */
    function Withdraw(amount: int): (r: AccountState)
      ensures r != this <==> amount > 0 && amount <= balance
      ensures CanWithdraw(amount) ==> r.balance == balance - amount && |r.log| > 0 && r.log[|r.log| - 1] == Withdrawn(amount)
      ensures CanWithdraw(amount) && |log| <= Capacity ==> r.log == LastN(log + [Withdrawn(amount)], Capacity)
      ensures balance >= 0 ==> r.balance >= 0
      ensures Valid() ==> r.Valid()
    {
      if CanWithdraw(amount) then AccountState(balance - amount, Record(log, Withdrawn(amount))) else this
    }
  }

  /** A call on an account's public balance operations. */
  datatype Call = DepositCall(amount: int) | WithdrawCall(amount: int)

  /** The state after making `calls` one after the other. */
  function Replay(s: AccountState, calls: seq<Call>): AccountState
    decreases |calls|
  {
    if calls == [] then s
    else
      var next := match calls[0]
        case DepositCall(a) => s.Deposit(a)
        case WithdrawCall(a) => s.Withdraw(a);
      Replay(next, calls[1..])
  }

  /**
   * No sequence of deposits and withdrawals makes a non-negative balance
   * negative, or makes a log within capacity grow past it.
   */
  lemma {:induction false} ReplayKeepsInvariant(s: AccountState, calls: seq<Call>)
    requires s.balance >= 0
    ensures Replay(s, calls).balance >= 0
    ensures |s.log| <= Capacity ==> |Replay(s, calls).log| <= Capacity
    decreases |calls|
  {
    if calls != [] {
      var next := match calls[0]
        case DepositCall(a) => s.Deposit(a)
        case WithdrawCall(a) => s.Withdraw(a);
      ReplayKeepsInvariant(next, calls[1..]);
    }
  }

  class Account {
    const accountNumber: string
    const pin: int
    var balance: int
    var transactions: seq<Entry>

    /** The account's changing part as a value. */
    function State(): AccountState
      reads this
    {
      AccountState(balance, transactions)
    }

    ghost predicate Valid()
      reads this
    {
      State().Valid()
    }

    constructor (accountNumber: string, pin: int, balance: int)
      ensures this.accountNumber == accountNumber && this.pin == pin
      ensures State() == AccountState(balance, [])
      ensures Valid() <==> balance >= 0
    {
      this.accountNumber := accountNumber;
      this.pin := pin;
      this.balance := balance;
      this.transactions := [];
    }

    /** Compares an entered PIN with the stored one; changes nothing. */
    method CheckPin(inputPin: int) returns (ok: bool)
      ensures ok <==> inputPin == pin
    {
      ok := pin == inputPin;
    }

    method GetAccountNumber() returns (n: string)
      ensures n == accountNumber
    {
      n := accountNumber;
    }

    method GetBalance() returns (b: int)
      ensures b == balance
    {
      b := balance;
    }

    method Deposit(amount: int)
      modifies this
      ensures State() == old(State()).Deposit(amount)
      ensures old(Valid()) ==> Valid()
    {
      if amount > 0 {
        balance := balance + amount;
        AddTransaction(Deposited(amount));
      }
    }

    method Withdraw(amount: int) returns (ok: bool)
      modifies this
      ensures ok <==> old(State()).CanWithdraw(amount)
      ensures State() == old(State()).Withdraw(amount)
      ensures old(Valid()) ==> Valid()
    {
      if amount > 0 && amount <= balance {
        balance := balance - amount;
        AddTransaction(Withdrawn(amount));
        return true;
      }
      return false;
    }

    /** Adds one entry to the bounded log; the balance is untouched. */
    method AddTransaction(info: Entry)
      modifies this
      ensures balance == old(balance)
      ensures transactions == Record(old(transactions), info)
      ensures old(Valid()) ==> Valid()
    {
      transactions := transactions + [info];
      if |transactions| > Capacity {
        transactions := transactions[1..];
      }
    }

    /** The recent transactions, oldest first. */
    method GetMiniStatement() returns (r: seq<Entry>)
      ensures r == transactions
      ensures Valid() ==> |r| <= Capacity
    {
      r := transactions;
    }
  }
}
