/**
 * The decisions the ATM's console driver makes: the seed accounts, the
 * account lookup, the three-attempt PIN check, the bill-type menu and
 * the effect of each menu choice on the logged-in account. Commands,
 * PINs and amounts arrive already parsed.
 */
module Atm {
  import opened TransactionLog
  import opened Bank

  datatype Option<T> = None | Some(value: T)

  // ---------------------------------------------------------------
  // Accounts known to the machine
  // ---------------------------------------------------------------

  /** No two accounts share an account number. */
  predicate DistinctNumbers(accounts: seq<Account>) {
    forall i, j :: 0 <= i < |accounts| && 0 <= j < |accounts| && i != j ==>
      accounts[i].accountNumber != accounts[j].accountNumber
  }

  /** The three accounts the machine starts with. */
  method SeedAccounts() returns (accounts: seq<Account>)
    ensures |accounts| == 3
    ensures accounts[0].accountNumber == "1001" && accounts[0].pin == 1111
    ensures accounts[0].State() == AccountState(500, [])
    ensures accounts[1].accountNumber == "1002" && accounts[1].pin == 2222
    ensures accounts[1].State() == AccountState(1000, [])
    ensures accounts[2].accountNumber == "1234" && accounts[2].pin == 3333
    ensures accounts[2].State() == AccountState(100, [])
    ensures DistinctNumbers(accounts)
    ensures forall i :: 0 <= i < |accounts| ==> accounts[i].Valid()
  {
    var first := new Account("1001", 1111, 500);
    var second := new Account("1002", 2222, 1000);
    var third := new Account("1234", 3333, 100);
    accounts := [first, second, third];
  }

  /**
   * Linear search: the first account in list order with number `num`,
   * or null when there is none.
   */
  method FindAccount(accounts: seq<Account>, num: string) returns (found: Account?)
    ensures found == null <==> forall i :: 0 <= i < |accounts| ==> accounts[i].accountNumber != num
    ensures found != null ==>
      exists i :: 0 <= i < |accounts| && accounts[i] == found && found.accountNumber == num &&
        forall j :: 0 <= j < i ==> accounts[j].accountNumber != num
    ensures found != null && DistinctNumbers(accounts) ==>
      forall i :: 0 <= i < |accounts| && accounts[i].accountNumber == num ==> accounts[i] == found
  {
    for i := 0 to |accounts|
      invariant forall j :: 0 <= j < i ==> accounts[j].accountNumber != num
    {
      if accounts[i].accountNumber == num {
        return accounts[i];
      }
    }
    return null;
  }

  // ---------------------------------------------------------------
  // PIN check
  // ---------------------------------------------------------------

  /** How many PINs may be tried before the machine shuts down. */
  const MaxAttempts: nat := 3

  /**
   * How a PIN check ends: logged in after `consumed` PINs, shut down
   * after MaxAttempts wrong ones, or out of input before either.
   */
  datatype LoginOutcome = Authenticated(consumed: nat) | Terminated | InputEnded

  /** Position of the first occurrence of `x` in `s`. */
  function FirstIndex(s: seq<int>, x: int): (r: nat)
    requires x in s
    ensures r < |s| && s[r] == x
    ensures forall j :: 0 <= j < r ==> s[j] != x
  {
    if s[0] == x then 0 else 1 + FirstIndex(s[1..], x)
  }

  /** What the PIN check does with the PINs `entered`, in order. */
  function Authenticate(pin: int, entered: seq<int>): (r: LoginOutcome)
    ensures r.Authenticated? <==> exists i :: 0 <= i < |entered| && i < MaxAttempts && entered[i] == pin
    ensures r.Authenticated? ==>
      1 <= r.consumed <= MaxAttempts && r.consumed <= |entered| && entered[r.consumed - 1] == pin &&
      forall j :: 0 <= j < r.consumed - 1 ==> entered[j] != pin
    ensures r == Terminated <==>
      |entered| >= MaxAttempts && forall j :: 0 <= j < MaxAttempts ==> entered[j] != pin
    ensures r == InputEnded <==>
      |entered| < MaxAttempts && forall j :: 0 <= j < |entered| ==> entered[j] != pin
  {
    var window := if |entered| < MaxAttempts then entered else entered[..MaxAttempts];
    if pin in window then Authenticated(FirstIndex(window, pin) + 1)
    else if |entered| >= MaxAttempts then Terminated
    else InputEnded
  }

  /** The PIN-attempt loop run against `acc`. */
  method VerifyPin(acc: Account, entered: seq<int>) returns (outcome: LoginOutcome)
    ensures outcome == Authenticate(acc.pin, entered)
  {
    var tries := 0;
    var loggedIn := false;
    while tries < MaxAttempts
      invariant 0 <= tries <= MaxAttempts && tries <= |entered|
      invariant forall j :: 0 <= j < tries ==> entered[j] != acc.pin
    {
      if tries == |entered| {
        return InputEnded;
      }
      var ok := acc.CheckPin(entered[tries]);
      if ok {
        loggedIn := true;
        break;
      }
      tries := tries + 1;
    }
    if !loggedIn {
      return Terminated;
    }
    outcome := Authenticated(tries + 1);
  }

  // ---------------------------------------------------------------
  // Bill types
  // ---------------------------------------------------------------

  /** The menu number of each biller. */
  function BillChoice(b: Bill): int {
    match b
    case Electricity => 1
    case Water => 2
    case WiFi => 3
  }

  /**
   * The biller a bill-menu number selects, if any. `None` stands for the
   * empty name the console uses to mark an invalid choice.
   */
  function BillType(choice: int): (r: Option<Bill>)
    ensures r.Some? <==> 1 <= choice <= 3
    ensures r.Some? ==> BillChoice(r.value) == choice
  {
    if choice == 1 then Some(Electricity)
    else if choice == 2 then Some(Water)
    else if choice == 3 then Some(WiFi)
    else None
  }

  /** Every biller is selected by its own menu number. */
  lemma BillTypeRoundTrip(b: Bill)
    ensures BillType(BillChoice(b)) == Some(b)
  {
  }

  // ---------------------------------------------------------------
  // Menu choices
  // ---------------------------------------------------------------

  /** A parsed menu choice with the amounts it asks for. */
  datatype Command =
    | Withdraw(amount: int)
    | Deposit(amount: int)
    | Balance
    | Mini
    | PayBill(choice: int, amount: int)
    | Logout
    | Invalid

  /** What the machine tells the user after a menu choice. */
  datatype Outcome =
    | Dispensed(amount: int)
    | NotMultipleOf100
    | InsufficientFunds
    | DepositAccepted(amount: int)
    | InvalidAmount
    | ShowBalance(balance: int)
    | ShowStatement(entries: seq<Entry>)
    | BillPaid(bill: Bill, amount: int)
    | InvalidBillType
    | PaymentFailed
    | LoggedOut
    | InvalidOption

  /** The effect of one menu choice on the logged-in account. */
  function Step(s: AccountState, c: Command): (r: (AccountState, Outcome))
    ensures s.Valid() ==> r.0.Valid()
    ensures r.0.balance > s.balance ==> c.Deposit?
    ensures r.0.balance < s.balance ==> c.Withdraw? || c.PayBill?
    ensures c.Mini? || c.Logout? || c.Invalid? ==> r.0 == s
    ensures c.Mini? ==> r.1 == ShowStatement(s.log) && (s.Valid() ==> |r.1.entries| <= Capacity)
  {
    match c
    case Withdraw(a) =>
      if a % 100 != 0 then (s, NotMultipleOf100)
      else if s.CanWithdraw(a) then (s.Withdraw(a), Dispensed(a))
      else (s, InsufficientFunds)
    case Deposit(a) =>
      if a <= 0 then (s, InvalidAmount) else (s.Deposit(a), DepositAccepted(a))
    case Balance =>
      (AccountState(s.balance, Record(s.log, CheckedBalance(s.balance))), ShowBalance(s.balance))
    case Mini =>
      (s, ShowStatement(s.log))
    case PayBill(choice, a) =>
      (match BillType(choice)
       case None => (s, InvalidBillType)
       case Some(b) =>
         if a > 0 && s.CanWithdraw(a) then
           var paid := s.Withdraw(a);
           (AccountState(paid.balance, Record(paid.log, Paid(b, a))), BillPaid(b, a))
         else (s, PaymentFailed))
    case Logout =>
      (s, LoggedOut)
    case Invalid =>
      (s, InvalidOption)
  }

  /**
   * Withdrawal: an amount that is not a multiple of 100 is refused with
   * the account untouched; otherwise the result is exactly that of the
   * account's own withdrawal, so 0 passes the rule and is still refused.
   */
  lemma WithdrawChoice(s: AccountState, a: int)
    ensures Step(s, Withdraw(a)).1 == Dispensed(a) <==> a % 100 == 0 && 0 < a <= s.balance
    ensures a % 100 != 0 ==> Step(s, Withdraw(a)) == (s, NotMultipleOf100)
    ensures a % 100 == 0 ==> Step(s, Withdraw(a)).0 == s.Withdraw(a)
    ensures a == 0 ==> Step(s, Withdraw(a)) == (s, InsufficientFunds)
  {
  }

  /** Deposit: a non-positive amount changes nothing; otherwise one entry is logged. */
  lemma DepositChoice(s: AccountState, a: int)
    requires s.Valid()
    ensures a <= 0 ==> Step(s, Deposit(a)) == (s, InvalidAmount)
    ensures a > 0 ==>
      Step(s, Deposit(a)) == (AccountState(s.balance + a, LastN(s.log + [Deposited(a)], Capacity)), DepositAccepted(a))
  {
  }

  /** Balance check: the balance stays, and one entry records it. */
  lemma BalanceChoice(s: AccountState)
    requires s.Valid()
    ensures Step(s, Balance) ==
      (AccountState(s.balance, LastN(s.log + [CheckedBalance(s.balance)], Capacity)), ShowBalance(s.balance))
  {
  }

  /**
   * Bill payment: an unknown biller or a refused amount changes nothing;
   * a payment takes the amount off and logs the withdrawal and then the
   * payment.
   */
  lemma PayBillChoice(s: AccountState, choice: int, a: int)
    requires s.Valid()
    ensures !(1 <= choice <= 3) ==> Step(s, PayBill(choice, a)) == (s, InvalidBillType)
    ensures 1 <= choice <= 3 && !(0 < a <= s.balance) ==> Step(s, PayBill(choice, a)) == (s, PaymentFailed)
    ensures 1 <= choice <= 3 && 0 < a <= s.balance ==>
      var b := BillType(choice).value;
      Step(s, PayBill(choice, a)) ==
        (AccountState(s.balance - a, LastN(s.log + [Withdrawn(a), Paid(b, a)], Capacity)), BillPaid(b, a))
  {
    if 1 <= choice <= 3 && 0 < a <= s.balance {
      var b := BillType(choice).value;
      var paid := s.Withdraw(a);
      var w := s.log + [Withdrawn(a)];
      assert paid.log == LastN(w, Capacity);
      assert Record(paid.log, Paid(b, a)) == LastN(paid.log + [Paid(b, a)], Capacity);
      LastNTwice(w, [Paid(b, a)], Capacity);
      assert w + [Paid(b, a)] == s.log + [Withdrawn(a), Paid(b, a)];
      assert Step(s, PayBill(choice, a)) == (AccountState(paid.balance, Record(paid.log, Paid(b, a))), BillPaid(b, a));
    }
  }

  /** Carries out one menu choice on the account object. */
  method Perform(acc: Account, c: Command) returns (o: Outcome)
    modifies acc
    ensures (acc.State(), o) == Step(old(acc.State()), c)
  {
    match c
    case Withdraw(a) =>
      if a % 100 != 0 {
        o := NotMultipleOf100;
      } else {
        var ok := acc.Withdraw(a);
        o := if ok then Dispensed(a) else InsufficientFunds;
      }
    case Deposit(a) =>
      if a <= 0 {
        o := InvalidAmount;
      } else {
        acc.Deposit(a);
        o := DepositAccepted(a);
      }
    case Balance =>
      var b := acc.GetBalance();
      acc.AddTransaction(CheckedBalance(b));
      o := ShowBalance(b);
    case Mini =>
      var entries := acc.GetMiniStatement();
      o := ShowStatement(entries);
    case PayBill(choice, a) =>
      match BillType(choice) {
        case None =>
          o := InvalidBillType;
        case Some(b) =>
          var ok := false;
          if a > 0 {
            ok := acc.Withdraw(a);
          }
          if ok {
            acc.AddTransaction(Paid(b, a));
            o := BillPaid(b, a);
          } else {
            o := PaymentFailed;
          }
      }
    case Logout =>
      o := LoggedOut;
    case Invalid =>
      o := InvalidOption;
  }

  // ---------------------------------------------------------------
  // The logged-in session
  // ---------------------------------------------------------------

  /**
   * Running menu choices until the first Logout (included) or the end of
   * the input: the final state and how many choices were used. (Where
   * the console would fail on exhausted input, the session simply ends.)
   */
  function Session(s: AccountState, cmds: seq<Command>): (r: (AccountState, nat))
    ensures r.1 <= |cmds|
    ensures forall i :: 0 <= i < r.1 - 1 ==> cmds[i] != Logout
    ensures r.1 < |cmds| ==> r.1 > 0 && cmds[r.1 - 1] == Logout
    ensures s.Valid() ==> r.0.Valid()
    decreases |cmds|
  {
    if cmds == [] then (s, 0)
    else
      var next := Step(s, cmds[0]).0;
      if cmds[0] == Logout then (next, 1)
      else
        var rest := Session(next, cmds[1..]);
        (rest.0, rest.1 + 1)
  }

  /** The session loop: menu choices go to the account until Logout. */
  method RunSession(acc: Account, cmds: seq<Command>) returns (consumed: nat)
    modifies acc
    ensures (acc.State(), consumed) == Session(old(acc.State()), cmds)
  {
    ghost var total := Session(acc.State(), cmds);
    consumed := 0;
    var session := true;
    while session && consumed < |cmds|
      invariant 0 <= consumed <= |cmds|
      invariant session ==> total.0 == Session(acc.State(), cmds[consumed..]).0
      invariant session ==> total.1 == consumed + Session(acc.State(), cmds[consumed..]).1
      invariant !session ==> total == (acc.State(), consumed)
    {
      var c := cmds[consumed];
      ghost var before := acc.State();
      ghost var left := cmds[consumed..];
      assert left[0] == c && left[1..] == cmds[consumed + 1..];
      ghost var next := Step(before, c).0;
      var outcome := Perform(acc, c);
      assert acc.State() == next;
      consumed := consumed + 1;
      if c == Logout {
        assert Session(before, left) == (next, 1);
        session := false;
      } else {
        assert Session(before, left) == (Session(next, left[1..]).0, Session(next, left[1..]).1 + 1);
      }
    }
    if session {
      assert cmds[consumed..] == [];
    }
  }
}
