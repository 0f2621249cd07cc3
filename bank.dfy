/** Accounts and transfers as objects whose balance changes in place. Each
    state-changing method is specified by the matching function of BankSpec. */
module Bank {
  import opened BankSpec

  /** A bank account: a number, a holder, a kind and a mutable balance. The
      three constructors stand for the plain, savings and checking accounts. */
  class Account {
    const number: string
    const holder: string
    const kind: Kind
    var balance: real

    /** The invariant the session keeps: no negative balance, no negative rate. */
    ghost predicate Solvent()
      reads this
    {
      balance >= 0.0 && kind.WellFormed()
    }

    constructor (number: string, holder: string, initialBalance: real := 0.0)
      ensures this.number == number && this.holder == holder
      ensures kind == Standard && balance == initialBalance
    {
      this.number := number;
      this.holder := holder;
      kind := Standard;
      balance := initialBalance;
    }

    constructor SavingsAccount(number: string, holder: string, initialBalance: real := 0.0, rate: real := 0.01)
      ensures this.number == number && this.holder == holder
      ensures kind == Kind.Savings(rate) && balance == initialBalance
    {
      this.number := number;
      this.holder := holder;
      kind := Kind.Savings(rate);
      balance := initialBalance;
    }

    constructor CheckingAccount(number: string, holder: string, initialBalance: real := 0.0)
      ensures this.number == number && this.holder == holder
      ensures kind == Checking && balance == initialBalance
    {
      this.number := number;
      this.holder := holder;
      kind := Checking;
      balance := initialBalance;
    }

    method Deposit(amount: real) returns (o: Outcome)
      modifies this
      ensures Step(o, balance) == DepositEffect(old(balance), amount)
      ensures old(Solvent()) ==> Solvent()
    {
      if amount > 0.0 {
        balance := balance + amount;
        o := Deposited(amount, balance);
      } else {
        o := DepositNotPositive;
      }
    }

    /** The insufficient-funds exception is returned as an outcome. */
    method Withdraw(amount: real) returns (o: Outcome)
      modifies this
      ensures Step(o, balance) == WithdrawEffect(old(balance), amount)
      ensures old(Solvent()) ==> Solvent()
    {
      if amount > balance {
        o := InsufficientFunds(balance);
      } else if amount > 0.0 {
        balance := balance - amount;
        o := Withdrew(amount, balance);
      } else {
        o := WithdrawalNotPositive;
      }
    }

    method GetBalance() returns (b: real)
      ensures b == balance
    {
      b := balance;
    }

    /** The summary line; `renderBalance` is how the host language turns the
        balance into text. */
    function DisplayAccountInfo(renderBalance: real -> string): (r: string)
      reads this
      ensures Occurs(number, r) && Occurs(holder, r) && Occurs(renderBalance(balance), r)
    {
      AccountInfo(number, holder, renderBalance(balance))
    }

    /** Only a savings account has this operation. */
    method CalculateInterest() returns (o: Outcome)
      requires kind.Savings?
      modifies this
      ensures Step(o, balance) == InterestEffect(old(balance), kind.rate)
      ensures old(Solvent()) ==> Solvent() && balance >= old(balance)
    {
      var interest := balance * kind.rate;
      balance := balance + interest;
      o := InterestAdded(interest, balance);
    }
  }

  /** A transfer of `amount` from one borrowed account to another; the two may
      be the same account. */
  class Transaction {
    const id: string
    const fromAccount: Account
    const toAccount: Account
    const amount: real

    constructor (id: string, fromAccount: Account, toAccount: Account, amount: real)
      ensures this.id == id && this.fromAccount == fromAccount
      ensures this.toAccount == toAccount && this.amount == amount
    {
      this.id := id;
      this.fromAccount := fromAccount;
      this.toAccount := toAccount;
      this.amount := amount;
    }

    method Execute() returns (o: TransferOutcome)
      modifies fromAccount, toAccount
      ensures fromAccount != toAccount ==>
                Transfer(o, fromAccount.balance, toAccount.balance)
                == TransferEffect(id, old(fromAccount.balance), old(toAccount.balance), amount)
      ensures fromAccount == toAccount ==>
                Transfer(o, fromAccount.balance, toAccount.balance)
                == SelfTransferEffect(id, old(fromAccount.balance), amount)
      ensures old(fromAccount.Solvent()) ==> fromAccount.Solvent()
      ensures old(toAccount.Solvent()) ==> toAccount.Solvent()
    {
      var w := fromAccount.Withdraw(amount);
      if w.InsufficientFunds? {
        o := Failed(id, w);
        return;
      }
      var d := toAccount.Deposit(amount);
      o := Executed(id, w, d);
    }
  }
}
