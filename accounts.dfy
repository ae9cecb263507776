/**
 * Clients, accounts and the two transactions, as objects updated in place.
 * `Conta` and its subclass `ContaCorrente` are one class whose constant
 * `kind` selects the withdrawal rule, as the override of `sacar` does.
 */
module Accounts {
  import opened Policy
  import opened Histories

  class Client {
    const name: string
    const birthDate: string
    const cpf: string
    const address: string
    /** `contas`: the client's accounts, in the order they were added. */
    var accounts: seq<Account>

    constructor (name: string, birthDate: string, cpf: string, address: string)
      ensures this.name == name && this.birthDate == birthDate
      ensures this.cpf == cpf && this.address == address
      ensures accounts == []
    {
      this.name, this.birthDate, this.cpf, this.address := name, birthDate, cpf, address;
      accounts := [];
    }

    /** `adicionar_conta`: appends, without looking for duplicates. */
    method AddAccount(account: Account)
      modifies this
      ensures accounts == old(accounts) + [account]
    {
      accounts := accounts + [account];
    }

    /**
     * `realizar_transacao`: an account the client does not hold (by
     * identity) is refused and left untouched; otherwise the transaction
     * is registered on it.
     */
    method Perform(account: Account, t: Transaction, timestamp: string) returns (r: Outcome)
      requires account.Valid()
      modifies account, account.history
      ensures account.Valid()
      ensures account !in accounts ==>
                r == Rejected(NotOwner) && unchanged(account, account.history)
      ensures account in accounts ==>
                && r == Check(account.kind, old(account.State()), t)
                && account.State() == Next(account.kind, old(account.State()), t)
                && account.history.entries == old(account.history.entries) + RecordedBy(r, t, timestamp)
    {
      if account !in accounts {
        return Rejected(NotOwner);
      }
      r := Register(t, account, timestamp);
    }
  }

  /** Helper of `Register`: the history lines a transaction adds, one on success and none on failure. */
  function RecordedBy(r: Outcome, t: Transaction, timestamp: string): (lines: seq<string>)
    ensures |lines| == if r.Accepted? then 1 else 0
    ensures r.Accepted? ==> lines[0] == Movement(timestamp, t.Description()).Line()
  {
    if r.Accepted? then [timestamp + " - " + t.Description()] else []
  }

  /** Given its timestamp, a history line tells which transaction it records. */
  lemma HistoryLineInjective(timestamp: string, t1: Transaction, t2: Transaction)
    ensures Movement(timestamp, t1.Description()).Line() == Movement(timestamp, t2.Description()).Line()
            ==> t1 == t2
  {
    if Movement(timestamp, t1.Description()).Line() != Movement(timestamp, t2.Description()).Line() {
      return;
    }
    var n := |timestamp + " - "|;
    assert Movement(timestamp, t1.Description()).Line()[n..] == t1.Description();
    assert Movement(timestamp, t2.Description()).Line()[n..] == t2.Description();
    DescriptionInjective(t1, t2);
  }

  class Account {
    /** `saldo`, in cents. */
    var balance: int
    const number: int
    const branch: string
    /** `cliente`: the owner, a back reference. */
    const owner: Client
    /** `historico`, owned by this account. */
    const history: History
    const kind: Kind
    /** `numero_saques`; only a checking account counts. */
    var withdrawals: int

    ghost function State(): Snapshot
      reads this
    {
      Snapshot(balance, withdrawals)
    }

    ghost predicate Valid()
      reads this, history
    {
      Inv(kind, State()) && history.Valid()
    }

    /** `Conta.__init__`: empty balance and history. */
    constructor (branch: string, number: int, owner: Client)
      ensures Valid() && fresh(history)
      ensures this.branch == branch && this.number == number && this.owner == owner
      ensures kind == Standard && State() == Opening && history.entries == []
    {
      this.branch, this.number, this.owner := branch, number, owner;
      kind := Standard;
      balance, withdrawals := 0, 0;
      history := new History();
    }

    /** `ContaCorrente.__init__`: as above, with both ceilings and no withdrawals yet. */
    constructor NewChecking(branch: string, number: int, owner: Client,
                         limit: int := DefaultLimit, maxWithdrawals: int := DefaultMaxWithdrawals)
      ensures Valid() && fresh(history)
      ensures this.branch == branch && this.number == number && this.owner == owner
      ensures kind == Checking(limit, maxWithdrawals) && State() == Opening
      ensures history.entries == []
    {
      this.branch, this.number, this.owner := branch, number, owner;
      kind := Checking(limit, maxWithdrawals);
      balance, withdrawals := 0, 0;
      history := new History();
    }

    /** `depositar`: a positive amount is added; anything else is refused. */
    method Deposit(amount: int) returns (r: Outcome)
      requires Valid()
      modifies this
      ensures Valid()
      ensures r == DepositOutcome(amount)
      ensures r.Accepted? <==> amount > 0
      ensures balance == if r.Accepted? then old(balance) + amount else old(balance)
      ensures withdrawals == old(withdrawals)
    {
      if amount <= 0 {
        return Rejected(InvalidAmount);
      }
      balance := balance + amount;
      return Accepted;
    }

    /** `Conta.sacar`: refuses a non-positive amount, then one above the balance. */
    method WithdrawStandard(amount: int) returns (r: Outcome)
      requires Valid()
      modifies this
      ensures Valid()
      ensures r == WithdrawOutcome(Standard, old(State()), amount)
      ensures balance == if r.Accepted? then old(balance) - amount else old(balance)
      ensures withdrawals == old(withdrawals)
    {
      if amount <= 0 {
        return Rejected(InvalidAmount);
      }
      if amount > balance {
        return Rejected(InsufficientFunds);
      }
      balance := balance - amount;
      return Accepted;
    }

    /** `ContaCorrente.sacar`: the base checks, then the amount ceiling, then the count ceiling. */
    method WithdrawChecking(amount: int) returns (r: Outcome)
      requires Valid() && kind.Checking?
      modifies this
      ensures Valid()
      ensures r == WithdrawOutcome(kind, old(State()), amount)
      ensures balance == if r.Accepted? then old(balance) - amount else old(balance)
      ensures withdrawals == if r.Accepted? then old(withdrawals) + 1 else old(withdrawals)
    {
      if amount <= 0 {
        return Rejected(InvalidAmount);
      }
      if amount > balance {
        return Rejected(InsufficientFunds);
      }
      if amount > kind.limit {
        return Rejected(OverLimit);
      }
      if withdrawals >= kind.maxWithdrawals {
        return Rejected(TooManyWithdrawals);
      }
      balance := balance - amount;
      withdrawals := withdrawals + 1;
      return Accepted;
    }

    /** `sacar` as dispatched on the account's class. */
    method Withdraw(amount: int) returns (r: Outcome)
      requires Valid()
      modifies this
      ensures Valid()
      ensures r == WithdrawOutcome(kind, old(State()), amount)
      ensures State() == Next(kind, old(State()), Withdrawal(amount))
    {
      if kind.Standard? {
        r := WithdrawStandard(amount);
      } else {
        r := WithdrawChecking(amount);
      }
    }
  }

  /**
   * `Deposito.registrar` / `Saque.registrar`: asks the account, and only
   * when it accepts, records one line in its history; returns the
   * account's answer unchanged.
   */
  method Register(t: Transaction, account: Account, timestamp: string) returns (r: Outcome)
    requires account.Valid()
    modifies account, account.history
    ensures account.Valid()
    ensures r == Check(account.kind, old(account.State()), t)
    ensures account.State() == Next(account.kind, old(account.State()), t)
    ensures account.history.entries == old(account.history.entries) + RecordedBy(r, t, timestamp)
  {
    var description := t.Description();
    match t {
      case Deposit(v) =>
        r := account.Deposit(v);
      case Withdrawal(v) =>
        r := account.Withdraw(v);
    }
    if r.Accepted? {
      account.history.Add(timestamp, description);
    }
  }

  /** `Conta.nova_conta`: a new standard account, registered on its client. */
  method OpenAccount(client: Client, number: int, branch: string := "0001") returns (account: Account)
    modifies client
    ensures fresh(account) && fresh(account.history) && account.Valid()
    ensures account.owner == client && account.number == number && account.branch == branch
    ensures account.kind == Standard && account.State() == Opening && account.history.entries == []
    ensures client.accounts == old(client.accounts) + [account]
  {
    account := new Account(branch, number, client);
    client.AddAccount(account);
  }

  /** `ContaCorrente.nova_conta`: a new checking account, registered on its client. */
  method OpenCheckingAccount(client: Client, number: int, branch: string := "0001",
                             limit: int := DefaultLimit, maxWithdrawals: int := DefaultMaxWithdrawals)
    returns (account: Account)
    modifies client
    ensures fresh(account) && fresh(account.history) && account.Valid()
    ensures account.owner == client && account.number == number && account.branch == branch
    ensures account.kind == Checking(limit, maxWithdrawals)
    ensures account.State() == Opening && account.history.entries == []
    ensures client.accounts == old(client.accounts) + [account]
  {
    account := new Account.NewChecking(branch, number, client, limit, maxWithdrawals);
    client.AddAccount(account);
  }
}
