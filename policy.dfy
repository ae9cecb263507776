/**
 * The rules an account applies to a deposit or a withdrawal, as functions
 * of its kind and of its current balance and withdrawal count. The classes
 * in module Accounts are proved to follow these rules.
 */
module Policy {
  import opened Wrappers
  import opened Amounts

  /** `Conta` (Standard) or `ContaCorrente` (Checking) with its two ceilings. */
  datatype Kind =
    | Standard
    | Checking(limit: int, maxWithdrawals: int)

  /** Defaults of `ContaCorrente`: R$ 500.00 per withdrawal, 3 withdrawals. */
  const DefaultLimit: int := 50000
  const DefaultMaxWithdrawals: int := 3

  /** The failure messages the program prints, one per reason. */
  datatype Reason =
    | InvalidAmount       // "O valor informado é inválido."
    | InsufficientFunds   // "Você não tem saldo suficiente."
    | OverLimit           // "O valor do saque excede o limite."
    | TooManyWithdrawals  // "Número máximo de saques excedido."
    | NotOwner            // "Conta não pertence ao cliente."

  /** `True`, or `False` together with the message printed. */
  datatype Outcome = Accepted | Rejected(reason: Reason)

  /** `Deposito(valor)` or `Saque(valor)`. */
  datatype Transaction = Deposit(amount: int) | Withdrawal(amount: int)
  {
    /** The words that open the description of each kind of transaction. */
    function Label(): string {
      if Deposit? then "Depósito: R$ " else "Saque: R$ "
    }

    /** The description the history records for this transaction: the label, then the amount. */
    function Description(): (d: string)
      ensures |d| >= |Label()| + 4 && d[..|Label()|] == Label()
      ensures d[|d| - 3] == '.' && (d[|Label()|] == '-' <==> amount < 0)
    {
      var d := Label() + FormatCents(amount);
      assert d[|Label()|..] == FormatCents(amount);
      d
    }
  }

  /** A description starts with the kind's label, and the rest reads back to the amount. */
  lemma DescriptionReadsBack(t: Transaction)
    ensures var d := t.Description();
            |t.Label()| <= |d| && d[..|t.Label()|] == t.Label()
            && ParseCents(d[|t.Label()|..]) == Some(t.amount)
  {
    var d := t.Description();
    assert d[..|t.Label()|] == t.Label();
    assert d[|t.Label()|..] == FormatCents(t.amount);
    FormatCentsRoundTrip(t.amount);
  }

  /** Two different transactions never have the same description. */
  lemma DescriptionInjective(t1: Transaction, t2: Transaction)
    ensures t1.Description() == t2.Description() ==> t1 == t2
  {
    if t1.Description() != t2.Description() {
      return;
    }
    DescriptionReadsBack(t1);
    DescriptionReadsBack(t2);
    var d := t1.Description();
    assert d[0] == t1.Label()[0] && d[0] == t2.Label()[0];
    assert t1.Deposit? == t2.Deposit?;
    assert t1.Label() == t2.Label();
  }

  /** The part of an account that deposits and withdrawals change. */
  datatype Snapshot = Snapshot(balance: int, withdrawals: int)

  /** A freshly opened account: `saldo = 0.0`, `numero_saques = 0`. */
  const Opening: Snapshot := Snapshot(0, 0)

  /**
   * What every account keeps: a balance that is never negative and a
   * withdrawal count between 0 and the ceiling (the count stays 0 when the
   * ceiling is negative, and a standard account never counts).
   */
  ghost predicate Inv(kind: Kind, s: Snapshot) {
    && s.balance >= 0
    && s.withdrawals >= 0
    && (kind.Standard? ==> s.withdrawals == 0)
    && (kind.Checking? ==> s.withdrawals == 0 || s.withdrawals <= kind.maxWithdrawals)
  }

  /** `depositar`: only a positive amount is accepted. */
  function DepositOutcome(amount: int): (r: Outcome)
    ensures r.Accepted? <==> amount > 0
    ensures r.Rejected? ==> r.reason == InvalidAmount
  {
    if amount <= 0 then Rejected(InvalidAmount) else Accepted
  }

  /**
   * `sacar` of each kind: the checks are made in a fixed order and the
   * first that fails gives the reason.
   */
  function WithdrawOutcome(kind: Kind, s: Snapshot, amount: int): (r: Outcome)
    ensures r.Accepted? <==>
              && 0 < amount <= s.balance
              && (kind.Checking? ==> amount <= kind.limit && s.withdrawals < kind.maxWithdrawals)
    ensures r == Rejected(InvalidAmount) <==> amount <= 0
    ensures r == Rejected(InsufficientFunds) <==> 0 < amount && s.balance < amount
    ensures r == Rejected(OverLimit) <==>
              kind.Checking? && 0 < amount <= s.balance && kind.limit < amount
    ensures r == Rejected(TooManyWithdrawals) <==>
              kind.Checking? && 0 < amount <= s.balance && amount <= kind.limit
              && kind.maxWithdrawals <= s.withdrawals
    ensures r != Rejected(NotOwner)
  {
    if amount <= 0 then Rejected(InvalidAmount)
    else if amount > s.balance then Rejected(InsufficientFunds)
    else if kind.Standard? then Accepted
    else if amount > kind.limit then Rejected(OverLimit)
    else if s.withdrawals >= kind.maxWithdrawals then Rejected(TooManyWithdrawals)
    else Accepted
  }

  /** What the account answers to a transaction. */
  function Check(kind: Kind, s: Snapshot, t: Transaction): Outcome {
    match t
    case Deposit(v) => DepositOutcome(v)
    case Withdrawal(v) => WithdrawOutcome(kind, s, v)
  }

  /** The signed change a transaction makes to the balance when accepted. */
  function Signed(t: Transaction): int {
    match t
    case Deposit(v) => v
    case Withdrawal(v) => -v
  }

  /** 1 for a withdrawal from a checking account, 0 otherwise. */
  function Counted(kind: Kind, t: Transaction): nat {
    if kind.Checking? && t.Withdrawal? then 1 else 0
  }

  /** The account after a transaction: moved when accepted, untouched when rejected. */
  function Next(kind: Kind, s: Snapshot, t: Transaction): (s': Snapshot)
    ensures Inv(kind, s) ==> Inv(kind, s')
    ensures s'.withdrawals >= s.withdrawals
    ensures Check(kind, s, t).Rejected? ==> s' == s
    ensures Check(kind, s, t).Accepted? ==>
              s'.balance == s.balance + Signed(t) && s'.withdrawals == s.withdrawals + Counted(kind, t)
  {
    if Check(kind, s, t).Rejected? then s
    else match t
      case Deposit(v) => Snapshot(s.balance + v, s.withdrawals)
      case Withdrawal(v) =>
        Snapshot(s.balance - v, if kind.Checking? then s.withdrawals + 1 else s.withdrawals)
  }

  /** The account after a sequence of transactions, applied in order. */
  function Run(kind: Kind, s: Snapshot, ts: seq<Transaction>): Snapshot
    decreases |ts|
  {
    if ts == [] then s else Run(kind, Next(kind, s, ts[0]), ts[1..])
  }

  /** The transactions of a sequence that the account accepts, in order. */
  function AcceptedOf(kind: Kind, s: Snapshot, ts: seq<Transaction>): seq<Transaction>
    decreases |ts|
  {
    if ts == [] then []
    else
      (if Check(kind, s, ts[0]).Accepted? then [ts[0]] else [])
      + AcceptedOf(kind, Next(kind, s, ts[0]), ts[1..])
  }

  function Net(ts: seq<Transaction>): int {
    if ts == [] then 0 else Signed(ts[0]) + Net(ts[1..])
  }

  function CountWithdrawals(ts: seq<Transaction>): nat {
    if ts == [] then 0 else (if ts[0].Withdrawal? then 1 else 0) + CountWithdrawals(ts[1..])
  }

  /**
   * A withdrawal of the amount just deposited brings the balance back; on a
   * checking account it is refused only by its two ceilings, and it counts.
   */
  lemma WithdrawUndoesDeposit(kind: Kind, s: Snapshot, amount: int)
    requires Inv(kind, s) && amount > 0
    ensures var after := Next(kind, s, Deposit(amount));
            && after == Snapshot(s.balance + amount, s.withdrawals)
            && (kind.Standard? ==> Next(kind, after, Withdrawal(amount)) == s)
            && (kind.Checking? && amount <= kind.limit && s.withdrawals < kind.maxWithdrawals ==>
                  Next(kind, after, Withdrawal(amount)) == Snapshot(s.balance, s.withdrawals + 1))
            && (kind.Checking? && kind.limit < amount ==>
                  WithdrawOutcome(kind, after, amount) == Rejected(OverLimit))
  {
  }

  /** The invariant holds after any sequence of transactions, accepted or rejected. */
  lemma {:induction false} RunKeepsInv(kind: Kind, s: Snapshot, ts: seq<Transaction>)
    requires Inv(kind, s)
    ensures Inv(kind, Run(kind, s, ts))
    decreases |ts|
  {
    if ts != [] {
      RunKeepsInv(kind, Next(kind, s, ts[0]), ts[1..]);
    }
  }

  /** From a fresh account the balance is never negative. */
  lemma OpeningNeverNegative(kind: Kind, ts: seq<Transaction>)
    ensures Run(kind, Opening, ts).balance >= 0
  {
    RunKeepsInv(kind, Opening, ts);
  }

  /** The balance moves by exactly the accepted deposits minus the accepted withdrawals. */
  lemma {:induction false} RunBalance(kind: Kind, s: Snapshot, ts: seq<Transaction>)
    ensures Run(kind, s, ts).balance == s.balance + Net(AcceptedOf(kind, s, ts))
    decreases |ts|
  {
    if ts != [] {
      var s' := Next(kind, s, ts[0]);
      RunBalance(kind, s', ts[1..]);
      var rest := AcceptedOf(kind, s', ts[1..]);
      if Check(kind, s, ts[0]).Accepted? {
        assert AcceptedOf(kind, s, ts) == [ts[0]] + rest;
        assert ([ts[0]] + rest)[1..] == rest;
      } else {
        assert AcceptedOf(kind, s, ts) == rest;
      }
    }
  }

  /** A checking account counts exactly its accepted withdrawals; the count never goes down. */
  lemma {:induction false} RunCountsWithdrawals(kind: Kind, s: Snapshot, ts: seq<Transaction>)
    requires kind.Checking?
    ensures Run(kind, s, ts).withdrawals == s.withdrawals + CountWithdrawals(AcceptedOf(kind, s, ts))
    ensures Run(kind, s, ts).withdrawals >= s.withdrawals
    decreases |ts|
  {
    if ts != [] {
      var s' := Next(kind, s, ts[0]);
      RunCountsWithdrawals(kind, s', ts[1..]);
      var rest := AcceptedOf(kind, s', ts[1..]);
      if Check(kind, s, ts[0]).Accepted? {
        assert AcceptedOf(kind, s, ts) == [ts[0]] + rest;
        assert ([ts[0]] + rest)[1..] == rest;
      } else {
        assert AcceptedOf(kind, s, ts) == rest;
      }
    }
  }

  /** A fresh checking account accepts at most `limite_saques` withdrawals over its life. */
  lemma AtMostMaxWithdrawals(limit: int, maxWithdrawals: int, ts: seq<Transaction>)
    ensures CountWithdrawals(AcceptedOf(Checking(limit, maxWithdrawals), Opening, ts))
            <= if maxWithdrawals < 0 then 0 else maxWithdrawals
  {
    var kind := Checking(limit, maxWithdrawals);
    RunKeepsInv(kind, Opening, ts);
    RunCountsWithdrawals(kind, Opening, ts);
  }

  /**
   * Once `limite_saques` withdrawals have been made, every later withdrawal is
   * refused, whatever the balance and whatever happened in between; an
   * otherwise acceptable one is refused for the count.
   */
  lemma ExhaustedStaysExhausted(kind: Kind, s: Snapshot, ts: seq<Transaction>, amount: int)
    requires kind.Checking? && s.withdrawals >= kind.maxWithdrawals
    ensures WithdrawOutcome(kind, Run(kind, s, ts), amount).Rejected?
    ensures var after := Run(kind, s, ts);
            0 < amount <= after.balance && amount <= kind.limit ==>
              WithdrawOutcome(kind, after, amount) == Rejected(TooManyWithdrawals)
  {
    RunCountsWithdrawals(kind, s, ts);
  }
}
