/**
 * Coin balances and their ledger (src/wallet/wallet.service.ts), and the stakes, payouts and
 * refunds games make on them (src/games/common/wager.service.ts).
 */
module Wallet {
  import opened Wrappers
  import opened Sums

  type UserId = nat

  datatype TxType = Topup | Spend | Reward | Refund | Transfer | GameStake | GamePayout | GameRefund

  datatype Tx = Tx(user: UserId, amount: int, balanceAfter: int, kind: TxType)

  datatype WalletError = NotPositive | NoSuchUser | InsufficientBalance | ToSelf | ZeroAmount | BetNotPositive

  /** All balances and every transaction recorded, oldest first. */
  datatype Book = Book(balances: map<UserId, int>, ledger: seq<Tx>)

  // ---- operations ----

  function Post(b: Book, user: UserId, amount: int, kind: TxType): Book
    requires user in b.balances
  {
    var after := b.balances[user] + amount;
    Book(b.balances[user := after], b.ledger + [Tx(user, amount, after, kind)])
  }

  function Credit(b: Book, user: UserId, amount: int, kind: TxType): Result<Book, WalletError> {
    if amount <= 0 then Failure(NotPositive)
    else if user !in b.balances then Failure(NoSuchUser)
    else Success(Post(b, user, amount, kind))
  }

  /** The guard and the decrement are one atomic update: the balance never goes below zero. */
  function Debit(b: Book, user: UserId, amount: int, kind: TxType): Result<Book, WalletError> {
    if amount <= 0 then Failure(NotPositive)
    else if user !in b.balances then Failure(NoSuchUser)
    else if b.balances[user] < amount then Failure(InsufficientBalance)
    else Success(Post(b, user, -amount, kind))
  }

  /** One transaction: if the credit fails the debit is rolled back. */
  function Move(b: Book, from: UserId, to: UserId, amount: int): Result<Book, WalletError> {
    if from == to then Failure(ToSelf)
    else
      match Debit(b, from, amount, Transfer)
      case Failure(e) => Failure(e)
      case Success(b') => Credit(b', to, amount, Transfer)
  }

  function Adjust(b: Book, user: UserId, amount: int): Result<Book, WalletError> {
    if amount == 0 then Failure(ZeroAmount)
    else if amount > 0 then Credit(b, user, amount, Reward)
    else Debit(b, user, -amount, Refund)
  }

  function Stake(b: Book, user: UserId, amount: int): Result<Book, WalletError> {
    if amount <= 0 then Failure(BetNotPositive) else Debit(b, user, amount, GameStake)
  }

  function Pay(b: Book, user: UserId, amount: int, kind: TxType): Result<Book, WalletError> {
    if amount <= 0 then Success(b) else Credit(b, user, amount, kind)
  }

  function OrKeep(r: Result<Book, WalletError>, b: Book): Book {
    match r
    case Success(b') => b'
    case Failure(_) => b
  }

  /** Refunds user after user; one that fails is skipped. */
  function RefundAll(b: Book, users: seq<UserId>, amount: int): Book
    decreases |users|
  {
    if users == [] then b
    else RefundAll(OrKeep(Pay(b, users[0], amount, GameRefund), b), users[1..], amount)
  }

  // ---- the ledger ----

  ghost function Posted(ledger: seq<Tx>, user: UserId): int {
    if ledger == [] then 0
    else
      var last := ledger[|ledger| - 1];
      Posted(ledger[..|ledger| - 1], user) + if last.user == user then last.amount else 0
  }

  /**
   * Every balance is what its user started with plus the sum of its transactions and is not
   * negative; every recorded balance is the balance at that point of the ledger.
   */
  ghost predicate Accounted(start: map<UserId, int>, b: Book) {
    && b.balances.Keys == start.Keys
    && (forall u :: u in start ==> b.balances[u] == start[u] + Posted(b.ledger, u) >= 0)
    && (forall i :: 0 <= i < |b.ledger| ==> EntryOk(start, b.ledger, i))
  }

  ghost predicate EntryOk(start: map<UserId, int>, ledger: seq<Tx>, i: nat)
    requires i < |ledger|
  {
    var tx := ledger[i];
    tx.user in start && tx.balanceAfter == start[tx.user] + Posted(ledger[..i + 1], tx.user) >= 0
  }

  lemma PostAccounted(start: map<UserId, int>, b: Book, user: UserId, amount: int, kind: TxType)
    requires Accounted(start, b) && user in b.balances && b.balances[user] + amount >= 0
    ensures Accounted(start, Post(b, user, amount, kind))
    ensures Sum(Post(b, user, amount, kind).balances) == Sum(b.balances) + amount
  {
    var b' := Post(b, user, amount, kind);
    assert b'.ledger[..|b.ledger|] == b.ledger;
    forall i | 0 <= i < |b'.ledger| ensures EntryOk(start, b'.ledger, i) {
      if i < |b.ledger| {
        assert EntryOk(start, b.ledger, i);
        assert b'.ledger[..i + 1] == b.ledger[..i + 1];
      } else {
        assert b'.ledger[..i + 1] == b'.ledger;
      }
    }
    SumUpdate(b.balances, user, b.balances[user] + amount);
  }

  datatype Operation =
    | CreditOp(user: UserId, amount: int)
    | DebitOp(user: UserId, amount: int)
    | TransferOp(from: UserId, to: UserId, amount: int)
    | AdjustOp(user: UserId, amount: int)
    | StakeOp(user: UserId, amount: int)
    | PayOp(user: UserId, amount: int)
    | RefundOp(users: seq<UserId>, amount: int)

  function Apply(b: Book, op: Operation): Book {
    match op
    case CreditOp(user, amount) => OrKeep(Credit(b, user, amount, Topup), b)
    case DebitOp(user, amount) => OrKeep(Debit(b, user, amount, Spend), b)
    case TransferOp(from, to, amount) => OrKeep(Move(b, from, to, amount), b)
    case AdjustOp(user, amount) => OrKeep(Adjust(b, user, amount), b)
    case StakeOp(user, amount) => OrKeep(Stake(b, user, amount), b)
    case PayOp(user, amount) => OrKeep(Pay(b, user, amount, GamePayout), b)
    case RefundOp(users, amount) => RefundAll(b, users, amount)
  }

  function ApplyAll(b: Book, ops: seq<Operation>): Book
    decreases |ops|
  {
    if ops == [] then b else ApplyAll(Apply(b, ops[0]), ops[1..])
  }

  lemma CreditAccounted(start: map<UserId, int>, b: Book, user: UserId, amount: int, kind: TxType)
    requires Accounted(start, b) && Credit(b, user, amount, kind).Success?
    ensures Accounted(start, Credit(b, user, amount, kind).value)
    ensures Sum(Credit(b, user, amount, kind).value.balances) == Sum(b.balances) + amount
  {
    PostAccounted(start, b, user, amount, kind);
  }

  lemma DebitAccounted(start: map<UserId, int>, b: Book, user: UserId, amount: int, kind: TxType)
    requires Accounted(start, b) && Debit(b, user, amount, kind).Success?
    ensures Accounted(start, Debit(b, user, amount, kind).value)
    ensures Sum(Debit(b, user, amount, kind).value.balances) == Sum(b.balances) - amount
  {
    PostAccounted(start, b, user, -amount, kind);
  }

  /** A transfer moves exactly `amount` from one user to the other, touching nobody else. */
  lemma TransferMovesExactly(start: map<UserId, int>, b: Book, from: UserId, to: UserId, amount: int)
    requires Accounted(start, b)
    ensures Move(b, from, to, amount).Success? <==>
      from != to && amount > 0 && from in b.balances && to in b.balances && b.balances[from] >= amount
    ensures var r := Move(b, from, to, amount); r.Success? ==>
      && r.value.balances == b.balances[from := b.balances[from] - amount][to := b.balances[to] + amount]
      && Accounted(start, r.value)
      && Sum(r.value.balances) == Sum(b.balances)
  {
    hide Accounted, Sum;
    var d := Debit(b, from, amount, Transfer);
    if d.Success? {
      DebitAccounted(start, b, from, amount, Transfer);
      if Credit(d.value, to, amount, Transfer).Success? {
        CreditAccounted(start, d.value, to, amount, Transfer);
      }
    }
  }

  /** `user` has `amount` more, or less, and nobody else is touched. */
  ghost predicate Moves(b: Book, after: Book, user: UserId, amount: int) {
    && user in b.balances && b.balances[user] + amount >= 0
    && after.balances == b.balances[user := b.balances[user] + amount]
  }

  /** A credit adds, a debit takes away what is there, and an adjustment does either by its sign. */
  lemma MovesExactly(start: map<UserId, int>, b: Book, user: UserId, amount: int, kind: TxType)
    requires Accounted(start, b)
    ensures Credit(b, user, amount, kind).Success? <==> amount > 0 && user in b.balances
    ensures Credit(b, user, amount, kind).Success? ==> Moves(b, Credit(b, user, amount, kind).value, user, amount)
    ensures Debit(b, user, amount, kind).Success? <==> amount > 0 && user in b.balances && b.balances[user] >= amount
    ensures Debit(b, user, amount, kind).Success? ==> Moves(b, Debit(b, user, amount, kind).value, user, -amount)
    ensures Adjust(b, user, amount).Success? <==> amount != 0 && user in b.balances && b.balances[user] + amount >= 0
    ensures Adjust(b, user, amount).Success? ==> Moves(b, Adjust(b, user, amount).value, user, amount)
  {
  }

  lemma PayAccounted(start: map<UserId, int>, b: Book, user: UserId, amount: int, kind: TxType)
    requires Accounted(start, b)
    ensures var b' := OrKeep(Pay(b, user, amount, kind), b);
      && Accounted(start, b')
      && (amount >= 0 && user in b.balances ==> Sum(b'.balances) == Sum(b.balances) + amount)
  {
    if Credit(b, user, amount, kind).Success? {
      CreditAccounted(start, b, user, amount, kind);
    }
  }

  lemma {:induction false} RefundsAccounted(start: map<UserId, int>, b: Book, users: seq<UserId>, amount: int)
    requires Accounted(start, b)
    ensures Accounted(start, RefundAll(b, users, amount))
    ensures amount >= 0 && (forall u :: u in users ==> u in b.balances) ==>
      Sum(RefundAll(b, users, amount).balances) == Sum(b.balances) + amount * |users|
    decreases |users|
  {
    if users != [] {
      var user, rest := users[0], users[1..];
      assert user in users;
      var b' := OrKeep(Pay(b, user, amount, GameRefund), b);
      PayAccounted(start, b, user, amount, GameRefund);
      assert b'.balances.Keys == b.balances.Keys;
      hide Accounted, Sum, Pay;
      RefundsAccounted(start, b', rest, amount);
      assert forall u :: u in rest ==> u in users;
      OneMore(amount, |rest|);
    }
  }

  lemma OneMore(amount: int, n: nat)
    ensures amount * (n + 1) == amount * n + amount
  {
  }

  lemma ApplyAccounted(start: map<UserId, int>, b: Book, op: Operation)
    requires Accounted(start, b)
    ensures Accounted(start, Apply(b, op))
  {
    match op
    case CreditOp(user, amount) =>
      if Credit(b, user, amount, Topup).Success? {
        CreditAccounted(start, b, user, amount, Topup);
      }
    case DebitOp(user, amount) =>
      if Debit(b, user, amount, Spend).Success? {
        DebitAccounted(start, b, user, amount, Spend);
      }
    case TransferOp(from, to, amount) =>
      TransferMovesExactly(start, b, from, to, amount);
    case AdjustOp(user, amount) =>
      if amount > 0 && Credit(b, user, amount, Reward).Success? {
        CreditAccounted(start, b, user, amount, Reward);
      }
      if amount < 0 && Debit(b, user, -amount, Refund).Success? {
        DebitAccounted(start, b, user, -amount, Refund);
      }
    case StakeOp(user, amount) =>
      if Debit(b, user, amount, GameStake).Success? {
        DebitAccounted(start, b, user, amount, GameStake);
      }
    case PayOp(user, amount) =>
      if Credit(b, user, amount, GamePayout).Success? {
        CreditAccounted(start, b, user, amount, GamePayout);
      }
    case RefundOp(users, amount) =>
      RefundsAccounted(start, b, users, amount);
  }

  /** After any sequence of operations, accepted or refused, the ledger accounts for every balance. */
  lemma {:induction false} LedgerAlwaysAccounts(start: map<UserId, int>, b: Book, ops: seq<Operation>)
    requires Accounted(start, b)
    ensures Accounted(start, ApplyAll(b, ops))
    decreases |ops|
  {
    if ops != [] {
      ApplyAccounted(start, b, ops[0]);
      LedgerAlwaysAccounts(start, Apply(b, ops[0]), ops[1..]);
    }
  }

  // ---- the services ----

  class WalletService {
    var balances: map<UserId, int>
    var ledger: seq<Tx>

    function Contents(): Book
      reads this
    {
      Book(balances, ledger)
    }

    constructor (start: map<UserId, int>)
      requires forall u :: u in start ==> start[u] >= 0
      ensures Contents() == Book(start, []) && Accounted(start, Contents())
    {
      balances, ledger := start, [];
    }

    method DoCredit(user: UserId, amount: int, kind: TxType) returns (r: Result<int, WalletError>)
      modifies this
      ensures match Credit(old(Contents()), user, amount, kind)
        case Success(b) => Contents() == b && r == Success(balances[user])
        case Failure(e) => Contents() == old(Contents()) && r == Failure(e)
    {
      if amount <= 0 {
        return Failure(NotPositive);
      }
      if user !in balances {
        return Failure(NoSuchUser);
      }
      balances := balances[user := balances[user] + amount];
      ledger := ledger + [Tx(user, amount, balances[user], kind)];
      r := Success(balances[user]);
    }

    method DoDebit(user: UserId, amount: int, kind: TxType) returns (r: Result<int, WalletError>)
      modifies this
      ensures match Debit(old(Contents()), user, amount, kind)
        case Success(b) => Contents() == b && r == Success(balances[user])
        case Failure(e) => Contents() == old(Contents()) && r == Failure(e)
    {
      if amount <= 0 {
        return Failure(NotPositive);
      }
      if user in balances && balances[user] >= amount {
        balances := balances[user := balances[user] - amount];
      } else if user !in balances {
        return Failure(NoSuchUser);
      } else {
        return Failure(InsufficientBalance);
      }
      ledger := ledger + [Tx(user, -amount, balances[user], kind)];
      r := Success(balances[user]);
    }

    method DoTransfer(from: UserId, to: UserId, amount: int) returns (r: Result<(), WalletError>)
      modifies this
      ensures match Move(old(Contents()), from, to, amount)
        case Success(b) => Contents() == b && r == Success(())
        case Failure(e) => Contents() == old(Contents()) && r == Failure(e)
    {
      if from == to {
        return Failure(ToSelf);
      }
      var savedBalances, savedLedger := balances, ledger;
      var debited := DoDebit(from, amount, Transfer);
      if debited.Failure? {
        return Failure(debited.error);
      }
      var credited := DoCredit(to, amount, Transfer);
      if credited.Failure? {
        balances, ledger := savedBalances, savedLedger;
        return Failure(credited.error);
      }
      r := Success(());
    }

    method DoAdjust(user: UserId, amount: int) returns (r: Result<int, WalletError>)
      modifies this
      ensures match Adjust(old(Contents()), user, amount)
        case Success(b) => Contents() == b && r == Success(balances[user])
        case Failure(e) => Contents() == old(Contents()) && r == Failure(e)
    {
      if amount == 0 {
        return Failure(ZeroAmount);
      }
      if amount > 0 {
        r := DoCredit(user, amount, Reward);
      } else {
        r := DoDebit(user, -amount, Refund);
      }
    }
  }

  class WagerService {
    const wallet: WalletService

    constructor (wallet: WalletService)
      ensures this.wallet == wallet
    {
      this.wallet := wallet;
    }

    method CollectStake(user: UserId, amount: int) returns (ok: bool)
      modifies wallet
      ensures ok == Stake(old(wallet.Contents()), user, amount).Success?
      ensures wallet.Contents() == OrKeep(Stake(old(wallet.Contents()), user, amount), old(wallet.Contents()))
    {
      if amount <= 0 {
        return false;
      }
      var r := wallet.DoDebit(user, amount, GameStake);
      ok := r.Success?;
    }

    method PayTo(user: UserId, amount: int, kind: TxType) returns (ok: bool)
      modifies wallet
      ensures ok == Pay(old(wallet.Contents()), user, amount, kind).Success?
      ensures wallet.Contents() == OrKeep(Pay(old(wallet.Contents()), user, amount, kind), old(wallet.Contents()))
    {
      if amount <= 0 {
        return true;
      }
      var r := wallet.DoCredit(user, amount, kind);
      ok := r.Success?;
    }

    method RefundMany(users: seq<UserId>, amount: int)
      modifies wallet
      ensures wallet.Contents() == RefundAll(old(wallet.Contents()), users, amount)
    {
      for i := 0 to |users|
        invariant RefundAll(wallet.Contents(), users[i..], amount) == RefundAll(old(wallet.Contents()), users, amount)
      {
        var _ := PayTo(users[i], amount, GameRefund);
      }
    }
  }
}
