/**
 * The in-memory balance store: per user a balance (integer cents) and a
 * most-recent-first history of at most 50 entries. Users are created lazily,
 * with balance 0, by every operation that names them.
 */
module UserBalance {
  import Seqs

  const InitialBalance := 0
  const HistoryLimit := 50

  datatype TransferKind = Deposit | Withdrawal | WithdrawalRefund

  /** What a history entry records; the store adds the timestamp. */
  datatype Entry =
    | Transfer(kind: TransferKind, amount: int, balanceAfter: int)
    | RouletteRound(betAmount: int, result: int, resultColor: string, won: bool,
                    totalPayout: int, profit: int, balanceAfter: int)

  datatype HistoryEntry = HistoryEntry(entry: Entry, timestamp: int)

  datatype UserRecord = UserRecord(balance: int, history: seq<HistoryEntry>)

  /** The store's answer to a balance operation. */
  datatype Outcome = Ok(balance: int) | Err(error: string)

  /** The record of a user seen for the first time. */
  const NewUser := UserRecord(InitialBalance, [])

  /** `history.unshift(e)` followed by keeping the first 50 entries. */
  function PrependCapped(e: HistoryEntry, history: seq<HistoryEntry>): (r: seq<HistoryEntry>)
    ensures |r| == if |history| < HistoryLimit then |history| + 1 else HistoryLimit
    ensures r[0] == e
    ensures r[1..] <= history
  {
    var full := [e] + history;
    if |full| > HistoryLimit then full[..HistoryLimit] else full
  }

  class UserBalanceStore {
    var users: map<string, UserRecord>

    constructor ()
      ensures users == map[]
    {
      users := map[];
    }

    /** The record the store holds for `u`, or the one it would create. */
    function View(u: string): UserRecord
      reads this
    {
      if u in users then users[u] else NewUser
    }

    function BalanceOf(u: string): int
      reads this
    {
      View(u).balance
    }

    method GetOrCreateUser(u: string) returns (rec: UserRecord)
      modifies this
      ensures u in old(users) ==> users == old(users)
      ensures u !in old(users) ==> users == old(users)[u := NewUser]
      ensures rec == users[u] == old(View(u))
    {
      if u !in users {
        users := users[u := NewUser];
      }
      rec := users[u];
    }

    method GetBalance(u: string) returns (balance: int)
      modifies this
      ensures users == old(users)[u := old(View(u))]
      ensures u in old(users) ==> users == old(users)
      ensures balance == old(BalanceOf(u))
    {
      var rec := GetOrCreateUser(u);
      balance := rec.balance;
    }

    /** Debits a stake; refuses a non-positive amount and an overdraft without touching the balance. */
    method DeductBet(u: string, amount: int) returns (r: Outcome)
      modifies this
      ensures var before := old(View(u));
        if amount <= 0 then
          r == Err("Bet must be positive") && users == old(users)[u := before]
        else if amount > before.balance then
          r == Err("Insufficient balance") && users == old(users)[u := before]
        else
          && r == Ok(before.balance - amount)
          && users == old(users)[u := before.(balance := before.balance - amount)]
      ensures old(BalanceOf(u)) >= 0 ==> BalanceOf(u) >= 0
    {
      var rec := GetOrCreateUser(u);
      if amount <= 0 {
        return Err("Bet must be positive");
      }
      if amount > rec.balance {
        return Err("Insufficient balance");
      }
      users := users[u := rec.(balance := rec.balance - amount)];
      r := Ok(rec.balance - amount);
    }

    /** Credits an amount unconditionally. */
    method AddWinnings(u: string, amount: int) returns (r: Outcome)
      modifies this
      ensures var before := old(View(u));
        && r == Ok(before.balance + amount)
        && users == old(users)[u := before.(balance := before.balance + amount)]
    {
      var rec := GetOrCreateUser(u);
      users := users[u := rec.(balance := rec.balance + amount)];
      r := Ok(rec.balance + amount);
    }

    method AddDeposit(u: string, amount: int, now: int) returns (r: Outcome)
      modifies this
      ensures var before := old(View(u));
        if amount <= 0 then
          r == Err("Deposit amount must be positive") && users == old(users)[u := before]
        else
          var after := before.balance + amount;
          && r == Ok(after)
          && users == old(users)[u := UserRecord(after,
               PrependCapped(HistoryEntry(Transfer(Deposit, amount, after), now), before.history))]
    {
      var rec := GetOrCreateUser(u);
      if amount <= 0 {
        return Err("Deposit amount must be positive");
      }
      users := users[u := rec.(balance := rec.balance + amount)];
      AddHistoryEntry(u, Transfer(Deposit, amount, rec.balance + amount), now);
      r := Ok(rec.balance + amount);
    }

    method DeductWithdrawal(u: string, amount: int, now: int) returns (r: Outcome)
      modifies this
      ensures var before := old(View(u));
        if amount <= 0 then
          r == Err("Withdrawal amount must be positive") && users == old(users)[u := before]
        else if amount > before.balance then
          r == Err("Insufficient balance") && users == old(users)[u := before]
        else
          var after := before.balance - amount;
          && r == Ok(after)
          && users == old(users)[u := UserRecord(after,
               PrependCapped(HistoryEntry(Transfer(Withdrawal, amount, after), now), before.history))]
      ensures old(BalanceOf(u)) >= 0 ==> BalanceOf(u) >= 0
    {
      var rec := GetOrCreateUser(u);
      if amount <= 0 {
        return Err("Withdrawal amount must be positive");
      }
      if amount > rec.balance {
        return Err("Insufficient balance");
      }
      users := users[u := rec.(balance := rec.balance - amount)];
      AddHistoryEntry(u, Transfer(Withdrawal, amount, rec.balance - amount), now);
      r := Ok(rec.balance - amount);
    }

    method RefundWithdrawal(u: string, amount: int, now: int) returns (r: Outcome)
      modifies this
      ensures var before := old(View(u));
        if amount <= 0 then
          r == Err("Refund amount must be positive") && users == old(users)[u := before]
        else
          var after := before.balance + amount;
          && r == Ok(after)
          && users == old(users)[u := UserRecord(after,
               PrependCapped(HistoryEntry(Transfer(WithdrawalRefund, amount, after), now), before.history))]
    {
      var rec := GetOrCreateUser(u);
      if amount <= 0 {
        return Err("Refund amount must be positive");
      }
      users := users[u := rec.(balance := rec.balance + amount)];
      AddHistoryEntry(u, Transfer(WithdrawalRefund, amount, rec.balance + amount), now);
      r := Ok(rec.balance + amount);
    }

    /** Records an entry, newest first, keeping at most 50. */
    method AddHistoryEntry(u: string, entry: Entry, now: int)
      modifies this
      ensures var before := old(View(u));
        users == old(users)[u := before.(history := PrependCapped(HistoryEntry(entry, now), before.history))]
      ensures |View(u).history| <= HistoryLimit
    {
      var rec := GetOrCreateUser(u);
      var history := [HistoryEntry(entry, now)] + rec.history;
      if |history| > HistoryLimit {
        history := history[..HistoryLimit];
      }
      users := users[u := rec.(history := history)];
    }

    /** The newest `limit` entries (`history.slice(0, limit)`). */
    method GetHistory(u: string, limit: int) returns (entries: seq<HistoryEntry>)
      modifies this
      ensures users == old(users)[u := old(View(u))]
      ensures entries == Seqs.SliceTo(old(View(u)).history, limit)
      ensures entries <= old(View(u)).history
      ensures limit >= 0 ==> |entries| <= limit
    {
      var rec := GetOrCreateUser(u);
      entries := Seqs.SliceTo(rec.history, limit);
    }
  }
}
