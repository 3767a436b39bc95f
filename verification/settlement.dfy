/**
 * Settling usage reports (internal/master/billing/settler.go:76-310, internal/dao/user.go:159-173).
 *
 * A report is delivered at least once, and several settlers may run at the same time, so the duplicate
 * check and the transaction that inserts the row are separate steps here.  The unique index on the request
 * id is what a transaction meets.  A handed-over log goes to the aggregator after its transaction.
 */
module Settlement {
  import opened Options
  import opened Rollups
  import opened Pricing
  import opened Aggregation
  import opened Sequences

  /** `usage` are the columns a log copies from the entry; its cost columns are not read. */
  datatype Entry = Entry(requestId: string, usage: Log, priceRatio: real, free: bool)

  datatype Account = Account(quota: int, used: int)

  /** A usage row with the request id it is unique by. */
  datatype UsageRow = UsageRow(requestId: string, log: Log)

  datatype Ledger = Ledger(rows: map<string, Log>, users: map<nat, Account>)

  datatype TxResult = Inserted(depleted: bool) | Duplicate | RolledBack

  // ---------------------------------------------------------------------------------------------
  // One entry
  // ---------------------------------------------------------------------------------------------

  function MeterOf(e: Entry): Metered {
    Metered(e.usage.ownerType == "private", e.free, e.priceRatio,
      e.usage.promptTokens, e.usage.completionTokens, e.usage.cacheReadTokens, e.usage.cacheWriteTokens)
  }

  /** The log of a priced entry; cache costs go into the total only. */
  function BilledLog(e: Entry, agentId: string, p: Prices, s: ByokSettings): Log {
    var b := Charge(MeterOf(e), p, s);
    e.usage.(agentId := agentId, inputCost := b.costs.input, outputCost := b.costs.output, totalCost := b.total)
  }

  /** DeductQuota on one account. */
  function Deduct(a: Account, amount: int): Account {
    Account(a.quota - amount, a.used + amount)
  }

  /** What a row takes from its user: entries without an owner and free ones take nothing. */
  function AmountDue(log: Log): int {
    if log.userId != 0 && log.totalCost > 0 then log.totalCost else 0
  }

  /** The transaction: insert, then deduct; a repeated request id ends it without effect, an error undoes it. */
  function Transact(l: Ledger, row: UsageRow, fault: bool): (Ledger, TxResult) {
    if fault then (l, RolledBack)
    else if row.requestId in l.rows then (l, Duplicate)
    else
      var inserted := l.(rows := l.rows[row.requestId := row.log]);
      if AmountDue(row.log) == 0 then (inserted, Inserted(false))
      else if row.log.userId !in l.users then (l, RolledBack)
      else
        var a := Deduct(l.users[row.log.userId], row.log.totalCost);
        (inserted.(users := l.users[row.log.userId := a]), Inserted(a.quota < 0))
  }

  // ---------------------------------------------------------------------------------------------
  // Concurrent settlers
  // ---------------------------------------------------------------------------------------------

  /**
   * `checked` rows passed the duplicate check, `committed` is the history of inserted rows, `awaiting` are
   * committed rows not yet handed to the aggregator, `submitted` those that were.
   */
  datatype System = System(
    ledger: Ledger, checked: seq<UsageRow>, committed: seq<UsageRow>, awaiting: seq<UsageRow>, submitted: seq<UsageRow>)

  datatype Event =
    | Check(row: UsageRow, queryFails: bool)
    | Commit(i: nat, fault: bool)
    | HandOver(i: nat)

  function Step(s: System, e: Event): System {
    match e
    case Check(row, queryFails) =>
      if queryFails || row.requestId in s.ledger.rows then s else s.(checked := s.checked + [row])
    case Commit(i, fault) =>
      if i >= |s.checked| then s
      else
        var row := s.checked[i];
        var (ledger, result) := Transact(s.ledger, row, fault);
        var next := s.(ledger := ledger, checked := Without(s.checked, i));
        if result.Inserted? then next.(committed := s.committed + [row], awaiting := s.awaiting + [row]) else next
    case HandOver(i) =>
      if i >= |s.awaiting| then s
      else s.(awaiting := Without(s.awaiting, i), submitted := s.submitted + [s.awaiting[i]])
  }

  function Run(l: Ledger, events: seq<Event>): System {
    if events == [] then System(l, [], [], [], [])
    else Step(Run(l, events[..|events| - 1]), events[|events| - 1])
  }

  /** What the rows take from one user. */
  function Spent(rows: seq<UsageRow>, user: nat): int {
    if rows == [] then 0
    else
      var last := rows[|rows| - 1];
      Spent(rows[..|rows| - 1], user) + if last.log.userId == user then AmountDue(last.log) else 0
  }

  ghost predicate DistinctIds(rows: seq<UsageRow>) {
    forall i, j | 0 <= i < j < |rows| :: rows[i].requestId != rows[j].requestId
  }

  /** The usage table is the initial one plus the committed rows, each under a new request id. */
  ghost predicate RowsMatch(before: map<string, Log>, now: map<string, Log>, committed: seq<UsageRow>) {
    && DistinctIds(committed)
    && (forall r | r in committed :: r.requestId !in before && r.requestId in now && now[r.requestId] == r.log)
    && (forall id | id in before :: id in now && now[id] == before[id])
    && (forall id | id in now :: id in before || exists r | r in committed :: r.requestId == id)
  }

  /** Money moves from quota to used_quota, by exactly what the committed rows cost. */
  ghost predicate UsersMatch(before: map<nat, Account>, now: map<nat, Account>, committed: seq<UsageRow>) {
    && now.Keys == before.Keys
    && forall u | u in before ::
      && now[u].quota + now[u].used == before[u].quota + before[u].used
      && now[u].used == before[u].used + Spent(committed, u)
  }

  ghost predicate Inv(l: Ledger, s: System) {
    && RowsMatch(l.rows, s.ledger.rows, s.committed)
    && UsersMatch(l.users, s.ledger.users, s.committed)
    && multiset(s.submitted) + multiset(s.awaiting) == multiset(s.committed)
  }

  lemma {:induction false} RowsMatchMore(before: map<string, Log>, now: map<string, Log>, committed: seq<UsageRow>,
                                         row: UsageRow)
    requires RowsMatch(before, now, committed) && row.requestId !in now
    ensures RowsMatch(before, now[row.requestId := row.log], committed + [row])
  {
    var more := committed + [row];
    forall i, j | 0 <= i < j < |more|
      ensures more[i].requestId != more[j].requestId
    {
      assert i < |committed| && more[i] in committed;
    }
    forall id | id in now[row.requestId := row.log]
      ensures id in before || exists r | r in more :: r.requestId == id
    {
      if id == row.requestId {
        assert row in more;
      } else if id !in before {
        var r :| r in committed && r.requestId == id;
        assert r in more;
      }
    }
  }

  lemma {:induction false} SpentMore(rows: seq<UsageRow>, row: UsageRow, user: nat)
    ensures Spent(rows + [row], user) == Spent(rows, user) + if row.log.userId == user then AmountDue(row.log) else 0
  {
    assert (rows + [row])[..|rows|] == rows;
  }

  lemma {:induction false} UsersMatchMore(before: map<nat, Account>, now: map<nat, Account>, committed: seq<UsageRow>,
                                          row: UsageRow)
    requires UsersMatch(before, now, committed)
    requires AmountDue(row.log) != 0 ==> row.log.userId in now
    ensures var u := row.log.userId;
      UsersMatch(before, if AmountDue(row.log) == 0 then now else now[u := Deduct(now[u], row.log.totalCost)],
        committed + [row])
  {
    hide Spent;
    forall u | u in before
      ensures Spent(committed + [row], u) == Spent(committed, u) + if row.log.userId == u then AmountDue(row.log) else 0
    {
      SpentMore(committed, row, u);
    }
  }

  lemma {:induction false} TransactKeepsInv(l: Ledger, s: System, row: UsageRow, fault: bool)
    requires Inv(l, s)
    ensures var (ledger, result) := Transact(s.ledger, row, fault);
      if result.Inserted?
        then Inv(l, s.(ledger := ledger, committed := s.committed + [row], awaiting := s.awaiting + [row]))
        else ledger == s.ledger
  {
    hide RowsMatch, UsersMatch, AmountDue;
    var (ledger, result) := Transact(s.ledger, row, fault);
    if result.Inserted? {
      RowsMatchMore(l.rows, s.ledger.rows, s.committed, row);
      UsersMatchMore(l.users, s.ledger.users, s.committed, row);
    }
  }

  lemma {:induction false} StepKeepsInv(l: Ledger, s: System, e: Event)
    requires Inv(l, s)
    ensures Inv(l, Step(s, e))
  {
    hide RowsMatch, UsersMatch, Transact, Without;
    match e
    case Check(row, queryFails) =>
    case Commit(i, fault) =>
      if i < |s.checked| {
        TransactKeepsInv(l, s.(checked := Without(s.checked, i)), s.checked[i], fault);
      }
    case HandOver(i) =>
      if i < |s.awaiting| {
        WithoutOne(s.awaiting, i);
        assert multiset(s.submitted + [s.awaiting[i]]) == multiset(s.submitted) + multiset{s.awaiting[i]};
      }
  }

  lemma {:induction false} RunKeepsInv(l: Ledger, events: seq<Event>)
    ensures Inv(l, Run(l, events))
    decreases |events|
  {
    if events == [] {
    } else {
      hide Step, Inv;
      RunKeepsInv(l, events[..|events| - 1]);
      StepKeepsInv(l, Run(l, events[..|events| - 1]), events[|events| - 1]);
    }
  }

  lemma {:induction false} DistinctCount(rows: seq<UsageRow>, r: UsageRow)
    requires DistinctIds(rows)
    ensures multiset(rows)[r] == if r in rows then 1 else 0
    decreases |rows|
  {
    if rows != [] {
      var n := |rows| - 1;
      DistinctCount(rows[..n], r);
      assert rows == rows[..n] + [rows[n]];
      forall i | 0 <= i < n
        ensures rows[..n][i] != rows[n]
      {
        assert rows[i].requestId != rows[n].requestId;
      }
    }
  }

  /**
   * In every state any number of settlers can reach: a request id has at most one row (the table is a
   * map), and a row is on its way to the aggregator or was submitted - once, and only if it was committed.
   */
  lemma {:induction false} SubmittedOnceIffCommitted(l: Ledger, events: seq<Event>, r: UsageRow)
    ensures var s := Run(l, events);
      && multiset(s.submitted)[r] + multiset(s.awaiting)[r]
        == (if r.requestId !in l.rows && r.requestId in s.ledger.rows && s.ledger.rows[r.requestId] == r.log then 1
          else 0)
  {
    hide Run;
    var s := Run(l, events);
    RunKeepsInv(l, events);
    DistinctCount(s.committed, r);
    if r.requestId !in l.rows && r.requestId in s.ledger.rows {
      var c :| c in s.committed && c.requestId == r.requestId;
      assert c.log == s.ledger.rows[c.requestId];
    }
    assert (multiset(s.submitted) + multiset(s.awaiting))[r] == multiset(s.committed)[r];
  }

  /** In every such state no account's quota + used_quota has changed, and used_quota grew by its rows' cost. */
  lemma {:induction false} QuotaConserved(l: Ledger, events: seq<Event>, u: nat)
    requires u in l.users
    ensures var s := Run(l, events);
      && u in s.ledger.users
      && s.ledger.users[u].quota + s.ledger.users[u].used == l.users[u].quota + l.users[u].used
      && s.ledger.users[u].used == l.users[u].used + Spent(s.committed, u)
  {
    hide Run, Spent;
    RunKeepsInv(l, events);
  }

  /** The sum of total_cost over some rows of one user. */
  function TotalCost(rows: seq<UsageRow>, user: nat): int {
    if rows == [] then 0
    else
      var last := rows[|rows| - 1];
      TotalCost(rows[..|rows| - 1], user) + if last.log.userId == user then last.log.totalCost else 0
  }

  /** With no negative cost, as prices and ratios that are not negative give, the growth is the plain sum. */
  lemma {:induction false} SpentIsTotalCost(rows: seq<UsageRow>, user: nat)
    requires user != 0 && forall r | r in rows :: r.log.totalCost >= 0
    ensures Spent(rows, user) == TotalCost(rows, user)
    decreases |rows|
  {
    if rows != [] {
      assert rows[|rows| - 1] in rows;
      SpentIsTotalCost(rows[..|rows| - 1], user);
    }
  }

  lemma {:induction false} BilledNotNegative(e: Entry, agentId: string, p: Prices, s: ByokSettings)
    requires NonNegative(MeterOf(e), p, s)
    ensures BilledLog(e, agentId, p, s).totalCost >= 0
  {
    hide Charge;
    NeverOvercharged(MeterOf(e), p, s);
  }

  // ---------------------------------------------------------------------------------------------
  // What an entry is billed, by its own fields
  // ---------------------------------------------------------------------------------------------

  /** n is x without its fraction. */
  predicate TowardZero(n: int, x: real) {
    if x >= 0.0 then n as real <= x < n as real + 1.0 else n as real - 1.0 < x <= n as real
  }

  /** What some tokens cost: 100000 units a dollar, a price for a million of them, then a factor, cut each time. */
  ghost predicate Bucket(cost: int, tokens: int, price: real, factor: real) {
    exists raw: int :: AtPrice(raw, tokens, price) && TowardZero(cost, raw as real * factor)
  }

  predicate AtPrice(raw: int, tokens: int, price: real) {
    TowardZero(raw, tokens as real * price / 10.0)
  }

  /** Cached tokens cost something only where there are any and they have a price. */
  ghost predicate CacheBucket(cost: int, tokens: int, price: real, factor: real) {
    if tokens > 0 && price > 0.0 then Bucket(cost, tokens, price, factor) else cost == 0
  }

  /** Each cost comes from its own count and price, and the total is the sum of four such costs. */
  ghost predicate BilledAt(log: Log, usage: Log, p: Prices, factor: real) {
    && Bucket(log.inputCost, usage.promptTokens, p.input, factor)
    && Bucket(log.outputCost, usage.completionTokens, p.output, factor)
    && exists cacheRead, cacheWrite ::
         && CacheBucket(cacheRead, usage.cacheReadTokens, p.cacheRead, factor)
         && CacheBucket(cacheWrite, usage.cacheWriteTokens, p.cacheWrite, factor)
         && log.totalCost == log.inputCost + log.outputCost + cacheRead + cacheWrite
  }

  /**
   * The log of an entry: nothing for a free one, the service fee for a private one in that mode and nothing in
   * any other, the channel's ratio for a public one if it is positive.  All other columns are the entry's.
   */
  ghost predicate Bills(log: Log, e: Entry, agentId: string, p: Prices, s: ByokSettings) {
    && log == e.usage.(agentId := agentId, inputCost := log.inputCost, outputCost := log.outputCost,
                       totalCost := log.totalCost)
    && if e.free || (e.usage.ownerType == "private" && s.stored != Some("service_fee")) then
         log.inputCost == 0 && log.outputCost == 0 && log.totalCost == 0
       else if e.usage.ownerType == "private" then BilledAt(log, e.usage, p, s.serviceFeeRatio)
       else BilledAt(log, e.usage, p, if e.priceRatio > 0.0 then e.priceRatio else 1.0)
  }

  lemma {:induction false} TruncateIsTowardZero(x: real)
    ensures TowardZero(Truncate(x), x)
  {
  }

  lemma {:induction false} TenUnits(tokens: int, price: real)
    ensures Exact(tokens, price) == tokens as real * price / 10.0
  {
  }

  lemma {:induction false} BucketOf(tokens: int, price: real, factor: real)
    ensures Bucket(ScaleOne(TokenCost(tokens, price), factor), tokens, price, factor)
  {
    TenUnits(tokens, price);
    TruncateIsTowardZero(Exact(tokens, price));
    TruncateIsTowardZero(Scaled(factor, TokenCost(tokens, price)));
    hide Exact, Truncate, TowardZero;
    var raw := TokenCost(tokens, price);
    assert AtPrice(raw, tokens, price);
  }

  lemma {:induction false} NothingScaled(factor: real)
    ensures ScaleOne(0, factor) == 0
  {
  }

  lemma {:induction false} CacheBucketOf(tokens: int, price: real, factor: real)
    ensures CacheBucket(ScaleOne(if tokens > 0 && price > 0.0 then TokenCost(tokens, price) else 0, factor),
      tokens, price, factor)
  {
    hide Bucket, TokenCost, ScaleOne;
    BucketOf(tokens, price, factor);
    NothingScaled(factor);
  }

  lemma {:induction false} BilledAtOf(e: Entry, p: Prices, factor: real, log: Log)
    requires var c := Scale(RawCosts(MeterOf(e), p), factor);
      log.inputCost == c.input && log.outputCost == c.output && log.totalCost == Sum(c)
    ensures BilledAt(log, e.usage, p, factor)
  {
    hide Bucket, CacheBucket, TokenCost, ScaleOne;
    BucketOf(e.usage.promptTokens, p.input, factor);
    BucketOf(e.usage.completionTokens, p.output, factor);
    CacheBucketOf(e.usage.cacheReadTokens, p.cacheRead, factor);
    CacheBucketOf(e.usage.cacheWriteTokens, p.cacheWrite, factor);
    var c := Scale(RawCosts(MeterOf(e), p), factor);
    assert CacheBucket(c.cacheRead, e.usage.cacheReadTokens, p.cacheRead, factor);
    assert CacheBucket(c.cacheWrite, e.usage.cacheWriteTokens, p.cacheWrite, factor);
  }

  /** What is settled for an entry is what its own fields, the prices and the settings say. */
  lemma {:induction false} BillsEntry(e: Entry, agentId: string, p: Prices, s: ByokSettings)
    ensures Bills(BilledLog(e, agentId, p, s), e, agentId, p, s)
  {
    hide RawCosts, Scale, BilledAt, Charge;
    var log := BilledLog(e, agentId, p, s);
    ChargeCases(MeterOf(e), p, s);
    var factor := Charge(MeterOf(e), p, s).factor;
    if !(e.free || (e.usage.ownerType == "private" && s.stored != Some("service_fee"))) {
      BilledAtOf(e, p, factor, log);
    }
  }

  lemma {:induction false} BilledUser(e: Entry, agentId: string, p: Prices, s: ByokSettings)
    ensures BilledLog(e, agentId, p, s).userId == e.usage.userId
  {
    hide Charge;
  }

  /**
   * A settler that is not disturbed stores a new row and hands it over; one whose duplicate check finds the row,
   * or fails, goes no further.
   */
  lemma {:induction false} SettlesAlone(s: System, row: UsageRow, queryFails: bool)
    ensures queryFails || row.requestId in s.ledger.rows ==> Step(s, Check(row, queryFails)) == s
    ensures row.requestId !in s.ledger.rows && row.log.userId in s.ledger.users ==>
      var checked := Step(s, Check(row, false));
      var committed := Step(checked, Commit(|s.checked|, false));
      var done := Step(committed, HandOver(|s.awaiting|));
      && done.ledger.rows == s.ledger.rows[row.requestId := row.log]
      && done.checked == s.checked && done.committed == s.committed + [row]
      && done.awaiting == s.awaiting && done.submitted == s.submitted + [row]
  {
    var checked := Step(s, Check(row, false));
    if row.requestId !in s.ledger.rows {
      assert Without(checked.checked, |s.checked|) == s.checked;
    }
    var committed := Step(checked, Commit(|s.checked|, false));
    assert committed.awaiting == s.awaiting + [row] ==> Without(committed.awaiting, |s.awaiting|) == s.awaiting;
  }

  /** A transaction that stores a row deducts its total, if that is positive, from the user it names. */
  lemma {:induction false} TransactMeaning(l: Ledger, row: UsageRow, fault: bool)
    ensures var (now, result) := Transact(l, row, fault); var log := row.log;
      && (result.Inserted? ==>
            && row.requestId !in l.rows && now.rows == l.rows[row.requestId := log]
            && (log.userId != 0 && log.totalCost > 0 ==> log.userId in l.users)
            && now.users
              == (if log.userId != 0 && log.totalCost > 0 then
                    var a := l.users[log.userId];
                    l.users[log.userId := Account(a.quota - log.totalCost, a.used + log.totalCost)]
                  else l.users))
      && (!result.Inserted? ==> now == l)
      && (result.Inserted? && result.depleted
          <==> result.Inserted? && log.userId != 0 && log.totalCost > 0 && now.users[log.userId].quota < 0)
      && (result.Inserted?
          <==> !fault && row.requestId !in l.rows
               && (log.userId in l.users || log.userId == 0 || log.totalCost <= 0))
  {
  }

  // ---------------------------------------------------------------------------------------------
  // One settler, as code
  // ---------------------------------------------------------------------------------------------

  /** Where one settlement goes wrong, if anywhere: the duplicate query or the transaction. */
  datatype Trouble = NoTrouble | QueryFails | TransactionFails

  class UsageDatabase {
    var rows: map<string, Log>
    var users: map<nat, Account>

    function State(): Ledger
      reads this
    {
      Ledger(rows, users)
    }

    /** Returns the quota left, or None when the account cannot be read back. */
    method DeductQuota(id: nat, amount: int) returns (remaining: Option<int>)
      modifies this`users
      ensures remaining == if id in old(users) then Some(old(users)[id].quota - amount) else None
      ensures users == if id in old(users) then old(users)[id := Deduct(old(users)[id], amount)] else old(users)
    {
      if id !in users {
        return None;
      }
      users := users[id := Account(users[id].quota - amount, users[id].used + amount)];
      remaining := Some(users[id].quota);
    }

    /** Runs the transaction; what it wrote is undone unless it ends well. */
    method InsertAndDeduct(row: UsageRow, fault: bool) returns (result: TxResult)
      modifies this
      ensures (State(), result) == Transact(old(State()), row, fault)
    {
      var savedRows, savedUsers := rows, users;
      if fault {
        return RolledBack;
      }
      if row.requestId in rows {
        return Duplicate;
      }
      rows := rows[row.requestId := row.log];
      if row.log.userId == 0 || row.log.totalCost <= 0 {
        return Inserted(false);
      }
      var remaining := DeductQuota(row.log.userId, row.log.totalCost);
      if remaining.None? {
        rows, users := savedRows, savedUsers;
        return RolledBack;
      }
      result := Inserted(remaining.value < 0);
    }
  }

  class Settler {
    const db: UsageDatabase
    const aggregator: Aggregator

    constructor (db: UsageDatabase, aggregator: Aggregator)
      ensures this.db == db && this.aggregator == aggregator
    {
      this.db, this.aggregator := db, aggregator;
    }

    /**
     * settleOne: nothing happens to an entry that is already stored; otherwise the ledger changes by one
     * transaction, and exactly an inserted log is submitted.  The result is the depletion event.
     */
    method SettleOne(entry: Entry, agentId: string, p: Prices, s: ByokSettings, trouble: Trouble, now: int)
      returns (depleted: bool)
      requires aggregator.Valid() && now > 0
      modifies db, aggregator
      ensures aggregator.Valid()
      ensures var row := UsageRow(entry.requestId, BilledLog(entry, agentId, p, s));
        var (ledger, result) :=
          if trouble == QueryFails || entry.requestId in old(db.rows) then (old(db.State()), Duplicate)
          else Transact(old(db.State()), row, trouble == TransactionFails);
        && db.State() == ledger
        && aggregator.pending == old(aggregator.pending) + (if result.Inserted? then [Stamp(row.log, now)] else [])
        && depleted == (result.Inserted? && result.depleted)
      ensures entry.requestId in db.rows && entry.requestId !in old(db.rows) ==>
        var log := db.rows[entry.requestId];
        && Bills(log, entry, agentId, p, s)
        && db.rows == old(db.rows)[entry.requestId := log]
        && (log.userId != 0 && log.totalCost > 0 ==> log.userId in old(db.users))
        && db.users
          == (if log.userId != 0 && log.totalCost > 0 then
                var a := old(db.users)[log.userId];
                old(db.users)[log.userId := Account(a.quota - log.totalCost, a.used + log.totalCost)]
              else old(db.users))
        && aggregator.pending == old(aggregator.pending) + [Stamp(log, now)]
      ensures !(entry.requestId in db.rows && entry.requestId !in old(db.rows)) ==>
        db.State() == old(db.State()) && aggregator.pending == old(aggregator.pending)
      ensures trouble.NoTrouble? && entry.requestId !in old(db.rows) && entry.usage.userId in old(db.users) ==>
        entry.requestId in db.rows
    {
      hide Transact, BilledLog, Fold, Bills, Stamp;
      BillsEntry(entry, agentId, p, s);
      BilledUser(entry, agentId, p, s);
      TransactMeaning(db.State(), UsageRow(entry.requestId, BilledLog(entry, agentId, p, s)),
        trouble == TransactionFails);
      depleted := false;
      if trouble == QueryFails || entry.requestId in db.rows {
        return;
      }
      var log := BilledLog(entry, agentId, p, s);
      var result := db.InsertAndDeduct(UsageRow(entry.requestId, log), trouble == TransactionFails);
      if result.Inserted? {
        aggregator.Submit(log, now);
        depleted := result.depleted;
      }
    }
  }
}
