/** The AI budget ledger: 64-bit amounts reserved and settled in three scopes at
    once. Every arithmetic step below is on `int64`, so verifying it shows that no
    step overflows. */
module Ledger {
  import opened Basics

  newtype int64 = x: int | -0x8000_0000_0000_0000 <= x < 0x8000_0000_0000_0000

  const MAX: int64 := 0x7fff_ffff_ffff_ffff

  const MILLION: int := 1000000

  type Amount = x: int64 | x >= 0 witness 0

  datatype Action = Provider | Tool

  /** An effect's identity; the digest that names it is taken as injective. */
  datatype RequestId = RequestId(job: Id, action: Action, step: int, index: int)

  /** Token prices are in microunits per million tokens. */
  datatype Price = Price(action: Action, reserve: int64, inputRate: int64, outputRate: int64)

  datatype Usage = Usage(known: bool, input: int64, output: int64)

  datatype Scope = Global | Bot | SourceUser

  datatype Config = Config(caps: Scope -> int64, providerReserve: int64)

  datatype Key = Key(scope: Scope, owner: Id, day: int)

  datatype Account = Account(reserved: int64, used: int64)

  datatype RowStatus = Reserved | Uncertain | Completed

  datatype Entry = Entry(request: RequestId, key: Key, price: Price, reserved: Amount, cost: Amount, status: RowStatus)

  datatype Books = Books(accounts: map<Key, Account>, rows: seq<Entry>)

  /** `v` is `product` / 10^6 rounded up. */
  predicate IsCeil(v: int, product: int) {
    (v - 1) * MILLION < product <= v * MILLION
  }

  predicate Priceable(tokens: int64, rate: int64) {
    && 0 <= tokens <= MAX / 2 && 0 <= rate <= MAX / 2
    && tokens as int * rate as int + 999999 <= MAX as int
  }

  lemma DivisionBounds(a: nat, b: nat, t: nat)
    requires b > 0
    ensures t <= a / b <==> t * b <= a
  {
    var q := a / b;
    assert q * b <= a < (q + 1) * b;
    if t <= q {
      assert t * b <= q * b;
    } else {
      assert t * b >= (q + 1) * b;
    }
  }

  /** The ceiling price, exactly when the guarded product fits. */
  function CeilRate(tokens: int64, rate: int64): (r: Option<int64>)
    ensures r.Some? <==> Priceable(tokens, rate)
    ensures r.Some? ==> r.value >= 0 && IsCeil(r.value as int, tokens as int * rate as int)
  {
    if tokens < 0 || rate < 0 || tokens > MAX / 2 || rate > MAX / 2 then None
    else if tokens == 0 || rate == 0 then
      assert tokens as int * rate as int == 0;
      Some(0)
    else
      DivisionBounds((MAX - 999999) as int, rate as int, tokens as int);
      if tokens > (MAX - 999999) / rate then None else Some((tokens * rate + 999999) / 1000000)
  }

  /** The price of tokens: the exact product rounded up. */
  ghost function CeilOf(tokens: int, rate: int): (c: int)
    ensures IsCeil(c, tokens * rate)
  {
    (tokens * rate + MILLION - 1) / MILLION
  }

  /** A settled provider costs its two rounded token prices, exactly when every
      step fits; a tool costs its frozen reserve. */
  function Cost(price: Price, usage: Usage): (r: Option<int64>)
    ensures price.action.Tool? ==> r == Some(price.reserve)
    ensures price.action.Provider? ==>
              var exact := CeilOf(usage.input as int, price.inputRate as int) + CeilOf(usage.output as int, price.outputRate as int);
              && (r.Some? <==> Priceable(usage.input, price.inputRate) && Priceable(usage.output, price.outputRate) && exact <= MAX as int)
              && (r.Some? ==> r.value as int == exact && r.value >= 0)
  {
    if price.action.Tool? then Some(price.reserve)
    else
      var input, output := CeilRate(usage.input, price.inputRate), CeilRate(usage.output, price.outputRate);
      if input.None? || output.None? || input.value > MAX - output.value then None
      else Some(input.value + output.value)
  }

  /** What dispatching asks for: a provider without its own reserve takes the default. */
  function Ask(cfg: Config, price: Price): int64 {
    if price.reserve == 0 && !price.action.Tool? then cfg.providerReserve else price.reserve
  }

  function AccountOf(b: Books, key: Key): Account {
    if key in b.accounts then b.accounts[key] else Account(0, 0)
  }

  function Total(f: Entry -> int, rows: seq<Entry>, key: Key): int {
    if rows == [] then 0
    else
      var n := |rows| - 1;
      Total(f, rows[..n], key) + if rows[n].key == key then f(rows[n]) else 0
  }

  function HeldBy(row: Entry): int {
    if row.status.Completed? then 0 else row.reserved as int
  }

  function SpentBy(row: Entry): int {
    if row.status.Completed? then row.cost as int else 0
  }

  /** How far a settled cost exceeded what had been asked for. */
  function ExcessOf(cfg: Config): Entry -> int {
    (row: Entry) => if row.status.Completed? then Max(0, row.cost as int - Ask(cfg, row.price) as int) else 0
  }

  /** Conservation: an account's counters are the sums over its ledger rows. */
  ghost predicate Balanced(b: Books, key: Key) {
    && AccountOf(b, key).reserved as int == Total(HeldBy, b.rows, key)
    && AccountOf(b, key).used as int == Total(SpentBy, b.rows, key)
  }

  ghost predicate Conserved(b: Books) {
    forall key :: Balanced(b, key)
  }

  /** Rows have accounts, open rows hold what was asked, and a request has one row
      in each scope. */
  ghost predicate Proper(cfg: Config, b: Books) {
    && (forall i :: 0 <= i < |b.rows| ==> b.rows[i].key in b.accounts)
    && (forall i :: 0 <= i < |b.rows| && !b.rows[i].status.Completed? ==> b.rows[i].reserved == Ask(cfg, b.rows[i].price))
    && (forall i, j :: 0 <= i < j < |b.rows| && b.rows[i].request == b.rows[j].request ==> b.rows[i].key.scope != b.rows[j].key.scope)
  }

  /** The budget bound for one account. */
  ghost predicate Bounded(cfg: Config, b: Books, key: Key) {
    var a := AccountOf(b, key);
    cfg.caps(key.scope) > 0 ==>
      a.used as int + a.reserved as int <= cfg.caps(key.scope) as int + Total(ExcessOf(cfg), b.rows, key)
  }

  ghost predicate WithinBudget(cfg: Config, b: Books) {
    forall key :: Bounded(cfg, b, key)
  }

  ghost predicate Sound(cfg: Config, b: Books) {
    Conserved(b) && Proper(cfg, b) && WithinBudget(cfg, b)
  }

  lemma {:induction false} TotalUpdate(f: Entry -> int, rows: seq<Entry>, i: nat, row: Entry, key: Key)
    requires i < |rows| && row.key == rows[i].key
    ensures Total(f, rows[i := row], key) == Total(f, rows, key) + (if row.key == key then f(row) - f(rows[i]) else 0)
    decreases |rows|
  {
    var n := |rows| - 1;
    if i < n {
      assert rows[i := row][..n] == rows[..n][i := row];
      TotalUpdate(f, rows[..n], i, row, key);
    } else {
      assert rows[i := row][..n] == rows[..n];
    }
  }

  lemma TotalAppend(f: Entry -> int, rows: seq<Entry>, row: Entry, key: Key)
    ensures Total(f, rows + [row], key) == Total(f, rows, key) + if row.key == key then f(row) else 0
  {
    assert (rows + [row])[..|rows|] == rows;
  }

  lemma {:induction false} TotalCovers(f: Entry -> int, rows: seq<Entry>, i: nat)
    requires i < |rows| && forall row: Entry :: f(row) >= 0
    ensures 0 <= f(rows[i]) <= Total(f, rows, rows[i].key)
    decreases |rows|
  {
    TotalNonNegative(f, rows[..|rows| - 1], rows[i].key);
    if i < |rows| - 1 {
      TotalCovers(f, rows[..|rows| - 1], i);
    }
  }

  lemma {:induction false} TotalNonNegative(f: Entry -> int, rows: seq<Entry>, key: Key)
    requires forall row: Entry :: f(row) >= 0
    ensures Total(f, rows, key) >= 0
    decreases |rows|
  {
    if rows != [] {
      TotalNonNegative(f, rows[..|rows| - 1], key);
    }
  }

  /** Whether one more reservation is refused by the account or its cap. */
  function Refused(cfg: Config, key: Key, account: Account, reserve: Amount): bool {
    || account.used < 0 || account.reserved < 0
    || (cfg.caps(key.scope) > 0
        && (|| account.used > MAX - account.reserved
            || account.used + account.reserved > MAX - reserve
            || account.used + account.reserved + reserve > cfg.caps(key.scope)))
    || account.reserved > MAX - reserve
  }

  predicate Booked(b: Books, request: RequestId, scope: Scope) {
    exists i :: 0 <= i < |b.rows| && b.rows[i].request == request && b.rows[i].key.scope == scope
  }

  /** One scope's share of a reservation. */
  function ReserveOne(cfg: Config, b: Books, request: RequestId, price: Price, key: Key, reserve: Amount): Option<Books> {
    var account := AccountOf(b, key);
    if Refused(cfg, key, account, reserve) || Booked(b, request, key.scope) then None
    else
      Some(Books(b.accounts[key := account.(reserved := account.reserved + reserve)],
                 b.rows + [Entry(request, key, price, reserve, 0, Reserved)]))
  }

  function ReserveEach(cfg: Config, b: Books, request: RequestId, price: Price, keys: seq<Key>, reserve: Amount): Option<Books> {
    if keys == [] then Some(b)
    else
      var n := |keys| - 1;
      var rest := ReserveEach(cfg, b, request, price, keys[..n], reserve);
      if rest.None? then None else ReserveOne(cfg, rest.value, request, price, keys[n], reserve)
  }

  function KeysFor(user: Id, source: Id, day: int): seq<Key> {
    [Key(Global, 0, day), Key(Bot, user, day), Key(SourceUser, source, day)]
  }

  function Reserve(cfg: Config, b: Books, request: RequestId, price: Price, user: Id, source: Id, day: int): Option<Books> {
    if Ask(cfg, price) < 0 then None
    else ReserveEach(cfg, b, request, price, KeysFor(user, source, day), Ask(cfg, price))
  }

  /** A settled row: completed rows release their hold and record the cost,
      unknown outcomes keep the reservation. */
  function SettleRow(b: Books, i: nat, done: bool, cost: Amount): Option<Books>
    requires i < |b.rows|
  {
    var row := b.rows[i];
    if !done then Some(b.(rows := b.rows[i := row.(status := Uncertain, cost := 0)]))
    else if row.key !in b.accounts then None
    else
      var account := b.accounts[row.key];
      if account.reserved < row.reserved || account.used > MAX - cost then None
      else
        Some(Books(b.accounts[row.key := Account(account.reserved - row.reserved, account.used + cost)],
                   b.rows[i := row.(status := Completed, reserved := 0, cost := cost)]))
  }

  function SettleRows(b: Books, request: RequestId, done: bool, cost: Amount, n: nat): (r: Option<Books>)
    requires n <= |b.rows|
    ensures r.Some? ==> |r.value.rows| == |b.rows| && forall i :: n <= i < |b.rows| ==> r.value.rows[i] == b.rows[i]
  {
    if n == 0 then Some(b)
    else
      var rest := SettleRows(b, request, done, cost, n - 1);
      if rest.None? || rest.value.rows[n - 1].request != request then rest
      else SettleRow(rest.value, n - 1, done, cost)
  }

  /** What settling decides: whether the outcome is final, and at what cost. */
  datatype Verdict = Verdict(done: bool, cost: Amount)

  predicate Known(price: Price, usage: Usage) {
    price.action.Tool? || (usage.known && usage.input >= 0 && usage.output >= 0)
  }

  /** Only a known success is final, at its cost; an unknown usage is never priced,
      and a known one that cannot be priced is an error. */
  function Decide(price: Price, usage: Usage, success: bool): (r: Option<Verdict>)
    requires price.reserve >= 0
    ensures r.None? <==> Known(price, usage) && Cost(price, usage).None?
    ensures r.Some? ==>
              (r.value.done <==> success && (price.action.Tool? || (usage.known && usage.input >= 0 && usage.output >= 0)))
    ensures r.Some? && r.value.done ==> Cost(price, usage) == Some(r.value.cost)
  {
    var known := Known(price, usage);
    if !known then Some(Verdict(false, 0))
    else
      var cost := Cost(price, usage);
      if cost.None? then None else Some(Verdict(success, cost.value))
  }

  function Settle(b: Books, request: RequestId, price: Price, usage: Usage, success: bool): Option<(Books, bool)>
    requires price.reserve >= 0
  {
    var verdict := Decide(price, usage, success);
    if verdict.None? then None
    else
      var t := SettleRows(b, request, verdict.value.done, verdict.value.cost, |b.rows|);
      if t.None? then None else Some((t.value, verdict.value.done))
  }

  /** The two ledger tables, changed inside a transaction that a failure drops. */
  class LedgerTable {
    var books: Books

    constructor ()
      ensures books == Books(map[], [])
    {
      books := Books(map[], []);
    }

    method ReserveTx(cfg: Config, request: RequestId, price: Price, user: Id, source: Id, day: int) returns (ok: bool)
      modifies this
      ensures Reserve(cfg, old(books), request, price, user, source, day) == if ok then Some(books) else None
      ensures !ok ==> books == old(books)
    {
      var reserve := price.reserve;
      if reserve == 0 && !price.action.Tool? {
        reserve := cfg.providerReserve;
      }
      if reserve < 0 {
        return false;
      }
      var keys := KeysFor(user, source, day);
      var tx := books;
      var i := 0;
      while i < |keys|
        invariant 0 <= i <= |keys| && books == old(books)
        invariant ReserveEach(cfg, books, request, price, keys[..i], reserve) == Some(tx)
      {
        ReserveEachStep(cfg, books, tx, request, price, keys, reserve, i);
        var account := AccountOf(tx, keys[i]);
        if Refused(cfg, keys[i], account, reserve) || Booked(tx, request, keys[i].scope) {
          RefusedStays(cfg, books, request, price, keys, reserve, i + 1);
          return false;
        }
        account := account.(reserved := account.reserved + reserve);
        tx := Books(tx.accounts[keys[i] := account], tx.rows + [Entry(request, keys[i], price, reserve, 0, Reserved)]);
        i := i + 1;
      }
      assert keys[..i] == keys;
      books := tx;
      ok := true;
    }

    method SettleTx(request: RequestId, price: Price, usage: Usage, success: bool) returns (done: Option<bool>)
      requires price.reserve >= 0
      modifies this
      ensures Settle(old(books), request, price, usage, success) == if done.Some? then Some((books, done.value)) else None
      ensures done.None? ==> books == old(books)
    {
      var verdict := Decide(price, usage, success);
      if verdict.None? {
        return None;
      }
      var final, cost := verdict.value.done, verdict.value.cost;
      var tx := books;
      var i := 0;
      while i < |books.rows|
        invariant 0 <= i <= |books.rows| == |tx.rows| && books == old(books)
        invariant SettleRows(books, request, final, cost, i) == Some(tx)
      {
        if tx.rows[i].request == request {
          var row := tx.rows[i];
          if final {
            if row.key !in tx.accounts || tx.accounts[row.key].reserved < row.reserved || tx.accounts[row.key].used > MAX - cost {
              FailureStays(books, request, final, cost, i + 1, |books.rows|);
              return None;
            }
            var account := tx.accounts[row.key];
            tx := Books(tx.accounts[row.key := Account(account.reserved - row.reserved, account.used + cost)],
                        tx.rows[i := row.(status := Completed, reserved := 0, cost := cost)]);
          } else {
            tx := tx.(rows := tx.rows[i := row.(status := Uncertain, cost := 0)]);
          }
        }
        i := i + 1;
      }
      books := tx;
      done := Some(final);
    }
  }

  lemma {:induction false} RefusedStays(cfg: Config, b: Books, request: RequestId, price: Price, keys: seq<Key>, reserve: Amount, i: nat)
    requires i <= |keys| && ReserveEach(cfg, b, request, price, keys[..i], reserve).None?
    ensures ReserveEach(cfg, b, request, price, keys, reserve).None?
    decreases |keys| - i
  {
    if i == |keys| {
      assert keys[..i] == keys;
    } else {
      assert keys[..i + 1][..i] == keys[..i];
      RefusedStays(cfg, b, request, price, keys, reserve, i + 1);
    }
  }

  lemma ReserveEachStep(cfg: Config, b: Books, t: Books, request: RequestId, price: Price, keys: seq<Key>, reserve: Amount, i: nat)
    requires i < |keys| && ReserveEach(cfg, b, request, price, keys[..i], reserve) == Some(t)
    ensures ReserveEach(cfg, b, request, price, keys[..i + 1], reserve) == ReserveOne(cfg, t, request, price, keys[i], reserve)
    ensures i + 1 == |keys| ==> keys[..i + 1] == keys
  {
    assert keys[..i + 1][..i] == keys[..i];
  }

  lemma {:induction false} FailureStays(b: Books, request: RequestId, done: bool, cost: Amount, i: nat, n: nat)
    requires i <= n <= |b.rows| && SettleRows(b, request, done, cost, i).None?
    ensures SettleRows(b, request, done, cost, n).None?
  {
    if i < n {
      FailureStays(b, request, done, cost, i, n - 1);
    }
  }

  lemma ReserveOneKeeps(cfg: Config, b: Books, request: RequestId, price: Price, key: Key, reserve: Amount)
    requires Sound(cfg, b) && reserve == Ask(cfg, price)
    requires ReserveOne(cfg, b, request, price, key, reserve).Some?
    ensures Sound(cfg, ReserveOne(cfg, b, request, price, key, reserve).value)
  {
    var t := ReserveOne(cfg, b, request, price, key, reserve).value;
    var row := Entry(request, key, price, reserve, 0, Reserved);
    forall k ensures Balanced(t, k) {
      assert Balanced(b, k);
      TotalAppend(HeldBy, b.rows, row, k);
      TotalAppend(SpentBy, b.rows, row, k);
    }
    forall k ensures Bounded(cfg, t, k) {
      assert Bounded(cfg, b, k);
      TotalAppend(ExcessOf(cfg), b.rows, row, k);
      TotalNonNegative(ExcessOf(cfg), b.rows, k);
    }
  }

  lemma {:induction false} ReserveEachKeeps(cfg: Config, b: Books, request: RequestId, price: Price, keys: seq<Key>, reserve: Amount)
    requires Sound(cfg, b) && reserve == Ask(cfg, price)
    requires ReserveEach(cfg, b, request, price, keys, reserve).Some?
    ensures Sound(cfg, ReserveEach(cfg, b, request, price, keys, reserve).value)
    decreases |keys|
  {
    if keys != [] {
      var n := |keys| - 1;
      ReserveEachKeeps(cfg, b, request, price, keys[..n], reserve);
      ReserveOneKeeps(cfg, ReserveEach(cfg, b, request, price, keys[..n], reserve).value, request, price, keys[n], reserve);
    }
  }

  /** A reservation keeps conservation and the budget bound. */
  lemma ReserveKeeps(cfg: Config, b: Books, request: RequestId, price: Price, user: Id, source: Id, day: int)
    requires Sound(cfg, b) && Reserve(cfg, b, request, price, user, source, day).Some?
    ensures Sound(cfg, Reserve(cfg, b, request, price, user, source, day).value)
  {
    ReserveEachKeeps(cfg, b, request, price, KeysFor(user, source, day), Ask(cfg, price));
  }

  /** There is room in an account: its cap and its counter both hold the ask. */
  ghost predicate Room(cfg: Config, b: Books, key: Key, ask: int) {
    var a := AccountOf(b, key);
    && a.reserved as int + ask <= MAX as int
    && (cfg.caps(key.scope) > 0 ==> a.used as int + a.reserved as int + ask <= cfg.caps(key.scope) as int)
  }

  /** The three rows of one request. */
  function Fresh(request: RequestId, price: Price, keys: seq<Key>, reserve: Amount): seq<Entry> {
    seq(|keys|, k requires 0 <= k < |keys| => Entry(request, keys[k], price, reserve, 0, Reserved))
  }

  function Share(keys: seq<Key>, key: Key, reserve: Amount): Amount {
    if key in keys then reserve else 0
  }

  ghost predicate Granted(b: Books, t: Books, request: RequestId, price: Price, keys: seq<Key>, reserve: Amount) {
    && t.rows == b.rows + Fresh(request, price, keys, reserve)
    && forall key :: Raised(b, t, key, Share(keys, key, reserve))
  }

  ghost predicate Raised(b: Books, t: Books, key: Key, extra: Amount) {
    && AccountOf(t, key).used == AccountOf(b, key).used
    && AccountOf(t, key).reserved as int == AccountOf(b, key).reserved as int + extra as int
  }

  ghost predicate Grantable(cfg: Config, b: Books, request: RequestId, key: Key, reserve: Amount) {
    !Booked(b, request, key.scope) && Room(cfg, b, key, reserve as int)
  }

  lemma SoundAccounts(cfg: Config, b: Books, key: Key)
    requires Sound(cfg, b)
    ensures AccountOf(b, key).used >= 0 && AccountOf(b, key).reserved >= 0
  {
    assert Balanced(b, key);
    TotalNonNegative(HeldBy, b.rows, key);
    TotalNonNegative(SpentBy, b.rows, key);
  }

  /** The next key's grant is decided as if it came first: its scope is its own. */
  lemma ReserveNext(cfg: Config, b: Books, t: Books, request: RequestId, price: Price, keys: seq<Key>, key: Key, reserve: Amount)
    requires Sound(cfg, b) && Granted(b, t, request, price, keys, reserve)
    requires forall k :: 0 <= k < |keys| ==> keys[k].scope != key.scope
    ensures var r := ReserveOne(cfg, t, request, price, key, reserve);
            && (r.Some? <==> Grantable(cfg, b, request, key, reserve))
            && (r.Some? ==> Granted(b, r.value, request, price, keys + [key], reserve))
  {
    SoundAccounts(cfg, b, key);
    assert Raised(b, t, key, Share(keys, key, reserve));
    assert Booked(t, request, key.scope) <==> Booked(b, request, key.scope) by {
      forall i | 0 <= i < |b.rows| ensures t.rows[i] == b.rows[i] { }
    }
    var r := ReserveOne(cfg, t, request, price, key, reserve);
    if r.Some? {
      assert Fresh(request, price, keys + [key], reserve) == Fresh(request, price, keys, reserve) + [Entry(request, key, price, reserve, 0, Reserved)];
      forall k ensures Raised(b, r.value, k, Share(keys + [key], k, reserve)) {
        assert Raised(b, t, k, Share(keys, k, reserve));
      }
    }
  }

  lemma {:induction false} ReserveEachExactly(cfg: Config, b: Books, request: RequestId, price: Price, keys: seq<Key>, reserve: Amount)
    requires Sound(cfg, b)
    requires forall j, k :: 0 <= j < k < |keys| ==> keys[j].scope != keys[k].scope
    ensures var r := ReserveEach(cfg, b, request, price, keys, reserve);
            && (r.Some? <==> forall key :: key in keys ==> Grantable(cfg, b, request, key, reserve))
            && (r.Some? ==> Granted(b, r.value, request, price, keys, reserve))
    decreases |keys|
  {
    if keys != [] {
      var n := |keys| - 1;
      ReserveEachExactly(cfg, b, request, price, keys[..n], reserve);
      assert keys == keys[..n] + [keys[n]];
      var rest := ReserveEach(cfg, b, request, price, keys[..n], reserve);
      if rest.Some? {
        ReserveNext(cfg, b, rest.value, request, price, keys[..n], keys[n], reserve);
      }
    } else {
      forall k ensures Raised(b, b, k, 0) { }
      assert b.rows == b.rows + Fresh(request, price, [], reserve);
    }
  }

  /** A reservation is granted exactly when the ask is not negative, the request
      is not booked and all three accounts have room; then each account holds the
      ask on top, at or below its cap, and every other account is unchanged. */
  lemma ReserveExactly(cfg: Config, b: Books, request: RequestId, price: Price, user: Id, source: Id, day: int)
    requires Sound(cfg, b)
    ensures var keys := KeysFor(user, source, day);
            var r := Reserve(cfg, b, request, price, user, source, day);
            && (r.Some? <==> Ask(cfg, price) >= 0 && forall key :: key in keys ==> Grantable(cfg, b, request, key, Ask(cfg, price)))
            && (r.Some? ==>
                  && Granted(b, r.value, request, price, keys, Ask(cfg, price))
                  && forall key :: key in keys && cfg.caps(key.scope) > 0 ==>
                       var a := AccountOf(r.value, key); a.used as int + a.reserved as int <= cfg.caps(key.scope) as int)
  {
    var keys := KeysFor(user, source, day);
    if Ask(cfg, price) >= 0 {
      ReserveEachExactly(cfg, b, request, price, keys, Ask(cfg, price));
      var r := Reserve(cfg, b, request, price, user, source, day);
      forall key | r.Some? && key in keys && cfg.caps(key.scope) > 0
        ensures var a := AccountOf(r.value, key); a.used as int + a.reserved as int <= cfg.caps(key.scope) as int
      {
        assert Grantable(cfg, b, request, key, Ask(cfg, price)) && Raised(b, r.value, key, Share(keys, key, Ask(cfg, price)));
      }
    }
  }

  /** An account's balance, and room in it for one more hold of a scope not yet
      booked by the request. */
  ghost predicate HasRoom(cfg: Config, b: Books, request: RequestId, key: Key, ask: int) {
    var a := if key in b.accounts then b.accounts[key] else Account(0, 0);
    && a.reserved as int + ask <= 0x7fff_ffff_ffff_ffff
    && (cfg.caps(key.scope) > 0 ==> a.used as int + a.reserved as int + ask <= cfg.caps(key.scope) as int)
    && forall i :: 0 <= i < |b.rows| && b.rows[i].request == request ==> b.rows[i].key.scope != key.scope
  }

  ghost predicate Holds(b: Books, t: Books, key: Key, ask: int) {
    var a := if key in b.accounts then b.accounts[key] else Account(0, 0);
    && key in t.accounts && t.accounts[key].used == a.used && t.accounts[key].reserved as int == a.reserved as int + ask
  }

  /** By name: a reservation needs room, and takes it, in the day's global account, in
      the AI user's own account and in the source user's, for the price's reserve or,
      for a provider without one, the default; no other account changes. */
  lemma ReservesInThreeAccounts(cfg: Config, b: Books, request: RequestId, price: Price, user: Id, source: Id, day: int)
    requires Sound(cfg, b)
    ensures var everyone, bot, sender := Key(Global, 0, day), Key(Bot, user, day), Key(SourceUser, source, day);
            var ask := if price.reserve == 0 && price.action == Provider then cfg.providerReserve else price.reserve;
            var r := Reserve(cfg, b, request, price, user, source, day);
            && (r.Some? <==>
                  && ask as int >= 0
                  && HasRoom(cfg, b, request, everyone, ask as int)
                  && HasRoom(cfg, b, request, bot, ask as int)
                  && HasRoom(cfg, b, request, sender, ask as int))
            && (r.Some? ==>
                  && r.value.rows == b.rows + [Entry(request, everyone, price, ask, 0, Reserved),
                                               Entry(request, bot, price, ask, 0, Reserved),
                                               Entry(request, sender, price, ask, 0, Reserved)]
                  && Holds(b, r.value, everyone, ask as int) && Holds(b, r.value, bot, ask as int)
                  && Holds(b, r.value, sender, ask as int)
                  && forall key :: key in b.accounts && key != everyone && key != bot && key != sender ==>
                       key in r.value.accounts && r.value.accounts[key] == b.accounts[key])
  {
    ReserveExactly(cfg, b, request, price, user, source, day);
    var keys := KeysFor(user, source, day);
    var ask := Ask(cfg, price);
    assert keys[0] in keys && keys[1] in keys && keys[2] in keys;
    if ask >= 0 {
      forall key | key in keys ensures HasRoom(cfg, b, request, key, ask as int) <==> Grantable(cfg, b, request, key, ask) {
        RoomIsGrantable(cfg, b, request, key, ask);
      }
      var r := Reserve(cfg, b, request, price, user, source, day);
      if r.Some? {
        assert Fresh(request, price, keys, ask) == [Entry(request, keys[0], price, ask, 0, Reserved),
                                                    Entry(request, keys[1], price, ask, 0, Reserved),
                                                    Entry(request, keys[2], price, ask, 0, Reserved)];
        ReservedKeys(cfg, b, request, price, keys, ask);
        forall key | key in keys ensures Holds(b, r.value, key, ask as int) {
          assert Raised(b, r.value, key, Share(keys, key, ask));
        }
        forall key | key in b.accounts && key !in keys ensures r.value.accounts[key] == b.accounts[key] {
          assert Raised(b, r.value, key, Share(keys, key, ask));
        }
      }
    }
  }

  lemma RoomIsGrantable(cfg: Config, b: Books, request: RequestId, key: Key, ask: Amount)
    ensures HasRoom(cfg, b, request, key, ask as int) <==> Grantable(cfg, b, request, key, ask)
  {
  }

  lemma {:induction false} ReservedKeys(cfg: Config, b: Books, request: RequestId, price: Price, keys: seq<Key>, reserve: Amount)
    requires ReserveEach(cfg, b, request, price, keys, reserve).Some?
    ensures var t := ReserveEach(cfg, b, request, price, keys, reserve).value;
            forall key :: key in t.accounts <==> key in b.accounts || key in keys
    decreases |keys|
  {
    if keys != [] {
      var n := |keys| - 1;
      ReservedKeys(cfg, b, request, price, keys[..n], reserve);
      assert keys == keys[..n] + [keys[n]];
    }
  }

  /** The request's rows have not been completed. */
  ghost predicate OpenRows(b: Books, request: RequestId) {
    forall i :: 0 <= i < |b.rows| && b.rows[i].request == request ==> !b.rows[i].status.Completed?
  }

  lemma SettleRowKeeps(cfg: Config, b: Books, i: nat, done: bool, cost: Amount)
    requires Sound(cfg, b) && i < |b.rows| && !b.rows[i].status.Completed?
    requires SettleRow(b, i, done, cost).Some?
    ensures Sound(cfg, SettleRow(b, i, done, cost).value)
  {
    var t := SettleRow(b, i, done, cost).value;
    forall k ensures Balanced(t, k) && Bounded(cfg, t, k) {
      assert Balanced(b, k) && Bounded(cfg, b, k);
      TotalUpdate(HeldBy, b.rows, i, t.rows[i], k);
      TotalUpdate(SpentBy, b.rows, i, t.rows[i], k);
      TotalUpdate(ExcessOf(cfg), b.rows, i, t.rows[i], k);
    }
  }

  ghost predicate Touched(b: Books, request: RequestId, key: Key, n: nat)
    requires n <= |b.rows|
  {
    exists i :: 0 <= i < n && b.rows[i].request == request && b.rows[i].key == key
  }

  /** What settling the first `n` rows leaves: the request's accounts, found by
      the day of reservation, spend the cost; no other account moves. */
  ghost predicate Credited(b: Books, t: Books, request: RequestId, done: bool, cost: Amount, n: nat)
    requires n <= |b.rows|
  {
    forall key :: CreditedAt(b, t, request, done, cost, n, key)
  }

  ghost predicate CreditedAt(b: Books, t: Books, request: RequestId, done: bool, cost: Amount, n: nat, key: Key)
    requires n <= |b.rows|
  {
    if done && Touched(b, request, key, n)
    then AccountOf(t, key).used as int == AccountOf(b, key).used as int + cost as int
    else AccountOf(t, key) == AccountOf(b, key)
  }

  ghost predicate RowSettled(b: Books, t: Books, request: RequestId, done: bool, cost: Amount, i: nat)
    requires i < |b.rows| == |t.rows|
  {
    var row := b.rows[i];
    t.rows[i] ==
      if row.request != request then row
      else if done then row.(status := Completed, reserved := 0, cost := cost)
      else row.(status := Uncertain, cost := 0)
  }

  /** The counters can take the cost. */
  ghost predicate Payable(b: Books, request: RequestId, cost: Amount, i: nat)
    requires i < |b.rows|
  {
    b.rows[i].request == request ==> AccountOf(b, b.rows[i].key).used as int + cost as int <= MAX as int
  }

  lemma SettleNext(cfg: Config, b: Books, t: Books, request: RequestId, done: bool, cost: Amount, n: nat)
    requires Sound(cfg, b) && Sound(cfg, t) && OpenRows(b, request) && n < |b.rows| == |t.rows|
    requires t.rows[n] == b.rows[n] && b.rows[n].request == request && Credited(b, t, request, done, cost, n)
    ensures var r := SettleRow(t, n, done, cost);
            && (r.Some? <==> done ==> Payable(b, request, cost, n))
            && (r.Some? ==>
                  && Sound(cfg, r.value) && Credited(b, r.value, request, done, cost, n + 1)
                  && r.value.rows == t.rows[n := r.value.rows[n]] && RowSettled(b, r.value, request, done, cost, n))
  {
    var row := b.rows[n];
    forall i | 0 <= i < n && b.rows[i].request == request ensures b.rows[i].key != row.key { }
    assert !Touched(b, request, row.key, n);
    assert CreditedAt(b, t, request, done, cost, n, row.key) && Balanced(t, row.key);
    TotalCovers(HeldBy, t.rows, n);
    SoundAccounts(cfg, t, row.key);
    var r := SettleRow(t, n, done, cost);
    if r.Some? {
      SettleRowKeeps(cfg, t, n, done, cost);
      var m := n + 1;
      forall k ensures CreditedAt(b, r.value, request, done, cost, m, k) {
        assert CreditedAt(b, t, request, done, cost, n, k);
        assert Touched(b, request, k, m) <==> Touched(b, request, k, n) || k == row.key;
      }
    }
  }

  /** The first `n` rows are dealt with: it fails only where a counter is full. */
  ghost predicate SettledTo(cfg: Config, b: Books, request: RequestId, done: bool, cost: Amount, n: nat, r: Option<Books>)
    requires n <= |b.rows|
  {
    && (r.Some? <==> done ==> forall i :: 0 <= i < n ==> Payable(b, request, cost, i))
    && (r.Some? ==>
          && Sound(cfg, r.value) && |r.value.rows| == |b.rows| && Credited(b, r.value, request, done, cost, n)
          && (forall i :: n <= i < |b.rows| ==> r.value.rows[i] == b.rows[i])
          && (forall i :: 0 <= i < n ==> RowSettled(b, r.value, request, done, cost, i)))
  }

  lemma SettleOwn(cfg: Config, b: Books, t: Books, request: RequestId, done: bool, cost: Amount, n: nat)
    requires Sound(cfg, b) && OpenRows(b, request) && n < |b.rows| && b.rows[n].request == request
    requires SettledTo(cfg, b, request, done, cost, n, Some(t))
    ensures SettledTo(cfg, b, request, done, cost, n + 1, SettleRow(t, n, done, cost))
  {
    SettleNext(cfg, b, t, request, done, cost, n);
    var r := SettleRow(t, n, done, cost);
    forall i | r.Some? && 0 <= i < n ensures RowSettled(b, r.value, request, done, cost, i) {
      assert RowSettled(b, t, request, done, cost, i);
    }
  }

  lemma SettleOther(cfg: Config, b: Books, t: Books, request: RequestId, done: bool, cost: Amount, n: nat)
    requires n < |b.rows| && b.rows[n].request != request
    requires SettledTo(cfg, b, request, done, cost, n, Some(t))
    ensures SettledTo(cfg, b, request, done, cost, n + 1, Some(t))
  {
    var m := n + 1;
    forall k ensures CreditedAt(b, t, request, done, cost, m, k) {
      assert CreditedAt(b, t, request, done, cost, n, k);
    }
  }

  lemma {:induction false} SettleRowsExactly(cfg: Config, b: Books, request: RequestId, done: bool, cost: Amount, n: nat)
    requires Sound(cfg, b) && OpenRows(b, request) && n <= |b.rows|
    ensures SettledTo(cfg, b, request, done, cost, n, SettleRows(b, request, done, cost, n))
  {
    if n == 0 {
      forall k ensures CreditedAt(b, b, request, done, cost, 0, k) { }
    } else {
      SettleRowsExactly(cfg, b, request, done, cost, n - 1);
      var rest := SettleRows(b, request, done, cost, n - 1);
      if rest.Some? && b.rows[n - 1].request == request {
        SettleOwn(cfg, b, rest.value, request, done, cost, n - 1);
      } else if rest.Some? {
        SettleOther(cfg, b, rest.value, request, done, cost, n - 1);
      }
    }
  }

  /** Settling keeps conservation and the budget bound, whenever it comes; it can
      only fail on an unpriceable cost or a full `used` counter; it settles all of
      the request's rows and credits their accounts on the day of reservation. */
  lemma SettleExactly(cfg: Config, b: Books, request: RequestId, price: Price, usage: Usage, success: bool)
    requires Sound(cfg, b) && OpenRows(b, request) && price.reserve >= 0
    ensures var verdict := Decide(price, usage, success);
            var r := Settle(b, request, price, usage, success);
            && (r.Some? <==>
                  && verdict.Some?
                  && (verdict.value.done ==> forall i :: 0 <= i < |b.rows| ==> Payable(b, request, verdict.value.cost, i)))
            && (r.Some? ==>
                  var t := r.value.0;
                  && r.value.1 == verdict.value.done
                  && Sound(cfg, t) && |t.rows| == |b.rows|
                  && Credited(b, t, request, verdict.value.done, verdict.value.cost, |b.rows|)
                  && forall i :: 0 <= i < |b.rows| ==> RowSettled(b, t, request, verdict.value.done, verdict.value.cost, i))
  {
    var verdict := Decide(price, usage, success);
    if verdict.Some? {
      SettleRowsExactly(cfg, b, request, verdict.value.done, verdict.value.cost, |b.rows|);
    }
  }

  /** A settled tool adds no excess: its cost is what it had reserved. */
  lemma ToolAddsNoExcess(cfg: Config, b: Books, request: RequestId, price: Price, usage: Usage, success: bool, key: Key)
    requires Sound(cfg, b) && OpenRows(b, request) && price.reserve >= 0 && price.action.Tool?
    requires forall i :: 0 <= i < |b.rows| && b.rows[i].request == request ==> b.rows[i].price == price
    requires Settle(b, request, price, usage, success).Some?
    ensures Total(ExcessOf(cfg), Settle(b, request, price, usage, success).value.0.rows, key) == Total(ExcessOf(cfg), b.rows, key)
  {
    SettleExactly(cfg, b, request, price, usage, success);
    var t := Settle(b, request, price, usage, success).value.0;
    forall i | 0 <= i < |b.rows| ensures t.rows[i].key == b.rows[i].key && ExcessOf(cfg)(t.rows[i]) == ExcessOf(cfg)(b.rows[i]) {
      assert RowSettled(b, t, request, Decide(price, usage, success).value.done, price.reserve, i);
    }
    TotalSame(ExcessOf(cfg), b.rows, t.rows, key);
  }

  lemma {:induction false} TotalSame(f: Entry -> int, rows: seq<Entry>, other: seq<Entry>, key: Key)
    requires |rows| == |other|
    requires forall i :: 0 <= i < |rows| ==> rows[i].key == other[i].key && f(rows[i]) == f(other[i])
    ensures Total(f, rows, key) == Total(f, other, key)
    decreases |rows|
  {
    if rows != [] {
      TotalSame(f, rows[..|rows| - 1], other[..|rows| - 1], key);
    }
  }
}
