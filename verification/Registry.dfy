/**
 The connection registry: 20 rows, one per connection type, of 32 shards each.  A
 shard maps the hexadecimal form of an address to a record.  Each call is taken as
 one step, and is shown to act on a flat map from (type, address) to connection.
 */
module Registry {
  import opened Base

  type Address = a: seq<Byte> | |a| == 20 witness seq(20, _ => 0)

  /** Connections are known by identity. */
  type Conn = nat

  const TYPES := 20
  const SHARDS := 32

  // ------------------------------------------------------------- type names

  /** The row of a connection type; unknown names share row 0. */
  function TypeIndex(name: string): (t: nat)
    ensures t < TYPES
  {
    match name
    case "validator" => 1
    case "node" => 2
    case "child_node" => 3
    case "execute_miner" => 4
    case "verify_miner" => 5
    case "client" => 6
    case "storage" => 7
    case "explorer" => 8
    case "state_channel_validator" => 9
    case "backup" => 10
    case "master_read_only" => 11
    case _ => 0
  }

  function TypeName(t: int): string {
    if t == 1 then "validator"
    else if t == 2 then "node"
    else if t == 3 then "child_node"
    else if t == 4 then "execute_miner"
    else if t == 5 then "verify_miner"
    else if t == 6 then "client"
    else if t == 7 then "storage"
    else if t == 8 then "explorer"
    else if t == 9 then "state_channel_validator"
    else if t == 10 then "backup"
    else "none"
  }

  /** Going to a name and back keeps a row exactly when it is one of the first
      eleven: row 11 has no name of its own. */
  lemma NameRoundTrip(t: nat)
    requires t < TYPES
    ensures TypeIndex(TypeName(t)) == t <==> t <= 10
  {
  }

  // ------------------------------------------------------------------- keys

  function Digit(n: nat, upper: bool): char
    requires n < 16
  {
    if n < 10 then '0' + n as char else if upper then 'A' + (n - 10) as char else 'a' + (n - 10) as char
  }

  function DigitValue(c: char): int {
    if '0' <= c <= '9' then c as int - '0' as int
    else if 'A' <= c <= 'F' then c as int - 'A' as int + 10
    else c as int - 'a' as int + 10
  }

  lemma DigitRoundTrip(n: nat, upper: bool)
    requires n < 16
    ensures DigitValue(Digit(n, upper)) == n
  {}

  function Nibble(a: Address, i: nat): (n: nat)
    requires i < 40
    ensures n < 16
  {
    if i % 2 == 0 then a[i / 2] / 16 else a[i / 2] % 16
  }

  /** Which hexadecimal digits of an address are written in capitals.  The program
      takes this from a hash of the address; nothing below depends on it. */
  type Checksum = (Address, nat) -> bool

  function AddressKey(sum: Checksum, a: Address): (key: string)
    ensures |key| == 42
  {
    "0x" + seq(40, i requires 0 <= i < 40 => Digit(Nibble(a, i), sum(a, i)))
  }

  lemma KeyDigit(sum: Checksum, a: Address, i: nat)
    requires i < 40
    ensures DigitValue(AddressKey(sum, a)[2 + i]) == Nibble(a, i)
  {
    DigitRoundTrip(Nibble(a, i), sum(a, i));
  }

  /** Two addresses never share a key, however their digits are capitalised. */
  lemma KeyInjective(sum: Checksum, a: Address, b: Address)
    requires AddressKey(sum, a) == AddressKey(sum, b)
    ensures a == b
  {
    forall k | 0 <= k < 20 ensures a[k] == b[k] {
      KeyDigit(sum, a, 2 * k);
      KeyDigit(sum, b, 2 * k);
      KeyDigit(sum, a, 2 * k + 1);
      KeyDigit(sum, b, 2 * k + 1);
      assert a[k] == 16 * Nibble(a, 2 * k) + Nibble(a, 2 * k + 1);
      assert b[k] == 16 * Nibble(b, 2 * k) + Nibble(b, 2 * k + 1);
    }
  }

  /** The low five bits of the last byte. */
  function ShardIndex(a: Address): (i: nat)
    ensures i < SHARDS
  {
    a[19] % SHARDS
  }

  // --------------------------------------------------------- rows and shards

  datatype Record = Record(address: Address, conn: Conn)
  type Shard = map<string, Record>
  type Row = seq<Shard>

  /** Every record lies in the shard of its own address, under its own key. */
  ghost predicate RowOk(sum: Checksum, row: Row) {
    && |row| == SHARDS
    && forall i, key :: 0 <= i < SHARDS && key in row[i] ==>
         key == AddressKey(sum, row[i][key].address) && i == ShardIndex(row[i][key].address)
  }

  ghost predicate RowsOk(sum: Checksum, rows: seq<Row>) {
    |rows| == TYPES && forall t :: 0 <= t < TYPES ==> RowOk(sum, rows[t])
  }

  predicate InRow(sum: Checksum, row: Row, a: Address)
    requires |row| == SHARDS
  {
    AddressKey(sum, a) in row[ShardIndex(a)]
  }

  function RecordOf(sum: Checksum, row: Row, a: Address): Record
    requires |row| == SHARDS && InRow(sum, row, a)
  {
    row[ShardIndex(a)][AddressKey(sum, a)]
  }

  type Key = (nat, Address)

  /** The registry as one map. */
  ghost function Flatten(sum: Checksum, rows: seq<Row>): imap<Key, Conn>
    requires RowsOk(sum, rows)
  {
    imap k: Key | k.0 < TYPES && InRow(sum, rows[k.0], k.1) :: RecordOf(sum, rows[k.0], k.1).conn
  }

  function Put(sum: Checksum, rows: seq<Row>, t: nat, r: Record): seq<Row>
    requires |rows| == TYPES && t < TYPES && |rows[t]| == SHARDS
  {
    var i := ShardIndex(r.address);
    rows[t := rows[t][i := rows[t][i][AddressKey(sum, r.address) := r]]]
  }

  function Delete(rows: seq<Row>, t: nat, i: nat, key: string): seq<Row>
    requires |rows| == TYPES && t < TYPES && i < |rows[t]|
  {
    rows[t := rows[t][i := rows[t][i] - {key}]]
  }

  lemma PutFlat(sum: Checksum, rows: seq<Row>, t: nat, r: Record)
    requires RowsOk(sum, rows) && t < TYPES
    ensures RowsOk(sum, Put(sum, rows, t, r))
    ensures Flatten(sum, Put(sum, rows, t, r)) == Flatten(sum, rows)[(t, r.address) := r.conn]
  {
    var to := Put(sum, rows, t, r);
    forall k: Key | k.0 < TYPES
      ensures InRow(sum, to[k.0], k.1) <==> InRow(sum, rows[k.0], k.1) || k == (t, r.address)
      ensures InRow(sum, to[k.0], k.1) ==>
        RecordOf(sum, to[k.0], k.1) == if k == (t, r.address) then r else RecordOf(sum, rows[k.0], k.1)
    {
      if AddressKey(sum, k.1) == AddressKey(sum, r.address) { KeyInjective(sum, k.1, r.address); }
    }
  }

  lemma DeleteAt(sum: Checksum, rows: seq<Row>, t: nat, a: Address, k: Key)
    requires RowsOk(sum, rows) && t < TYPES && k.0 < TYPES
    ensures var to := Delete(rows, t, ShardIndex(a), AddressKey(sum, a));
      && |to[k.0]| == SHARDS
      && (InRow(sum, to[k.0], k.1) <==> InRow(sum, rows[k.0], k.1) && k != (t, a))
      && (InRow(sum, to[k.0], k.1) ==> RecordOf(sum, to[k.0], k.1) == RecordOf(sum, rows[k.0], k.1))
  {
    if AddressKey(sum, k.1) == AddressKey(sum, a) { KeyInjective(sum, k.1, a); }
  }

  lemma DeleteRowsOk(sum: Checksum, rows: seq<Row>, t: nat, i: nat, key: string)
    requires RowsOk(sum, rows) && t < TYPES && i < SHARDS
    ensures RowsOk(sum, Delete(rows, t, i, key))
  {}

  lemma DeleteFlat(sum: Checksum, rows: seq<Row>, t: nat, a: Address)
    requires RowsOk(sum, rows) && t < TYPES
    ensures var to := Delete(rows, t, ShardIndex(a), AddressKey(sum, a));
      RowsOk(sum, to) && Flatten(sum, to) == Flatten(sum, rows) - {(t, a)}
  {
    DeleteRowsOk(sum, rows, t, ShardIndex(a), AddressKey(sum, a));
    var to := Delete(rows, t, ShardIndex(a), AddressKey(sum, a));
    var before, after := Flatten(sum, rows), Flatten(sum, to);
    forall k: Key
      ensures k in after <==> k in before && k != (t, a)
      ensures k in after ==> after[k] == before[k]
    {
      if k.0 < TYPES { DeleteAt(sum, rows, t, a, k); }
    }
  }

  // -------------------------------------------------------- the flat registry

  datatype Flat = Flat(at: imap<Key, Conn>, parent: Option<Conn>)

  /** The calls, with what each reads from the connection it is given. */
  datatype Op =
    | Add(c: Conn, k: Key, replace: bool)
    | Remove(c: Conn, k: Key)
    | AddParent(c: Conn)
    | HealthPass(alive: Conn -> bool)

  ghost function StepFlat(f: Flat, op: Op): Flat {
    match op
    case Add(c, k, replace) => if k in f.at && !replace then f else f.(at := f.at[k := c])
    case Remove(c, k) =>
      Flat(if k in f.at && f.at[k] == c then f.at - {k} else f.at, if f.parent == Some(c) then None else f.parent)
    case AddParent(c) => f.(parent := Some(c))
    case HealthPass(alive) => f.(at := imap k | k in f.at && alive(f.at[k]) :: f.at[k])
  }

  ghost function RunFlat(f: Flat, ops: seq<Op>): Flat
    decreases |ops|
  {
    if ops == [] then f else RunFlat(StepFlat(f, ops[0]), ops[1..])
  }

  /** A call that may take connection `c` out of slot `k`. */
  ghost predicate Evicts(op: Op, c: Conn, k: Key) {
    match op
    case Add(d, l, replace) => l == k && replace && d != c
    case Remove(d, l) => l == k && d == c
    case AddParent(_) => false
    case HealthPass(alive) => !alive(c)
  }

  /** A connection stays in its slot through any calls that do not replace, remove or
      find dead that very connection; so removing the one it replaced is harmless,
      and so is adding without `replace`. */
  lemma {:induction false} StaysUntilEvicted(f: Flat, ops: seq<Op>, c: Conn, k: Key)
    requires k in f.at && f.at[k] == c && forall i :: 0 <= i < |ops| ==> !Evicts(ops[i], c, k)
    ensures k in RunFlat(f, ops).at && RunFlat(f, ops).at[k] == c
    decreases |ops|
  {
    if ops == [] {
    } else {
      StaysUntilEvicted(StepFlat(f, ops[0]), ops[1..], c, k);
    }
  }

  /** Call `i` put connection `c` in slot `k`, and nothing since may have taken it out. */
  ghost predicate AddedLast(ops: seq<Op>, i: nat, c: Conn, k: Key) {
    && i < |ops| && ops[i].Add? && ops[i].c == c && ops[i].k == k
    && forall j :: i < j < |ops| ==> !Evicts(ops[j], c, k)
  }

  /** Conversely, what is in a slot was there before or was added by a call, and no
      call since could evict it. */
  lemma {:induction false} HeldSlotWasAdded(f: Flat, ops: seq<Op>, c: Conn, k: Key)
    requires k in RunFlat(f, ops).at && RunFlat(f, ops).at[k] == c
    ensures || (k in f.at && f.at[k] == c && forall j :: 0 <= j < |ops| ==> !Evicts(ops[j], c, k))
            || exists i :: AddedLast(ops, i, c, k)
    decreases |ops|
  {
    if ops == [] {
    } else {
      var g := StepFlat(f, ops[0]);
      HeldSlotWasAdded(g, ops[1..], c, k);
      if i :| AddedLast(ops[1..], i, c, k) {
        AddedLater(ops, i, c, k);
      } else if !(k in f.at && f.at[k] == c && !Evicts(ops[0], c, k)) {
        assert AddedLast(ops, 0, c, k);
      }
    }
  }

  lemma AddedLater(ops: seq<Op>, i: nat, c: Conn, k: Key)
    requires ops != [] && AddedLast(ops[1..], i, c, k)
    ensures AddedLast(ops, i + 1, c, k)
  {
    forall j | i + 1 < j < |ops| ensures !Evicts(ops[j], c, k) {
      assert ops[j] == ops[1..][j - 1];
    }
  }

  /** The parent is forgotten only by removing that same connection, or for another. */
  lemma {:induction false} ParentStays(f: Flat, ops: seq<Op>, c: Conn)
    requires f.parent == Some(c)
    requires forall i :: 0 <= i < |ops| ==> !(ops[i].Remove? && ops[i].c == c) && !(ops[i].AddParent? && ops[i].c != c)
    ensures RunFlat(f, ops).parent == Some(c)
    decreases |ops|
  {
    if ops == [] {
    } else {
      ParentStays(StepFlat(f, ops[0]), ops[1..], c);
    }
  }

  /** Removing a connection clears it from the whole registry exactly when the slot
      named by its own type and address was the only one that held it.  A type
      override or another address at registration leaves it behind. */
  lemma RemoveClears(f: Flat, c: Conn, k: Key)
    ensures (forall l :: l in StepFlat(f, Remove(c, k)).at ==> StepFlat(f, Remove(c, k)).at[l] != c)
      <==> (forall l :: l in f.at && f.at[l] == c ==> l == k)
  {
    var g := StepFlat(f, Remove(c, k));
    if l :| l in f.at && f.at[l] == c && l != k {
      assert l in g.at && g.at[l] == c;
    }
  }

  const EMPTY: Flat := Flat(imap[], None)

  lemma {:induction false} RunFlatSnoc(f: Flat, ops: seq<Op>, op: Op)
    ensures RunFlat(f, ops + [op]) == StepFlat(RunFlat(f, ops), op)
    decreases |ops|
  {
    if ops == [] {
      assert [op][1..] == [];
    } else {
      RunFlatSnoc(StepFlat(f, ops[0]), ops[1..], op);
      assert (ops + [op])[1..] == ops[1..] + [op];
    }
  }

  /** Call `i` put connection `c` in slot `k`, which was free, held `c` already or was to
      be replaced, and no call since could evict it. */
  ghost predicate Puts(ops: seq<Op>, i: nat, c: Conn, k: Key) {
    && AddedLast(ops, i, c, k)
    && var before := RunFlat(EMPTY, ops[..i]).at;
       ops[i].replace || k !in before || before[k] == c
  }

  /** Of a registry that was empty at first: a slot holds a connection exactly when some
      call put it there. */
  lemma {:induction false} HeldExactly(ops: seq<Op>, c: Conn, k: Key)
    ensures k in RunFlat(EMPTY, ops).at && RunFlat(EMPTY, ops).at[k] == c <==> exists i :: Puts(ops, i, c, k)
    decreases |ops|
  {
    if ops == [] {
    } else {
      var n := |ops| - 1;
      var init, op := ops[..n], ops[n];
      assert ops == init + [op];
      RunFlatSnoc(EMPTY, init, op);
      HeldExactly(init, c, k);
      forall i: nat | i < n ensures Puts(ops, i, c, k) <==> Puts(init, i, c, k) && !Evicts(op, c, k) {
        assert init[..i] == ops[..i];
      }
      if i :| Puts(init, i, c, k) {
        assert !Evicts(op, c, k) ==> Puts(ops, i, c, k);
      }
      if i :| Puts(ops, i, c, k) {
        assert i == n || Puts(init, i, c, k);
      }
      if op.Add? && op.c == c && op.k == k && Puts(ops, n, c, k) {
        assert k in StepFlat(RunFlat(EMPTY, init), op).at;
      }
    }
  }

  /** So, after any calls, removing a connection clears it from the registry exactly when
      no call put it, to stay, in a slot other than that of its own type and address. */
  lemma RemoveClearsAfter(ops: seq<Op>, c: Conn, k: Key)
    ensures var at := RunFlat(EMPTY, ops + [Remove(c, k)]).at;
      (forall l :: l in at ==> at[l] != c) <==> (forall i, l :: Puts(ops, i, c, l) ==> l == k)
  {
    RunFlatSnoc(EMPTY, ops, Remove(c, k));
    var f := RunFlat(EMPTY, ops);
    RemoveClears(f, c, k);
    forall l ensures l in f.at && f.at[l] == c <==> exists i :: Puts(ops, i, c, l) { HeldExactly(ops, c, l); }
    if !(forall i, l :: Puts(ops, i, c, l) ==> l == k) {
      var i, l :| Puts(ops, i, c, l) && l != k;
      assert l in f.at && f.at[l] == c;
    }
  }

  /** In particular when every call that added it used its own type and address. */
  lemma OwnSlotIsCleared(ops: seq<Op>, c: Conn, k: Key)
    requires forall i :: 0 <= i < |ops| && ops[i].Add? && ops[i].c == c ==> ops[i].k == k
    ensures var at := RunFlat(EMPTY, ops + [Remove(c, k)]).at; forall l :: l in at ==> at[l] != c
  {
    RemoveClearsAfter(ops, c, k);
  }

  /** A client connection registered under the type of a node is left behind. */
  lemma OverrideLeavesBehind(c: Conn, a: Address)
    ensures var at := RunFlat(EMPTY, [Add(c, (TypeIndex("node"), a), true), Remove(c, (TypeIndex("client"), a))]).at;
      (2, a) in at && at[(2, a)] == c
  {
    var ops := [Add(c, (TypeIndex("node"), a), true)];
    RunFlatSnoc(EMPTY, [], ops[0]);
    assert [] + [ops[0]] == ops;
    RunFlatSnoc(EMPTY, ops, Remove(c, (TypeIndex("client"), a)));
    assert ops + [Remove(c, (TypeIndex("client"), a))] ==
        [Add(c, (TypeIndex("node"), a), true), Remove(c, (TypeIndex("client"), a))];
  }

  // --------------------------------------------------------- counting a row

  ghost function ShardAddresses(shard: Shard): set<Address> {
    set key | key in shard :: shard[key].address
  }

  ghost function RowAddresses(row: Row): set<Address> {
    if row == [] then {} else RowAddresses(row[..|row| - 1]) + ShardAddresses(row[|row| - 1])
  }

  lemma {:induction false} ShardCount(sum: Checksum, shard: Shard)
    requires forall key :: key in shard ==> key == AddressKey(sum, shard[key].address)
    ensures |ShardAddresses(shard)| == |shard|
    decreases |shard|
  {
    if shard == map[] {
      assert ShardAddresses(shard) == {};
    } else {
      var key :| key in shard;
      var less := shard - {key};
      ShardCount(sum, less);
      forall a ensures a in ShardAddresses(shard) <==> a in ShardAddresses(less) + {shard[key].address} {
        if a in ShardAddresses(shard) {
          var other :| other in shard && shard[other].address == a;
          assert other == key || other in less;
        }
      }
      assert ShardAddresses(shard) == ShardAddresses(less) + {shard[key].address};
      assert shard[key].address !in ShardAddresses(less);
      assert shard.Keys == less.Keys + {key};
    }
  }

  /** The addresses of the first `n` shards are those registered with a shard index
      below `n`. */
  lemma {:induction false} RowAddressesMeaning(sum: Checksum, row: Row, n: nat, a: Address)
    requires RowOk(sum, row) && n <= SHARDS
    ensures a in RowAddresses(row[..n]) <==> InRow(sum, row, a) && ShardIndex(a) < n
  {
    if n == 0 {
    } else {
      RowAddressesMeaning(sum, row, n - 1, a);
      assert row[..n][..n - 1] == row[..n - 1];
      if a in ShardAddresses(row[n - 1]) {
        var key :| key in row[n - 1] && row[n - 1][key].address == a;
        assert key == AddressKey(sum, a);
      }
      if InRow(sum, row, a) && ShardIndex(a) == n - 1 {
        assert row[n - 1][AddressKey(sum, a)].address == a by {
          KeyInjective(sum, row[n - 1][AddressKey(sum, a)].address, a);
        }
      }
    }
  }

  /** From `was` to `now` exactly the dead entries in `scope` have gone. */
  ghost predicate Pruned(was: imap<Key, Conn>, now: imap<Key, Conn>, scope: iset<Key>, alive: Conn -> bool) {
    && (forall k :: k in now <==> k in was && (k !in scope || alive(was[k])))
    && (forall k :: k in now ==> now[k] == was[k])
  }

  lemma PruneMore(was: imap<Key, Conn>, mid: imap<Key, Conn>, now: imap<Key, Conn>,
                  done: iset<Key>, next: iset<Key>, both: iset<Key>, alive: Conn -> bool)
    requires Pruned(was, mid, done, alive) && Pruned(mid, now, next, alive)
    requires forall k :: k in both <==> k in done || k in next
    ensures Pruned(was, now, both, alive)
  {}

  ghost function RowScope(t: nat): iset<Key> {
    iset k: Key | k.0 == t
  }

  ghost function RowsScope(t: nat): iset<Key> {
    iset k: Key | k.0 < t
  }

  ghost function ShardScope(t: nat, i: nat): iset<Key> {
    iset k: Key | k.0 == t && ShardIndex(k.1) == i
  }

  ghost function ShardsScope(t: nat, i: nat): iset<Key> {
    iset k: Key | k.0 == t && ShardIndex(k.1) < i
  }

  /** The part of a shard whose keys are no longer to be visited. */
  ghost function Visited(sum: Checksum, t: nat, i: nat, todo: set<string>): iset<Key> {
    iset k: Key | k.0 == t && ShardIndex(k.1) == i && AddressKey(sum, k.1) !in todo
  }

  lemma VisitEntry(sum: Checksum, was: imap<Key, Conn>, now: imap<Key, Conn>, next: imap<Key, Conn>,
                   t: nat, a: Address, todo: set<string>, alive: Conn -> bool)
    requires Pruned(was, now, Visited(sum, t, ShardIndex(a), todo), alive) && (t, a) in now
    requires forall b :: AddressKey(sum, b) == AddressKey(sum, a) ==> b == a
    requires next == if alive(now[(t, a)]) then now else now - {(t, a)}
    ensures Pruned(was, next, Visited(sum, t, ShardIndex(a), todo - {AddressKey(sum, a)}), alive)
  {
    var before, after := Visited(sum, t, ShardIndex(a), todo),
        Visited(sum, t, ShardIndex(a), todo - {AddressKey(sum, a)});
    forall k: Key ensures k in after <==> k in before || k == (t, a) {}
  }

  class ConnectionsManager {
    const sum: Checksum
    var rows: seq<Row>
    var parent: Option<Conn>

    ghost predicate Valid()
      reads this
    {
      RowsOk(sum, rows)
    }

    ghost function View(): Flat
      requires Valid()
      reads this
    {
      Flat(Flatten(sum, rows), parent)
    }

    constructor (sum: Checksum)
      ensures Valid() && View() == Flat(imap[], None)
    {
      this.sum := sum;
      rows := seq(TYPES, _ => seq(SHARDS, _ => map[]));
      parent := None;
    }

    method ConnectionByTypeAndAddress(t: int, a: Address) returns (r: Option<Conn>)
      requires Valid()
      ensures r == if t >= 0 && (t, a) in View().at then Some(View().at[(t, a)]) else None
    {
      if t < 0 || t >= TYPES {
        return None;
      }
      var shard := rows[t][ShardIndex(a)];
      var key := AddressKey(sum, a);
      if key in shard {
        return Some(shard[key].conn);
      }
      return None;
    }

    /** All connections of a type: exactly the part of the flat map in that row. */
    method ConnectionsByType(t: int) returns (full: map<Address, Conn>)
      requires Valid()
      ensures forall a :: a in full <==> t >= 0 && (t, a) in View().at
      ensures forall a :: a in full ==> t >= 0 && full[a] == View().at[(t, a)]
    {
      full := map[];
      if t < 0 || t >= TYPES {
        return;
      }
      var row := rows[t];
      for i := 0 to SHARDS
        invariant forall a :: a in full <==> InRow(sum, row, a) && ShardIndex(a) < i
        invariant forall a :: a in full ==> full[a] == RecordOf(sum, row, a).conn
      {
        full := AddShard(row, i, full);
      }
    }

    method AddShard(row: Row, i: nat, before: map<Address, Conn>) returns (full: map<Address, Conn>)
      requires RowOk(sum, row) && i < SHARDS
      requires forall a :: a in before <==> InRow(sum, row, a) && ShardIndex(a) < i
      requires forall a :: a in before ==> before[a] == RecordOf(sum, row, a).conn
      ensures forall a :: a in full <==> InRow(sum, row, a) && ShardIndex(a) < i + 1
      ensures forall a :: a in full ==> full[a] == RecordOf(sum, row, a).conn
    {
      full := before;
      var todo := row[i].Keys;
      while todo != {}
        invariant todo <= row[i].Keys
        invariant forall a :: a in full <==>
          InRow(sum, row, a) && (ShardIndex(a) < i || (ShardIndex(a) == i && AddressKey(sum, a) !in todo))
        invariant forall a :: a in full ==> full[a] == RecordOf(sum, row, a).conn
        decreases todo
      {
        var key :| key in todo;
        var r := row[i][key];
        full := full[r.address := r.conn];
        todo := todo - {key};
        forall a | AddressKey(sum, a) == key ensures a == r.address { KeyInjective(sum, a, r.address); }
      }
    }

    /** The number of connections of a type is the number of addresses in its row. */
    method CountByType(t: int) returns (total: nat)
      requires Valid()
      ensures 0 <= t < TYPES ==> total == |RowAddresses(rows[t])|
      ensures 0 <= t < TYPES ==> forall a :: a in RowAddresses(rows[t]) <==> (t, a) in View().at
      ensures !(0 <= t < TYPES) ==> total == 0
    {
      total := 0;
      if t < 0 || t >= TYPES {
        return;
      }
      var row := rows[t];
      for i := 0 to SHARDS
        invariant total == |RowAddresses(row[..i])|
      {
        total := total + |row[i]|;
        assert row[..i + 1][..i] == row[..i];
        ShardCount(sum, row[i]);
        forall a | a in RowAddresses(row[..i]) ensures a !in ShardAddresses(row[i]) {
          RowAddressesMeaning(sum, row, i, a);
        }
      }
      assert row[..SHARDS] == row;
      forall a ensures a in RowAddresses(row) <==> InRow(sum, row, a) { RowAddressesMeaning(sum, row, SHARDS, a); }
    }

    /** `conn` is nil or a connection whose own type is `ownType`.  The connection it
        replaces, if it is another and still up, is handed back to be disconnected. */
    method AddConnection(conn: Option<Conn>, a: Address, replace: bool, override: string, ownType: string,
            up: Conn -> bool)
      returns (replaced: Option<Conn>)
      requires Valid()
      modifies this`rows
      ensures Valid()
      ensures var k: Key := (TypeIndex(if override == "" then ownType else override), a);
        && View() == (if conn.None? then old(View()) else StepFlat(old(View()), Add(conn.value, k, replace)))
        && replaced == (if conn.Some? && replace && k in old(View()).at && old(View()).at[k] != conn.value &&
            up(old(View()).at[k])
                        then Some(old(View()).at[k]) else None)
    {
      replaced := None;
      if conn.None? {
        return;
      }
      var t := TypeIndex(if override == "" then ownType else override);
      var shard := rows[t][ShardIndex(a)];
      var key := AddressKey(sum, a);
      assert (t, a) in View().at <==> key in shard;
      if key in shard && !replace {
        return;
      }
      if replace && key in shard && shard[key].conn != conn.value && up(shard[key].conn) {
        replaced := Some(shard[key].conn);
      }
      PutFlat(sum, rows, t, Record(a, conn.value));
      rows := Put(sum, rows, t, Record(a, conn.value));
    }

    /** Takes the connection out of the slot of its own address and type if it is the
        one there. */
    method RemoveConnection(conn: Option<Conn>, a: Address, ownType: string)
      requires Valid()
      modifies this
      ensures Valid()
      ensures View() == if conn.None? then old(View())
                        else StepFlat(old(View()), Remove(conn.value, (TypeIndex(ownType), a)))
    {
      if conn.None? {
        return;
      }
      var t := TypeIndex(ownType);
      var shard := rows[t][ShardIndex(a)];
      var key := AddressKey(sum, a);
      assert (t, a) in View().at <==> key in shard;
      if key in shard && shard[key].conn == conn.value {
        DeleteFlat(sum, rows, t, a);
        rows := Delete(rows, t, ShardIndex(a), key);
      }
      if parent == conn {
        parent := None;
      }
    }

    method AddParentConnection(conn: Option<Conn>)
      requires Valid()
      modifies this`parent
      ensures Valid()
      ensures View() == if conn.None? then old(View()) else StepFlat(old(View()), AddParent(conn.value))
    {
      if conn.Some? {
        parent := conn;
      }
    }

    /** One pass over every shard; deletes exactly the entries whose connection is
        down. */
    method HealthCheck(alive: Conn -> bool)
      requires Valid()
      modifies this`rows
      ensures Valid() && View() == StepFlat(old(View()), HealthPass(alive))
    {
      ghost var was := View().at;
      for t := 0 to TYPES
        invariant Valid() && Pruned(was, View().at, RowsScope(t), alive)
      {
        ghost var mid := View().at;
        CheckRow(t, alive);
        PruneMore(was, mid, View().at, RowsScope(t), RowScope(t), RowsScope(t + 1), alive);
      }
      assert forall k :: k in was ==> k in RowsScope(TYPES);
    }

    method CheckRow(t: nat, alive: Conn -> bool)
      requires Valid() && t < TYPES
      modifies this`rows
      ensures Valid() && Pruned(old(View()).at, View().at, RowScope(t), alive)
    {
      ghost var was := View().at;
      for i := 0 to SHARDS
        invariant Valid() && Pruned(was, View().at, ShardsScope(t, i), alive)
      {
        ghost var mid := View().at;
        CheckShard(t, i, alive);
        PruneMore(was, mid, View().at, ShardsScope(t, i), ShardScope(t, i), ShardsScope(t, i + 1), alive);
      }
    }

    method CheckShard(t: nat, i: nat, alive: Conn -> bool)
      requires Valid() && t < TYPES && i < SHARDS
      modifies this`rows
      ensures Valid() && Pruned(old(View()).at, View().at, ShardScope(t, i), alive)
    {
      var todo := rows[t][i].Keys;
      ghost var was := View().at;
      while todo != {}
        invariant Valid() && todo <= rows[t][i].Keys
        invariant Pruned(was, View().at, Visited(sum, t, i, todo), alive)
        decreases todo
      {
        var key :| key in todo;
        CheckEntry(t, i, key, alive, was, todo);
        todo := todo - {key};
      }
      assert forall k :: k in was && k in ShardScope(t, i) ==> AddressKey(sum, k.1) !in todo;
    }

    method CheckEntry(t: nat, i: nat, key: string, alive: Conn -> bool, ghost was: imap<Key, Conn>,
            ghost todo: set<string>)
      requires Valid() && t < TYPES && i < SHARDS && key in todo && todo <= rows[t][i].Keys
      requires Pruned(was, View().at, Visited(sum, t, i, todo), alive)
      modifies this`rows
      ensures Valid() && todo - {key} <= rows[t][i].Keys
      ensures Pruned(was, View().at, Visited(sum, t, i, todo - {key}), alive)
    {
      var r := rows[t][i][key];
      ghost var now := View().at;
      assert (t, r.address) in now && now[(t, r.address)] == r.conn;
      if !alive(r.conn) {
        DeleteFlat(sum, rows, t, r.address);
        rows := Delete(rows, t, i, key);
      }
      forall a | AddressKey(sum, a) == key ensures a == r.address { KeyInjective(sum, a, r.address); }
      VisitEntry(sum, was, now, View().at, t, r.address, todo, alive);
    }
  }
}
