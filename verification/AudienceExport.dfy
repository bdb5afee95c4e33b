/** The export of active subscribers in batches: for any batch size it is the plain scan in order. */
module AudienceExport {
  import opened Common

  /** Identifiers in the order of the database; 0 stands for the empty one, which sorts first and is skipped. */
  type UserId = nat

  datatype Row = Row(user: UserId, active: bool, expiresAt: Option<int>)

  predicate Listed(row: Row, asOf: int) {
    row.active && (row.expiresAt.None? || row.expiresAt.value > asOf)
  }

  predicate Ascending(users: seq<UserId>) {
    forall i, j | 0 <= i < j < |users| :: users[i] < users[j]
  }

  predicate Indexed(table: seq<Row>) {
    forall i, j | 0 <= i < j < |table| :: table[i].user < table[j].user
  }

  /** The one-shot query: the listed users in order. */
  function Scan(table: seq<Row>, asOf: int): (users: seq<UserId>)
    ensures forall u | u in users :: exists row | row in table :: row.user == u && Listed(row, asOf)
    ensures forall row | row in table && Listed(row, asOf) :: row.user in users
  {
    if table == [] then []
    else
      var (before, row) := (table[..|table| - 1], table[|table| - 1]);
      if Listed(row, asOf) then Scan(before, asOf) + [row.user] else Scan(before, asOf)
  }

  lemma {:induction false} ScanIsInOrder(table: seq<Row>, asOf: int)
    requires Indexed(table)
    ensures Ascending(Scan(table, asOf))
  {
    if table != [] {
      var before := table[..|table| - 1];
      ScanIsInOrder(before, asOf);
      var users := Scan(before, asOf);
      forall i | 0 <= i < |users| ensures users[i] < table[|table| - 1].user {
        assert users[i] in users;
      }
    }
  }

  function Above(users: seq<UserId>, cursor: UserId): seq<UserId> {
    if users == [] then []
    else if users[0] > cursor then [users[0]] + Above(users[1..], cursor)
    else Above(users[1..], cursor)
  }

  /** One batch query: without a cursor from the start, otherwise above it, and cut at the limit. */
  function Batch(users: seq<UserId>, cursor: Option<UserId>, limit: nat): seq<UserId> {
    var rest := if cursor.None? then users else Above(users, cursor.value);
    if |rest| <= limit then rest else rest[..limit]
  }

  function Named(users: seq<UserId>): seq<UserId> {
    if users == [] then []
    else Named(users[..|users| - 1]) + (if users[|users| - 1] == 0 then [] else [users[|users| - 1]])
  }

  lemma {:induction false} AboveIsSuffix(users: seq<UserId>, k: nat)
    requires Ascending(users) && 0 < k <= |users|
    ensures Above(users, users[k - 1]) == users[k..]
  {
    if k == 1 {
      AboveAll(users[1..], users[0]);
    } else {
      AboveIsSuffix(users[1..], k - 1);
      assert users[1..][k - 2] == users[k - 1] && users[1..][k - 1..] == users[k..];
    }
  }

  lemma {:induction false} AboveAll(users: seq<UserId>, cursor: UserId)
    requires forall i | 0 <= i < |users| :: users[i] > cursor
    ensures Above(users, cursor) == users
  {
    if users != [] {
      AboveAll(users[1..], cursor);
    }
  }

  lemma {:induction false} NamedAre(users: seq<UserId>)
    requires Ascending(users)
    ensures Named(users) == if users != [] && users[0] == 0 then users[1..] else users
  {
    if users != [] {
      NamedAre(users[..|users| - 1]);
    }
  }

  /** Where the cursor stands after a batch: at its last named user. */
  function CursorAfter(rows: seq<UserId>, from: Option<UserId>): Option<UserId> {
    if rows != [] && rows[|rows| - 1] != 0 then Some(rows[|rows| - 1]) else from
  }

  /** The loop goes on after a first batch without having moved its cursor, and so repeats that batch for ever. */
  predicate Stalls(users: seq<UserId>, batchSize: nat) {
    var rows := Batch(users, None, batchSize);
    && rows != [] && |rows| >= batchSize && CursorAfter(rows, None) == None
    && Batch(users, CursorAfter(rows, None), batchSize) == rows
  }

  /** The loop stalls exactly when single batches meet the empty identifier. */
  lemma EmptyIdentifierStallsSingleBatches(users: seq<UserId>, batchSize: nat)
    requires Ascending(users) && batchSize >= 1
    ensures Stalls(users, batchSize) <==> batchSize == 1 && 0 in users
  {
    var rows := Batch(users, None, batchSize);
    if rows != [] && |rows| >= batchSize {
      assert rows[|rows| - 1] == users[batchSize - 1];
      assert batchSize > 1 ==> users[0] < users[batchSize - 1];
      assert 0 in users ==> users[0] == 0;
    }
  }

  lemma {:induction false} NamedOfBoth(a: seq<UserId>, b: seq<UserId>)
    ensures Named(a + b) == Named(a) + Named(b)
  {
    if b == [] {
      assert a + b == a;
    } else {
      NamedOfBoth(a, b[..|b| - 1]);
      assert (a + b)[..|a + b| - 1] == a + b[..|b| - 1];
    }
  }

  /** Writes the rows of one batch and moves the cursor along. */
  method Emit(rows: seq<UserId>, from: Option<UserId>) returns (written: seq<UserId>, cursor: Option<UserId>)
    requires Ascending(rows) && forall u | u in rows :: from != Some(u)
    ensures written == Named(rows)
    ensures cursor == CursorAfter(rows, from)
  {
    written, cursor := [], from;
    for i := 0 to |rows|
      invariant written == Named(rows[..i])
      invariant cursor == if i > 0 && rows[i - 1] != 0 then Some(rows[i - 1]) else from
    {
      assert rows[..i + 1][..i] == rows[..i];
      if rows[i] == 0 || Some(rows[i]) == cursor {
        continue;
      }
      written := written + [rows[i]];
      cursor := Some(rows[i]);
    }
    assert rows[..|rows|] == rows;
  }

  /** The next batch is the next part of the scan. */
  lemma BatchIsNext(users: seq<UserId>, k: nat, limit: nat)
    requires Ascending(users) && k <= |users|
    ensures var rows := Batch(users, if k == 0 then None else Some(users[k - 1]), limit);
            && k + |rows| <= |users| && rows == users[k..k + |rows|] && (|rows| < limit ==> k + |rows| == |users|)
            && (limit > 0 && k < |users| ==> rows != [])
  {
    if k > 0 {
      AboveIsSuffix(users, k);
    }
  }

  lemma PartsAreInOrder(users: seq<UserId>, k: nat, m: nat)
    requires Ascending(users) && k <= m <= |users|
    ensures Ascending(users[k..m]) && (k > 0 ==> forall u | u in users[k..m] :: u != users[k - 1])
    ensures m > 0 && users[m - 1] == 0 ==> m == 1
  {
    if m > 1 {
      assert users[0] < users[m - 1];
    }
  }

  lemma NamedSoFar(users: seq<UserId>, k: nat, m: nat)
    requires k <= m <= |users|
    ensures Named(users[..m]) == Named(users[..k]) + Named(users[k..m])
  {
    hide Named;
    assert users[..m] == users[..k] + users[k..m];
    NamedOfBoth(users[..k], users[k..m]);
  }

  /** In order, and the same users but for the empty one. */
  predicate Complete(emitted: seq<UserId>, users: seq<UserId>) {
    && Ascending(emitted) && (forall u | u in emitted :: u != 0 && u in users) && (forall u | u in users && u != 0 :: u in emitted)
  }

  lemma NamedAreInOrder(users: seq<UserId>)
    requires Ascending(users)
    ensures Complete(Named(users), users)
  {
    hide Named;
    NamedAre(users);
    if users != [] && users[0] == 0 {
      forall u | u in users && u != 0 ensures u in users[1..] {
        var i :| 0 <= i < |users| && users[i] == u;
        assert users[1..][i - 1] == u;
      }
    }
  }

  /**
   * The cursor loop. It ends for every batch size, unless single batches meet the empty identifier,
   * and it emits every listed user once, in order.
   */
  method Export(table: seq<Row>, asOf: int, batchSize: nat) returns (emitted: seq<UserId>, total: nat)
    requires Indexed(table) && batchSize >= 1
    requires batchSize == 1 ==> 0 !in Scan(table, asOf)
    ensures emitted == Named(Scan(table, asOf)) && total == |emitted|
    ensures Complete(emitted, Scan(table, asOf))
  {
    hide Scan, Batch, Named, Ascending, Complete, Indexed;
    var users := Scan(table, asOf);
    ScanIsInOrder(table, asOf);
    emitted, total := [], 0;
    var cursor: Option<UserId> := None;
    ghost var k := 0;
    assert Named(users[..0]) == [] by { NamedAre(users[..0]); }
    while true
      invariant 0 <= k <= |users| && emitted == Named(users[..k]) && total == |emitted|
      invariant cursor == if k == 0 then None else Some(users[k - 1])
      decreases |users| - k
    {
      BatchIsNext(users, k, batchSize);
      var rows := Batch(users, cursor, batchSize);
      if rows == [] {
        break;
      }
      PartsAreInOrder(users, k, k + |rows|);
      var written, next := Emit(rows, cursor);
      NamedSoFar(users, k, k + |rows|);
      emitted, total, cursor, k := emitted + written, total + |written|, next, k + |rows|;
      if |rows| < batchSize {
        break;
      }
    }
    assert users[..k] == users;
    NamedAreInOrder(users);
  }
}
