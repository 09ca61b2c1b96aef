/** Collecting rows while scrolling (`collectAXByScrolling` in extension/executor.mjs). */
module Scrolling {
  import opened Common
  import opened CanonicalJson
  import opened ExecutorModel
  import Capture = RequestCapture

  /** An extracted row: its fields in declared order. */
  type Row = Members

  /** What one accessibility node yields: a row, or the error its extraction throws. */
  type Match = Result<Row, Code>

  datatype Request = Request(dedupeFields: seq<string>, maxItems: nat, maxScrolls: nat, stableRounds: nat)

  // ----- identity of rows

  function ValueOf(row: Row, field: string): Json {
    var v := Lookup(row, field);
    if v.Some? then v.value else Null
  }

  function Values(row: Row, fields: seq<string>): Items {
    if fields == [] then NoItems else Item(ValueOf(row, fields[0]), Values(row, fields[1..]))
  }

  /** `JSON.stringify` of the values of the dedupe fields. */
  function Identity(row: Row, fields: seq<string>): string {
    Print(Arr(Values(row, fields)))
  }

  predicate SameItem(a: Row, b: Row, fields: seq<string>) {
    forall f | f in fields :: ValueOf(a, f) == ValueOf(b, f)
  }

  lemma {:induction false} ValuesIff(a: Row, b: Row, fields: seq<string>)
    ensures Values(a, fields) == Values(b, fields) <==> SameItem(a, b, fields)
    decreases |fields|
  {
    if fields != [] {
      ValuesIff(a, b, fields[1..]);
      assert fields == [fields[0]] + fields[1..];
    }
  }

  /** Rows have one identity exactly when they agree on every dedupe field. */
  lemma IdentityIff(a: Row, b: Row, fields: seq<string>)
    ensures Identity(a, fields) == Identity(b, fields) <==> SameItem(a, b, fields)
  {
    ValuesIff(a, b, fields);
    if Identity(a, fields) == Identity(b, fields) {
      PrintInjective(Arr(Values(a, fields)), Arr(Values(b, fields)));
    }
  }

  // ----- first occurrences

  predicate NewIn(row: Row, before: seq<Row>, fields: seq<string>) {
    forall i | 0 <= i < |before| :: !SameItem(before[i], row, fields)
  }

  /** The rows that agree with no earlier one, in order. */
  function Dedupe(rows: seq<Row>, fields: seq<string>): seq<Row> {
    if rows == [] then []
    else
      var front, last := rows[..|rows| - 1], rows[|rows| - 1];
      Dedupe(front, fields) + if NewIn(last, front, fields) then [last] else []
  }

  function Take(rows: seq<Row>, n: nat): seq<Row> {
    if |rows| <= n then rows else rows[..n]
  }

  function Rows(matches: seq<Match>): seq<Row> {
    if matches == [] then []
    else Rows(matches[..|matches| - 1]) + if matches[|matches| - 1].Ok? then [matches[|matches| - 1].value] else []
  }

  function AllRows(rounds: seq<seq<Match>>): seq<Row> {
    if rounds == [] then [] else AllRows(rounds[..|rounds| - 1]) + Rows(rounds[|rounds| - 1])
  }

  lemma {:induction false} DedupeGrows(a: seq<Row>, b: seq<Row>, fields: seq<string>)
    ensures Dedupe(a, fields) <= Dedupe(a + b, fields)
    decreases |b|
  {
    if b == [] {
      assert a + b == a;
    } else {
      DedupeGrows(a, b[..|b| - 1], fields);
      assert (a + b)[..|a + b| - 1] == a + b[..|b| - 1];
    }
  }

  lemma {:induction false} RowsGrow(matches: seq<Match>, k: nat)
    requires k <= |matches|
    ensures Rows(matches[..k]) <= Rows(matches)
    decreases |matches|
  {
    if k < |matches| {
      RowsGrow(matches[..|matches| - 1], k);
      assert matches[..|matches| - 1][..k] == matches[..k];
    } else {
      assert matches[..k] == matches;
    }
  }

  // ----- the running byte count

  function SumBytes(rows: seq<Row>): nat {
    if rows == [] then 0 else SumBytes(rows[..|rows| - 1]) + RowBytes(rows[|rows| - 1])
  }

  /** One row and a comma. */
  function RowBytes(row: Row): nat {
    Capture.Utf8Bytes(Print(Obj(row))) + 1
  }

  function ArrayOf(rows: seq<Row>): Items {
    if rows == [] then NoItems else Item(Obj(rows[0]), ArrayOf(rows[1..]))
  }

  function ArrayBytes(rows: seq<Row>): nat {
    Capture.Utf8Bytes(Print(Arr(ArrayOf(rows))))
  }

  lemma {:induction false} SumFromFront(rows: seq<Row>)
    requires rows != []
    ensures SumBytes(rows) == RowBytes(rows[0]) + SumBytes(rows[1..])
    decreases |rows|
  {
    if |rows| > 1 {
      SumFromFront(rows[..|rows| - 1]);
      assert rows[1..][..|rows| - 2] == rows[..|rows| - 1][1..];
    } else {
      assert rows[..0] == [] && rows[1..] == [];
    }
  }

  lemma {:induction false} ItemsBytes(rows: seq<Row>)
    ensures Capture.Utf8Bytes(PrintItems(ArrayOf(rows))) == SumBytes(rows) + 1
    decreases |rows|
  {
    if rows == [] {
      Capture.Ascii("]");
    } else {
      ItemsBytes(rows[1..]);
      SumFromFront(rows);
      var head := Print(Obj(rows[0]));
      Capture.Utf8Concat("," + head, PrintItems(ArrayOf(rows[1..])));
      Capture.Utf8Concat(",", head);
      Capture.Ascii(",");
    }
  }

  /** The count kept by the loop is the encoded size of the array, plus one once there is a row. */
  lemma CountIsSize(rows: seq<Row>)
    ensures 2 + SumBytes(rows) == ArrayBytes(rows) + if rows == [] then 0 else 1
  {
    Capture.Utf8Concat("[", PrintArr(ArrayOf(rows)));
    Capture.Ascii("[");
    if rows == [] {
      Capture.Ascii("]");
    } else {
      ItemsBytes(rows[1..]);
      SumFromFront(rows);
      Capture.Utf8Concat(Print(Obj(rows[0])), PrintItems(ArrayOf(rows[1..])));
    }
  }

  // ----- the loops

  datatype Failure = Browser(code: Code) | TooLarge

  /** `rows`, `seen` and `bytes` after all of `flat` was looked at. */
  ghost predicate Tracks(q: Request, flat: seq<Row>, rows: seq<Row>, seen: set<string>, bytes: nat) {
    rows == Dedupe(flat, q.dedupeFields) && bytes == 2 + SumBytes(rows) && bytes <= MAX_PRIVATE_RESULTS_BYTES &&
    seen == set row | row in flat :: Identity(row, q.dedupeFields)
  }

  lemma SeenIff(q: Request, flat: seq<Row>, rows: seq<Row>, seen: set<string>, bytes: nat, row: Row)
    requires Tracks(q, flat, rows, seen, bytes)
    ensures Identity(row, q.dedupeFields) in seen <==> !NewIn(row, flat, q.dedupeFields)
  {
    forall i | 0 <= i < |flat|
      ensures Identity(flat[i], q.dedupeFields) == Identity(row, q.dedupeFields) <==>
              SameItem(flat[i], row, q.dedupeFields)
    {
      IdentityIff(flat[i], row, q.dedupeFields);
    }
    if Identity(row, q.dedupeFields) in seen {
      var other :| other in flat && Identity(other, q.dedupeFields) == Identity(row, q.dedupeFields);
      var i :| 0 <= i < |flat| && flat[i] == other;
    }
    if !NewIn(row, flat, q.dedupeFields) {
      var i :| 0 <= i < |flat| && SameItem(flat[i], row, q.dedupeFields);
      assert flat[i] in flat;
    }
  }

  lemma TracksOld(q: Request, flat: seq<Row>, rows: seq<Row>, seen: set<string>, bytes: nat, row: Row)
    requires Tracks(q, flat, rows, seen, bytes) && Identity(row, q.dedupeFields) in seen
    ensures Tracks(q, flat + [row], rows, seen, bytes)
  {
    SeenIff(q, flat, rows, seen, bytes, row);
    SeenSnoc(flat, row, q.dedupeFields);
    assert (flat + [row])[..|flat|] == flat;
    assert seen + {Identity(row, q.dedupeFields)} == seen;
  }

  lemma TracksNew(q: Request, flat: seq<Row>, rows: seq<Row>, seen: set<string>, bytes: nat, row: Row)
    requires Tracks(q, flat, rows, seen, bytes) && Identity(row, q.dedupeFields) !in seen
    ensures Dedupe(flat + [row], q.dedupeFields) == rows + [row]
    ensures SumBytes(rows + [row]) == SumBytes(rows) + RowBytes(row)
    ensures bytes + RowBytes(row) <= MAX_PRIVATE_RESULTS_BYTES ==>
              Tracks(q, flat + [row], rows + [row], seen + {Identity(row, q.dedupeFields)}, bytes + RowBytes(row))
  {
    SeenIff(q, flat, rows, seen, bytes, row);
    SeenSnoc(flat, row, q.dedupeFields);
    assert (flat + [row])[..|flat|] == flat && (rows + [row])[..|rows|] == rows;
  }

  lemma SeenSnoc(flat: seq<Row>, row: Row, fields: seq<string>)
    ensures (set r | r in flat + [row] :: Identity(r, fields)) ==
            (set r | r in flat :: Identity(r, fields)) + {Identity(row, fields)}
  {
    var longer := flat + [row];
    assert longer[|flat|] == row;
    forall r | r in flat
      ensures r in longer
    {
    }
  }

  datatype Batch = Batch(rows: seq<Row>, seen: set<string>, bytes: nat, added: nat)

  /** The first `n` matches all gave a row, and these are the rows. */
  predicate Looked(matches: seq<Match>, n: nat, looked: seq<Row>) {
    n <= |matches| && |looked| == n && forall i | 0 <= i < n :: matches[i] == Ok(looked[i])
  }

  lemma {:induction false} LookedRows(matches: seq<Match>, n: nat, looked: seq<Row>)
    requires Looked(matches, n, looked)
    ensures Rows(matches[..n]) == looked
    decreases n
  {
    if n > 0 {
      LookedRows(matches, n - 1, looked[..n - 1]);
      TakeOneMore(matches, n - 1);
      TakeOneMore(looked, n - 1);
      assert matches[..n][..n - 1] == matches[..n - 1] && looked[..n] == looked;
    }
  }

  lemma LookedPrefix(matches: seq<Match>, n: nat, looked: seq<Row>)
    requires Looked(matches, n, looked)
    ensures looked <= Rows(matches) && (n == |matches| ==> looked == Rows(matches))
  {
    LookedRows(matches, n, looked);
    RowsGrow(matches, n);
    assert n == |matches| ==> matches[..n] == matches;
  }

  /** The rows of one observation, up to the limit; a match that gave none ends the collection with its error. */
  method AddMatches(
      q: Request, matches: seq<Match>, ghost flat: seq<Row>, rows: seq<Row>, seen: set<string>, bytes: nat)
    returns (r: Result<Batch, Failure>, looked: seq<Row>)
    requires Tracks(q, flat, rows, seen, bytes) && |rows| < q.maxItems
    ensures Looked(matches, |looked|, looked) && looked <= Rows(matches)
    ensures r.Ok? ==>
              Tracks(q, flat + looked, r.value.rows, r.value.seen, r.value.bytes) &&
              |r.value.rows| == |rows| + r.value.added <= q.maxItems &&
              (|r.value.rows| < q.maxItems ==> |looked| == |matches| && looked == Rows(matches))
    ensures r.Err? && r.error.Browser? ==> |looked| < |matches| && matches[|looked|] == Err(r.error.code)
    ensures r == Err(TooLarge) ==>
              2 + SumBytes(Dedupe(flat + looked, q.dedupeFields)) > MAX_PRIVATE_RESULTS_BYTES
  {
    var b := Batch(rows, seen, bytes, 0);
    looked := [];
    assert flat + looked == flat;
    var i := 0;
    while i < |matches|
      invariant Looked(matches, i, looked)
      invariant Tracks(q, flat + looked, b.rows, b.seen, b.bytes)
      invariant |b.rows| == |rows| + b.added < q.maxItems
    {
      LookedPrefix(matches, i, looked);
      if matches[i].Err? {
        return Err(Browser(matches[i].error)), looked;
      }
      var row := matches[i].value;
      var identity := Identity(row, q.dedupeFields);
      ghost var before := flat + looked;
      Regroup(flat, looked, [row]);
      i, looked := i + 1, looked + [row];
      LookedPrefix(matches, i, looked);
      if identity in b.seen {
        TracksOld(q, before, b.rows, b.seen, b.bytes, row);
      } else {
        TracksNew(q, before, b.rows, b.seen, b.bytes, row);
        if b.bytes + RowBytes(row) > MAX_PRIVATE_RESULTS_BYTES {
          return Err(TooLarge), looked;
        }
        b := Batch(b.rows + [row], b.seen + {identity}, b.bytes + RowBytes(row), b.added + 1);
        if |b.rows| >= q.maxItems {
          return Ok(b), looked;
        }
      }
    }
    LookedPrefix(matches, i, looked);
    return Ok(b), looked;
  }

  /** Every match of the observation gave a row. */
  predicate AllGave(matches: seq<Match>) {
    forall i | 0 <= i < |matches| :: matches[i].Ok?
  }

  /** Observation `i` showed no row that was not there before. */
  ghost predicate AddedNothing(q: Request, rounds: seq<seq<Match>>, i: nat)
    requires i < |rounds|
  {
    Dedupe(AllRows(rounds[..i + 1]), q.dedupeFields) == Dedupe(AllRows(rounds[..i]), q.dedupeFields)
  }

  /** The last `n` observations showed nothing new. */
  ghost predicate Stable(q: Request, rounds: seq<seq<Match>>, n: nat) {
    n <= |rounds| && forall i | |rounds| - n <= i < |rounds| :: AddedNothing(q, rounds, i)
  }

  lemma StableSnoc(q: Request, rounds: seq<seq<Match>>, matches: seq<Match>, n: nat)
    requires Stable(q, rounds, n)
    requires Dedupe(AllRows(rounds) + Rows(matches), q.dedupeFields) == Dedupe(AllRows(rounds), q.dedupeFields)
    ensures Stable(q, rounds + [matches], n + 1)
  {
    var longer := rounds + [matches];
    assert longer[..|rounds|] == rounds && longer[..|rounds| + 1] == longer;
    forall i | |longer| - (n + 1) <= i < |longer|
      ensures AddedNothing(q, longer, i)
    {
      if i < |rounds| {
        assert AddedNothing(q, rounds, i);
        assert longer[..i] == rounds[..i] && longer[..i + 1] == rounds[..i + 1];
      }
    }
  }

  /** One round more stable than the rounds were is too many. */
  lemma StableExact(q: Request, rounds: seq<seq<Match>>, matches: seq<Match>, n: nat)
    requires !Stable(q, rounds, n)
    ensures !Stable(q, rounds + [matches], n + 1)
  {
    var longer := rounds + [matches];
    if n <= |rounds| {
      var i :| |rounds| - n <= i < |rounds| && !AddedNothing(q, rounds, i);
      assert longer[..i] == rounds[..i] && longer[..i + 1] == rounds[..i + 1];
      assert !AddedNothing(q, longer, i);
    }
  }

  lemma SomethingAdded(q: Request, rounds: seq<seq<Match>>, matches: seq<Match>)
    requires |Dedupe(AllRows(rounds) + Rows(matches), q.dedupeFields)| > |Dedupe(AllRows(rounds), q.dedupeFields)|
    ensures !Stable(q, rounds + [matches], 1)
  {
    var longer := rounds + [matches];
    assert longer[..|rounds|] == rounds && longer[..|rounds| + 1] == longer;
    AllRowsSnoc(rounds, matches);
    assert !AddedNothing(q, longer, |rounds|);
  }

  /** After the first `k` rounds rows were missing, the last ones had shown something new, and every match a row. */
  ghost predicate GoesOn(q: Request, rounds: seq<seq<Match>>, k: nat)
    requires 0 < k <= |rounds|
  {
    AllGave(rounds[k - 1]) && |Dedupe(AllRows(rounds[..k]), q.dedupeFields)| < q.maxItems &&
    !Stable(q, rounds[..k], q.stableRounds)
  }

  /** `stable` counts the last observations that showed nothing new, and every earlier round had to be followed. */
  ghost predicate Watched(q: Request, rounds: seq<seq<Match>>, stable: nat, followed: nat) {
    Stable(q, rounds, stable) && !Stable(q, rounds, stable + 1) && followed <= |rounds| &&
    forall k | 0 < k <= followed :: GoesOn(q, rounds, k)
  }

  lemma WatchedAtFirst(q: Request)
    ensures Watched(q, [], 0, 0)
  {
  }

  /** One more observation, with the number of rows it added. */
  lemma WatchedSnoc(q: Request, rounds: seq<seq<Match>>, stable: nat, matches: seq<Match>, added: nat)
    requires Watched(q, rounds, stable, |rounds|)
    requires |Dedupe(AllRows(rounds) + Rows(matches), q.dedupeFields)| ==
             |Dedupe(AllRows(rounds), q.dedupeFields)| + added
    ensures Watched(q, rounds + [matches], if added == 0 then stable + 1 else 0, |rounds|)
  {
    if added == 0 {
      NothingAdded(q, AllRows(rounds), Rows(matches));
      StableSnoc(q, rounds, matches, stable);
      StableExact(q, rounds, matches, stable + 1);
    } else {
      SomethingAdded(q, rounds, matches);
    }
    FollowedSnoc(q, rounds, stable, matches);
  }

  /** What was followed before stays followed. */
  lemma FollowedSnoc(q: Request, rounds: seq<seq<Match>>, stable: nat, matches: seq<Match>)
    requires Watched(q, rounds, stable, |rounds|)
    ensures forall k | 0 < k <= |rounds| :: GoesOn(q, rounds + [matches], k)
  {
    forall k | 0 < k <= |rounds|
      ensures GoesOn(q, rounds + [matches], k)
    {
      assert GoesOn(q, rounds, k);
      assert (rounds + [matches])[..k] == rounds[..k];
    }
  }

  lemma NothingAdded(q: Request, flat: seq<Row>, more: seq<Row>)
    requires |Dedupe(flat + more, q.dedupeFields)| == |Dedupe(flat, q.dedupeFields)|
    ensures Dedupe(flat + more, q.dedupeFields) == Dedupe(flat, q.dedupeFields)
  {
    DedupeGrows(flat, more, q.dedupeFields);
  }

  lemma StableLonger(q: Request, rounds: seq<seq<Match>>, n: nat, m: nat)
    requires !Stable(q, rounds, n) && n <= m
    ensures !Stable(q, rounds, m)
  {
    if n <= |rounds| {
      var i :| |rounds| - n <= i < |rounds| && !AddedNothing(q, rounds, i);
    }
  }

  /** The last observation has to be followed too: it was whole, rows are missing and it is not stable yet. */
  lemma WatchedOn(q: Request, rounds: seq<seq<Match>>, stable: nat)
    requires rounds != [] && Watched(q, rounds, stable, |rounds| - 1) && stable < q.stableRounds
    requires |Dedupe(AllRows(rounds), q.dedupeFields)| < q.maxItems && AllGave(rounds[|rounds| - 1])
    ensures Watched(q, rounds, stable, |rounds|)
  {
    StableLonger(q, rounds, stable + 1, q.stableRounds);
    assert rounds[..|rounds|] == rounds;
    assert GoesOn(q, rounds, |rounds|);
  }

  lemma LookedPart(flat: seq<Row>, looked: seq<Row>, all: seq<Row>)
    requires looked <= all
    ensures flat + all == (flat + looked) + all[|looked|..]
  {
    Regroup(flat, looked, all[|looked|..]);
    assert looked + all[|looked|..] == all;
  }

  lemma PrefixTaken(a: seq<Row>, b: seq<Row>)
    requires a <= b
    ensures Take(b, |a|) == a
  {
  }

  /** Reaching the limit inside a round makes the rest of that round irrelevant. */
  lemma LimitReached(q: Request, flat: seq<Row>, looked: seq<Row>, all: seq<Row>)
    requires looked <= all && |Dedupe(flat + looked, q.dedupeFields)| == q.maxItems
    ensures Take(Dedupe(flat + all, q.dedupeFields), q.maxItems) == Dedupe(flat + looked, q.dedupeFields)
  {
    LookedPart(flat, looked, all);
    DedupeGrows(flat + looked, all[|looked|..], q.dedupeFields);
    PrefixTaken(Dedupe(flat + looked, q.dedupeFields), Dedupe(flat + all, q.dedupeFields));
  }

  /**
   * A successful collection is exactly the first `maxItems` of the first occurrences among all rows observed, in
   * order; it scrolled at most `maxScrolls` times, if it stopped for neither limit, the last `stableRounds`
   * observations showed nothing new, and it went on only while that was not so and rows were missing. No match it
   * passed failed to give its row. What the browser shows in each round, and where it fails, is arbitrary.
   */
  method CollectAxByScrolling(q: Request)
    returns (r: Result<seq<Row>, Failure>, rounds: seq<seq<Match>>, scrolls: nat)
    requires q.maxItems >= 1
    ensures scrolls <= q.maxScrolls
    ensures r.Ok? ==>
              |rounds| == scrolls + 1 &&
              r.value == Take(Dedupe(AllRows(rounds), q.dedupeFields), q.maxItems) &&
              ArrayBytes(r.value) <= MAX_PRIVATE_RESULTS_BYTES
    ensures r.Ok? && |r.value| < q.maxItems && scrolls < q.maxScrolls ==> Stable(q, rounds, q.stableRounds)
    ensures r.Ok? && |r.value| < q.maxItems ==> AllGave(rounds[scrolls])
    ensures forall k | 0 < k <= scrolls <= |rounds| :: GoesOn(q, rounds, k)
    ensures r == Err(TooLarge) ==>
              rounds != [] &&
              2 + SumBytes(Dedupe(AllRows(rounds), q.dedupeFields)) > MAX_PRIVATE_RESULTS_BYTES
  {
    var rows: seq<Row> := [];
    var seen: set<string> := {};
    var bytes := 2;
    var stable := 0;
    rounds, scrolls := [], 0;
    WatchedAtFirst(q);
    while true
      invariant scrolls <= q.maxScrolls && |rounds| == scrolls
      invariant Tracks(q, AllRows(rounds), rows, seen, bytes) && |rows| < q.maxItems
      invariant Watched(q, rounds, stable, |rounds|)
      decreases q.maxScrolls - scrolls
    {
      var observed: Result<seq<Match>, Code> :| true;
      if observed.Err? {
        return Err(Browser(observed.error)), rounds, scrolls;
      }
      var matches := observed.value;
      ghost var before, flat := rounds, AllRows(rounds);
      var batch, looked := AddMatches(q, matches, flat, rows, seen, bytes);
      rounds := rounds + [matches];
      AllRowsSnoc(before, matches);
      FollowedSnoc(q, before, stable, matches);
      if batch.Err? {
        OverflowStays(q, flat, looked, Rows(matches));
        return Err(batch.error), rounds, scrolls;
      }
      CountIsSize(batch.value.rows);
      if |batch.value.rows| >= q.maxItems {
        LimitReached(q, flat, looked, Rows(matches));
        return Ok(batch.value.rows), rounds, scrolls;
      }
      WatchedSnoc(q, before, stable, matches, batch.value.added);
      stable := if batch.value.added == 0 then stable + 1 else 0;
      rows, seen, bytes := batch.value.rows, batch.value.seen, batch.value.bytes;
      if scrolls >= q.maxScrolls || stable >= q.stableRounds {
        StableFewer(q, rounds, stable);
        return Ok(rows), rounds, scrolls;
      }
      var failure: Option<Code> :| true;
      if failure.Some? {
        return Err(Browser(failure.value)), rounds, scrolls;
      }
      WatchedOn(q, rounds, stable);
      scrolls := scrolls + 1;
    }
  }

  lemma AllRowsSnoc(rounds: seq<seq<Match>>, matches: seq<Match>)
    ensures AllRows(rounds + [matches]) == AllRows(rounds) + Rows(matches)
  {
    assert (rounds + [matches])[..|rounds|] == rounds;
  }

  lemma StableFewer(q: Request, rounds: seq<seq<Match>>, n: nat)
    requires Stable(q, rounds, n)
    ensures q.stableRounds <= n ==> Stable(q, rounds, q.stableRounds)
  {
  }

  /** What overflowed part-way through a round overflows with the whole round. */
  lemma OverflowStays(q: Request, flat: seq<Row>, looked: seq<Row>, all: seq<Row>)
    requires looked <= all
    ensures SumBytes(Dedupe(flat + looked, q.dedupeFields)) <= SumBytes(Dedupe(flat + all, q.dedupeFields))
  {
    LookedPart(flat, looked, all);
    DedupeGrows(flat + looked, all[|looked|..], q.dedupeFields);
    SumMonotone(Dedupe(flat + looked, q.dedupeFields), Dedupe(flat + all, q.dedupeFields));
  }

  lemma {:induction false} SumMonotone(a: seq<Row>, b: seq<Row>)
    requires a <= b
    ensures SumBytes(a) <= SumBytes(b)
    decreases |b|
  {
    if |a| < |b| {
      SumMonotone(a, b[..|b| - 1]);
    } else {
      assert a == b;
    }
  }
}
