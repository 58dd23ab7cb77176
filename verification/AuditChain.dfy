/** The tamper-evident audit table: how a row is hashed and linked, the replay that verifies a
    table, and what that replay can and cannot tell about a table somebody edited. */
module AuditChain {

  type Hash = string

  /** How a chain is hashed: the hash of an event linked to its predecessor's hash, and the
      explicit "no previous event" marker (64 zeros in the source). */
  datatype Scheme<!C> = Scheme(hash: (C, Hash) -> Hash, genesis: Hash)

  /** The assumption on SHA-256 over the canonical JSON of an event and its predecessor's hash:
      no two inputs collide and none hashes to the genesis marker. */
  ghost predicate CollisionFree<C(!new)>(h: Scheme<C>) {
    && (forall c1, p1, c2, p2 :: h.hash(c1, p1) == h.hash(c2, p2) ==> c1 == c2 && p1 == p2)
    && (forall c, p :: h.hash(c, p) != h.genesis)
  }

  datatype Row<C> = Row(content: C, sequenceNumber: int, prevHash: Hash, eventHash: Hash)

  datatype Break = SequenceGap(at: int) | LinkBroken(at: int) | ContentAltered(at: int)

  datatype Verification = Verification(valid: bool, eventsChecked: nat, breaks: seq<Break>)

  function NumberBefore<C>(rows: seq<Row<C>>, k: nat): int
    requires k <= |rows|
  {
    if k == 0 then 0 else rows[k - 1].sequenceNumber
  }

  function TipBefore<C>(h: Scheme<C>, rows: seq<Row<C>>, k: nat): Hash
    requires k <= |rows|
  {
    if k == 0 then h.genesis else rows[k - 1].eventHash
  }

  function Tip<C>(h: Scheme<C>, rows: seq<Row<C>>): Hash {
    TipBefore(h, rows, |rows|)
  }

  /** What row k says that does not fit the row stored right before it. */
  function BreaksAt<C>(h: Scheme<C>, rows: seq<Row<C>>, k: nat): seq<Break>
    requires k < |rows|
  {
    var row, number := rows[k], NumberBefore(rows, k) + 1;
    (if row.sequenceNumber != number then [SequenceGap(number)] else [])
    + (if row.prevHash != TipBefore(h, rows, k) then [LinkBroken(row.sequenceNumber)] else [])
    + (if h.hash(row.content, row.prevHash) != row.eventHash then [ContentAltered(row.sequenceNumber)] else [])
  }

  /** The breaks of the first n rows. */
  function Breaks<C>(h: Scheme<C>, rows: seq<Row<C>>, n: nat): seq<Break>
    requires n <= |rows|
  {
    if n == 0 then [] else Breaks(h, rows, n - 1) + BreaksAt(h, rows, n - 1)
  }

  /** Row k is numbered k + 1, linked to the row before it and hashed over that link. */
  ghost predicate Linked<C>(h: Scheme<C>, rows: seq<Row<C>>, k: nat)
    requires k < |rows|
  {
    && rows[k].sequenceNumber == k + 1
    && rows[k].prevHash == TipBefore(h, rows, k)
    && rows[k].eventHash == h.hash(rows[k].content, rows[k].prevHash)
  }

  /** A table as the sink writes it. */
  ghost predicate Chained<C>(h: Scheme<C>, rows: seq<Row<C>>) {
    forall k :: 0 <= k < |rows| ==> Linked(h, rows, k)
  }

  /** The replay over the stored rows in sequence-number order. */
  method VerifyAuditChain<C>(h: Scheme<C>, rows: seq<Row<C>>) returns (res: Verification)
    ensures res.breaks == Breaks(h, rows, |rows|)
    ensures res.valid <==> Chained(h, rows)
    ensures res.eventsChecked == |rows|
  {
    var breaks: seq<Break> := [];
    var expectedPrevHash, expectedNumber := h.genesis, 1;
    var i := 0;
    while i < |rows|
      invariant 0 <= i <= |rows|
      invariant expectedPrevHash == TipBefore(h, rows, i) && expectedNumber == NumberBefore(rows, i) + 1
      invariant breaks == Breaks(h, rows, i)
    {
      var row := rows[i];
      if row.sequenceNumber != expectedNumber {
        breaks := breaks + [SequenceGap(expectedNumber)];
        expectedNumber := row.sequenceNumber;
      }
      if row.prevHash != expectedPrevHash {
        breaks := breaks + [LinkBroken(row.sequenceNumber)];
      }
      if h.hash(row.content, row.prevHash) != row.eventHash {
        breaks := breaks + [ContentAltered(row.sequenceNumber)];
      }
      expectedPrevHash := row.eventHash;
      expectedNumber := row.sequenceNumber + 1;
      i := i + 1;
    }
    NoBreaksIffChained(h, rows);
    res := Verification(|breaks| == 0, |rows|, breaks);
  }

  lemma {:induction false} QuietStretch<C>(h: Scheme<C>, rows: seq<Row<C>>, m: nat, n: nat)
    requires m <= n <= |rows|
    requires forall k :: m <= k < n ==> BreaksAt(h, rows, k) == []
    ensures Breaks(h, rows, n) == Breaks(h, rows, m)
  {
    if m < n {
      QuietStretch(h, rows, m, n - 1);
      assert BreaksAt(h, rows, n - 1) == [];
      assert Breaks(h, rows, n) == Breaks(h, rows, n - 1) + [];
    }
  }

  lemma OneNoisyRow<C>(h: Scheme<C>, rows: seq<Row<C>>, i: nat)
    requires i < |rows|
    requires forall k :: 0 <= k < |rows| && k != i ==> BreaksAt(h, rows, k) == []
    ensures Breaks(h, rows, |rows|) == BreaksAt(h, rows, i)
  {
    QuietStretch(h, rows, 0, i);
    QuietStretch(h, rows, i + 1, |rows|);
  }

  lemma {:induction false} BreaksKept<C>(h: Scheme<C>, rows: seq<Row<C>>, k: nat, n: nat)
    requires k < n <= |rows| && BreaksAt(h, rows, k) != []
    ensures Breaks(h, rows, n) != []
    decreases n
  {
    if k < n - 1 { BreaksKept(h, rows, k, n - 1); }
  }

  lemma {:induction false} NumbersAreRanks<C>(h: Scheme<C>, rows: seq<Row<C>>, k: nat)
    requires k < |rows| && forall j :: 0 <= j < |rows| ==> BreaksAt(h, rows, j) == []
    ensures rows[k].sequenceNumber == k + 1
  {
    assert BreaksAt(h, rows, k) == [];
    if k > 0 { NumbersAreRanks(h, rows, k - 1); }
  }

  lemma LinkedIsQuiet<C>(h: Scheme<C>, rows: seq<Row<C>>, k: nat)
    requires Chained(h, rows) && k < |rows|
    ensures BreaksAt(h, rows, k) == []
  {
    assert Linked(h, rows, k);
    if k > 0 { assert Linked(h, rows, k - 1); }
  }

  /** The replay reports nothing exactly for the tables the sink could have written. */
  lemma NoBreaksIffChained<C>(h: Scheme<C>, rows: seq<Row<C>>)
    ensures Breaks(h, rows, |rows|) == [] <==> Chained(h, rows)
  {
    if Breaks(h, rows, |rows|) == [] {
      forall k | 0 <= k < |rows| ensures BreaksAt(h, rows, k) == [] {
        if BreaksAt(h, rows, k) != [] { BreaksKept(h, rows, k, |rows|); }
      }
      forall k | 0 <= k < |rows| ensures rows[k].sequenceNumber == k + 1 {
        NumbersAreRanks(h, rows, k);
      }
      forall k | 0 <= k < |rows| ensures Linked(h, rows, k) {
        assert BreaksAt(h, rows, k) == [];
      }
    }
    if Chained(h, rows) {
      forall k | 0 <= k < |rows| ensures BreaksAt(h, rows, k) == [] {
        LinkedIsQuiet(h, rows, k);
      }
      QuietStretch(h, rows, 0, |rows|);
    }
  }

  function Appended<C>(h: Scheme<C>, rows: seq<Row<C>>, content: C): seq<Row<C>> {
    rows + [Row(content, NumberBefore(rows, |rows|) + 1, Tip(h, rows), h.hash(content, Tip(h, rows)))]
  }

  /** Writing one more event keeps the table valid. */
  lemma AppendedIsChained<C>(h: Scheme<C>, rows: seq<Row<C>>, content: C)
    requires Chained(h, rows)
    ensures Chained(h, Appended(h, rows, content))
  {
    var more := Appended(h, rows, content);
    forall k | 0 <= k < |more| ensures Linked(h, more, k) {
      if k < |rows| { assert Linked(h, rows, k); }
      if k == |rows| > 0 { assert Linked(h, rows, k - 1); }
    }
  }

  /** The tip hash pins the whole history: two valid tables ending in the same hash agree row
      for row, so anchoring the tip elsewhere closes the only gap the replay leaves. */
  lemma TipFixesTable<C(!new)>(h: Scheme<C>, a: seq<Row<C>>, b: seq<Row<C>>)
    requires CollisionFree(h) && Chained(h, a) && Chained(h, b)
    requires Tip(h, a) == Tip(h, b)
    ensures a == b
  {
    TipFixesPrefix(h, a, b, |a|, |b|);
  }

  lemma {:induction false} TipFixesPrefix<C(!new)>(h: Scheme<C>, a: seq<Row<C>>, b: seq<Row<C>>, m: nat, n: nat)
    requires CollisionFree(h) && Chained(h, a) && Chained(h, b) && m <= |a| && n <= |b|
    requires TipBefore(h, a, m) == TipBefore(h, b, n)
    ensures m == n && a[..m] == b[..n]
  {
    if m > 0 { assert Linked(h, a, m - 1); }
    if n > 0 { assert Linked(h, b, n - 1); }
    if m > 0 && n > 0 {
      assert h.hash(a[m - 1].content, a[m - 1].prevHash) == h.hash(b[n - 1].content, b[n - 1].prevHash);
      TipFixesPrefix(h, a, b, m - 1, n - 1);
      assert a[..m] == a[..m - 1] + [a[m - 1]] && b[..n] == b[..n - 1] + [b[n - 1]];
    }
  }

  /** What is left of a table after deleting any of its rows, still read in sequence order. */
  ghost predicate SubTable<C>(sub: seq<Row<C>>, rows: seq<Row<C>>) {
    && (forall k :: 0 <= k < |sub| ==> sub[k] in rows)
    && (forall j, k :: 0 <= j < k < |sub| ==> sub[j].sequenceNumber < sub[k].sequenceNumber)
  }

  lemma FoundAtItsNumber<C>(h: Scheme<C>, rows: seq<Row<C>>, row: Row<C>)
    requires Chained(h, rows) && row in rows
    ensures 1 <= row.sequenceNumber <= |rows| && rows[row.sequenceNumber - 1] == row
    ensures row.prevHash == TipBefore(h, rows, row.sequenceNumber - 1)
    ensures row.eventHash == h.hash(row.content, row.prevHash)
  {
    var k :| 0 <= k < |rows| && rows[k] == row;
    assert Linked(h, rows, k);
  }

  /** Deleting any set of rows from a valid table shows up as one gap and one broken link at each
      surviving row whose predecessor is gone, and nowhere else: a deletion never cascades. */
  lemma SurvivorReport<C(!new)>(h: Scheme<C>, rows: seq<Row<C>>, sub: seq<Row<C>>, k: nat)
    requires CollisionFree(h) && Chained(h, rows) && SubTable(sub, rows) && k < |sub|
    ensures BreaksAt(h, sub, k) ==
      if sub[k].sequenceNumber == NumberBefore(sub, k) + 1 then []
      else [SequenceGap(NumberBefore(sub, k) + 1), LinkBroken(sub[k].sequenceNumber)]
  {
    var m, n := NumberBefore(sub, k), sub[k].sequenceNumber - 1;
    FoundAtItsNumber(h, rows, sub[k]);
    if k > 0 { FoundAtItsNumber(h, rows, sub[k - 1]); }
    if m != n && TipBefore(h, rows, m) == TipBefore(h, rows, n) { TipFixesPrefix(h, rows, rows, m, n); }
  }

  /** A table obtained by deletion verifies exactly when it is a prefix of the original: only
      truncating the tail goes unnoticed. */
  lemma SubTableValidIffPrefix<C>(h: Scheme<C>, rows: seq<Row<C>>, sub: seq<Row<C>>)
    requires Chained(h, rows) && SubTable(sub, rows)
    ensures Chained(h, sub) <==> sub <= rows
  {
    if Chained(h, sub) {
      forall k | 0 <= k < |sub| ensures k < |rows| && sub[k] == rows[k] {
        assert Linked(h, sub, k) && sub[k] in rows;
        FoundAtItsNumber(h, rows, sub[k]);
      }
      if sub != [] {
        assert Linked(h, sub, |sub| - 1) && sub[|sub| - 1] in rows;
        FoundAtItsNumber(h, rows, sub[|sub| - 1]);
      }
    }
    if sub <= rows {
      forall k | 0 <= k < |sub| ensures Linked(h, sub, k) {
        assert Linked(h, rows, k);
      }
    }
  }

  lemma RemainderIsSubTable<C>(h: Scheme<C>, rows: seq<Row<C>>, i: nat, j: nat)
    requires Chained(h, rows) && i <= j < |rows|
    ensures
      var sub := rows[..i] + rows[j + 1..];
      && SubTable(sub, rows)
      && forall k :: 0 <= k < |sub| ==> sub[k].sequenceNumber == if k < i then k + 1 else k + j + 2 - i
  {
    var sub := rows[..i] + rows[j + 1..];
    forall k | 0 <= k < |sub|
      ensures sub[k] in rows && sub[k].sequenceNumber == if k < i then k + 1 else k + j + 2 - i
    {
      var n := if k < i then k else k + j + 1 - i;
      assert Linked(h, rows, n) && sub[k] == rows[n];
    }
  }

  /** Cutting out rows i..j (numbered i+1..j+1) that are not the tail yields exactly two breaks. */
  lemma DeletedBlockReport<C(!new)>(h: Scheme<C>, rows: seq<Row<C>>, i: nat, j: nat)
    requires CollisionFree(h) && Chained(h, rows) && i <= j < |rows| - 1
    ensures
      var sub := rows[..i] + rows[j + 1..];
      Breaks(h, sub, |sub|) == [SequenceGap(i + 1), LinkBroken(j + 2)]
  {
    var sub := rows[..i] + rows[j + 1..];
    RemainderIsSubTable(h, rows, i, j);
    forall k | 0 <= k < |sub|
      ensures BreaksAt(h, sub, k) == if k == i then [SequenceGap(i + 1), LinkBroken(j + 2)] else []
    {
      SurvivorReport(h, rows, sub, k);
    }
    OneNoisyRow(h, sub, i);
  }

  /** Row i with its content rewritten, its own hash left alone or recomputed. */
  function Rewritten<C>(h: Scheme<C>, rows: seq<Row<C>>, i: nat, content: C, rehash: bool): seq<Row<C>>
    requires i < |rows|
  {
    var hash := if rehash then h.hash(content, rows[i].prevHash) else rows[i].eventHash;
    rows[i := rows[i].(content := content, eventHash := hash)]
  }

  lemma RewrittenBreaksAt<C(!new)>(
      h: Scheme<C>, rows: seq<Row<C>>, i: nat, content: C, rehash: bool, k: nat)
    requires CollisionFree(h) && Chained(h, rows) && i < |rows| && k < |rows| && content != rows[i].content
    ensures BreaksAt(h, Rewritten(h, rows, i, content, rehash), k) ==
      if k == i && !rehash then [ContentAltered(i + 1)]
      else if k == i + 1 && rehash then [LinkBroken(i + 2)] else []
  {
    LinkedIsQuiet(h, rows, k);
    assert Linked(h, rows, i) && Linked(h, rows, k);
    assert h.hash(content, rows[i].prevHash) != h.hash(rows[i].content, rows[i].prevHash);
  }

  /** Rewriting the content of one row of a valid table: with the stored hash left alone the row
      itself is reported; with its hash recomputed the next row's link is, and only the last row
      can be rewritten unseen. */
  lemma RewrittenRowReport<C(!new)>(h: Scheme<C>, rows: seq<Row<C>>, i: nat, content: C, rehash: bool)
    requires CollisionFree(h) && Chained(h, rows) && i < |rows| && content != rows[i].content
    ensures Breaks(h, Rewritten(h, rows, i, content, rehash), |rows|) ==
      if !rehash then [ContentAltered(i + 1)] else if i + 1 < |rows| then [LinkBroken(i + 2)] else []
  {
    forall k | 0 <= k < |rows|
      ensures BreaksAt(h, Rewritten(h, rows, i, content, rehash), k) ==
        if k == i && !rehash then [ContentAltered(i + 1)]
        else if k == i + 1 && rehash then [LinkBroken(i + 2)] else []
    {
      RewrittenBreaksAt(h, rows, i, content, rehash, k);
    }
    OneNoisyRow(h, Rewritten(h, rows, i, content, rehash), if rehash && i + 1 < |rows| then i + 1 else i);
  }

  // ---- The assumption on the hash can be met ----

  function Tagged(b: bool, prev: Hash): Hash {
    (if b then "1" else "0") + prev
  }

  lemma TaggedIsInjective(b: bool, p: Hash, c: bool, q: Hash)
    requires Tagged(b, p) == Tagged(c, q)
    ensures b == c && p == q
  {
    assert Tagged(b, p)[0] == Tagged(c, q)[0] && Tagged(b, p)[1..] == p && Tagged(c, q)[1..] == q;
  }

  lemma CollisionFreeSchemeExists()
    ensures CollisionFree(Scheme(Tagged, ""))
  {
    forall b: bool, c: bool, p: Hash, q: Hash | Tagged(b, p) == Tagged(c, q) ensures b == c && p == q {
      TaggedIsInjective(b, p, c, q);
    }
  }
}
