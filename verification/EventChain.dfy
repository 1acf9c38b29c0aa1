/** The hash-chained event log: encoding, verification, and what a verified head says about the log below it. */
module EventChain {

  /** Text and payload bytes; the hash function is a parameter of everything that follows. */
  type Hash = string -> string

  datatype Row = Row(sequence: int, kind: string, payload: string, prevHash: string, hash: string)

  /** A row as it is handed to a verifier, with the game it claims to belong to. */
  datatype Record = Record(game: string, row: Row)

  function RowsOf(records: seq<Record>): (rows: seq<Row>)
    ensures |rows| == |records| && forall k :: 0 <= k < |rows| ==> rows[k] == records[k].row
  {
    seq(|records|, k requires 0 <= k < |records| => records[k].row)
  }

  datatype Head = Head(sequence: int, hash: string)

  const NUL: char := '\0'

  predicate NulFree(s: string) {
    NUL !in s
  }

  // ----- the encoding that is hashed

  function Digit(d: int): (c: char)
    requires 0 <= d < 10
    ensures c != NUL && c != '-'
  {
    "0123456789"[d]
  }

  function Decimal(n: nat): (s: string)
    ensures s != [] && NulFree(s) && '-' !in s
  {
    if n < 10 then [Digit(n)] else Decimal(n / 10) + [Digit(n % 10)]
  }

  function Number(i: int): (s: string)
    ensures NulFree(s)
  {
    if i < 0 then "-" + Decimal(-i) else Decimal(i)
  }

  function Encode(sequence: int, prev: string, kind: string, payload: string): string {
    Number(sequence) + [NUL] + prev + [NUL] + kind + [NUL] + payload
  }

  function EventHash(h: Hash, sequence: int, prev: string, kind: string, payload: string): string {
    h(Encode(sequence, prev, kind, payload))
  }

  lemma {:induction false} DecimalInjective(m: nat, n: nat)
    requires Decimal(m) == Decimal(n)
    ensures m == n
    decreases m
  {
    var a, b := Decimal(m), Decimal(n);
    assert a[|a| - 1] == Digit(m % 10) && b[|b| - 1] == Digit(n % 10);
    DigitInjective(m % 10, n % 10);
    assert (m < 10 <==> |a| == 1) && (n < 10 <==> |b| == 1);
    if m >= 10 {
      assert a[..|a| - 1] == Decimal(m / 10) && b[..|b| - 1] == Decimal(n / 10);
      DecimalInjective(m / 10, n / 10);
    }
  }

  lemma DigitInjective(d: int, e: int)
    requires 0 <= d < 10 && 0 <= e < 10 && Digit(d) == Digit(e)
    ensures d == e
  {
  }

  lemma NumberInjective(i: int, j: int)
    requires Number(i) == Number(j)
    ensures i == j
  {
    SignOf(i);
    SignOf(j);
    if i < 0 {
      assert Number(i)[1..] == Decimal(-i) && Number(j)[1..] == Decimal(-j);
      DecimalInjective(-i, -j);
    } else {
      DecimalInjective(i, j);
    }
  }

  lemma SignOf(i: int)
    ensures |Number(i)| > 0 && (i < 0 <==> Number(i)[0] == '-')
  {
    if i >= 0 { assert Decimal(i)[0] in Decimal(i); }
  }

  /** The first NUL of a text ends its NUL-free head. */
  lemma SplitFirst(x: string, s: string, y: string, t: string)
    requires NulFree(x) && NulFree(y) && x + [NUL] + s == y + [NUL] + t
    ensures x == y && s == t
  {
    var a, b := x + [NUL] + s, y + [NUL] + t;
    assert a[|x|] == NUL && b[|y|] == NUL;
    forall k | 0 <= k < |x| ensures a[k] != NUL { assert a[k] == x[k]; }
    forall k | 0 <= k < |y| ensures b[k] != NUL { assert b[k] == y[k]; }
    assert |x| == |y|;
    assert a[..|x|] == x && b[..|y|] == y;
    assert a[|x| + 1..] == s && b[|y| + 1..] == t;
  }

  /** The last NUL of a text starts its NUL-free tail. */
  lemma SplitLast(s: string, x: string, t: string, y: string)
    requires NulFree(x) && NulFree(y) && s + [NUL] + x == t + [NUL] + y
    ensures s == t && x == y
  {
    var a, b := s + [NUL] + x, t + [NUL] + y;
    assert a[|s|] == NUL && b[|t|] == NUL;
    forall k | |s| < k < |a| ensures a[k] != NUL { assert a[k] == x[k - |s| - 1]; }
    forall k | |t| < k < |b| ensures b[k] != NUL { assert b[k] == y[k - |t| - 1]; }
    assert |s| == |t|;
    assert a[..|s|] == s && b[..|t|] == t;
    assert a[|s| + 1..] == x && b[|t| + 1..] == y;
  }

  /** The encoding is injective, even for kinds that contain a NUL: hashes and JSON payloads contain none. */
  lemma EncodeInjective(i: int, prev: string, kind: string, payload: string,
                        i': int, prev': string, kind': string, payload': string)
    requires NulFree(prev) && NulFree(prev') && NulFree(payload) && NulFree(payload')
    requires Encode(i, prev, kind, payload) == Encode(i', prev', kind', payload')
    ensures i == i' && prev == prev' && kind == kind' && payload == payload'
  {
    var rest, rest' := prev + [NUL] + (kind + [NUL] + payload), prev' + [NUL] + (kind' + [NUL] + payload');
    assert Encode(i, prev, kind, payload) == Number(i) + [NUL] + rest;
    assert Encode(i', prev', kind', payload') == Number(i') + [NUL] + rest';
    SplitFirst(Number(i), rest, Number(i'), rest');
    NumberInjective(i, i');
    SplitFirst(prev, kind + [NUL] + payload, prev', kind' + [NUL] + payload');
    SplitLast(kind, payload, kind', payload');
  }

  // ----- chains

  /** The hash that the row at position k must continue. */
  function PrevOf(rows: seq<Row>, k: nat): string
    requires k <= |rows|
  {
    if k == 0 then "" else rows[k - 1].hash
  }

  /** Row k has sequence k + 1, continues the row before it, and carries its own hash. */
  predicate Linked(h: Hash, rows: seq<Row>, k: nat)
    requires k < |rows|
  {
    var r := rows[k];
    && r.sequence == k + 1
    && r.prevHash == PrevOf(rows, k)
    && r.hash == EventHash(h, r.sequence, r.prevHash, r.kind, r.payload)
  }

  ghost predicate Chained(h: Hash, rows: seq<Row>) {
    forall k :: 0 <= k < |rows| ==> Linked(h, rows, k)
  }

  ghost predicate Verified(h: Hash, head: Head, rows: seq<Row>) {
    Chained(h, rows) && |rows| == head.sequence && PrevOf(rows, |rows|) == head.hash
  }

  /** The one-pass verifier of the diagnostics. */
  method VerifyEvents(h: Hash, game: string, head: Head, records: seq<Record>) returns (ok: bool)
    ensures ok <==> Verified(h, head, RowsOf(records)) && forall k :: 0 <= k < |records| ==> records[k].game == game
  {
    hide EventHash, Linked, PrevOf, RowsOf;
    ghost var rows := RowsOf(records);
    var prev := "";
    assert PrevOf(rows, 0) == prev by { PrevOfNext(rows, 0); }
    for i := 0 to |records|
      invariant forall k :: 0 <= k < i ==> Linked(h, rows, k) && records[k].game == game
      invariant prev == PrevOf(rows, i)
    {
      var e := records[i].row;
      LinkedExactly(h, rows, i);
      PrevOfNext(rows, i);
      if records[i].game != game || e.sequence != i + 1 {
        return false;
      }
      var want := EventHash(h, e.sequence, prev, e.kind, e.payload);
      if e.prevHash != prev || want != e.hash {
        return false;
      }
      prev := e.hash;
    }
    return |records| == head.sequence && prev == head.hash;
  }

  lemma PrevOfNext(rows: seq<Row>, k: nat)
    requires k <= |rows|
    ensures PrevOf(rows, 0) == "" && (k < |rows| ==> PrevOf(rows, k + 1) == rows[k].hash)
  {
  }

  lemma LinkedExactly(h: Hash, rows: seq<Row>, k: nat)
    requires k < |rows|
    ensures var r := rows[k];
      Linked(h, rows, k) <==>
        && r.sequence == k + 1 && r.prevHash == PrevOf(rows, k)
        && r.hash == EventHash(h, r.sequence, PrevOf(rows, k), r.kind, r.payload)
  {
  }

  // ----- the head determines the history

  ghost predicate Injective(h: Hash) {
    forall x, y :: h(x) == h(y) ==> x == y
  }

  /** Hashes are hexadecimal, and valid JSON has no raw NUL. */
  ghost predicate NoRawNul(h: Hash, rows: seq<Row>) {
    && (forall x :: NulFree(h(x)))
    && forall k :: 0 <= k < |rows| ==> NulFree(rows[k].payload)
  }

  lemma PrevIsNulFree(h: Hash, rows: seq<Row>, k: nat)
    requires Chained(h, rows) && NoRawNul(h, rows) && k <= |rows|
    ensures NulFree(PrevOf(rows, k))
  {
    if k > 0 { assert Linked(h, rows, k - 1); }
  }

  /** Two chains that agree on the hash after k rows agree on those rows, or exhibit a collision of the hash. */
  lemma {:induction false} SameHashSameRows(h: Hash, a: seq<Row>, b: seq<Row>, k: nat)
    returns (same: bool, x: string, y: string)
    requires Chained(h, a) && Chained(h, b) && NoRawNul(h, a) && NoRawNul(h, b)
    requires k <= |a| && k <= |b| && PrevOf(a, k) == PrevOf(b, k)
    ensures if same then a[..k] == b[..k] else x != y && h(x) == h(y)
    decreases k
  {
    same, x, y := true, "", "";
    if k == 0 {
    } else {
      var r, s := a[k - 1], b[k - 1];
      assert Linked(h, a, k - 1) && Linked(h, b, k - 1);
      x := Encode(r.sequence, r.prevHash, r.kind, r.payload);
      y := Encode(s.sequence, s.prevHash, s.kind, s.payload);
      if x != y {
        same := false;
      } else {
        PrevIsNulFree(h, a, k - 1);
        PrevIsNulFree(h, b, k - 1);
        EncodeInjective(r.sequence, r.prevHash, r.kind, r.payload, s.sequence, s.prevHash, s.kind, s.payload);
        same, x, y := SameHashSameRows(h, a, b, k - 1);
        assert a[..k] == a[..k - 1] + [r] && b[..k] == b[..k - 1] + [s];
      }
    }
  }

  /** A head determines its history, for any hash without a collision between two encodings: two verified logs with the
      same head are the same log, or two different texts with the same hash are at hand. */
  lemma HeadDeterminesHistory(h: Hash, head: Head, a: seq<Row>, b: seq<Row>)
    returns (same: bool, x: string, y: string)
    requires Verified(h, head, a) && Verified(h, head, b) && NoRawNul(h, a) && NoRawNul(h, b)
    ensures if same then a == b else x != y && h(x) == h(y)
    ensures Injective(h) ==> a == b
  {
    same, x, y := SameHashSameRows(h, a, b, |a|);
    assert a[..|a|] == a && b[..|b|] == b;
  }

  // ----- the paged verifier

  /** A table's rows of one game: the primary key keeps their sequences distinct, and queries order by it. */
  ghost predicate Ordered(rows: seq<Row>) {
    forall i, j :: 0 <= i < j < |rows| ==> rows[i].sequence < rows[j].sequence
  }

  function Above(rows: seq<Row>, after: int): (r: seq<Row>)
    ensures |r| <= |rows|
  {
    if rows == [] then []
    else if rows[0].sequence > after then [rows[0]] + Above(rows[1..], after)
    else Above(rows[1..], after)
  }

  function PageLimit(limit: int): (n: nat)
    ensures 0 < n <= 1000
  {
    if limit <= 0 || limit > 1000 then 100 else limit
  }

  datatype Page = Rows(rows: seq<Row>) | Corrupt

  predicate WellFormed(h: Hash, valid: string -> bool, r: Row) {
    valid(r.payload) && r.hash == EventHash(h, r.sequence, r.prevHash, r.kind, r.payload)
  }

  lemma {:induction false} AboveAmong(rows: seq<Row>, after: int)
    ensures forall r :: r in Above(rows, after) ==> r.sequence > after && r in rows
    decreases |rows|
  {
    if rows == [] {
    } else {
      AboveAmong(rows[1..], after);
    }
  }

  lemma {:induction false} AboveOrdered(rows: seq<Row>, after: int)
    requires Ordered(rows)
    ensures var r := Above(rows, after);
      Ordered(r) && forall k :: 0 <= k < |r| ==> r[k].sequence > after && r[k] in rows
    decreases |rows|
  {
    var above := Above(rows, after);
    AboveAmong(rows, after);
    assert forall k :: 0 <= k < |above| ==> above[k] in above;
    if rows == [] {
    } else {
      var rest := Above(rows[1..], after);
      AboveOrdered(rows[1..], after);
      AboveAmong(rows[1..], after);
      assert forall k :: 0 <= k < |rest| ==> rest[k] in rows[1..];
    }
  }

  /** In an ordered table the rows above a sequence are a suffix. */
  lemma {:induction false} AboveIsSuffix(rows: seq<Row>, after: int)
    requires Ordered(rows)
    ensures |rows| > 0 && rows[0].sequence > after ==> Above(rows, after) == rows
    decreases |rows|
  {
    if |rows| > 1 && rows[0].sequence > after {
      AboveIsSuffix(rows[1..], after);
    }
  }

  lemma {:induction false} AboveDrops(rows: seq<Row>, after: int, k: nat)
    requires Ordered(rows) && k <= |Above(rows, after)|
    ensures k > 0 ==> Above(rows, Above(rows, after)[k - 1].sequence) == Above(rows, after)[k..]
    decreases |rows|
  {
    if k == 0 {
    } else {
      if rows[0].sequence > after {
        AboveIsSuffix(rows, after);
        DropUpTo(rows, k);
      } else {
        AboveDrops(rows[1..], after, k);
        AboveOrdered(rows[1..], after);
      }
    }
  }

  lemma {:induction false} DropUpTo(rows: seq<Row>, k: nat)
    requires Ordered(rows) && 0 < k <= |rows|
    ensures Above(rows, rows[k - 1].sequence) == rows[k..]
    decreases |rows|
  {
    if k == 1 {
      if |rows| > 1 { AboveIsSuffix(rows[1..], rows[0].sequence); }
    } else {
      DropUpTo(rows[1..], k - 1);
      assert rows[1..][k - 1..] == rows[k..];
    }
  }

  /** `ListEvents`: one page of rows above a sequence, each checked for its payload and its own hash. */
  method ListEvents(h: Hash, valid: string -> bool, rows: seq<Row>, after: int, limit: int) returns (page: Page)
    ensures var r := Above(rows, after); var n := if |r| < PageLimit(limit) then |r| else PageLimit(limit);
      page == if forall k :: 0 <= k < n ==> WellFormed(h, valid, r[k]) then Rows(r[..n]) else Corrupt
  {
    hide Above, EventHash, PageLimit;
    var n := PageLimit(limit);
    var found := Above(rows, after);
    var out: seq<Row> := [];
    while |out| < |found| && |out| < n
      invariant |out| <= |found| && |out| <= n && out == found[..|out|]
      invariant forall k :: 0 <= k < |out| ==> WellFormed(h, valid, found[k])
    {
      var x := found[|out|];
      if !valid(x.payload) {
        assert !WellFormed(h, valid, found[|out|]);
        return Corrupt;
      }
      if EventHash(h, x.sequence, x.prevHash, x.kind, x.payload) != x.hash {
        assert !WellFormed(h, valid, found[|out|]);
        return Corrupt;
      }
      out := out + [x];
    }
    return Rows(out);
  }

  ghost predicate AllValid(valid: string -> bool, rows: seq<Row>) {
    forall k :: 0 <= k < |rows| ==> valid(rows[k].payload)
  }

  /**
   * `VerifyEventChain`: pages of 1000 rows accept exactly the logs that the one-pass verifier accepts on the same
   * rows, provided every payload is valid.
   */
  method VerifyEventChain(h: Hash, valid: string -> bool, head: Head, rows: seq<Row>) returns (ok: bool)
    requires Ordered(rows)
    ensures ok <==> AllValid(valid, Above(rows, 0)) && Verified(h, head, Above(rows, 0))
  {
    hide EventHash, Linked;
    ghost var all := Above(rows, 0);
    var prev := "";
    var after := 0;
    var more := true;
    while more
      invariant 0 <= after <= |all| && prev == PrevOf(all, after)
      invariant Above(rows, after) == all[after..]
      invariant Good(h, valid, all, after)
      invariant !more ==> after == |all|
      decreases more, |all| - after
    {
      var page := ListEvents(h, valid, rows, after, 1000);
      if page.Corrupt? {
        BadRow(h, valid, all, after);
        return false;
      }
      var linked, after', prev' := FollowPage(h, valid, page.rows, after, prev, all);
      if !linked {
        return false;
      }
      after, prev := after', prev';
      LastSequence(h, valid, all, after);
      AboveDrops(rows, 0, after);
      more := |page.rows| >= 1000;
    }
    return after == head.sequence && prev == head.hash;
  }

  /** The first n rows are valid and linked. */
  ghost predicate Good(h: Hash, valid: string -> bool, all: seq<Row>, n: nat)
    requires n <= |all|
  {
    forall k :: 0 <= k < n ==> Linked(h, all, k) && valid(all[k].payload)
  }

  lemma LastSequence(h: Hash, valid: string -> bool, all: seq<Row>, n: nat)
    requires n <= |all| && Good(h, valid, all, n)
    ensures n > 0 ==> all[n - 1].sequence == n
  {
    if n > 0 { assert Linked(h, all, n - 1); }
  }

  lemma LinkedByFields(h: Hash, valid: string -> bool, all: seq<Row>, k: nat)
    requires k < |all| && WellFormed(h, valid, all[k])
    ensures Linked(h, all, k) <==> all[k].sequence == k + 1 && all[k].prevHash == PrevOf(all, k)
  {
    hide EventHash;
  }

  /** The verifier's loop over one page of rows that `ListEvents` has already checked one by one. */
  method FollowPage(h: Hash, valid: string -> bool, page: seq<Row>, start: nat, prior: string, ghost all: seq<Row>)
    returns (linked: bool, after: nat, prev: string)
    requires start + |page| <= |all| && page == all[start..start + |page|]
    requires forall k :: 0 <= k < |page| ==> WellFormed(h, valid, page[k])
    requires prior == PrevOf(all, start) && Good(h, valid, all, start)
    ensures linked ==> after == start + |page| && prev == PrevOf(all, after) && Good(h, valid, all, after)
    ensures !linked ==> !Chained(h, all)
  {
    hide WellFormed, Linked;
    after, prev := start, prior;
    for i := 0 to |page|
      invariant after == start + i && prev == PrevOf(all, after) && Good(h, valid, all, after)
    {
      assert page[i] == all[after];
      LinkedByFields(h, valid, all, after);
      if page[i].sequence != after + 1 || page[i].prevHash != prev {
        return false, after, prev;
      }
      assert valid(all[after].payload) by { PayloadValid(h, valid, all[after]); }
      after, prev := page[i].sequence, page[i].hash;
    }
    return true, after, prev;
  }

  lemma PayloadValid(h: Hash, valid: string -> bool, r: Row)
    requires WellFormed(h, valid, r)
    ensures valid(r.payload)
  {
  }

  lemma BadRow(h: Hash, valid: string -> bool, all: seq<Row>, start: nat)
    requires start <= |all|
    requires exists k :: 0 <= k < |all| - start && !WellFormed(h, valid, all[start..][k])
    ensures !(AllValid(valid, all) && Chained(h, all))
  {
    var k :| 0 <= k < |all| - start && !WellFormed(h, valid, all[start..][k]);
    assert all[start..][k] == all[start + k];
    var r := all[start + k];
    assert Linked(h, all, start + k) ==> r.hash == EventHash(h, r.sequence, r.prevHash, r.kind, r.payload);
  }

  /**
   * On a table without rows at or below 0 both verifiers see the same rows; one such row is skipped by the paged
   * verifier and refused by the one-pass verifier.
   */
  lemma VerifiersDifferOnlyBelowOne(h: Hash, head: Head, rows: seq<Row>)
    requires Ordered(rows)
    ensures Verified(h, head, rows) <==>
              Verified(h, head, Above(rows, 0)) && forall k :: 0 <= k < |rows| ==> rows[k].sequence > 0
  {
    if forall k :: 0 <= k < |rows| ==> rows[k].sequence > 0 {
      AboveIsSuffix(rows, 0);
      if rows == [] { assert Above(rows, 0) == rows; }
    } else {
      var k :| 0 <= k < |rows| && rows[k].sequence <= 0;
      assert !Linked(h, rows, k);
    }
  }

  lemma VerifiedIsOrdered(h: Hash, head: Head, rows: seq<Row>)
    requires Verified(h, head, rows)
    ensures Ordered(rows) && Above(rows, 0) == rows
  {
    forall k | 0 <= k < |rows| ensures rows[k].sequence == k + 1 { assert Linked(h, rows, k); }
    AboveIsSuffix(rows, 0);
  }

  // ----- redaction

  function Relink(h: Hash, redact: string -> string, r: Row, prev: string): Row {
    var payload := redact(r.payload);
    Row(r.sequence, r.kind, payload, prev, EventHash(h, r.sequence, prev, r.kind, payload))
  }

  function Rechained(h: Hash, redact: string -> string, rows: seq<Row>): (r: seq<Row>)
    ensures |r| == |rows|
  {
    if rows == [] then []
    else
      var before := Rechained(h, redact, rows[..|rows| - 1]);
      before + [Relink(h, redact, rows[|rows| - 1], PrevOf(before, |before|))]
  }

  /** Redaction keeps the order and kinds of the events, replaces each payload, and links what it leaves. */
  lemma {:induction false} RechainedLinks(h: Hash, redact: string -> string, rows: seq<Row>, k: nat)
    requires k < |rows|
    ensures var r := Rechained(h, redact, rows);
      && r[k].sequence == rows[k].sequence && r[k].kind == rows[k].kind && r[k].payload == redact(rows[k].payload)
      && (rows[k].sequence == k + 1 ==> Linked(h, r, k))
    decreases |rows|
  {
    if k < |rows| - 1 {
      RechainedLinks(h, redact, rows[..|rows| - 1], k);
    }
  }

  /** A log that verified verifies again after redaction, under its new head. */
  lemma RechainedVerifies(h: Hash, redact: string -> string, head: Head, rows: seq<Row>)
    requires Verified(h, head, rows)
    ensures var r := Rechained(h, redact, rows); Verified(h, Head(head.sequence, PrevOf(r, |r|)), r)
  {
    var r := Rechained(h, redact, rows);
    forall k | 0 <= k < |r| ensures Linked(h, r, k) {
      assert Linked(h, rows, k);
      RechainedLinks(h, redact, rows, k);
    }
  }

  /** `Redact` rebuilds the chain over redacted payloads in place. */
  method Rechain(h: Hash, redact: string -> string, es: array<Row>) returns (head: string)
    modifies es
    ensures es[..] == Rechained(h, redact, old(es[..]))
    ensures head == PrevOf(es[..], es.Length)
  {
    hide EventHash;
    ghost var rows := es[..];
    head := "";
    for j := 0 to es.Length
      invariant es[..j] == Rechained(h, redact, rows[..j]) && es[j..] == rows[j..]
      invariant head == PrevOf(es[..j], j)
    {
      assert rows[..j + 1][..j] == rows[..j];
      es[j] := es[j].(payload := redact(es[j].payload));
      es[j] := es[j].(prevHash := head);
      es[j] := es[j].(hash := EventHash(h, es[j].sequence, head, es[j].kind, es[j].payload));
      head := es[j].hash;
      assert es[..j + 1] == es[..j] + [es[j]];
    }
    assert rows[..es.Length] == rows && es[..es.Length] == es[..];
  }
}
