/** What is hashed, what verifies, and what the writers commit and refuse, spelled out in the rows themselves. */
module ChainLaws {
  import opened EventChain
  import opened ChainWriters
  import opened Wrappers

  // ----- what is hashed

  /** The number that a text of digits denotes. */
  function NumberOf(s: string): int {
    if s == "" then 0 else 10 * NumberOf(s[..|s| - 1]) + (s[|s| - 1] as int - '0' as int)
  }

  ghost predicate IsDecimal(s: string) {
    && |s| > 0 && (forall i :: 0 <= i < |s| ==> '0' <= s[i] <= '9') && (|s| > 1 ==> s[0] != '0')
  }

  /** Numbers are written in decimal, without leading zeros, and with a minus sign below zero. */
  lemma {:induction false} DecimalReads(n: nat)
    ensures IsDecimal(Decimal(n)) && NumberOf(Decimal(n)) == n
    ensures n > 0 ==> Decimal(n)[0] != '0'
    decreases n
  {
    DigitReads(n % 10);
    if n < 10 {
      assert Decimal(n)[..0] == "";
    } else {
      DecimalReads(n / 10);
      var s := Decimal(n);
      assert s[..|s| - 1] == Decimal(n / 10);
    }
  }

  lemma DigitReads(d: int)
    requires 0 <= d < 10
    ensures '0' <= Digit(d) <= '9' && Digit(d) as int - '0' as int == d && (d > 0 ==> Digit(d) != '0')
  {
  }

  lemma NumberReads(i: int)
    ensures if i >= 0 then IsDecimal(Number(i)) && NumberOf(Number(i)) == i
            else Number(i)[..1] == "-" && IsDecimal(Number(i)[1..]) && NumberOf(Number(i)[1..]) == -i
  {
    if i >= 0 { DecimalReads(i); } else { DecimalReads(-i); }
  }

  /** The hash of the seventh event, of kind "move" and with payload {}, after one whose hash is ab. */
  lemma KnownEncoding(h: Hash)
    ensures EventHash(h, 7, "ab", "move", "{}") == h("7\0ab\0move\0{}")
    ensures EventHash(h, 10, "", "", "") == h("10\0\0\0")
  {
    assert Encode(7, "ab", "move", "{}") == "7\0ab\0move\0{}";
    assert Decimal(10) == "10";
    assert Encode(10, "", "", "") == "10\0\0\0";
  }

  // ----- what verifies

  ghost function HashBefore(start: string, rows: seq<Row>, k: nat): string
    requires k <= |rows|
  {
    if k > 0 then rows[k - 1].hash else start
  }

  /** The rows are numbered on from n, and each carries the hash before it and the hash of its own four fields. */
  ghost predicate Follow(h: Hash, n: int, start: string, rows: seq<Row>) {
    forall k :: 0 <= k < |rows| ==>
      && rows[k].sequence == n + k + 1 && rows[k].prevHash == HashBefore(start, rows, k)
      && rows[k].hash ==
          h(Number(rows[k].sequence) + "\0" + rows[k].prevHash + "\0" + rows[k].kind + "\0" + rows[k].payload)
  }

  /** A log verifies if its rows follow each other from 1 and the empty hash, and the head is the last of them. */
  lemma VerifiedMeans(h: Hash, head: Head, rows: seq<Row>)
    ensures Verified(h, head, rows) <==>
              Follow(h, 0, "", rows) && head.sequence == |rows| && head.hash == HashBefore("", rows, |rows|)
  {
    forall k | 0 <= k < |rows|
      ensures Linked(h, rows, k) <==>
              && rows[k].sequence == 0 + k + 1 && rows[k].prevHash == HashBefore("", rows, k)
              && rows[k].hash ==
                  h(Number(rows[k].sequence) + "\0" + rows[k].prevHash + "\0" + rows[k].kind + "\0" + rows[k].payload)
    {
      HashedText(rows[k].sequence, rows[k].prevHash, rows[k].kind, rows[k].payload);
    }
  }

  lemma HashedText(sequence: int, prev: string, kind: string, payload: string)
    ensures Encode(sequence, prev, kind, payload) == Number(sequence) + "\0" + prev + "\0" + kind + "\0" + payload
  {
    assert [NUL] == "\0";
  }

  // ----- what is listed

  /** A page limit from 1 to 1000 is taken as it is; any other means a hundred rows. */
  lemma PageLimits(limit: int)
    ensures 1 <= limit <= 1000 ==> PageLimit(limit) == limit
    ensures !(1 <= limit <= 1000) ==> PageLimit(limit) == 100
  {
  }

  /** The rows above a number are all those with a greater one, in their order. */
  lemma {:induction false} AboveExactly(rows: seq<Row>, after: int)
    requires Ordered(rows)
    ensures Ordered(Above(rows, after))
    ensures forall r :: r in Above(rows, after) <==> r in rows && r.sequence > after
    decreases |rows|
  {
    AboveOrdered(rows, after);
    if rows == [] {
    } else {
      AboveExactly(rows[1..], after);
      assert rows == [rows[0]] + rows[1..];
    }
  }

  // ----- what the writers commit

  /** The log has grown by one row for each input, which follow each other from the head; the last is the new head. */
  ghost predicate Grown(h: Hash, db: Db, inputs: seq<Input>, db': Db) {
    && |db'.rows| == |db.rows| + |inputs| && db'.rows[..|db.rows|] == db.rows
    && var more := db'.rows[|db.rows|..];
    && Follow(h, db.head.sequence, db.head.hash, more)
    && (forall i :: 0 <= i < |inputs| ==> more[i].kind == inputs[i].kind && more[i].payload == inputs[i].payload)
    && db'.head == Head(db.head.sequence + |inputs|, HashBefore(db.head.hash, more, |more|))
  }

  lemma FollowIsContinues(k: Codec, head: Head, rows: seq<Row>, next: Head)
    ensures Continues(k, head, rows, next) <==>
              && Follow(k.hash, head.sequence, head.hash, rows)
              && next == Head(head.sequence + |rows|, HashBefore(head.hash, rows, |rows|))
  {
    forall i | 0 <= i < |rows| { HashedText(rows[i].sequence, rows[i].prevHash, rows[i].kind, rows[i].payload); }
    if Continues(k, head, rows, next) {
      forall i | 0 <= i < |rows|
        ensures rows[i].sequence == head.sequence + i + 1 && rows[i].prevHash == HashBefore(head.hash, rows, i)
        ensures rows[i].hash ==
                k.hash(Number(rows[i].sequence) + "\0" + rows[i].prevHash + "\0"
                       + rows[i].kind + "\0" + rows[i].payload)
      {
        assert ContinuesAt(k, head, rows, i);
      }
    }
    if Follow(k.hash, head.sequence, head.hash, rows) {
      forall i | 0 <= i < |rows| ensures ContinuesAt(k, head, rows, i) {
        assert rows[i].sequence == head.sequence + i + 1;
      }
    }
  }

  lemma InsertedRowsGrow(k: Codec, db: Db, inputs: seq<Input>, db': Db)
    requires Verified(k.hash, db.head, db.rows)
    requires InsertRows(db.rows, NewRows(k, db.head, inputs)) == Some(db'.rows)
    requires db'.head == HeadAfter(k, db.head, inputs)
    ensures Grown(k.hash, db, inputs, db')
  {
    hide EventHash, InsertRows, Continues, NewRows, HeadAfter, Follow;
    var more := NewRows(k, db.head, inputs);
    NewRowsContinue(k, db.head, inputs);
    NewRowsKeepInputs(k, db.head, inputs);
    FollowIsContinues(k, db.head, more, db'.head);
    forall i | 0 <= i < |db.rows| ensures db.rows[i].sequence == i + 1 { assert Linked(k.hash, db.rows, i); }
    forall i | 0 <= i < |more| ensures more[i].sequence == |db.rows| + i + 1 {
      FollowNumbers(k.hash, db.head, more, i);
    }
    InsertsAppend(db.rows, more);
    assert db'.rows[|db.rows|..] == more;
  }

  lemma FollowNumbers(h: Hash, head: Head, rows: seq<Row>, i: nat)
    requires Follow(h, head.sequence, head.hash, rows) && i < |rows|
    ensures rows[i].sequence == head.sequence + i + 1
  {
  }

  /** No row's hash is that of another row. */
  ghost predicate HashesDiffer(rows: seq<Row>) {
    forall i, j :: 0 <= i < j < |rows| ==> rows[i].hash != rows[j].hash
  }

  /**
   * Rows numbered on from the end are inserted unless a hash comes up a second time.
   */
  lemma {:induction false} InsertedUnlessRepeated(rows: seq<Row>, more: seq<Row>)
    requires forall i :: 0 <= i < |rows| ==> rows[i].sequence == i + 1
    requires forall i :: 0 <= i < |more| ==> more[i].sequence == |rows| + i + 1
    requires HashesDiffer(rows)
    ensures InsertRows(rows, more).Some? <==> HashesDiffer(rows + more)
    decreases |more|
  {
    if more == [] {
      assert rows + more == rows;
    } else {
      var all := rows + more;
      assert all[|rows|] == more[0];
      assert forall i :: 0 <= i < |rows| ==> all[i] == rows[i];
      if InsertRow(rows, more[0]).Some? {
        assert Place(rows, more[0]) == rows + [more[0]];
        InsertedUnlessRepeated(rows + [more[0]], more[1..]);
        assert rows + [more[0]] + more[1..] == all;
      }
    }
  }

  /**
   * What `AppendGameEvents` answers on a log that verifies: nothing to do without inputs; refused if the game has
   * ended, and then if the head is not the one expected; refused for the first input without a kind or with a bad
   * payload; and otherwise committed, unless a hash comes up a second time.
   */
  lemma AppendAnswers(k: Codec, db: Db, expected: Head, inputs: seq<Input>)
    requires Verified(k.hash, db.head, db.rows) && HashesDiffer(db.rows)
    ensures var r := AppendEvents(k, db, expected, inputs);
      if inputs == [] then r == Ok(db)
      else if !db.status.Open? then r == Err(Immutable)
      else if db.head.sequence != expected.sequence || db.head.hash != expected.hash then r == Err(Conflict)
      else Extended(k, db, inputs, r)
  {
    hide Extend, Extended;
    ExtendAnswers(k, db, inputs);
  }

  /** The rows of the inputs are all good, and are inserted or refused for a hash that comes up a second time. */
  ghost predicate Extended(k: Codec, db: Db, inputs: seq<Input>, r: ChainWriters.Reply<Db>) {
    match r
    case Ok(db') =>
      && (forall i :: 0 <= i < |inputs| ==> inputs[i].kind != "" && k.valid(inputs[i].payload))
      && Grown(k.hash, db, inputs, db') && HashesDiffer(db'.rows)
      && db'.status == db.status && db'.snapshots == db.snapshots
    case Err(why) =>
      match why
      case InvalidArgument => exists i :: 0 <= i < |inputs| && inputs[i].kind == ""
      case InvalidPayload => exists i :: 0 <= i < |inputs| && inputs[i].kind != "" && !k.valid(inputs[i].payload)
      case Constraint => !HashesDiffer(db.rows + NewRows(k, db.head, inputs))
      case _ => false
  }

  lemma {:induction false} ChainRefuses(k: Codec, log: Log, inputs: seq<Input>)
    requires Chain(k, log, inputs).Err?
    ensures match Chain(k, log, inputs).error
      case InvalidArgument => exists i :: 0 <= i < |inputs| && inputs[i].kind == ""
      case InvalidPayload => exists i :: 0 <= i < |inputs| && inputs[i].kind != "" && !k.valid(inputs[i].payload)
      case Constraint => InsertRows(log.rows, NewRows(k, log.head, inputs)).None?
      case _ => false
    decreases |inputs|
  {
    hide EventHash, InsertRow;
    if inputs == [] {
    } else if inputs[0].kind != "" && k.valid(inputs[0].payload) {
      var r := NewRow(k, log.head.sequence + 1, log.head.hash, inputs[0]);
      assert NewRows(k, log.head, inputs) == [r] + NewRows(k, Head(r.sequence, r.hash), inputs[1..]);
      if InsertRow(log.rows, r).Some? {
        ChainRefuses(k, Log(InsertRow(log.rows, r).value, Head(r.sequence, r.hash)), inputs[1..]);
        var rest := inputs[1..];
        assert forall i :: 0 <= i < |rest| ==> rest[i] == inputs[i + 1];
      }
    }
  }

  lemma ExtendAnswers(k: Codec, db: Db, inputs: seq<Input>)
    requires Verified(k.hash, db.head, db.rows) && HashesDiffer(db.rows)
    ensures Extended(k, db, inputs, Extend(k, db, inputs))
  {
    hide EventHash, InsertRows, NewRows, HeadAfter, Chain, Grown, Follow, HashesDiffer, Continues;
    var log := Log(db.rows, db.head);
    var more := NewRows(k, db.head, inputs);
    NewRowsContinue(k, db.head, inputs);
    FollowIsContinues(k, db.head, more, HeadAfter(k, db.head, inputs));
    forall i | 0 <= i < |db.rows| ensures db.rows[i].sequence == i + 1 { assert Linked(k.hash, db.rows, i); }
    forall i | 0 <= i < |more| ensures more[i].sequence == |db.rows| + i + 1 {
      FollowNumbers(k.hash, db.head, more, i);
    }
    InsertedUnlessRepeated(db.rows, more);
    InsertsAppend(db.rows, more);
    if Chain(k, log, inputs).Ok? {
      ChainInserts(k, log, inputs);
      InsertedRowsGrow(k, db, inputs, Extend(k, db, inputs).value);
    } else {
      ChainRefuses(k, log, inputs);
    }
  }

  /**
   * `AppendGameEventsWithSnapshot` looks at the snapshot's payload first and at its sequence after the head; it
   * commits the rows, if any, together with one snapshot for the new head.
   */
  lemma SnapshotAppendAnswers(k: Codec, db: Db, expected: Head, inputs: seq<Input>, sequence: int, snapshot: string)
    requires Verified(k.hash, db.head, db.rows) && HashesDiffer(db.rows)
    ensures var r := AppendWithSnapshot(k, db, expected, inputs, sequence, snapshot);
      if !k.valid(snapshot) then r == Err(InvalidPayload)
      else if !db.status.Open? then r == Err(Immutable)
      else if db.head.sequence != expected.sequence || db.head.hash != expected.hash then r == Err(Conflict)
      else if sequence != |db.rows| + |inputs| then r == Err(InvalidArgument)
      else if r.Ok? then
        && r.value.head.sequence == sequence && sequence !in db.snapshots
        && r.value.snapshots == db.snapshots[sequence := snapshot]
        && Extended(k, db, inputs, Ok(r.value.(snapshots := db.snapshots)))
      else Extended(k, db, inputs, r) || (r == Err(Constraint) && sequence in db.snapshots)
  {
    hide Extend, Follow, HashesDiffer, HashBefore;
    ExtendAnswers(k, db, inputs);
  }

  /**
   * What the match commits: its plan's rows and head under the plan's status, with a snapshot for the new head, and
   * only if the head is still the one the plan was made for.
   */
  lemma CommitAnswers(k: Codec, db: Db, then': Db, inputs: seq<Input>, snapshot: string, status: Status)
    requires Verified(k.hash, db.head, db.rows)
    ensures var r := CommitPlan(db, Prepare(k, then', inputs, snapshot, status));
      && (r.Ok? <==> db.head == then'.head && InsertRows(db.rows, NewRows(k, then'.head, inputs)).Some?
                     && db.head.sequence + |inputs| !in db.snapshots)
      && (r.Ok? ==> Grown(k.hash, db, inputs, r.value) && r.value.status == status
                    && r.value.snapshots == db.snapshots[db.head.sequence + |inputs| := snapshot])
      && (r.Err? ==> r.error == Conflict || r.error == Constraint)
      && (r.Err? && r.error == Conflict ==> db.head != then'.head)
  {
    hide EventHash, InsertRows, NewRows, Grown, Linked;
    var plan := Prepare(k, then', inputs, snapshot, status);
    var r := CommitPlan(db, plan);
    if r.Ok? {
      InsertedRowsGrow(k, db, inputs, db.(rows := r.value.rows, head := r.value.head));
      GrownReads(k.hash, db, inputs, db.(rows := r.value.rows, head := r.value.head), r.value);
    }
  }

  lemma GrownReads(h: Hash, db: Db, inputs: seq<Input>, a: Db, b: Db)
    requires Grown(h, db, inputs, a) && b.rows == a.rows && b.head == a.head
    ensures Grown(h, db, inputs, b)
  {
  }

  lemma PlanKeepsHashes(k: Codec, db: Db, plan: Plan)
    requires Verified(k.hash, db.head, db.rows) && HashesDiffer(db.rows) && PlanFits(k, plan)
    requires CommitPlan(db, plan).Ok?
    ensures HashesDiffer(CommitPlan(db, plan).value.rows)
  {
    hide EventHash, InsertRows, HashesDiffer;
    forall i | 0 <= i < |db.rows| ensures db.rows[i].sequence == i + 1 { assert Linked(k.hash, db.rows, i); }
    forall i | 0 <= i < |plan.rows| ensures plan.rows[i].sequence == |db.rows| + i + 1 {
      assert ContinuesAt(k, db.head, plan.rows, i);
    }
    InsertedUnlessRepeated(db.rows, plan.rows);
    InsertsAppend(db.rows, plan.rows);
  }

  lemma NextKeepsHashes(k: Codec, w: World, a: Action)
    requires Safe(k, w) && Encoded(k, a) && HashesDiffer(w.db.rows)
    ensures HashesDiffer(Next(k, w, a).db.rows)
  {
    hide Verified, AllValid, Continues, NewRows, Extend, CommitPlan, HeadAfter, HashesDiffer, Grown, Prepare;
    match a
    case DoAppend(expected, inputs) => AppendAnswers(k, w.db, expected, inputs);
    case DoAppendWithSnapshot(expected, inputs, sequence, snapshot) =>
      SnapshotAppendAnswers(k, w.db, expected, inputs, sequence, snapshot);
    case DoRead(writer, inputs, snapshot, status) =>
    case DoCommit(writer) =>
      if writer in w.plans && CommitPlan(w.db, w.plans[writer]).Ok? {
        PlanKeepsHashes(k, w.db, w.plans[writer]);
      }
  }

  /** In every interleaving of the writers no two stored events have the same hash. */
  lemma {:induction false} StoredHashesDiffer(k: Codec, w: World, actions: seq<Action>)
    requires Safe(k, w) && HashesDiffer(w.db.rows) && forall i :: 0 <= i < |actions| ==> Encoded(k, actions[i])
    ensures HashesDiffer(Interleaving(k, w, actions).db.rows)
    decreases |actions|
  {
    hide Next, Encoded, Safe, HashesDiffer;
    if actions == [] {
    } else {
      StepIsSafe(k, w, actions[0]);
      NextKeepsHashes(k, w, actions[0]);
      StoredHashesDiffer(k, Next(k, w, actions[0]), actions[1..]);
    }
  }
}
