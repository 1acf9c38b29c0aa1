/** The stored head and log of one game, advanced in place by the three writers that ChainWriters specifies. */
module GameStore {
  import opened EventChain
  import opened ChainWriters
  import opened Wrappers

  class Store {
    const codec: Codec
    var head: Head
    var status: Status
    var rows: seq<Row>
    var snapshots: map<int, string>

    ghost function Value(): Db
      reads this
    {
      Db(head, status, rows, snapshots)
    }

    constructor (codec: Codec, status: Status)
      ensures this.codec == codec && Value() == Db(Head(0, ""), status, [], map[])
    {
      this.codec, this.status := codec, status;
      head, rows, snapshots := Head(0, ""), [], map[];
    }

    /** A transaction's inserts: nothing is stored until it commits. */
    method Insert(inputs: seq<Input>) returns (r: Reply<Log>)
      ensures r == Chain(codec, Log(rows, head), inputs)
    {
      hide EventHash, InsertRow;
      var log := Log(rows, head);
      for i := 0 to |inputs|
        invariant Chain(codec, log, inputs[i..]) == Chain(codec, Log(rows, head), inputs)
      {
        assert inputs[i..][0] == inputs[i] && inputs[i..][1..] == inputs[i + 1..];
        var input := inputs[i];
        if input.kind == "" {
          return Err(InvalidArgument);
        }
        if !codec.valid(input.payload) {
          return Err(InvalidPayload);
        }
        var sequence := log.head.sequence + 1;
        var hash := EventHash(codec.hash, sequence, log.head.hash, input.kind, input.payload);
        var inserted := InsertRow(log.rows, Row(sequence, input.kind, input.payload, log.head.hash, hash));
        if inserted.None? {
          return Err(Constraint);
        }
        log := Log(inserted.value, Head(sequence, hash));
      }
      return Ok(log);
    }

    method AppendGameEvents(expected: Head, inputs: seq<Input>) returns (refusal: Option<Refusal>)
      modifies this
      ensures match AppendEvents(codec, old(Value()), expected, inputs)
        case Ok(db) => refusal == None && Value() == db
        case Err(why) => refusal == Some(why) && Value() == old(Value())
    {
      hide Chain;
      if |inputs| == 0 {
        return None;
      }
      if !status.Open? {
        return Some(Immutable);
      }
      if head != expected {
        return Some(Conflict);
      }
      var r := Insert(inputs);
      if r.Err? {
        return Some(r.error);
      }
      rows, head := r.value.rows, r.value.head;
      return None;
    }

    method AppendGameEventsWithSnapshot(expected: Head, inputs: seq<Input>, sequence: int, snapshot: string)
      returns (refusal: Option<Refusal>)
      modifies this
      ensures match AppendWithSnapshot(codec, old(Value()), expected, inputs, sequence, snapshot)
        case Ok(db) => refusal == None && Value() == db
        case Err(why) => refusal == Some(why) && Value() == old(Value())
    {
      hide Chain;
      if !codec.valid(snapshot) {
        return Some(InvalidPayload);
      }
      if !status.Open? {
        return Some(Immutable);
      }
      if head != expected {
        return Some(Conflict);
      }
      if sequence != head.sequence + |inputs| {
        return Some(InvalidArgument);
      }
      var r := Insert(inputs);
      if r.Err? {
        return Some(r.error);
      }
      if sequence in snapshots {
        return Some(Constraint);
      }
      rows, head := r.value.rows, r.value.head;
      snapshots := snapshots[sequence := snapshot];
      return None;
    }

    /** The first half of `persistAtomic`: read the head and build the chain outside any transaction. */
    method ReadAndChain(inputs: seq<Input>, snapshot: string, status: Status) returns (plan: Plan)
      ensures plan == Prepare(codec, Value(), inputs, snapshot, status)
    {
      hide NewRow, NewRows;
      NewRowsEnd(codec, head);
      var next := head;
      var built: seq<Row> := [];
      for i := 0 to |inputs|
        invariant built + NewRows(codec, next, inputs[i..]) == NewRows(codec, head, inputs)
        invariant next == Head(head.sequence + i, if built == [] then head.hash else built[|built| - 1].hash)
        invariant |built| == i
      {
        var r := NewRow(codec, next.sequence + 1, next.hash, inputs[i]);
        NewRowsStep(codec, next, inputs, i, built);
        built := built + [r];
        next := Head(r.sequence, r.hash);
      }
      NewRowsEnd(codec, next);
      assert inputs[|inputs|..] == [] && built + [] == built;
      return Plan(head, built, next, snapshot, status);
    }

    /** The second half: insert the rows, then require that the head is still the one that was read. */
    method Commit(plan: Plan) returns (refusal: Option<Refusal>)
      modifies this
      ensures match CommitPlan(old(Value()), plan)
        case Ok(db) => refusal == None && Value() == db
        case Err(why) => refusal == Some(why) && Value() == old(Value())
    {
      hide InsertRow;
      var stored := rows;
      for i := 0 to |plan.rows|
        invariant InsertRows(stored, plan.rows[i..]) == InsertRows(rows, plan.rows)
      {
        assert plan.rows[i..][0] == plan.rows[i] && plan.rows[i..][1..] == plan.rows[i + 1..];
        var inserted := InsertRow(stored, plan.rows[i]);
        if inserted.None? {
          return Some(Constraint);
        }
        stored := inserted.value;
      }
      if head != plan.expected {
        return Some(Conflict);
      }
      if plan.next.sequence in snapshots {
        return Some(Constraint);
      }
      rows, head, status := stored, plan.next, plan.status;
      snapshots := snapshots[plan.next.sequence := plan.snapshot];
      return None;
    }
  }

  lemma NewRowsEnd(codec: Codec, head: Head)
    ensures NewRows(codec, head, []) == []
  {
  }

  lemma NewRowsStep(codec: Codec, next: Head, inputs: seq<Input>, i: nat, built: seq<Row>)
    requires i < |inputs|
    ensures var r := NewRow(codec, next.sequence + 1, next.hash, inputs[i]);
      && r.sequence == next.sequence + 1
      && built + NewRows(codec, next, inputs[i..]) ==
          (built + [r]) + NewRows(codec, Head(r.sequence, r.hash), inputs[i + 1..])
  {
    hide EventHash;
    assert inputs[i..][0] == inputs[i] && inputs[i..][1..] == inputs[i + 1..];
  }
}
