/** The three writers of a game's event chain, as transactions on one game's rows, and their interleavings. */
module ChainWriters {
  import opened EventChain
  import opened Wrappers

  datatype Status = Open(name: string) | Completed | Cancelled

  /** One game: its head, its status, its events in sequence order and its snapshots by sequence. */
  datatype Db = Db(head: Head, status: Status, rows: seq<Row>, snapshots: map<int, string>)

  datatype Input = Input(kind: string, payload: string)

  datatype Refusal = Immutable | Conflict | InvalidArgument | InvalidPayload | Constraint

  type Reply<+T> = Result<T, Refusal>

  /** The store's fixed parts: its hash, and which payloads are valid. */
  datatype Codec = Codec(hash: Hash, valid: string -> bool)

  function NewRow(k: Codec, sequence: int, prev: string, input: Input): Row {
    Row(sequence, input.kind, input.payload, prev, EventHash(k.hash, sequence, prev, input.kind, input.payload))
  }

  /** The rows that the inputs become on top of a head. */
  function NewRows(k: Codec, head: Head, inputs: seq<Input>): (rows: seq<Row>)
    ensures |rows| == |inputs|
    decreases |inputs|
  {
    if inputs == [] then []
    else
      var r := NewRow(k, head.sequence + 1, head.hash, inputs[0]);
      [r] + NewRows(k, Head(r.sequence, r.hash), inputs[1..])
  }

  function HeadAfter(k: Codec, head: Head, inputs: seq<Input>): Head {
    var rows := NewRows(k, head, inputs);
    Head(head.sequence + |inputs|, if rows == [] then head.hash else rows[|rows| - 1].hash)
  }

  /** Inserting a row fails if its sequence or its hash is taken; otherwise it takes its place in the order. */
  function InsertRow(rows: seq<Row>, r: Row): Option<seq<Row>> {
    if exists i :: 0 <= i < |rows| && (rows[i].sequence == r.sequence || rows[i].hash == r.hash) then None
    else Some(Place(rows, r))
  }

  function Place(rows: seq<Row>, r: Row): seq<Row> {
    if rows == [] then [r]
    else if rows[|rows| - 1].sequence < r.sequence then rows + [r]
    else Place(rows[..|rows| - 1], r) + [rows[|rows| - 1]]
  }

  function InsertRows(rows: seq<Row>, more: seq<Row>): Option<seq<Row>>
    decreases |more|
  {
    if more == [] then Some(rows)
    else match InsertRow(rows, more[0])
      case None => None
      case Some(rows') => InsertRows(rows', more[1..])
  }

  datatype Log = Log(rows: seq<Row>, head: Head)

  /** The loop both store appends share: each input is checked, chained to the one before it and inserted. */
  function Chain(k: Codec, log: Log, inputs: seq<Input>): Reply<Log>
    decreases |inputs|
  {
    if inputs == [] then Ok(log)
    else if inputs[0].kind == "" then Err(InvalidArgument)
    else if !k.valid(inputs[0].payload) then Err(InvalidPayload)
    else
      var r := NewRow(k, log.head.sequence + 1, log.head.hash, inputs[0]);
      match InsertRow(log.rows, r)
      case None => Err(Constraint)
      case Some(rows) => Chain(k, Log(rows, Head(r.sequence, r.hash)), inputs[1..])
  }

  function Extend(k: Codec, db: Db, inputs: seq<Input>): Reply<Db> {
    match Chain(k, Log(db.rows, db.head), inputs)
    case Err(why) => Err(why)
    case Ok(log) => Ok(db.(rows := log.rows, head := log.head))
  }

  function Expecting(db: Db, expected: Head): Reply<Db> {
    if !db.status.Open? then Err(Immutable)
    else if db.head != expected then Err(Conflict)
    else Ok(db)
  }

  /** `AppendGameEvents`; no inputs means no transaction at all. */
  function AppendEvents(k: Codec, db: Db, expected: Head, inputs: seq<Input>): Reply<Db> {
    if inputs == [] then Ok(db)
    else if Expecting(db, expected).Err? then Expecting(db, expected)
    else Extend(k, db, inputs)
  }

  function AddSnapshot(db: Db, sequence: int, payload: string): Reply<Db> {
    if sequence in db.snapshots then Err(Constraint) else Ok(db.(snapshots := db.snapshots[sequence := payload]))
  }

  /** `AppendGameEventsWithSnapshot`. */
  function AppendWithSnapshot(k: Codec, db: Db, expected: Head, inputs: seq<Input>, sequence: int, snapshot: string)
    : Reply<Db>
  {
    if !k.valid(snapshot) then Err(InvalidPayload)
    else if Expecting(db, expected).Err? then Expecting(db, expected)
    else if sequence != db.head.sequence + |inputs| then Err(InvalidArgument)
    else match Extend(k, db, inputs)
      case Err(why) => Err(why)
      case Ok(db') => AddSnapshot(db', sequence, snapshot)
  }

  /** What `persistAtomic` has computed from the head it read, before its transaction. */
  datatype Plan = Plan(expected: Head, rows: seq<Row>, next: Head, snapshot: string, status: Status)

  function Prepare(k: Codec, db: Db, inputs: seq<Input>, snapshot: string, status: Status): Plan {
    Plan(db.head, NewRows(k, db.head, inputs), HeadAfter(k, db.head, inputs), snapshot, status)
  }

  /**
   * The transaction of `persistAtomic`: it inserts first, and only then asks whether the head is still the one it
   * read.
   */
  function CommitPlan(db: Db, plan: Plan): Reply<Db> {
    match InsertRows(db.rows, plan.rows)
    case None => Err(Constraint)
    case Some(rows) =>
      if db.head != plan.expected then Err(Conflict)
      else AddSnapshot(db.(rows := rows, head := plan.next, status := plan.status), plan.next.sequence, plan.snapshot)
  }

  // ----- interleavings

  /**
   * The database, what each `persistAtomic` in progress has read, and the heads that non-empty commits have replaced.
   */
  datatype World = World(db: Db, plans: map<nat, Plan>, replaced: seq<Head>)

  datatype Action =
    | DoAppend(expected: Head, inputs: seq<Input>)
    | DoAppendWithSnapshot(expected: Head, inputs: seq<Input>, sequence: int, snapshot: string)
    | DoRead(writer: nat, inputs: seq<Input>, snapshot: string, status: Status)
    | DoCommit(writer: nat)

  /** A transaction that is refused is rolled back. */
  function After(w: World, r: Reply<Db>, plans: map<nat, Plan>): World {
    match r
    case Err(_) => w.(plans := plans)
    case Ok(db) =>
      World(db, plans, if |db.rows| > |w.db.rows| then w.replaced + [w.db.head] else w.replaced)
  }

  function Next(k: Codec, w: World, a: Action): World {
    match a
    case DoAppend(expected, inputs) => After(w, AppendEvents(k, w.db, expected, inputs), w.plans)
    case DoAppendWithSnapshot(expected, inputs, sequence, snapshot) =>
      After(w, AppendWithSnapshot(k, w.db, expected, inputs, sequence, snapshot), w.plans)
    case DoRead(writer, inputs, snapshot, status) =>
      w.(plans := w.plans[writer := Prepare(k, w.db, inputs, snapshot, status)])
    case DoCommit(writer) =>
      if writer !in w.plans then w else After(w, CommitPlan(w.db, w.plans[writer]), w.plans - {writer})
  }

  /** `persistAtomic` is only given payloads from the encoder, which are valid. */
  predicate Encoded(k: Codec, a: Action) {
    a.DoRead? ==> forall i :: 0 <= i < |a.inputs| ==> k.valid(a.inputs[i].payload)
  }

  // ----- a batch on top of a chain

  /** Row i of a batch continues the batch below it, the first one the head. */
  ghost predicate ContinuesAt(k: Codec, head: Head, rows: seq<Row>, i: nat)
    requires i < |rows|
  {
    var r := rows[i];
    && r.sequence == head.sequence + i + 1
    && r.prevHash == (if i == 0 then head.hash else rows[i - 1].hash)
    && r.hash == EventHash(k.hash, r.sequence, r.prevHash, r.kind, r.payload)
  }

  ghost predicate Continues(k: Codec, head: Head, rows: seq<Row>, next: Head) {
    && next.sequence == head.sequence + |rows|
    && next.hash == (if rows == [] then head.hash else rows[|rows| - 1].hash)
    && forall i :: 0 <= i < |rows| ==> ContinuesAt(k, head, rows, i)
  }

  lemma {:induction false} NewRowsContinue(k: Codec, head: Head, inputs: seq<Input>)
    ensures Continues(k, head, NewRows(k, head, inputs), HeadAfter(k, head, inputs))
    decreases |inputs|
  {
    hide EventHash, Continues;
    if inputs == [] {
      EmptyContinues(k, head);
    } else {
      var r := NewRow(k, head.sequence + 1, head.hash, inputs[0]);
      var middle := Head(r.sequence, r.hash);
      NewRowsContinue(k, middle, inputs[1..]);
      ContinuesCons(k, head, r, NewRows(k, middle, inputs[1..]), HeadAfter(k, middle, inputs[1..]));
      HeadAfterCons(k, head, inputs);
    }
  }

  lemma EmptyContinues(k: Codec, head: Head)
    ensures Continues(k, head, [], head)
  {
  }

  lemma HeadAfterCons(k: Codec, head: Head, inputs: seq<Input>)
    requires inputs != []
    ensures var r := NewRow(k, head.sequence + 1, head.hash, inputs[0]);
      HeadAfter(k, head, inputs) == HeadAfter(k, Head(r.sequence, r.hash), inputs[1..])
  {
    hide EventHash;
  }

  lemma ContinuesCons(k: Codec, head: Head, r: Row, rest: seq<Row>, next: Head)
    requires r.sequence == head.sequence + 1 && r.prevHash == head.hash
    requires r.hash == EventHash(k.hash, r.sequence, r.prevHash, r.kind, r.payload)
    requires Continues(k, Head(r.sequence, r.hash), rest, next)
    ensures Continues(k, head, [r] + rest, next)
  {
    hide EventHash;
    var rows := [r] + rest;
    forall i | 0 <= i < |rows| ensures ContinuesAt(k, head, rows, i) {
      if i > 0 {
        assert rows[i] == rest[i - 1] && ContinuesAt(k, Head(r.sequence, r.hash), rest, i - 1);
        assert i > 1 ==> rows[i - 1] == rest[i - 2];
      }
    }
  }

  lemma {:induction false} NewRowsKeepInputs(k: Codec, head: Head, inputs: seq<Input>)
    ensures forall i :: 0 <= i < |inputs| ==>
      NewRows(k, head, inputs)[i].payload == inputs[i].payload && NewRows(k, head, inputs)[i].kind == inputs[i].kind
    decreases |inputs|
  {
    hide EventHash;
    if inputs == [] {
    } else {
      var r := NewRow(k, head.sequence + 1, head.hash, inputs[0]);
      NewRowsKeepInputs(k, Head(r.sequence, r.hash), inputs[1..]);
    }
  }

  /** Rows numbered beyond a chain's end are appended to it, unless a hash is already taken. */
  lemma {:induction false} InsertsAppend(rows: seq<Row>, more: seq<Row>)
    requires forall i :: 0 <= i < |rows| ==> rows[i].sequence == i + 1
    requires forall i :: 0 <= i < |more| ==> more[i].sequence == |rows| + i + 1
    ensures InsertRows(rows, more).Some? ==> InsertRows(rows, more).value == rows + more
    decreases |more|
  {
    if more != [] && InsertRow(rows, more[0]).Some? {
      assert Place(rows, more[0]) == rows + [more[0]];
      InsertsAppend(rows + [more[0]], more[1..]);
      assert rows + [more[0]] + more[1..] == rows + more;
    }
  }

  lemma ContinuedChain(k: Codec, head: Head, rows: seq<Row>, more: seq<Row>, next: Head)
    requires Verified(k.hash, head, rows) && Continues(k, head, more, next)
    ensures Verified(k.hash, next, rows + more)
  {
    hide EventHash;
    var all := rows + more;
    forall i | 0 <= i < |all| ensures Linked(k.hash, all, i) {
      assert 0 < i <= |rows| ==> all[i - 1] == rows[i - 1];
      if i < |rows| {
        assert Linked(k.hash, rows, i);
      } else {
        assert all[i] == more[i - |rows|] && ContinuesAt(k, head, more, i - |rows|);
        assert i > |rows| ==> all[i - 1] == more[i - |rows| - 1];
      }
    }
  }

  // ----- the invariant of every interleaving

  ghost predicate Safe(k: Codec, w: World) {
    && Verified(k.hash, w.db.head, w.db.rows) && AllValid(k.valid, w.db.rows)
    && (forall t :: t in w.plans ==> PlanFits(k, w.plans[t]))
    && HeadsAscend(w.replaced, w.db.head.sequence)
  }

  ghost predicate PlanFits(k: Codec, p: Plan) {
    Continues(k, p.expected, p.rows, p.next) && AllValid(k.valid, p.rows)
  }

  /** The replaced heads have ascending sequences below the current one: no head is replaced twice. */
  ghost predicate HeadsAscend(heads: seq<Head>, now: int) {
    && (forall i, j :: 0 <= i < j < |heads| ==> heads[i].sequence < heads[j].sequence)
    && forall i :: 0 <= i < |heads| ==> heads[i].sequence < now
  }

  /** What a committed transaction may do to a verified log: extend it by rows that verify under the new head. */
  ghost predicate Extends(k: Codec, db: Db, db': Db) {
    && db.rows <= db'.rows
    && Verified(k.hash, db'.head, db'.rows) && AllValid(k.valid, db'.rows)
    && (|db'.rows| == |db.rows| ==> db'.head == db.head)
  }

  /** A committed loop has inserted exactly the rows that its inputs become on top of the head. */
  lemma {:induction false} ChainInserts(k: Codec, log: Log, inputs: seq<Input>)
    requires Chain(k, log, inputs).Ok?
    ensures var end := Chain(k, log, inputs).value;
      && InsertRows(log.rows, NewRows(k, log.head, inputs)) == Some(end.rows)
      && end.head == HeadAfter(k, log.head, inputs)
    ensures forall i :: 0 <= i < |inputs| ==> k.valid(inputs[i].payload) && inputs[i].kind != ""
    decreases |inputs|
  {
    hide EventHash, InsertRow;
    if inputs == [] {
    } else {
      var r := NewRow(k, log.head.sequence + 1, log.head.hash, inputs[0]);
      ChainInserts(k, Log(InsertRow(log.rows, r).value, Head(r.sequence, r.hash)), inputs[1..]);
      HeadAfterCons(k, log.head, inputs);
      assert NewRows(k, log.head, inputs)[1..] == NewRows(k, Head(r.sequence, r.hash), inputs[1..]);
    }
  }

  lemma RowsExtend(k: Codec, db: Db, rows: seq<Row>, next: Head, db': Db)
    requires Verified(k.hash, db.head, db.rows) && AllValid(k.valid, db.rows)
    requires Continues(k, db.head, rows, next) && AllValid(k.valid, rows)
    requires InsertRows(db.rows, rows) == Some(db'.rows) && db'.head == next
    ensures Extends(k, db, db')
  {
    hide EventHash, InsertRows;
    forall i | 0 <= i < |db.rows| ensures db.rows[i].sequence == i + 1 {
      assert Linked(k.hash, db.rows, i);
    }
    forall i | 0 <= i < |rows| ensures rows[i].sequence == |db.rows| + i + 1 {
      assert ContinuesAt(k, db.head, rows, i);
    }
    InsertsAppend(db.rows, rows);
    ContinuedChain(k, db.head, db.rows, rows, next);
    LastHash(k, db.head, db.rows, rows, next);
  }

  lemma LastHash(k: Codec, head: Head, rows: seq<Row>, more: seq<Row>, next: Head)
    requires Continues(k, head, more, next)
    ensures more == [] ==> next == head
  {
  }

  lemma ExtendExtends(k: Codec, db: Db, inputs: seq<Input>)
    requires Verified(k.hash, db.head, db.rows) && AllValid(k.valid, db.rows) && Extend(k, db, inputs).Ok?
    ensures Extends(k, db, Extend(k, db, inputs).value)
  {
    hide Verified, Continues, NewRows, InsertRows, Extends, HeadAfter;
    ChainInserts(k, Log(db.rows, db.head), inputs);
    NewRowsContinue(k, db.head, inputs);
    NewRowsKeepInputs(k, db.head, inputs);
    RowsExtend(k, db, NewRows(k, db.head, inputs), HeadAfter(k, db.head, inputs), Extend(k, db, inputs).value);
  }

  lemma PlanExtends(k: Codec, db: Db, plan: Plan)
    requires Verified(k.hash, db.head, db.rows) && AllValid(k.valid, db.rows) && PlanFits(k, plan)
    requires CommitPlan(db, plan).Ok?
    ensures Extends(k, db, CommitPlan(db, plan).value) && db.head == plan.expected
  {
    hide Verified, Continues, InsertRows, Extends;
    var rows := InsertRows(db.rows, plan.rows).value;
    var mid := db.(rows := rows, head := plan.next, status := plan.status);
    RowsExtend(k, db, plan.rows, plan.next, mid);
    SameLog(k, db, mid, CommitPlan(db, plan).value);
  }

  lemma SameLog(k: Codec, db: Db, mid: Db, db': Db)
    requires Extends(k, db, mid) && db'.rows == mid.rows && db'.head == mid.head
    ensures Extends(k, db, db')
  {
  }

  /**
   * One step of any interleaving: the log is extended or left alone, it still verifies, and no head is replaced
   * twice.
   */
  lemma StepIsSafe(k: Codec, w: World, a: Action)
    requires Safe(k, w) && Encoded(k, a)
    ensures Safe(k, Next(k, w, a)) && w.db.rows <= Next(k, w, a).db.rows
  {
    hide Verified, AllValid, Continues, NewRows, Extend, CommitPlan, Extends, HeadAfter;
    match a
    case DoAppend(expected, inputs) =>
      var r := AppendEvents(k, w.db, expected, inputs);
      if r.Ok? {
        if inputs == [] { NothingExtends(k, w.db); } else { ExtendExtends(k, w.db, inputs); }
        CommitIsSafe(k, w, r.value, w.plans);
      }
    case DoAppendWithSnapshot(expected, inputs, sequence, snapshot) =>
      var r := AppendWithSnapshot(k, w.db, expected, inputs, sequence, snapshot);
      if r.Ok? {
        ExtendExtends(k, w.db, inputs);
        SameLog(k, w.db, Extend(k, w.db, inputs).value, r.value);
        CommitIsSafe(k, w, r.value, w.plans);
      }
    case DoRead(writer, inputs, snapshot, status) =>
      NewRowsContinue(k, w.db.head, inputs);
      PreparedFits(k, w.db, inputs, snapshot, status);
    case DoCommit(writer) =>
      if writer in w.plans && CommitPlan(w.db, w.plans[writer]).Ok? {
        PlanExtends(k, w.db, w.plans[writer]);
        CommitIsSafe(k, w, CommitPlan(w.db, w.plans[writer]).value, w.plans - {writer});
      }
  }

  lemma PreparedFits(k: Codec, db: Db, inputs: seq<Input>, snapshot: string, status: Status)
    requires forall i :: 0 <= i < |inputs| ==> k.valid(inputs[i].payload)
    ensures PlanFits(k, Prepare(k, db, inputs, snapshot, status))
  {
    hide Continues;
    NewRowsContinue(k, db.head, inputs);
    NewRowsKeepInputs(k, db.head, inputs);
  }

  lemma NothingExtends(k: Codec, db: Db)
    requires Verified(k.hash, db.head, db.rows) && AllValid(k.valid, db.rows)
    ensures Extends(k, db, db)
  {
  }

  lemma CommitIsSafe(k: Codec, w: World, db: Db, plans: map<nat, Plan>)
    requires Safe(k, w) && Extends(k, w.db, db) && forall t :: t in plans ==> t in w.plans && plans[t] == w.plans[t]
    ensures Safe(k, After(w, Ok(db), plans)) && w.db.rows <= db.rows
  {
    hide Continues, Linked;
  }

  ghost function Interleaving(k: Codec, w: World, actions: seq<Action>): World
    decreases |actions|
  {
    if actions == [] then w else Interleaving(k, Next(k, w, actions[0]), actions[1..])
  }

  /**
   * In every interleaving of the three writers each committed log extends the one before it, every reachable log
   * verifies under its head, and each head is replaced by at most one non-empty commit.
   */
  lemma {:induction false} InterleavingsAreSafe(k: Codec, w: World, actions: seq<Action>)
    requires Safe(k, w) && forall i :: 0 <= i < |actions| ==> Encoded(k, actions[i])
    ensures var w' := Interleaving(k, w, actions);
      && Safe(k, w') && w.db.rows <= w'.db.rows
      && Verified(k.hash, w'.db.head, w'.db.rows)
      && forall i, j :: 0 <= i < j < |w'.replaced| ==> w'.replaced[i] != w'.replaced[j]
    decreases |actions|
  {
    hide Next, Encoded, Linked;
    if actions == [] {
    } else {
      StepIsSafe(k, w, actions[0]);
      InterleavingsAreSafe(k, Next(k, w, actions[0]), actions[1..]);
    }
  }

  /**
   * So every reachable log is accepted by the paged verifier, as `VerifyEventChain` specifies it, and by the one-pass
   * one.
   */
  lemma ReachableLogsPassBothVerifiers(k: Codec, status: Status, actions: seq<Action>)
    requires forall i :: 0 <= i < |actions| ==> Encoded(k, actions[i])
    ensures var db := Interleaving(k, World(Db(Head(0, ""), status, [], map[]), map[], []), actions).db;
      && Ordered(db.rows) && Verified(k.hash, db.head, db.rows)
      && AllValid(k.valid, Above(db.rows, 0)) && Verified(k.hash, db.head, Above(db.rows, 0))
  {
    hide Interleaving, Linked;
    var w := World(Db(Head(0, ""), status, [], map[]), map[], []);
    NewGameIsSafe(k, status);
    InterleavingsAreSafe(k, w, actions);
    var db := Interleaving(k, w, actions).db;
    VerifiedIsOrdered(k.hash, db.head, db.rows);
  }

  /** A writer that read the head before another writer's non-empty commit is refused. */
  lemma StaleWriterIsRefused(k: Codec, w: World, a: Action, plan: Plan)
    requires Safe(k, w) && Encoded(k, a) && plan.expected == w.db.head && |Next(k, w, a).db.rows| > |w.db.rows|
    ensures CommitPlan(Next(k, w, a).db, plan).Err?
    ensures forall inputs :: inputs != [] ==> AppendEvents(k, Next(k, w, a).db, plan.expected, inputs).Err?
  {
    hide Next, Linked, InsertRows, Extend;
    StepIsSafe(k, w, a);
    assert Next(k, w, a).db.head.sequence > w.db.head.sequence;
  }

  /** A new game has an empty log and an empty head. */
  lemma NewGameIsSafe(k: Codec, status: Status)
    ensures Safe(k, World(Db(Head(0, ""), status, [], map[]), map[], []))
  {
  }
}
