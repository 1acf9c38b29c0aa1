/** What each kind of thread does to the flags, step by step, whatever other threads do to them in between. */
module DrainLaws {
  import opened Wrappers
  import opened Drain

  /** The steps of one thread: its k-th step finds the flags as the k-th of `found`. */
  ghost function At(pc: Pc, found: seq<Flags>): Pc
    decreases |found|
  {
    if found == [] then pc else At(Act(found[0], pc).pc, found[1..])
  }

  /** What the thread's step after those makes of the flags f. */
  ghost function Leaves(pc: Pc, found: seq<Flags>, f: Flags): Flags {
    Act(f, At(pc, found)).flags
  }

  lemma AtOne(pc: Pc, a: Flags)
    ensures At(pc, [a]) == Act(a, pc).pc
  {
    assert [a][1..] == [];
  }

  lemma AtTwo(pc: Pc, a: Flags, b: Flags)
    ensures At(pc, [a, b]) == Act(b, Act(a, pc).pc).pc
  {
    assert [a, b][1..] == [b];
    AtOne(Act(a, pc).pc, b);
  }

  lemma AtThree(pc: Pc, a: Flags, b: Flags, c: Flags)
    ensures At(pc, [a, b, c]) == Act(c, Act(b, Act(a, pc).pc).pc).pc
  {
    assert [a, b, c][1..] == [b, c];
    AtTwo(Act(a, pc).pc, b, c);
  }

  lemma AtFour(pc: Pc, a: Flags, b: Flags, c: Flags, d: Flags)
    ensures At(pc, [a, b, c, d]) == Act(d, Act(c, Act(b, Act(a, pc).pc).pc).pc).pc
  {
    assert [a, b, c, d][1..] == [b, c, d];
    AtThree(Act(a, pc).pc, b, c, d);
  }

  /**
   * A pause request stores its target, then raises its flag, and then tries to become the owner who drains; an abort
   * request raises its flag and then tries the same.
   */
  lemma RequestsRaiseFlags(value: bool, a: Flags, b: Flags, c: Flags)
    ensures Leaves(PauseStart(value), [], a) == a.(pauseTarget := value, pauseAsked := true, pauseDropped := false)
    ensures Leaves(PauseStart(value), [a], b) == b.(pauseRequested := true)
    ensures Leaves(PauseStart(value), [a, b], c) == c.(inFlight := true)
    ensures At(PauseStart(value), [a, b, c]) == if c.inFlight then Finished else TakeAbort
    ensures Leaves(AbortStart, [], a) == a.(abortRequested := true, abortOwed := true)
    ensures Leaves(AbortStart, [a], b) == b.(inFlight := true)
    ensures At(AbortStart, [a, b]) == if b.inFlight then Finished else TakeAbort
  {
    AtOne(PauseStart(value), a);
    AtTwo(PauseStart(value), a, b);
    AtThree(PauseStart(value), a, b, c);
    AtOne(AbortStart, a);
    AtTwo(AbortStart, a, b);
  }

  /** An action runs only as the owner, and drains the requests afterwards; it is dropped where there is an owner. */
  lemma ActionsRunAlone(a: Flags, b: Flags)
    ensures Leaves(ActionStart, [], a) == a.(inFlight := true)
    ensures a.inFlight ==> At(ActionStart, [a]) == Finished
    ensures !a.inFlight ==> At(ActionStart, [a]) == Working && Leaves(ActionStart, [a], b) == b
    ensures !a.inFlight ==> At(ActionStart, [a, b]) == TakeAbort
  {
    AtOne(ActionStart, a);
    AtTwo(ActionStart, a, b);
  }

  /** The owner looks for an abort first: it takes the request, drops a pause request, commits, and looks again. */
  lemma AbortsComeFirst(a: Flags, b: Flags, c: Flags)
    requires a.abortRequested
    ensures Leaves(TakeAbort, [], a) == a.(abortRequested := false)
    ensures Leaves(TakeAbort, [a], b)
         == b.(pauseRequested := false, pauseDropped := b.pauseDropped || b.pauseRequested)
    ensures Leaves(TakeAbort, [a, b], c) == c.(abortOwed := false)
    ensures At(TakeAbort, [a, b, c]) == TakeAbort
  {
    AtOne(TakeAbort, a);
    AtTwo(TakeAbort, a, b);
    AtThree(TakeAbort, a, b, c);
  }

  /** Where no abort waits it takes a pause request, reads the target only then, commits that, and looks again. */
  lemma PausesComeNext(a: Flags, b: Flags, c: Flags, d: Flags)
    requires !a.abortRequested && b.pauseRequested
    ensures Leaves(TakeAbort, [], a) == a
    ensures Leaves(TakeAbort, [a], b) == b.(pauseRequested := false)
    ensures Leaves(TakeAbort, [a, b], c) == c
    ensures Leaves(TakeAbort, [a, b, c], d) == d.(lastPaused := Some(c.pauseTarget))
    ensures At(TakeAbort, [a, b, c, d]) == TakeAbort
  {
    AtOne(TakeAbort, a);
    AtTwo(TakeAbort, a, b);
    AtThree(TakeAbort, a, b, c);
    AtFour(TakeAbort, a, b, c, d);
  }

  /** Where neither waits it gives up ownership, and only then looks again. */
  lemma ThenOwnershipEnds(a: Flags, b: Flags, c: Flags)
    requires !a.abortRequested && !b.pauseRequested
    ensures Leaves(TakeAbort, [a], b) == b
    ensures Leaves(TakeAbort, [a, b], c) == c.(inFlight := false)
    ensures At(TakeAbort, [a, b, c]) == CheckAbort
  {
    AtOne(TakeAbort, a);
    AtTwo(TakeAbort, a, b);
    AtThree(TakeAbort, a, b, c);
  }

  /**
   * It is finished where it finds neither request, and otherwise drains once more if nobody else has become the
   * owner.
   */
  lemma OwnersLookAgain(a: Flags, b: Flags, c: Flags)
    ensures Leaves(CheckAbort, [], a) == a
    ensures !a.abortRequested ==>
              && Leaves(CheckAbort, [a], b) == b
              && (!b.pauseRequested ==> At(CheckAbort, [a, b]) == Finished)
              && (b.pauseRequested ==> At(CheckAbort, [a, b, c]) == if c.inFlight then Finished else TakeAbort)
    ensures a.abortRequested ==>
              && Leaves(CheckAbort, [a], b) == b.(inFlight := true)
              && At(CheckAbort, [a, b]) == if b.inFlight then Finished else TakeAbort
  {
    AtOne(CheckAbort, a);
    AtTwo(CheckAbort, a, b);
    AtThree(CheckAbort, a, b, c);
  }
}
