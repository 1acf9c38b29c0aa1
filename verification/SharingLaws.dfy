/** Who shares rules with whom and what arrives, read off the sources and the derived record. */
module SharingLaws {
  import opened Wrappers
  import opened RuleSharing

  // ----- the order of names

  /** The names agree up to k; there a ends, or has the smaller character. */
  ghost predicate DifferAt(a: string, b: string, k: int) {
    0 <= k <= |a| && k < |b| && a[..k] == b[..k] && (k == |a| || a[k] < b[k])
  }

  /** Byte order: one name is a proper beginning of the other, or smaller where the two first differ. */
  ghost predicate Before(a: string, b: string) {
    exists k :: DifferAt(a, b, k)
  }

  lemma {:induction false} WhereLess(a: string, b: string) returns (k: int)
    requires Less(a, b)
    ensures DifferAt(a, b, k)
    decreases |a|
  {
    if a == "" || a[0] < b[0] {
      k := 0;
    } else {
      k := WhereLess(a[1..], b[1..]);
      assert a[..k + 1] == [a[0]] + a[1..][..k] && b[..k + 1] == [b[0]] + b[1..][..k];
      k := k + 1;
    }
  }

  lemma {:induction false} LessWhere(a: string, b: string, k: int)
    requires DifferAt(a, b, k)
    ensures Less(a, b)
    decreases |a|
  {
    if k > 0 {
      assert a[0] == a[..k][0] == b[..k][0] == b[0];
      assert a[1..][..k - 1] == a[..k][1..] == b[..k][1..] == b[1..][..k - 1];
      LessWhere(a[1..], b[1..], k - 1);
    }
  }

  lemma LessIsBefore(a: string, b: string)
    ensures Less(a, b) <==> Before(a, b)
  {
    hide Less, DifferAt;
    if Less(a, b) {
      var k := WhereLess(a, b);
    } else if k :| DifferAt(a, b, k) {
      LessWhere(a, b, k);
    }
  }

  // ----- who are the donors

  /**
   * The donors listed are, in byte order, the other worms that the policy lets share: those of the recipient's own team
   * where it has one, all of them, or nobody.
   */
  lemma DonorsByPolicy(c: Config, recipient: Source, d: Derived)
    requires IsDerived(c, recipient, d)
    ensures forall i, j :: 0 <= i < j < |d.donors| ==> Before(d.donors[i], d.donors[j])
    ensures c.policy == "same_team" ==>
              forall n :: n in d.donors <==>
                n != recipient.worm && recipient.team != ""
                && exists s :: s in c.sources && s.worm == n && s.team == recipient.team
    ensures c.policy == "all_worms" || c.policy == "seeded_noisy" ==>
              forall n :: n in d.donors <==> n != recipient.worm && exists s :: s in c.sources && s.worm == n
    ensures c.policy != "same_team" && c.policy != "all_worms" && c.policy != "seeded_noisy" ==> d.donors == []
  {
    hide Merged, Explains, Less, Before;
    forall i, j | 0 <= i < j < |d.donors| ensures Before(d.donors[i], d.donors[j]) {
      LessIsBefore(d.donors[i], d.donors[j]);
      assert Less(NameOf()(d.donors[i]), NameOf()(d.donors[j]));
    }
    if d.donors != [] {
      assert d.donors[0] in d.donors;
    }
  }

  // ----- what each key holds

  /** The list has a rule for the key. */
  ghost predicate Has(rules: seq<Rule>, key: Key) {
    exists i :: 0 <= i < |rules| && rules[i].key == key
  }

  /** The donor whose rule counts: no listed donor with a rule for the key comes before it. */
  ghost predicate Gives(c: Config, d: Derived, s: Source, key: Key) {
    && s in c.sources && s.worm in d.donors && Has(s.rules, key)
    && forall e :: e in c.sources && e.worm in d.donors && Has(e.rules, key) && e.worm != s.worm ==>
         Before(s.worm, e.worm)
  }

  /**
   * Noise strikes only under its own policy, at the greater of two rates, where that is positive and the draw says
   * so.
   */
  ghost predicate Struck(c: Config, recipient: Source, s: Source, key: Key) {
    var a := if c.noise.Finite? then c.noise.value else 0.0;
    var b := if c.corruption.Finite? then c.corruption.value else 0.0;
    && c.policy == "seeded_noisy"
    && exists rate :: (rate == a || rate == b) && rate >= a && rate >= b && rate > 0.0
                      && c.draw(recipient.worm, s.worm, key, rate)
  }

  /**
   * What noise makes of a value: whole numbers move on by seven and keep the remainder of a division by six, with the
   * sign of the dividend; null counts as the number 0; texts are marked, truth values turned over, anything else is
   * null.
   */
  ghost predicate Garbled(x: Value, y: Value) {
    match x
    case Whole(n) =>
      y.Whole? && (exists q :: n + 7 == 6 * q + y.n) && -6 < y.n < 6 &&
          (n + 7 >= 0 ==> y.n >= 0) && (n + 7 <= 0 ==> y.n <= 0)
    case Null => y == Whole(1)
    case Text(s) => y == Text("corrupt:" + s)
    case Truth(b) => y.Truth? && y.b != b
    case Other(_) => y == Null
  }

  lemma CorruptGarbles(x: Value)
    ensures Garbled(x, Corrupt(x))
  {
    if x.Whole? {
      var m := x.n + 7;
      var r := Corrupt(x).n;
      assert m == 6 * ((m - r) / 6) + r;
    }
  }

  lemma StruckIsCorrupted(c: Config, recipient: Source, s: Source, key: Key)
    ensures Corrupted(c, recipient, s, key) <==> Struck(c, recipient, s, key)
  {
    assert RateValue(c.noise) == if c.noise.Finite? then c.noise.value else 0.0;
    assert RateValue(c.corruption) == if c.corruption.Finite? then c.corruption.value else 0.0;
    if Corrupted(c, recipient, s, key) {
      var rate := CorruptionRate(c);
      assert rate >= RateValue(c.noise) && rate >= RateValue(c.corruption);
      assert c.draw(recipient.worm, s.worm, key, rate);
    }
  }

  lemma HasIsKey(rules: seq<Rule>, key: Key)
    ensures Has(rules, key) <==> key in RuleMap(rules)
  {
  }

  /** The donor that prevails is the one that gives. */
  lemma GivesIsPrevails(c: Config, recipient: Source, d: Derived, s: Source, key: Key)
    requires WellNamed(c.sources) && IsDerived(c, recipient, d)
    ensures Gives(c, d, s, key) <==> Prevails(c, recipient, s, key)
  {
    hide Eligible, RuleMap, Merged, Explains, Less, Before, Ascending, Has;
    forall e | e in c.sources
      ensures e.worm in d.donors <==> Eligible(c, recipient, e)
      ensures Has(e.rules, key) <==> key in RuleMap(e.rules)
      ensures Before(s.worm, e.worm) <==> Less(s.worm, e.worm)
    {
      HasIsKey(e.rules, key);
      LessIsBefore(s.worm, e.worm);
      ListedIsEligible(c, recipient, d, e);
    }
  }

  lemma ListedIsEligible(c: Config, recipient: Source, d: Derived, e: Source)
    requires WellNamed(c.sources) && IsDerived(c, recipient, d) && e in c.sources
    ensures e.worm in d.donors <==> Eligible(c, recipient, e)
  {
    hide Eligible, RuleMap, Merged, Explains, Less, Ascending, UniqueKeys;
    if e.worm in d.donors {
      var s :| s in c.sources && Eligible(c, recipient, s) && s.worm == e.worm;
      var i :| 0 <= i < |c.sources| && c.sources[i] == s;
      var j :| 0 <= j < |c.sources| && c.sources[j] == e;
    }
  }

  /** The value that a list has for a key: a list without repeated keys has at most one. */
  lemma SaysIsTable(rules: seq<Rule>, key: Key, x: Value)
    requires UniqueKeys(rules)
    ensures Rule(key, x) in rules <==> key in RuleMap(rules) && RuleMap(rules)[key] == x
  {
    if Rule(key, x) in rules {
      var i :| 0 <= i < |rules| && rules[i] == Rule(key, x);
      RuleMapAt(rules, i);
    } else if key in RuleMap(rules) {
      var i :| 0 <= i < |rules| && rules[i].key == key;
      RuleMapAt(rules, i);
      assert rules[i] == Rule(key, rules[i].value);
    }
  }

  lemma OwnKeysAreUnique(c: Config, s: Source)
    requires WellNamed(c.sources) && s in c.sources
    ensures UniqueKeys(s.rules)
  {
  }

  /**
   * A key that some donor has holds the value of the first of them in byte order, garbled where noise has struck; any
   * other key holds what it held.
   */
  lemma TableInPlainTerms(c: Config, recipient: Source, d: Derived, key: Key, x: Value)
    requires WellNamed(c.sources) && recipient in c.sources && IsDerived(c, recipient, d)
    ensures forall s :: Gives(c, d, s, key) && Rule(key, x) in s.rules ==>
              exists y :: Rule(key, y) in d.rules && if Struck(c, recipient, s, key) then Garbled(x, y) else y == x
    ensures (forall s :: !Gives(c, d, s, key)) ==> (Rule(key, x) in d.rules <==> Rule(key, x) in recipient.rules)
  {
    hide Eligible, RuleMap, Explains, Gives, Ascending, UniqueKeys, Struck, Garbled, Corrupt, Corrupted,
        Prevails, HasDonor;
    AscendingKeys(d.rules);
    forall s | Gives(c, d, s, key) && Rule(key, x) in s.rules
      ensures exists y :: Rule(key, y) in d.rules && if Struck(c, recipient, s, key) then Garbled(x, y) else y == x
    {
      GivesIsPrevails(c, recipient, d, s, key);
      GivesOf(c, d, s, key);
      OwnKeysAreUnique(c, s);
      SaysIsTable(s.rules, key, x);
      StruckIsCorrupted(c, recipient, s, key);
      CorruptGarbles(x);
      SaysIsTable(d.rules, key, RuleMap(d.rules)[key]);
    }
    if forall s :: !Gives(c, d, s, key) {
      if HasDonor(c, recipient, key) {
        PrevailingExists(c, recipient, key);
        var s :| Prevails(c, recipient, s, key);
        GivesIsPrevails(c, recipient, d, s, key);
      }
      OwnKeysAreUnique(c, recipient);
      SaysIsTable(recipient.rules, key, x);
      SaysIsTable(d.rules, key, x);
    }
  }

  lemma GivesOf(c: Config, d: Derived, s: Source, key: Key)
    requires Gives(c, d, s, key)
    ensures s in c.sources
  {
  }

  // ----- what is reported

  /** An entry names the new value, the donor that gave it, and whether noise struck. */
  ghost predicate Reports(c: Config, recipient: Source, d: Derived, x: Change) {
    && x.after.Some? && Rule(x.key, x.after.value) in d.rules
    && exists s :: Gives(c, d, s, x.key) && s.worm == x.donor && (x.corrupted <==> Struck(c, recipient, s, x.key))
  }

  /** Every key the recipient did not have is reported as added, and every key whose value differs as changed. */
  lemma DiffInPlainTerms(c: Config, recipient: Source, d: Derived)
    requires WellNamed(c.sources) && recipient in c.sources && IsDerived(c, recipient, d)
    ensures forall x :: x in d.additions ==>
            Reports(c, recipient, d, x) && x.before == None && !Has(recipient.rules, x.key)
    ensures forall x :: x in d.changes ==>
              && Reports(c, recipient, d, x) && x.before.Some?
              && Rule(x.key, x.before.value) in recipient.rules && x.before.value != x.after.value
    ensures forall k, y :: Rule(k, y) in d.rules && !Has(recipient.rules, k) ==>
            exists x :: x in d.additions && x.key == k
    ensures forall k, w, y :: Rule(k, w) in recipient.rules && Rule(k, y) in d.rules && w != y ==>
              exists x :: x in d.changes && x.key == k
  {
    hide RuleMap, Gives, UniqueKeys, Eligible, Merged, Reports, Has, Less, OwnedBy, TaintedBy;
    OwnKeysAreUnique(c, recipient);
    AscendingKeys(d.rules);
    var prior, table := RuleMap(recipient.rules), RuleMap(d.rules);
    forall x | x in d.additions
      ensures Reports(c, recipient, d, x) && x.before == None && !Has(recipient.rules, x.key)
    {
      assert Explains(c, recipient, prior, table, x);
      EntryReports(c, recipient, d, x);
      HasIsKey(recipient.rules, x.key);
    }
    forall x | x in d.changes
      ensures Reports(c, recipient, d, x) && x.before.Some? && x.after.Some?
      ensures Rule(x.key, x.before.value) in recipient.rules && x.before.value != x.after.value
    {
      assert Explains(c, recipient, prior, table, x);
      EntryReports(c, recipient, d, x);
    }
    forall k, y | Rule(k, y) in d.rules && !Has(recipient.rules, k) ensures exists x :: x in d.additions && x.key == k {
      SaysIsTable(d.rules, k, y);
      HasIsKey(recipient.rules, k);
      var x := Explained(c, recipient, d, k);
    }
    forall k, w, y | Rule(k, w) in recipient.rules && Rule(k, y) in d.rules && w != y
      ensures exists x :: x in d.changes && x.key == k
    {
      SaysIsTable(d.rules, k, y);
      SaysIsTable(recipient.rules, k, w);
      var x := Explained(c, recipient, d, k);
    }
  }

  lemma Explained(c: Config, recipient: Source, d: Derived, k: Key) returns (x: Change)
    requires k in RuleMap(d.rules)
    ensures x.key == k && Explains(c, recipient, RuleMap(recipient.rules), RuleMap(d.rules), x)
    ensures x.before == (if k in RuleMap(recipient.rules) then Some(RuleMap(recipient.rules)[k]) else None)
    ensures x.after == Some(RuleMap(d.rules)[k])
  {
    hide RuleMap, OwnedBy, TaintedBy;
    x := ExplanationExists(c, recipient, RuleMap(recipient.rules), RuleMap(d.rules), k);
  }

  lemma EntryReports(c: Config, recipient: Source, d: Derived, x: Change)
    requires WellNamed(c.sources) && recipient in c.sources && IsDerived(c, recipient, d)
    requires Explains(c, recipient, RuleMap(recipient.rules), RuleMap(d.rules), x) && x.before != x.after
    ensures Reports(c, recipient, d, x)
    ensures x.before == None ==> x.key !in RuleMap(recipient.rules)
    ensures x.before.Some? ==> Rule(x.key, x.before.value) in recipient.rules && x.before.value != x.after.value
  {
    hide RuleMap, Gives, UniqueKeys, Eligible, Less, Prevails, Struck, Corrupted;
    OwnKeysAreUnique(c, recipient);
    AscendingKeys(d.rules);
    SaysIsTable(d.rules, x.key, x.after.value);
    if x.before.Some? { SaysIsTable(recipient.rules, x.key, x.before.value); }
    assert HasDonor(c, recipient, x.key);
    var s :| Prevails(c, recipient, s, x.key) && s.worm == x.donor;
    GivesIsPrevails(c, recipient, d, s, x.key);
    StruckIsCorrupted(c, recipient, s, x.key);
    forall e | Prevails(c, recipient, e, x.key) ensures e == s {
      PrevailingIsUnique(c, recipient, x.key, s, e);
    }
  }

  /**
   * Without donors a recipient keeps its table and nothing is reported. So it is under "none" for everyone, and under
   * "same_team" for a worm without a team.
   */
  lemma AloneNothingChanges(c: Config, recipient: Source, d: Derived)
    requires WellNamed(c.sources) && recipient in c.sources && IsDerived(c, recipient, d)
    requires c.policy == "none" || (c.policy == "same_team" && recipient.team == "")
    ensures d.donors == [] && d.additions == [] && d.changes == [] && d.removals == []
    ensures forall r :: r in d.rules <==> r in recipient.rules
  {
    hide IsDerived, Gives, Reports;
    DonorsByPolicy(c, recipient, d);
    NoElements(d.donors);
    DiffInPlainTerms(c, recipient, d);
    forall s, k ensures !Gives(c, d, s, k) { NobodyGives(c, d, s, k); }
    forall x ensures !Reports(c, recipient, d, x) { NoReports(c, recipient, d, x); }
    NoElements(d.additions);
    NoElements(d.changes);
    NothingIsRemoved(c, recipient, d);
    forall r ensures r in d.rules <==> r in recipient.rules {
      TableInPlainTerms(c, recipient, d, r.key, r.value);
      assert r == Rule(r.key, r.value);
    }
  }

  lemma NobodyGives(c: Config, d: Derived, s: Source, key: Key)
    requires d.donors == []
    ensures !Gives(c, d, s, key)
  {
  }

  lemma NoReports(c: Config, recipient: Source, d: Derived, x: Change)
    requires d.donors == []
    ensures !Reports(c, recipient, d, x)
  {
  }

  lemma NothingIsRemoved(c: Config, recipient: Source, d: Derived)
    requires IsDerived(c, recipient, d)
    ensures d.removals == []
  {
  }

  // ----- outsiders

  /**
   * Under "same_team" a record does not depend on anybody outside the recipient's team: sources that are replaced,
   * added or dropped there change nothing in it.
   */
  lemma OutsidersDoNotMatter(c: Config, c': Config, recipient: Source, d: Derived)
    requires c.policy == "same_team" && c' == c.(sources := c'.sources)
    requires forall s: Source :: s.team == recipient.team && s.team != "" ==> (s in c.sources <==> s in c'.sources)
    requires IsDerived(c, recipient, d)
    ensures IsDerived(c', recipient, d)
  {
    hide IsDerived;
    forall s ensures s in c.sources && Eligible(c, recipient, s) <==> s in c'.sources && Eligible(c', recipient, s) {}
    SameRecord(c, c', recipient, d);
  }

  // ----- the whole output

  ghost predicate IsSource(c: Config, worm: string) {
    exists s :: s in c.sources && s.worm == worm
  }

  /** The records are those of the sources, one each, in byte order of the recipients' names. */
  lemma RecordsAreInOrder(c: Config, sorted: seq<Source>, out: seq<Derived>)
    requires DerivesAll(c, sorted, out)
    ensures forall i, j :: 0 <= i < j < |out| ==> Before(out[i].recipient, out[j].recipient)
    ensures forall s :: s in c.sources ==> exists i :: 0 <= i < |out| && out[i].recipient == s.worm
    ensures forall i :: 0 <= i < |out| ==> IsSource(c, out[i].recipient)
  {
    hide Before, Less, DerivesAll;
    RecordsOfSorted(c, sorted, out);
    forall i, j | 0 <= i < j < |out| ensures Before(out[i].recipient, out[j].recipient) {
      LessIsBefore(out[i].recipient, out[j].recipient);
    }
    forall s | s in c.sources ensures exists i :: 0 <= i < |out| && out[i].recipient == s.worm {
      var i :| 0 <= i < |sorted| && sorted[i] == s;
      assert out[i].recipient == sorted[i].worm;
    }
    forall i | 0 <= i < |out| ensures IsSource(c, out[i].recipient) {
      assert sorted[i] in c.sources && sorted[i].worm == out[i].recipient;
    }
  }

  lemma RecordsOfSorted(c: Config, sorted: seq<Source>, out: seq<Derived>)
    requires DerivesAll(c, sorted, out)
    ensures |out| == |sorted| && forall s :: s in sorted <==> s in c.sources
    ensures forall i :: 0 <= i < |out| ==> out[i].recipient == sorted[i].worm && sorted[i] in c.sources
    ensures forall i, j :: 0 <= i < j < |out| ==> Less(out[i].recipient, out[j].recipient)
  {
    hide Less, IsDerived;
    forall i | 0 <= i < |out| ensures out[i].recipient == sorted[i].worm && sorted[i] in c.sources {
      RecordNames(c, sorted[i], out[i]);
      assert sorted[i] in sorted;
    }
    forall i, j | 0 <= i < j < |out| ensures Less(out[i].recipient, out[j].recipient) {
      assert Less(WormOf()(sorted[i]), WormOf()(sorted[j]));
    }
  }

  lemma RecordNames(c: Config, recipient: Source, d: Derived)
    requires IsDerived(c, recipient, d)
    ensures d.recipient == recipient.worm
  {
  }

  /** A record's rules are in byte order of their keys. */
  lemma RulesAreInOrder(c: Config, recipient: Source, d: Derived)
    requires IsDerived(c, recipient, d)
    ensures forall j, k :: 0 <= j < k < |d.rules| ==> Before(d.rules[j].key, d.rules[k].key)
  {
    hide Before, Less, Merged, Explains, RuleMap, Eligible;
    forall j, k | 0 <= j < k < |d.rules| ensures Before(d.rules[j].key, d.rules[k].key) {
      assert Less(KeyOf()(d.rules[j]), KeyOf()(d.rules[k]));
      LessIsBefore(d.rules[j].key, d.rules[k].key);
    }
  }

  /** What is asked of a configuration: a known policy, rates from 0 to 1, and named sources with rules or a version. */
  lemma AcceptedExactly(c: Config)
    ensures Acceptable(c) <==>
              && (c.policy == "none" || c.policy == "same_team" ||
                  c.policy == "all_worms" || c.policy == "seeded_noisy")
              && (c.noise.Finite? && c.noise.value >= 0.0 && c.noise.value <= 1.0)
              && (c.corruption.Finite? && c.corruption.value >= 0.0 && c.corruption.value <= 1.0)
              && |c.sources| > 0
              && (forall s :: s in c.sources ==> s.worm != "" && !(s.payload == NoPayload && s.version == ""))
              && forall i, j :: 0 <= i < |c.sources| && 0 <= j < |c.sources| && i != j ==>
                   c.sources[i].worm != c.sources[j].worm
  {
    if Acceptable(c) {
      forall s | s in c.sources ensures s.worm != "" && !(s.payload == NoPayload && s.version == "") {
        var i :| 0 <= i < |c.sources| && c.sources[i] == s;
      }
    }
  }
}
