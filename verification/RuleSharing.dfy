/** The merge of rule libraries: each worm's table completed and overridden by its donors' rules. */
module RuleSharing {
  import opened Geometry
  import opened Wrappers

  type Key = string

  /** A rule's value as JSON gives it; `Other` is any value that is not a whole number, a text, a boolean or null. */
  datatype Value = Whole(n: int) | Text(s: string) | Truth(b: bool) | Null | Other(raw: string)

  datatype Rule = Rule(key: Key, value: Value)

  /** A source's raw rules: absent, not decodable, or decoded to the list beside them. */
  datatype Payload = NoPayload | Undecodable | Decodable

  datatype Source = Source(worm: string, team: string, version: string, payload: Payload, rules: seq<Rule>)

  /** A rate is a number, or one of the values that are not finite. */
  datatype Rate = Finite(value: real) | NotFinite

  const NO_SHARING := "none"

  const SAME_TEAM := "same_team"

  const ALL_WORMS := "all_worms"

  const SEEDED_NOISY := "seeded_noisy"

  /** `draw` says whether the seeded draw for recipient, donor and key falls below a rate. */
  datatype Config = Config(policy: string, noise: Rate, corruption: Rate, draw: (string, string, Key, real) -> bool,
                           sources: seq<Source>)

  datatype Change = Change(key: Key, before: Option<Value>, after: Option<Value>, donor: string, corrupted: bool)

  datatype Derived = Derived(recipient: string, rules: seq<Rule>, donors: seq<string>, additions: seq<Change>,
                             removals: seq<Change>, changes: seq<Change>)

  // ----- order of names

  /** Byte order of strings. */
  predicate Less(a: string, b: string) {
    if b == "" then false
    else if a == "" then true
    else a[0] < b[0] || (a[0] == b[0] && Less(a[1..], b[1..]))
  }

  lemma {:induction false} LessIsTotal(a: string, b: string)
    ensures Less(a, b) || Less(b, a) || a == b
    ensures Less(a, b) ==> !Less(b, a) && a != b
    decreases |a|
  {
    if a != "" && b != "" && a[0] == b[0] {
      LessIsTotal(a[1..], b[1..]);
      assert a == [a[0]] + a[1..] && b == [b[0]] + b[1..];
    }
  }

  lemma {:induction false} LessIsTransitive(a: string, b: string, c: string)
    requires Less(a, b) && Less(b, c)
    ensures Less(a, c)
    decreases |a|
  {
    if a != "" && a[0] == b[0] && b[0] == c[0] {
      LessIsTransitive(a[1..], b[1..], c[1..]);
    }
  }

  // ----- one rule

  /** The altered value of a corrupted rule; null decodes as the number 0. */
  function Corrupt(v: Value): Value {
    match v
    case Whole(n) => Whole(Remainder(n + 1 + 6, 6))
    case Null => Whole(1)
    case Text(s) => Text("corrupt:" + s)
    case Truth(b) => Truth(!b)
    case Other(_) => Null
  }

  /** The value a donor passes on to a recipient. */
  function Passed(c: Config, recipient: Source, donor: Source, r: Rule): Value {
    if Corrupted(c, recipient, donor, r.key) then Corrupt(r.value) else r.value
  }

  function RateValue(r: Rate): real {
    if r.Finite? then r.value else 0.0
  }

  /** The greater of the two configured rates. */
  function CorruptionRate(c: Config): real {
    if RateValue(c.noise) > RateValue(c.corruption) then RateValue(c.noise) else RateValue(c.corruption)
  }

  predicate Corrupted(c: Config, recipient: Source, donor: Source, key: Key) {
    && c.policy == SEEDED_NOISY && CorruptionRate(c) > 0.0
    && c.draw(recipient.worm, donor.worm, key, CorruptionRate(c))
  }

  predicate Eligible(c: Config, recipient: Source, donor: Source) {
    && donor.worm != recipient.worm
    && if c.policy == SAME_TEAM then donor.team != "" && donor.team == recipient.team
       else c.policy == ALL_WORMS || c.policy == SEEDED_NOISY
  }

  /** The same configuration, but for the order of its sources. */
  ghost predicate SameButOrder(c: Config, c': Config) {
    && c'.policy == c.policy && c'.noise == c.noise && c'.corruption == c.corruption && c'.draw == c.draw
    && forall s :: s in c.sources <==> s in c'.sources
  }

  // ----- sequences in strict order of a name

  ghost predicate Ascending<T>(s: seq<T>, name: T -> string) {
    forall i, j :: 0 <= i < j < |s| ==> Less(name(s[i]), name(s[j]))
  }

  /** An ascending sequence is determined by its elements. */
  lemma {:induction false} AscendingIsUnique<T>(a: seq<T>, b: seq<T>, name: T -> string)
    requires Ascending(a, name) && Ascending(b, name) && forall x :: x in a <==> x in b
    ensures a == b
    decreases |a|
  {
    if a == [] {
      assert forall i :: 0 <= i < |b| ==> b[i] in b;
    } else {
      assert a[0] in b && b != [] && b[0] in a;
      var j :| 0 <= j < |b| && b[j] == a[0];
      var i :| 0 <= i < |a| && a[i] == b[0];
      LessIsTotal(name(a[0]), name(b[0]));
      assert a[0] == b[0];
      forall x ensures x in a[1..] <==> x in b[1..] {
        TailElements(a, name, x);
        TailElements(b, name, x);
      }
      AscendingIsUnique(a[1..], b[1..], name);
    }
  }

  lemma TailElements<T>(s: seq<T>, name: T -> string, x: T)
    requires s != [] && Ascending(s, name)
    ensures x in s[1..] <==> x in s && x != s[0]
  {
    if x in s[1..] {
      var i :| 1 <= i < |s| && s[i] == x;
      LessIsTotal(name(s[0]), name(x));
    }
  }

  /** Place an element with a new name in an ascending sequence. */
  function Insert<T>(s: seq<T>, x: T, name: T -> string): seq<T> {
    if s == [] || Less(name(x), name(s[0])) then [x] + s else [s[0]] + Insert(s[1..], x, name)
  }

  lemma {:induction false} InsertHas<T>(s: seq<T>, x: T, name: T -> string, y: T)
    ensures y in Insert(s, x, name) <==> y in s || y == x
    decreases |s|
  {
    if s != [] && !Less(name(x), name(s[0])) {
      InsertHas(s[1..], x, name, y);
      assert s == [s[0]] + s[1..];
    }
  }

  lemma {:induction false} InsertAscends<T>(s: seq<T>, x: T, name: T -> string)
    requires Ascending(s, name) && forall i :: 0 <= i < |s| ==> name(s[i]) != name(x)
    ensures Ascending(Insert(s, x, name), name)
    ensures forall y :: y in Insert(s, x, name) <==> y in s || y == x
    decreases |s|
  {
    forall y ensures y in Insert(s, x, name) <==> y in s || y == x {
      InsertHas(s, x, name, y);
    }
    if s == [] {
    } else if Less(name(x), name(s[0])) {
      forall i | 0 <= i < |s| ensures Less(name(x), name(s[i])) {
        if i > 0 { LessIsTransitive(name(x), name(s[0]), name(s[i])); }
      }
    } else {
      LessIsTotal(name(x), name(s[0]));
      assert Less(name(s[0]), name(x));
      var rest := s[1..];
      InsertAscends(rest, x, name);
      var r := Insert(rest, x, name);
      forall j | 0 <= j < |r| ensures Less(name(s[0]), name(r[j])) {
        InsertHas(rest, x, name, r[j]);
        assert r[j] in r;
        if r[j] != x {
          var i :| 0 <= i < |rest| && rest[i] == r[j];
          assert Less(name(s[0]), name(s[i + 1]));
        }
      }
    }
  }

  // ----- rule tables

  ghost predicate UniqueKeys(rules: seq<Rule>) {
    forall i, j :: 0 <= i < j < |rules| ==> rules[i].key != rules[j].key
  }

  /** The table of a rule list; the first rule of a key counts. */
  function RuleMap(rules: seq<Rule>): (m: map<Key, Value>)
    ensures forall k :: k in m <==> exists i :: 0 <= i < |rules| && rules[i].key == k
  {
    if rules == [] then map[]
    else
      var m := RuleMap(rules[..|rules| - 1]);
      var r := rules[|rules| - 1];
      if r.key in m then m else m[r.key := r.value]
  }

  lemma {:induction false} RuleMapAt(rules: seq<Rule>, i: nat)
    requires UniqueKeys(rules) && i < |rules|
    ensures rules[i].key in RuleMap(rules) && RuleMap(rules)[rules[i].key] == rules[i].value
    decreases |rules|
  {
    if i < |rules| - 1 {
      RuleMapAt(rules[..|rules| - 1], i);
    }
  }

  // ----- the specification of a derived table

  /** A donor d of the recipient that has the key, with no lesser-named eligible donor that has it. */
  ghost predicate Prevails(c: Config, recipient: Source, d: Source, key: Key) {
    && d in c.sources && Eligible(c, recipient, d) && key in RuleMap(d.rules)
    && forall e :: e in c.sources && Eligible(c, recipient, e) && key in RuleMap(e.rules) && e.worm != d.worm ==>
         Less(d.worm, e.worm)
  }

  ghost predicate HasDonor(c: Config, recipient: Source, key: Key) {
    exists d :: d in c.sources && Eligible(c, recipient, d) && key in RuleMap(d.rules)
  }

  /**
   * What a derived table must hold: the least-named eligible donor's value, corrupted where drawn; failing any donor,
   * the recipient's own; and no other keys.
   */
  ghost predicate Merged(c: Config, recipient: Source, table: map<Key, Value>) {
    && (forall k :: k in table <==> HasDonor(c, recipient, k) || k in RuleMap(recipient.rules))
    && (forall d, k :: Prevails(c, recipient, d, k) ==>
          k in table && table[k] == Passed(c, recipient, d, Rule(k, RuleMap(d.rules)[k])))
    && (forall k :: k in RuleMap(recipient.rules) && !HasDonor(c, recipient, k) ==>
          k in table && table[k] == RuleMap(recipient.rules)[k])
  }

  ghost predicate WellNamed(sources: seq<Source>) {
    && (forall i :: 0 <= i < |sources| ==> UniqueKeys(sources[i].rules))
    && forall i, j :: 0 <= i < j < |sources| ==> sources[i].worm != sources[j].worm
  }

  function WormOf(): Source -> string {
    (s: Source) => s.worm
  }

  function KeyOf(): Rule -> string {
    (r: Rule) => r.key
  }

  function ChangeKey(): Change -> string {
    (x: Change) => x.key
  }

  function NameOf(): string -> string {
    (s: string) => s
  }

  // ----- the specification of the whole result

  /** The donor that prevails for a key, or the recipient where there is none. */
  ghost predicate OwnedBy(c: Config, recipient: Source, key: Key, owner: string) {
    && (HasDonor(c, recipient, key) ==> exists d :: Prevails(c, recipient, d, key) && d.worm == owner)
    && (!HasDonor(c, recipient, key) ==> owner == recipient.worm)
  }

  ghost predicate TaintedBy(c: Config, recipient: Source, key: Key, corrupted: bool) {
    corrupted <==> exists d :: Prevails(c, recipient, d, key) && Corrupted(c, recipient, d, key)
  }

  /** The entry that the diff must have for a key, seen from the recipient's table and the derived one. */
  ghost predicate Explains(c: Config, recipient: Source, prior: map<Key, Value>, table: map<Key, Value>, x: Change) {
    && x.key in table && x.after == Some(table[x.key])
    && x.before == (if x.key in prior then Some(prior[x.key]) else None)
    && OwnedBy(c, recipient, x.key, x.donor) && TaintedBy(c, recipient, x.key, x.corrupted)
  }

  ghost predicate IsDerived(c: Config, recipient: Source, d: Derived) {
    var prior, table := RuleMap(recipient.rules), RuleMap(d.rules);
    && d.recipient == recipient.worm
    && Ascending(d.rules, KeyOf()) && Merged(c, recipient, table)
    && Ascending(d.donors, NameOf())
    && (forall n :: n in d.donors <==> exists s :: s in c.sources && Eligible(c, recipient, s) && s.worm == n)
    && Ascending(d.additions, ChangeKey()) && Ascending(d.changes, ChangeKey()) && d.removals == []
    && (forall x :: x in d.additions <==> Explains(c, recipient, prior, table, x) && x.before == None)
    && (forall x :: x in d.changes <==>
        Explains(c, recipient, prior, table, x) && x.before.Some? && x.before != x.after)
  }

  // ----- who prevails

  lemma {:induction false} LeastDonor(c: Config, recipient: Source, key: Key, n: nat) returns (d: Source)
    requires n <= |c.sources|
    requires exists s :: s in c.sources[..n] && Eligible(c, recipient, s) && key in RuleMap(s.rules)
    ensures d in c.sources[..n] && Eligible(c, recipient, d) && key in RuleMap(d.rules)
    ensures forall e ::
              e in c.sources[..n] && Eligible(c, recipient, e) && key in RuleMap(e.rules) && e.worm != d.worm ==>
              Less(d.worm, e.worm)
    decreases n
  {
    hide RuleMap, Eligible;
    var last := c.sources[n - 1];
    assert c.sources[..n] == c.sources[..n - 1] + [last];
    var fits := Eligible(c, recipient, last) && key in RuleMap(last.rules);
    if exists s :: s in c.sources[..n - 1] && Eligible(c, recipient, s) && key in RuleMap(s.rules) {
      d := LeastDonor(c, recipient, key, n - 1);
      LessIsTotal(d.worm, last.worm);
      if fits && Less(last.worm, d.worm) {
        forall e | e in c.sources[..n - 1] && Eligible(c, recipient, e) &&
            key in RuleMap(e.rules) && e.worm != last.worm
          ensures Less(last.worm, e.worm)
        {
          if e.worm != d.worm { LessIsTransitive(last.worm, d.worm, e.worm); }
        }
        d := last;
      }
    } else {
      d := last;
    }
  }

  lemma PrevailingExists(c: Config, recipient: Source, key: Key)
    requires HasDonor(c, recipient, key)
    ensures exists d :: Prevails(c, recipient, d, key)
  {
    hide RuleMap, Eligible;
    assert c.sources[..|c.sources|] == c.sources;
    var d := LeastDonor(c, recipient, key, |c.sources|);
    assert Prevails(c, recipient, d, key);
  }

  lemma PrevailingIsUnique(c: Config, recipient: Source, key: Key, d: Source, e: Source)
    requires WellNamed(c.sources) && Prevails(c, recipient, d, key) && Prevails(c, recipient, e, key)
    ensures d == e
  {
    hide RuleMap, Eligible;
    LessIsTotal(d.worm, e.worm);
    var i :| 0 <= i < |c.sources| && c.sources[i] == d;
    var j :| 0 <= j < |c.sources| && c.sources[j] == e;
  }

  // ----- the result is determined by the set of sources

  lemma MergedAt(c: Config, recipient: Source, t: map<Key, Value>, t': map<Key, Value>, k: Key)
    requires Merged(c, recipient, t) && Merged(c, recipient, t')
    ensures k in t <==> k in t'
    ensures k in t ==> t'[k] == t[k]
  {
    hide RuleMap, Eligible, Passed;
    if HasDonor(c, recipient, k) {
      PrevailingExists(c, recipient, k);
      var d :| Prevails(c, recipient, d, k);
    }
  }

  /** The specification leaves nothing open: a configuration has one derived table, one diff and one donor list. */
  lemma DerivedIsUnique(c: Config, recipient: Source, d: Derived, d': Derived)
    requires WellNamed(c.sources) && IsDerived(c, recipient, d) && IsDerived(c, recipient, d')
    ensures d == d'
  {
    hide Eligible, Merged, Explains;
    var table, table' := RuleMap(d.rules), RuleMap(d'.rules);
    forall k ensures (k in table <==> k in table') && (k in table ==> table'[k] == table[k]) {
      MergedAt(c, recipient, table, table', k);
    }
    assert table == table';
    forall r ensures r in d.rules <==> r in d'.rules {
      RuleInTable(d.rules, r);
      RuleInTable(d'.rules, r);
    }
    AscendingIsUnique(d.rules, d'.rules, KeyOf());
    AscendingIsUnique(d.donors, d'.donors, NameOf());
    AscendingIsUnique(d.additions, d'.additions, ChangeKey());
    AscendingIsUnique(d.changes, d'.changes, ChangeKey());
  }

  lemma AscendingKeys(rules: seq<Rule>)
    requires Ascending(rules, KeyOf())
    ensures UniqueKeys(rules)
  {
    forall i, j | 0 <= i < j < |rules| ensures rules[i].key != rules[j].key {
      LessIsTotal(rules[i].key, rules[j].key);
    }
  }

  lemma RuleInTable(rules: seq<Rule>, r: Rule)
    requires Ascending(rules, KeyOf())
    ensures r in rules <==> r.key in RuleMap(rules) && RuleMap(rules)[r.key] == r.value
  {
    AscendingKeys(rules);
    if r in rules {
      var i :| 0 <= i < |rules| && rules[i] == r;
      RuleMapAt(rules, i);
    } else if r.key in RuleMap(rules) {
      var i :| 0 <= i < |rules| && rules[i].key == r.key;
      RuleMapAt(rules, i);
    }
  }

  /** Permuting the sources changes nothing: the result depends only on which sources there are. */
  lemma OrderOfSourcesIsIrrelevant(c: Config, c': Config, recipient: Source, d: Derived, d': Derived)
    requires SameButOrder(c, c') && WellNamed(c.sources)
    requires IsDerived(c, recipient, d) && IsDerived(c', recipient, d')
    ensures d == d'
  {
    hide IsDerived;
    forall s ensures s in c.sources && Eligible(c, recipient, s) <==> s in c'.sources && Eligible(c', recipient, s) {}
    SameRecord(c', c, recipient, d');
    DerivedIsUnique(c, recipient, d, d');
  }

  /** The two configurations have the same eligible donors. */
  ghost predicate SameDonors(c: Config, c': Config, recipient: Source) {
    && c' == c.(sources := c'.sources)
    && forall s :: s in c.sources && Eligible(c, recipient, s) <==> s in c'.sources && Eligible(c', recipient, s)
  }

  lemma SamePrevails(c: Config, c': Config, recipient: Source)
    requires SameDonors(c, c', recipient)
    ensures forall k :: HasDonor(c, recipient, k) <==> HasDonor(c', recipient, k)
    ensures forall e, k :: Prevails(c, recipient, e, k) <==> Prevails(c', recipient, e, k)
    ensures forall e, k :: Corrupted(c, recipient, e, k) <==> Corrupted(c', recipient, e, k)
  {
    hide RuleMap, Eligible;
  }

  lemma SameMerge(c: Config, c': Config, recipient: Source, table: map<Key, Value>)
    requires SameDonors(c, c', recipient) && Merged(c, recipient, table)
    ensures Merged(c', recipient, table)
  {
    hide RuleMap, SameDonors, HasDonor, Prevails, Corrupted, Corrupt;
    SamePrevails(c, c', recipient);
  }

  lemma SameExplains(c: Config, c': Config, recipient: Source,
                     prior: map<Key, Value>, table: map<Key, Value>, x: Change)
    requires SameDonors(c, c', recipient)
    ensures Explains(c, recipient, prior, table, x) <==> Explains(c', recipient, prior, table, x)
  {
    hide RuleMap, SameDonors, HasDonor, Prevails, Corrupted;
    SamePrevails(c, c', recipient);
  }

  lemma SameRecord(c: Config, c': Config, recipient: Source, d: Derived)
    requires SameDonors(c, c', recipient) && IsDerived(c, recipient, d)
    ensures IsDerived(c', recipient, d)
  {
    hide RuleMap, Ascending, Eligible, Merged, Explains;
    var prior, table := RuleMap(recipient.rules), RuleMap(d.rules);
    SameMerge(c, c', recipient, table);
    forall x ensures Explains(c, recipient, prior, table, x) <==> Explains(c', recipient, prior, table, x) {
      SameExplains(c, c', recipient, prior, table, x);
    }
  }

  // ----- the diff is a patch

  function Patched(m: map<Key, Value>, diff: seq<Change>): map<Key, Value> {
    if diff == [] then m
    else
      var x := diff[|diff| - 1];
      var m' := Patched(m, diff[..|diff| - 1]);
      if x.after.Some? then m'[x.key := x.after.value] else m' - {x.key}
  }

  lemma {:induction false} PatchedAt(m: map<Key, Value>, table: map<Key, Value>, diff: seq<Change>, k: Key)
    requires forall x :: x in diff ==> x.key in table && x.after == Some(table[x.key])
    ensures var p := Patched(m, diff);
      if exists x :: x in diff && x.key == k then k in p && k in table && p[k] == table[k]
      else (k in p <==> k in m) && (k in m ==> p[k] == m[k])
    decreases |diff|
  {
    if diff == [] {
    } else {
      var x, rest := diff[|diff| - 1], diff[..|diff| - 1];
      assert diff == rest + [x];
      assert x in diff;
      PatchedAt(m, table, rest, k);
    }
  }

  lemma ExplanationExists(c: Config, recipient: Source, prior: map<Key, Value>, table: map<Key, Value>, k: Key)
    returns (x: Change)
    requires k in table
    ensures Explains(c, recipient, prior, table, x) && x.key == k
  {
    hide RuleMap, Eligible, Passed;
    var owner := recipient.worm;
    var tainted := exists d :: Prevails(c, recipient, d, k) && Corrupted(c, recipient, d, k);
    if HasDonor(c, recipient, k) {
      PrevailingExists(c, recipient, k);
      var d :| Prevails(c, recipient, d, k);
      owner := d.worm;
    }
    x := Change(k, if k in prior then Some(prior[k]) else None, Some(table[k]), owner, tainted);
  }

  /**
   * Applying the reported additions and changes to the recipient's table yields the derived table; nothing is
   * removed.
   */
  lemma DiffIsPatch(c: Config, recipient: Source, d: Derived)
    requires IsDerived(c, recipient, d)
    ensures Patched(RuleMap(recipient.rules), d.additions + d.changes) == RuleMap(d.rules)
    ensures d.removals == []
  {
    hide Eligible, Ascending, OwnedBy, TaintedBy, Patched, RuleMap;
    var prior, table := RuleMap(recipient.rules), RuleMap(d.rules);
    var diff := d.additions + d.changes;
    var p := Patched(prior, diff);
    forall k ensures (k in p <==> k in table) && (k in table ==> p[k] == table[k]) {
      PatchedAt(prior, table, diff, k);
      if k in table && (k !in prior || prior[k] != table[k]) {
        var x := ExplanationExists(c, recipient, prior, table, k);
        assert x in d.additions || x in d.changes;
        assert x in diff;
      }
    }
  }

  // ----- the merge loop

  /** The tables the loop fills: value, owner, and whether the value was corrupted. */
  datatype Tables = Tables(base: map<Key, Value>, owners: map<Key, string>, tainted: set<Key>)

  /** The first of the donors that has the key. */
  function FirstWith(donors: seq<Source>, key: Key): (d: Option<Source>)
    ensures d.Some? ==> d.value in donors && key in RuleMap(d.value.rules)
    ensures d.None? ==> forall e :: e in donors ==> key !in RuleMap(e.rules)
  {
    if donors == [] then None
    else
      var d := FirstWith(donors[..|donors| - 1], key);
      if d.Some? then d
      else if key in RuleMap(donors[|donors| - 1].rules) then Some(donors[|donors| - 1])
      else None
  }

  /** The tables after the donors have been worked through in order. */
  ghost predicate Holds(c: Config, recipient: Source, donors: seq<Source>, t: Tables, k: Key) {
    match FirstWith(donors, k)
    case Some(d) =>
      && k in t.base && t.base[k] == Passed(c, recipient, d, Rule(k, RuleMap(d.rules)[k]))
      && k in t.owners && t.owners[k] == d.worm
      && (k in t.tainted <==> Corrupted(c, recipient, d, k))
    case None =>
      && (k in t.base <==> k in RuleMap(recipient.rules)) && (k in t.owners <==> k in t.base) && k !in t.tainted
      && (k in t.base ==> t.base[k] == RuleMap(recipient.rules)[k] && t.owners[k] == recipient.worm)
  }

  ghost predicate HoldsAll(c: Config, recipient: Source, donors: seq<Source>, t: Tables) {
    forall k :: Holds(c, recipient, donors, t, k)
  }

  /** The first n rules of a donor. */
  function Part(d: Source, n: nat): Source
    requires n <= |d.rules|
  {
    d.(rules := d.rules[..n])
  }

  lemma PartAt(d: Source, n: nat, k: Key)
    requires UniqueKeys(d.rules) && n < |d.rules|
    ensures var m, m' := RuleMap(d.rules[..n]), RuleMap(d.rules[..n + 1]); var r := d.rules[n];
      && r.key !in m && m' == m[r.key := r.value]
  {
    assert d.rules[..n + 1][..n] == d.rules[..n];
    var before := d.rules[..n];
    assert forall i :: 0 <= i < |before| ==> before[i] == d.rules[i];
  }

  lemma FirstWithPart(done: seq<Source>, d: Source, n: nat, k: Key)
    requires n <= |d.rules|
    ensures FirstWith(done + [Part(d, n)], k) ==
              if FirstWith(done, k).Some? then FirstWith(done, k)
              else if k in RuleMap(d.rules[..n]) then Some(Part(d, n)) else None
  {
    hide RuleMap;
    assert (done + [Part(d, n)])[..|done|] == done;
  }

  /** One rule of a donor: a key that another donor already owns is skipped, any other is taken over. */
  function TakeRule(c: Config, recipient: Source, donor: Source, r: Rule, t: Tables): Tables {
    if r.key in t.owners && t.owners[r.key] != recipient.worm then t
    else Tables(t.base[r.key := Passed(c, recipient, donor, r)], t.owners[r.key := donor.worm],
                if Corrupted(c, recipient, donor, r.key) then t.tainted + {r.key} else t.tainted)
  }

  lemma TakeRuleHolds(c: Config, recipient: Source, done: seq<Source>, d: Source, n: nat, t: Tables)
    requires UniqueKeys(d.rules) && n < |d.rules| && d.worm != recipient.worm
    requires forall e :: e in done ==> e.worm != recipient.worm
    requires HoldsAll(c, recipient, done + [Part(d, n)], t)
    ensures HoldsAll(c, recipient, done + [Part(d, n + 1)], TakeRule(c, recipient, d, d.rules[n], t))
  {
    var r := d.rules[n];
    var t' := TakeRule(c, recipient, d, r, t);
    var donors := done + [Part(d, n + 1)];
    forall k ensures Holds(c, recipient, donors, t', k) {
      RuleStepHolds(c, recipient, done, d, n, t, k);
    }
  }

  lemma RuleStepHolds(c: Config, recipient: Source, done: seq<Source>, d: Source, n: nat, t: Tables, k: Key)
    requires UniqueKeys(d.rules) && n < |d.rules| && d.worm != recipient.worm
    requires forall e :: e in done ==> e.worm != recipient.worm
    requires HoldsAll(c, recipient, done + [Part(d, n)], t)
    ensures Holds(c, recipient, done + [Part(d, n + 1)], TakeRule(c, recipient, d, d.rules[n], t), k)
  {
    hide RuleMap, FirstWith, Corrupt;
    var r := d.rules[n];
    PartAt(d, n, k);
    FirstWithPart(done, d, n, k);
    FirstWithPart(done, d, n + 1, k);
    FirstWithPart(done, d, n, r.key);
    assert Holds(c, recipient, done + [Part(d, n)], t, k);
    assert Holds(c, recipient, done + [Part(d, n)], t, r.key);
  }

  // ----- from the loop to the specification

  lemma {:induction false} FirstWithIsFirst(donors: seq<Source>, key: Key) returns (i: nat)
    requires FirstWith(donors, key).Some?
    ensures i < |donors| && donors[i] == FirstWith(donors, key).value
    ensures forall j :: 0 <= j < i ==> key !in RuleMap(donors[j].rules)
    decreases |donors|
  {
    hide RuleMap;
    var rest := donors[..|donors| - 1];
    if FirstWith(rest, key).Some? {
      i := FirstWithIsFirst(rest, key);
    } else {
      i := |donors| - 1;
      forall j | 0 <= j < i ensures key !in RuleMap(donors[j].rules) {
        assert rest[j] in rest;
      }
    }
  }

  /** The candidates of a recipient in order of their names. */
  ghost predicate AreCandidates(c: Config, recipient: Source, donors: seq<Source>) {
    && Ascending(donors, WormOf())
    && forall s :: s in donors <==> s in c.sources && Eligible(c, recipient, s)
  }

  lemma FirstPrevails(c: Config, recipient: Source, donors: seq<Source>, key: Key)
    requires AreCandidates(c, recipient, donors)
    ensures FirstWith(donors, key).Some? <==> HasDonor(c, recipient, key)
    ensures FirstWith(donors, key).Some? ==> Prevails(c, recipient, FirstWith(donors, key).value, key)
  {
    hide RuleMap, Eligible, FirstWith;
    if FirstWith(donors, key).Some? {
      var i := FirstWithIsFirst(donors, key);
      forall e | e in c.sources && Eligible(c, recipient, e) && key in RuleMap(e.rules) && e.worm != donors[i].worm
        ensures Less(donors[i].worm, e.worm)
      {
        assert e in donors;
        var j :| 0 <= j < |donors| && donors[j] == e;
      }
    }
  }

  lemma HoldsMerges(c: Config, recipient: Source, donors: seq<Source>, t: Tables)
    requires WellNamed(c.sources) && AreCandidates(c, recipient, donors) && HoldsAll(c, recipient, donors, t)
    ensures Merged(c, recipient, t.base) && t.owners.Keys == t.base.Keys
    ensures forall k :: k in t.base ==>
            OwnedBy(c, recipient, k, t.owners[k]) && TaintedBy(c, recipient, k, k in t.tainted)
  {
    hide RuleMap, Eligible, FirstWith, Corrupt, Passed, Prevails, HasDonor, Holds,
        WellNamed, Merged, OwnedBy, TaintedBy, AreCandidates;
    forall k ensures HoldsAt(c, recipient, t, k) {
      HoldsMergesAt(c, recipient, donors, t, k);
    }
    MergedFromAll(c, recipient, t);
  }

  /** What the finished tables say about one key, in terms of the donor that prevails. */
  ghost predicate HoldsAt(c: Config, recipient: Source, t: Tables, k: Key) {
    && (k in t.base <==> HasDonor(c, recipient, k) || k in RuleMap(recipient.rules))
    && (k in t.owners <==> k in t.base)
    && (forall d :: Prevails(c, recipient, d, k) ==>
          k in t.base && t.base[k] == Passed(c, recipient, d, Rule(k, RuleMap(d.rules)[k])))
    && (k in RuleMap(recipient.rules) && !HasDonor(c, recipient, k) ==>
          k in t.base && t.base[k] == RuleMap(recipient.rules)[k])
    && (k in t.owners ==> OwnedBy(c, recipient, k, t.owners[k]))
    && TaintedBy(c, recipient, k, k in t.tainted)
  }

  lemma HoldsMergesAt(c: Config, recipient: Source, donors: seq<Source>, t: Tables, k: Key)
    requires WellNamed(c.sources) && AreCandidates(c, recipient, donors) && Holds(c, recipient, donors, t, k)
    ensures HoldsAt(c, recipient, t, k)
  {
    hide RuleMap, Eligible, FirstWith, Corrupt, Passed, Corrupted, WellNamed, AreCandidates;
    FirstPrevails(c, recipient, donors, k);
    forall d, e | Prevails(c, recipient, d, k) && Prevails(c, recipient, e, k) ensures d == e {
      PrevailingIsUnique(c, recipient, k, d, e);
    }
  }

  lemma MergedFromAll(c: Config, recipient: Source, t: Tables)
    requires forall k :: HoldsAt(c, recipient, t, k)
    ensures Merged(c, recipient, t.base) && t.owners.Keys == t.base.Keys
    ensures forall k :: k in t.base ==>
            OwnedBy(c, recipient, k, t.owners[k]) && TaintedBy(c, recipient, k, k in t.tainted)
  {
    hide RuleMap, Passed, Eligible, HasDonor, OwnedBy, TaintedBy;
    forall k ensures (k in t.owners.Keys <==> k in t.base.Keys)
                     && (k in t.base <==> HasDonor(c, recipient, k) || k in RuleMap(recipient.rules)) {
      assert HoldsAt(c, recipient, t, k);
    }
    forall d, k | Prevails(c, recipient, d, k)
      ensures k in t.base && t.base[k] == Passed(c, recipient, d, Rule(k, RuleMap(d.rules)[k]))
    {
      assert HoldsAt(c, recipient, t, k);
    }
    forall k | k in RuleMap(recipient.rules) && !HasDonor(c, recipient, k)
      ensures k in t.base && t.base[k] == RuleMap(recipient.rules)[k]
    {
      assert HoldsAt(c, recipient, t, k);
    }
    forall k | k in t.base ensures OwnedBy(c, recipient, k, t.owners[k]) && TaintedBy(c, recipient, k, k in t.tainted) {
      assert HoldsAt(c, recipient, t, k);
    }
  }

  // ----- the algorithm

  datatype Fault = BadConfig | Missing(worm: string) | BadRules(worm: string)

  predicate RateAccepted(r: Rate) {
    r.Finite? && 0.0 <= r.value <= 1.0
  }

  /** What is asked of a configuration before any rules are looked at. */
  ghost predicate Acceptable(c: Config) {
    && c.policy in {NO_SHARING, SAME_TEAM, ALL_WORMS, SEEDED_NOISY}
    && RateAccepted(c.noise) && RateAccepted(c.corruption)
    && c.sources != []
    && (forall i :: 0 <= i < |c.sources| ==>
          c.sources[i].worm != "" && (c.sources[i].payload != NoPayload || c.sources[i].version != ""))
    && forall i, j :: 0 <= i < j < |c.sources| ==> c.sources[i].worm != c.sources[j].worm
  }

  method ValidateConfig(c: Config) returns (fault: Option<Fault>)
    ensures fault.None? <==> Acceptable(c)
    ensures fault.Some? ==> !fault.value.BadRules?
    ensures fault.Some? && fault.value.Missing? ==>
              exists s :: s in c.sources && s.worm == fault.value.worm && s.payload == NoPayload && s.version == ""
  {
    if c.policy !in {NO_SHARING, SAME_TEAM, ALL_WORMS, SEEDED_NOISY} { return Some(BadConfig); }
    if c.noise.NotFinite? || c.corruption.NotFinite? { return Some(BadConfig); }
    if !RateAccepted(c.noise) || !RateAccepted(c.corruption) { return Some(BadConfig); }
    if c.sources == [] { return Some(BadConfig); }
    var seen: set<string> := {};
    for i := 0 to |c.sources|
      invariant forall j :: 0 <= j < i ==> c.sources[j].worm != "" && c.sources[j].worm in seen
      invariant forall j :: 0 <= j < i ==> c.sources[j].payload != NoPayload || c.sources[j].version != ""
      invariant forall w :: w in seen ==> exists j :: 0 <= j < i && c.sources[j].worm == w
      invariant forall j, k :: 0 <= j < k < i ==> c.sources[j].worm != c.sources[k].worm
    {
      var s := c.sources[i];
      if s.worm == "" || s.worm in seen { return Some(BadConfig); }
      seen := seen + {s.worm};
      if s.payload == NoPayload && s.version == "" {
        assert s in c.sources;
        return Some(Missing(s.worm));
      }
    }
    return None;
  }

  method UniqueRules(rules: seq<Rule>) returns (ok: bool)
    ensures ok <==> UniqueKeys(rules)
  {
    var seen: set<Key> := {};
    for i := 0 to |rules|
      invariant forall j :: 0 <= j < i ==> rules[j].key in seen
      invariant forall k :: k in seen ==> exists j :: 0 <= j < i && rules[j].key == k
      invariant forall j, k :: 0 <= j < k < i ==> rules[j].key != rules[k].key
    {
      if rules[i].key in seen { return false; }
      seen := seen + {rules[i].key};
    }
    return true;
  }

  method BuildMap(rules: seq<Rule>) returns (m: map<Key, Value>)
    ensures m == RuleMap(rules)
  {
    m := map[];
    for i := 0 to |rules|
      invariant m == RuleMap(rules[..i])
    {
      assert rules[..i + 1][..i] == rules[..i];
      if rules[i].key !in m { m := m[rules[i].key := rules[i].value]; }
    }
    assert rules[..|rules|] == rules;
  }

  /** The sources in order of their worms' names. */
  method SortSources(sources: seq<Source>) returns (sorted: seq<Source>)
    requires forall i, j :: 0 <= i < j < |sources| ==> sources[i].worm != sources[j].worm
    ensures Ascending(sorted, WormOf())
    ensures forall s :: s in sorted <==> s in sources
  {
    sorted := [];
    for i := 0 to |sources|
      invariant Ascending(sorted, WormOf())
      invariant forall s :: s in sorted <==> s in sources[..i]
    {
      forall j | 0 <= j < |sorted| ensures WormOf()(sorted[j]) != WormOf()(sources[i]) {
        assert sorted[j] in sources[..i];
      }
      InsertAscends(sorted, sources[i], WormOf());
      sorted := Insert(sorted, sources[i], WormOf());
    }
    assert sources[..|sources|] == sources;
  }

  /** A table as a list in order of its keys. */
  method SortedRules(m: map<Key, Value>) returns (rules: seq<Rule>)
    ensures Ascending(rules, KeyOf()) && RuleMap(rules) == m
  {
    rules := [];
    var left := m.Keys;
    while left != {}
      invariant Ascending(rules, KeyOf()) && left <= m.Keys
      invariant forall r :: r in rules <==> r.key in m && r.key !in left && m[r.key] == r.value
    {
      var k :| k in left;
      forall j | 0 <= j < |rules| ensures KeyOf()(rules[j]) != k {
        assert rules[j] in rules;
      }
      InsertAscends(rules, Rule(k, m[k]), KeyOf());
      rules := Insert(rules, Rule(k, m[k]), KeyOf());
      left := left - {k};
    }
    TableOfRules(rules, m);
  }

  lemma TableOfRules(rules: seq<Rule>, m: map<Key, Value>)
    requires Ascending(rules, KeyOf())
    requires forall r :: r in rules <==> r.key in m && m[r.key] == r.value
    ensures RuleMap(rules) == m
  {
    var t := RuleMap(rules);
    forall k ensures (k in t <==> k in m) && (k in m ==> t[k] == m[k]) {
      if k in m { RuleInTable(rules, Rule(k, m[k])); }
      if k in t { RuleInTable(rules, Rule(k, t[k])); }
    }
  }

  method Candidates(c: Config, sorted: seq<Source>, recipient: Source) returns (donors: seq<Source>)
    requires Ascending(sorted, WormOf()) && forall s :: s in sorted <==> s in c.sources
    ensures AreCandidates(c, recipient, donors)
  {
    donors := [];
    for i := 0 to |sorted|
      invariant Ascending(donors, WormOf())
      invariant forall s :: s in donors <==> s in sorted[..i] && Eligible(c, recipient, s)
    {
      if Eligible(c, recipient, sorted[i]) {
        forall j | 0 <= j < |donors| ensures Less(donors[j].worm, sorted[i].worm) {
          assert donors[j] in donors && donors[j] in sorted[..i];
          var k :| 0 <= k < i && sorted[k] == donors[j];
          assert Less(WormOf()(sorted[k]), WormOf()(sorted[i]));
        }
        donors := donors + [sorted[i]];
      }
    }
    assert sorted[..|sorted|] == sorted;
  }

  lemma NothingTaken(c: Config, recipient: Source, base: map<Key, Value>)
    requires base == RuleMap(recipient.rules)
    ensures HoldsAll(c, recipient, [], Tables(base, map k | k in base :: recipient.worm, {}))
  {
  }

  lemma NoRulesYet(c: Config, recipient: Source, done: seq<Source>, d: Source, t: Tables)
    ensures HoldsAll(c, recipient, done, t) <==> HoldsAll(c, recipient, done + [Part(d, 0)], t)
  {
    forall k ensures Holds(c, recipient, done, t, k) <==> Holds(c, recipient, done + [Part(d, 0)], t, k) {
      FirstWithPart(done, d, 0, k);
    }
  }

  /** The merge itself: donors in order of name, each donor's rules in their own order. */
  method MergeDonors(c: Config, recipient: Source, donors: seq<Source>) returns (t: Tables)
    requires forall d :: d in donors ==> UniqueKeys(d.rules) && d.worm != recipient.worm
    ensures HoldsAll(c, recipient, donors, t)
  {
    hide HoldsAll, Holds, Passed, Corrupted, RuleMap;
    var base := BuildMap(recipient.rules);
    t := Tables(base, map k | k in base :: recipient.worm, {});
    NothingTaken(c, recipient, base);
    for i := 0 to |donors|
      invariant HoldsAll(c, recipient, donors[..i], t)
    {
      var d := donors[i];
      NoRulesYet(c, recipient, donors[..i], d, t);
      for n := 0 to |d.rules|
        invariant HoldsAll(c, recipient, donors[..i] + [Part(d, n)], t)
      {
        TakeRuleHolds(c, recipient, donors[..i], d, n, t);
        var r := d.rules[n];
        if !(r.key in t.owners && t.owners[r.key] != recipient.worm) {
          t := Tables(t.base[r.key := Passed(c, recipient, d, r)], t.owners[r.key := d.worm],
                      if Corrupted(c, recipient, d, r.key) then t.tainted + {r.key} else t.tainted);
        }
      }
      assert d.rules[..|d.rules|] == d.rules;
      assert donors[..i + 1] == donors[..i] + [Part(d, |d.rules|)];
    }
    assert donors[..|donors|] == donors;
  }

  /** The change entry of a merged rule. */
  function Entry(before: map<Key, Value>, t: Tables, r: Rule): Change
    requires r.key in t.owners
  {
    Change(r.key, if r.key in before then Some(before[r.key]) else None,
        Some(r.value), t.owners[r.key], r.key in t.tainted)
  }

  /** x is the entry of one of the rules, all of which have an owner. */
  ghost predicate EntryAmong(before: map<Key, Value>, t: Tables, rules: seq<Rule>, x: Change) {
    exists r :: r in rules && r.key in t.owners && x == Entry(before, t, r)
  }

  lemma OneMoreEntry(before: map<Key, Value>, t: Tables, rules: seq<Rule>, r: Rule)
    requires r.key in t.owners
    ensures forall x :: EntryAmong(before, t, rules + [r], x) <==>
            EntryAmong(before, t, rules, x) || x == Entry(before, t, r)
  {
  }

  method Diff(before: map<Key, Value>, t: Tables, merged: seq<Rule>)
    returns (additions: seq<Change>, changes: seq<Change>)
    requires Ascending(merged, KeyOf()) && forall r :: r in merged ==> r.key in t.owners
    ensures Ascending(additions, ChangeKey()) && Ascending(changes, ChangeKey())
    ensures forall x :: x in additions <==> EntryAmong(before, t, merged, x) && x.before == None
    ensures forall x :: x in changes <==> EntryAmong(before, t, merged, x) && x.before.Some? && x.before != x.after
  {
    hide EntryAmong, EntriesBelow, Ascending;
    additions, changes := [], [];
    NoEntries(before, t, merged);
    for i := 0 to |merged|
      invariant EntriesBelow(additions, merged, i) && EntriesBelow(changes, merged, i)
      invariant forall x :: x in additions <==> EntryAmong(before, t, merged[..i], x) && x.before == None
      invariant forall x :: x in changes <==>
                EntryAmong(before, t, merged[..i], x) && x.before.Some? && x.before != x.after
    {
      var r := merged[i];
      var x := Entry(before, t, r);
      assert merged[..i + 1] == merged[..i] + [r];
      OneMoreEntry(before, t, merged[..i], r);
      AnotherEntry(additions, merged, i, x);
      AnotherEntry(changes, merged, i, x);
      if r.key !in before {
        additions := additions + [x];
      } else if before[r.key] != r.value {
        changes := changes + [x];
      }
    }
    assert merged[..|merged|] == merged;
    AscendingBelow(additions, merged);
    AscendingBelow(changes, merged);
  }

  lemma NoEntries(before: map<Key, Value>, t: Tables, merged: seq<Rule>)
    ensures EntriesBelow([], merged, 0) && forall x :: !EntryAmong(before, t, [], x)
  {
  }

  /** The keys of a list of changes ascend, and each is the key of one of the first n merged rules. */
  ghost predicate EntriesBelow(list: seq<Change>, merged: seq<Rule>, n: nat) {
    && Ascending(list, ChangeKey())
    && forall k :: 0 <= k < |list| ==> exists j :: 0 <= j < n && j < |merged| && merged[j].key == list[k].key
  }

  lemma AnotherEntry(list: seq<Change>, merged: seq<Rule>, n: nat, x: Change)
    requires Ascending(merged, KeyOf()) && n < |merged| && EntriesBelow(list, merged, n) && x.key == merged[n].key
    ensures EntriesBelow(list, merged, n + 1) && EntriesBelow(list + [x], merged, n + 1)
  {
    forall k | 0 <= k < |list| ensures Less(list[k].key, x.key) {
      var j :| 0 <= j < n && merged[j].key == list[k].key;
      assert Less(KeyOf()(merged[j]), KeyOf()(merged[n]));
    }
    assert (list + [x])[|list|].key == merged[n].key;
  }

  lemma AscendingBelow(list: seq<Change>, merged: seq<Rule>)
    requires EntriesBelow(list, merged, |merged|)
    ensures Ascending(list, ChangeKey())
  {
  }

  method Removals(rules: seq<Rule>, t: Tables) returns (removals: seq<Change>)
    ensures forall x :: x in removals <==>
              exists r :: r in rules && r.key !in t.base && x == Change(r.key, Some(r.value), None, "", false)
  {
    removals := [];
    for i := 0 to |rules|
      invariant forall x :: x in removals <==>
                  exists r :: r in rules[..i] && r.key !in t.base && x == Change(r.key, Some(r.value), None, "", false)
    {
      if rules[i].key !in t.base {
        removals := removals + [Change(rules[i].key, Some(rules[i].value), None, "", false)];
      }
    }
    assert rules[..|rules|] == rules;
  }

  lemma NoElements<T>(s: seq<T>)
    ensures (forall x :: x !in s) ==> s == []
  {
    assert s != [] ==> s[0] in s;
  }

  method Names(donors: seq<Source>) returns (names: seq<string>)
    requires Ascending(donors, WormOf())
    ensures Ascending(names, NameOf())
    ensures forall n :: n in names <==> exists s :: s in donors && s.worm == n
  {
    names := [];
    for i := 0 to |donors|
      invariant |names| == i && forall j :: 0 <= j < i ==> names[j] == donors[j].worm
    {
      names := names + [donors[i].worm];
    }
    forall i, j | 0 <= i < j < |names| ensures Less(names[i], names[j]) {
      assert Less(WormOf()(donors[i]), WormOf()(donors[j]));
    }
    forall n | exists s :: s in donors && s.worm == n ensures n in names {
      var s :| s in donors && s.worm == n;
      var i :| 0 <= i < |donors| && donors[i] == s;
      assert names[i] == n;
    }
  }

  /** One recipient's part of the output. */
  method DeriveOne(c: Config, sorted: seq<Source>, recipient: Source) returns (d: Derived)
    requires WellNamed(c.sources) && recipient in c.sources
    requires Ascending(sorted, WormOf()) && forall s :: s in sorted <==> s in c.sources
    ensures IsDerived(c, recipient, d)
  {
    hide RuleMap, Holds, HoldsAll, Merged, OwnedBy, TaintedBy, Eligible, Ascending;
    var donors := Candidates(c, sorted, recipient);
    CandidatesDiffer(c, recipient, donors);
    var names := Names(donors);
    var t := MergeDonors(c, recipient, donors);
    HoldsMerges(c, recipient, donors, t);
    var merged := SortedRules(t.base);
    var before := BuildMap(recipient.rules);
    MergedRules(merged, t);
    var additions, changes := Diff(before, t, merged);
    NothingRemoved(c, recipient, t.base);
    var removals := Removals(recipient.rules, t);
    NoElements(removals);
    d := Derived(recipient.worm, merged, names, additions, removals, changes);
    forall x ensures x in additions <==> Explains(c, recipient, before, t.base, x) && x.before == None {
      EntryExplains(c, recipient, before, t, merged, x);
    }
    forall x ensures x in changes <==>
        Explains(c, recipient, before, t.base, x) && x.before.Some? && x.before != x.after {
      EntryExplains(c, recipient, before, t, merged, x);
    }
  }

  lemma CandidatesDiffer(c: Config, recipient: Source, donors: seq<Source>)
    requires WellNamed(c.sources) && AreCandidates(c, recipient, donors)
    ensures forall d :: d in donors ==> UniqueKeys(d.rules) && d.worm != recipient.worm
  {
  }

  lemma MergedRules(merged: seq<Rule>, t: Tables)
    requires Ascending(merged, KeyOf()) && RuleMap(merged) == t.base && t.owners.Keys == t.base.Keys
    ensures forall r :: r in merged <==> r.key in t.base && t.base[r.key] == r.value
    ensures forall r :: r in merged ==> r.key in t.owners
  {
    hide RuleMap, Ascending;
    forall r ensures r in merged <==> r.key in t.base && t.base[r.key] == r.value {
      RuleInTable(merged, r);
    }
    forall r | r in merged ensures r.key in t.owners.Keys {}
  }

  lemma NothingRemoved(c: Config, recipient: Source, table: map<Key, Value>)
    requires Merged(c, recipient, table)
    ensures forall i :: 0 <= i < |recipient.rules| ==> recipient.rules[i].key in table
  {
    forall i | 0 <= i < |recipient.rules| ensures recipient.rules[i].key in table {
      assert recipient.rules[i].key in RuleMap(recipient.rules);
    }
  }

  /** The entries of the merged rules are the explanations of the derived table. */
  lemma EntryExplains(c: Config, recipient: Source, before: map<Key, Value>, t: Tables, merged: seq<Rule>, x: Change)
    requires WellNamed(c.sources)
    requires t.owners.Keys == t.base.Keys
    requires forall r :: r in merged <==> r.key in t.base && t.base[r.key] == r.value
    requires forall r :: r in merged ==> r.key in t.owners
    requires forall k :: k in t.base ==>
             OwnedBy(c, recipient, k, t.owners[k]) && TaintedBy(c, recipient, k, k in t.tainted)
    ensures Explains(c, recipient, before, t.base, x) <==> EntryAmong(before, t, merged, x)
  {
    hide WellNamed, OwnedBy, TaintedBy;
    if Explains(c, recipient, before, t.base, x) {
      var r := Rule(x.key, t.base[x.key]);
      assert r in merged;
      assert OwnedBy(c, recipient, x.key, t.owners[x.key]) && TaintedBy(c, recipient, x.key, x.key in t.tainted);
      OwnerIsUnique(c, recipient, x.key, x.donor, t.owners[x.key]);
      TaintIsUnique(c, recipient, x.key, x.corrupted, x.key in t.tainted);
      assert x == Entry(before, t, r);
    }
  }

  lemma OwnerIsUnique(c: Config, recipient: Source, key: Key, a: string, b: string)
    requires WellNamed(c.sources) && OwnedBy(c, recipient, key, a) && OwnedBy(c, recipient, key, b)
    ensures a == b
  {
    hide WellNamed, Prevails, HasDonor;
    if HasDonor(c, recipient, key) {
      var d :| Prevails(c, recipient, d, key) && d.worm == a;
      var e :| Prevails(c, recipient, e, key) && e.worm == b;
      PrevailingIsUnique(c, recipient, key, d, e);
    }
  }

  lemma TaintIsUnique(c: Config, recipient: Source, key: Key, a: bool, b: bool)
    requires TaintedBy(c, recipient, key, a) && TaintedBy(c, recipient, key, b)
    ensures a == b
  {
  }

  /** A result for each source, in order of their worms' names. */
  ghost predicate DerivesAll(c: Config, sorted: seq<Source>, out: seq<Derived>) {
    && Ascending(sorted, WormOf()) && (forall s :: s in sorted <==> s in c.sources)
    && |out| == |sorted| && forall i :: 0 <= i < |sorted| ==> IsDerived(c, sorted[i], out[i])
  }

  /** Whatever the order of the sources, the whole output is the same. */
  lemma OutputIgnoresOrder(c: Config, c': Config, sorted: seq<Source>, sorted': seq<Source>,
                           out: seq<Derived>, out': seq<Derived>)
    requires SameButOrder(c, c') && WellNamed(c.sources)
    requires DerivesAll(c, sorted, out) && DerivesAll(c', sorted', out')
    ensures sorted == sorted' && out == out'
  {
    hide IsDerived;
    AscendingIsUnique(sorted, sorted', WormOf());
    forall i | 0 <= i < |sorted| ensures out[i] == out'[i] {
      OrderOfSourcesIsIrrelevant(c, c', sorted[i], out[i], out'[i]);
    }
  }

  /** Rules that decode to a list without repeated keys. */
  ghost predicate Decodes(s: Source) {
    s.payload == Decodable && UniqueKeys(s.rules)
  }

  method Derive(c: Config) returns (r: Result<seq<Derived>, Fault>)
    ensures r.Ok? <==> Acceptable(c) && forall s :: s in c.sources ==> Decodes(s)
    ensures r.Ok? ==> exists sorted :: DerivesAll(c, sorted, r.value)
    ensures r.Err? ==> (r.error.BadRules? <==> Acceptable(c))
    ensures r.Err? && r.error.BadRules? ==> exists s :: IsFirstBad(c, s) && s.worm == r.error.worm
  {
    hide Ascending, IsDerived, UniqueKeys;
    var fault := ValidateConfig(c);
    if fault.Some? { return Err(fault.value); }
    var sorted := SortSources(c.sources);
    for i := 0 to |sorted|
      invariant forall j :: 0 <= j < i ==> Decodes(sorted[j])
    {
      var unique := UniqueRules(sorted[i].rules);
      if sorted[i].payload != Decodable || !unique {
        FirstBad(c, sorted, i);
        return Err(BadRules(sorted[i].worm));
      }
    }
    forall s | s in c.sources ensures Decodes(s) {
      assert s in sorted;
    }
    forall i | 0 <= i < |c.sources| ensures UniqueKeys(c.sources[i].rules) {
      assert c.sources[i] in c.sources;
    }
    var out := [];
    for i := 0 to |sorted|
      invariant |out| == i && forall j :: 0 <= j < i ==> IsDerived(c, sorted[j], out[j])
    {
      assert sorted[i] in c.sources;
      var d := DeriveOne(c, sorted, sorted[i]);
      out := out + [d];
    }
    assert DerivesAll(c, sorted, out);
    return Ok(out);
  }

  /** The least-named source whose rules do not decode. */
  ghost predicate IsFirstBad(c: Config, s: Source) {
    && s in c.sources && !Decodes(s)
    && forall e :: e in c.sources && !Decodes(e) && e.worm != s.worm ==> Less(s.worm, e.worm)
  }

  lemma FirstBad(c: Config, sorted: seq<Source>, i: nat)
    requires i < |sorted| && Ascending(sorted, WormOf()) && forall s :: s in sorted <==> s in c.sources
    requires !Decodes(sorted[i]) && forall j :: 0 <= j < i ==> Decodes(sorted[j])
    ensures IsFirstBad(c, sorted[i])
  {
    hide Decodes;
    forall e | e in c.sources && !Decodes(e) && e.worm != sorted[i].worm ensures Less(sorted[i].worm, e.worm) {
      assert e in sorted;
      var j :| 0 <= j < |sorted| && sorted[j] == e;
      assert Less(WormOf()(sorted[i]), WormOf()(sorted[j]));
    }
  }
}
