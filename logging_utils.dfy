/**
 * Per-source contribution statistics for framework exports: for every
 * (source, role) pair, how many arguments it contributed, how many of
 * those were accepted, and how many attacks it made and received.
 */
module LoggingUtils {
  import opened PyStr
  import opened Arguments
  import opened SetFacts

  /** An attack as it arrives from a log: a list/tuple of items, or some other value. */
  datatype RawEdge = Items(items: seq<string>) | NotASequence

  /** The edges `_normalize_attacks` keeps: the first two items of every entry with at least two. */
  function KeptEdges(attacks: seq<RawEdge>): (r: seq<Edge>)
    ensures |r| <= |attacks|
  {
    if attacks == [] then []
    else
      var last := attacks[|attacks| - 1];
      KeptEdges(attacks[..|attacks| - 1])
        + (if last.Items? && |last.items| >= 2 then [(last.items[0], last.items[1])] else [])
  }

  /** Every kept edge comes, in order, from a well-formed entry; malformed entries vanish. */
  lemma {:induction false} KeptEdgesFromEntries(attacks: seq<RawEdge>)
    ensures forall e | e in KeptEdges(attacks) :: exists i | 0 <= i < |attacks| ::
      attacks[i].Items? && |attacks[i].items| >= 2 && e == (attacks[i].items[0], attacks[i].items[1])
    ensures (forall i | 0 <= i < |attacks| :: attacks[i].Items? && |attacks[i].items| >= 2)
      ==> |KeptEdges(attacks)| == |attacks|
  {
    if attacks != [] {
      var init := attacks[..|attacks| - 1];
      KeptEdgesFromEntries(init);
      forall e | e in KeptEdges(attacks)
        ensures exists i | 0 <= i < |attacks| ::
          attacks[i].Items? && |attacks[i].items| >= 2 && e == (attacks[i].items[0], attacks[i].items[1])
      {
        if e in KeptEdges(init) {
          var i :| 0 <= i < |init| && init[i].Items? && |init[i].items| >= 2
            && e == (init[i].items[0], init[i].items[1]);
          assert attacks[i] == init[i];
        } else {
          assert attacks[|attacks| - 1].Items?;
        }
      }
    }
  }

  /** `_normalize_attacks`. */
  method NormalizeAttacks(attacks: seq<RawEdge>) returns (norm: seq<Edge>)
    ensures norm == KeptEdges(attacks)
  {
    norm := [];
    var i := 0;
    while i < |attacks|
      invariant 0 <= i <= |attacks|
      invariant norm == KeptEdges(attacks[..i])
    {
      var edge := attacks[i];
      if edge.Items? && |edge.items| >= 2 {
        norm := norm + [(edge.items[0], edge.items[1])];
      }
      assert attacks[..i + 1][..i] == attacks[..i];
      i := i + 1;
    }
    assert attacks[..i] == attacks;
  }

  /** A statistics key: (source, role). */
  type Key = (string, string)

  /** The key an argument is tallied under: an empty source counts as "unknown". */
  function ArgKey(a: Argument): Key {
    (if a.source == "" then "unknown" else a.source, a.role)
  }

  /**
   * The key an attack endpoint is tallied under: its argument's source and
   * role as they are (an empty source stays empty), or ("unknown", "") for
   * an id the framework does not hold.
   */
  function EndpointKey(args: map<string, Argument>, id: string): Key {
    if id in args then (args[id].source, args[id].role) else ("unknown", "")
  }

  /** How many of `ids` are tallied under `key`. */
  function KeyCount(args: map<string, Argument>, ids: set<string>, key: Key): nat
    requires ids <= args.Keys
  {
    |set x | x in ids && ArgKey(args[x]) == key|
  }

  /** How many edges of `edges` have their attacker (`side` 0) or target (`side` 1) under `key`. */
  function EndCount(args: map<string, Argument>, edges: seq<Edge>, side: nat, key: Key): nat {
    if edges == [] then 0
    else
      var e := edges[|edges| - 1];
      EndCount(args, edges[..|edges| - 1], side, key)
        + (if EndpointKey(args, if side == 0 then e.0 else e.1) == key then 1 else 0)
  }

  /** Every key a summary has a row for. */
  function AllKeys(args: map<string, Argument>, edges: seq<Edge>): set<Key> {
    (set id | id in args :: ArgKey(args[id]))
    + (set e | e in edges :: EndpointKey(args, e.0))
    + (set e | e in edges :: EndpointKey(args, e.1))
  }

  datatype Tally = Tally(total: nat, accepted: nat, attacksOut: nat, attacksIn: nat)

  lemma CountStep(args: map<string, Argument>, done: set<string>, id: string, key: Key)
    requires done <= args.Keys && id in args && id !in done
    ensures KeyCount(args, done + {id}, key) == KeyCount(args, done, key) + (if ArgKey(args[id]) == key then 1 else 0)
  {
    var before := set x | x in done && ArgKey(args[x]) == key;
    var after := set x | x in done + {id} && ArgKey(args[x]) == key;
    if ArgKey(args[id]) == key {
      assert after == before + {id};
    } else {
      assert after == before;
    }
  }

  /** A key no argument of `ids` is tallied under counts zero. */
  lemma CountAbsent(args: map<string, Argument>, ids: set<string>, key: Key)
    requires ids <= args.Keys
    requires key !in set id | id in ids :: ArgKey(args[id])
    ensures KeyCount(args, ids, key) == 0
  {
    assert (set x | x in ids && ArgKey(args[x]) == key) == {};
  }

  /** What the first pass has built after tallying the arguments `done`. */
  ghost predicate TallyInv(args: map<string, Argument>, acc: set<string>, done: set<string>, summary: map<Key, Tally>) {
    done <= args.Keys
    && summary.Keys == (set id | id in done :: ArgKey(args[id]))
    && forall key | key in summary ::
         summary[key] == Tally(KeyCount(args, done, key), KeyCount(args, done * acc, key), 0, 0)
  }

  /** The first pass's update for one argument. */
  function AddArgument(summary: map<Key, Tally>, key: Key, accepted: bool): map<Key, Tally> {
    var entry := if key in summary then summary[key] else Tally(0, 0, 0, 0);
    summary[key := entry.(total := entry.total + 1,
                          accepted := if accepted then entry.accepted + 1 else entry.accepted)]
  }

  lemma TallyStep(args: map<string, Argument>, acc: set<string>, done: set<string>,
                  summary: map<Key, Tally>, aid: string)
    requires TallyInv(args, acc, done, summary) && aid in args && aid !in done
    ensures TallyInv(args, acc, done + {aid}, AddArgument(summary, ArgKey(args[aid]), aid in acc))
  {
    var key := ArgKey(args[aid]);
    assert (set id | id in done + {aid} :: ArgKey(args[id])) == summary.Keys + {key};
    TallyEntries(args, acc, done, summary, aid);
  }

  /** Every entry after argument `aid` is tallied. */
  lemma TallyEntries(args: map<string, Argument>, acc: set<string>, done: set<string>,
                     summary: map<Key, Tally>, aid: string)
    requires TallyInv(args, acc, done, summary) && aid in args && aid !in done
    ensures var next := AddArgument(summary, ArgKey(args[aid]), aid in acc);
      forall k | k in next ::
        next[k] == Tally(KeyCount(args, done + {aid}, k), KeyCount(args, (done + {aid}) * acc, k), 0, 0)
  {
    var key := ArgKey(args[aid]);
    var next := AddArgument(summary, key, aid in acc);
    if key !in summary {
      CountAbsent(args, done, key);
      CountAbsent(args, done * acc, key);
    }
    if aid in acc {
      assert (done + {aid}) * acc == done * acc + {aid};
    } else {
      assert (done + {aid}) * acc == done * acc;
    }
    forall k | k in next
      ensures next[k] == Tally(KeyCount(args, done + {aid}, k), KeyCount(args, (done + {aid}) * acc, k), 0, 0)
    {
      CountStep(args, done, aid, k);
      if aid in acc {
        CountStep(args, done * acc, aid, k);
      }
    }
  }

  /** The first pass: tally every argument, and its acceptance, under its key. */
  method TallyArguments(args: map<string, Argument>, acc: set<string>) returns (summary: map<Key, Tally>)
    ensures TallyInv(args, acc, args.Keys, summary)
  {
    summary := map[];
    var done: set<string> := {};
    var todo := args.Keys;
    while todo != {}
      invariant todo + done == args.Keys && todo !! done
      invariant TallyInv(args, acc, done, summary)
      decreases todo
    {
      var aid :| aid in todo;
      TallyStep(args, acc, done, summary, aid);
      summary := AddArgument(summary, ArgKey(args[aid]), aid in acc);
      done := done + {aid};
      todo := todo - {aid};
    }
  }

  /** The keys the edges' endpoints are tallied under. */
  function EndKeys(args: map<string, Argument>, edges: seq<Edge>): set<Key> {
    (set e | e in edges :: EndpointKey(args, e.0)) + (set e | e in edges :: EndpointKey(args, e.1))
  }

  lemma EndCountAppend(args: map<string, Argument>, edges: seq<Edge>, i: nat, side: nat, key: Key)
    requires i < |edges|
    ensures EndCount(args, edges[..i + 1], side, key)
      == EndCount(args, edges[..i], side, key)
         + (if EndpointKey(args, if side == 0 then edges[i].0 else edges[i].1) == key then 1 else 0)
  {
    assert edges[..i + 1][..i] == edges[..i];
  }

  lemma {:induction false} EndCountAbsent(args: map<string, Argument>, edges: seq<Edge>, side: nat, key: Key)
    requires key !in EndKeys(args, edges)
    ensures EndCount(args, edges, side, key) == 0
  {
    if edges != [] {
      var init := edges[..|edges| - 1];
      assert forall e | e in init :: e in edges;
      EndCountAbsent(args, init, side, key);
      assert edges[|edges| - 1] in edges;
    }
  }

  /** What the second pass has built after charging the first `i` edges. */
  ghost predicate AttackInv(args: map<string, Argument>, first: map<Key, Tally>, edges: seq<Edge>, i: nat,
                            summary: map<Key, Tally>) {
    i <= |edges|
    && summary.Keys == first.Keys + EndKeys(args, edges[..i])
    && forall key | key in summary ::
         summary[key].total == (if key in first then first[key].total else 0)
         && summary[key].accepted == (if key in first then first[key].accepted else 0)
         && summary[key].attacksOut == EndCount(args, edges[..i], 0, key)
         && summary[key].attacksIn == EndCount(args, edges[..i], 1, key)
  }

  /** `summary.setdefault(key, zeros)["attacks_out"] += 1`. */
  function AddOut(summary: map<Key, Tally>, key: Key): map<Key, Tally> {
    var entry := if key in summary then summary[key] else Tally(0, 0, 0, 0);
    summary[key := entry.(attacksOut := entry.attacksOut + 1)]
  }

  /** `summary.setdefault(key, zeros)["attacks_in"] += 1`. */
  function AddIn(summary: map<Key, Tally>, key: Key): map<Key, Tally> {
    var entry := if key in summary then summary[key] else Tally(0, 0, 0, 0);
    summary[key := entry.(attacksIn := entry.attacksIn + 1)]
  }

  /** The effect of charging one edge on a single entry. */
  lemma ChargeEntry(summary: map<Key, Tally>, kAtt: Key, kTar: Key, key: Key)
    requires key in AddIn(AddOut(summary, kAtt), kTar)
    ensures var next := AddIn(AddOut(summary, kAtt), kTar);
      var old_ := if key in summary then summary[key] else Tally(0, 0, 0, 0);
      next[key] == Tally(old_.total, old_.accepted,
        old_.attacksOut + (if key == kAtt then 1 else 0), old_.attacksIn + (if key == kTar then 1 else 0))
  {
  }

  lemma EndKeysAppend(args: map<string, Argument>, edges: seq<Edge>, i: nat)
    requires i < |edges|
    ensures EndKeys(args, edges[..i + 1])
      == EndKeys(args, edges[..i]) + {EndpointKey(args, edges[i].0), EndpointKey(args, edges[i].1)}
  {
    assert edges[..i + 1] == edges[..i] + [edges[i]];
  }

  lemma AttackStep(args: map<string, Argument>, first: map<Key, Tally>, edges: seq<Edge>, i: nat,
                   summary: map<Key, Tally>)
    requires forall key | key in first :: first[key].attacksOut == 0 && first[key].attacksIn == 0
    requires AttackInv(args, first, edges, i, summary) && i < |edges|
    ensures AttackInv(args, first, edges, i + 1,
      AddIn(AddOut(summary, EndpointKey(args, edges[i].0)), EndpointKey(args, edges[i].1)))
  {
    var kAtt := EndpointKey(args, edges[i].0);
    var kTar := EndpointKey(args, edges[i].1);
    var next := AddIn(AddOut(summary, kAtt), kTar);
    AttackKeys(args, first, edges, i, summary);
    AttackEntries(args, first, edges, i, summary);
  }

  /** Charging edge `i` adds its endpoints' keys. */
  lemma AttackKeys(args: map<string, Argument>, first: map<Key, Tally>, edges: seq<Edge>, i: nat,
                   summary: map<Key, Tally>)
    requires i < |edges| && summary.Keys == first.Keys + EndKeys(args, edges[..i])
    ensures AddIn(AddOut(summary, EndpointKey(args, edges[i].0)), EndpointKey(args, edges[i].1)).Keys
      == first.Keys + EndKeys(args, edges[..i + 1])
  {
    EndKeysAppend(args, edges, i);
  }

  /** Every entry after edge `i` is charged. */
  lemma AttackEntries(args: map<string, Argument>, first: map<Key, Tally>, edges: seq<Edge>, i: nat,
                      summary: map<Key, Tally>)
    requires forall key | key in first :: first[key].attacksOut == 0 && first[key].attacksIn == 0
    requires AttackInv(args, first, edges, i, summary) && i < |edges|
    ensures var next := AddIn(AddOut(summary, EndpointKey(args, edges[i].0)), EndpointKey(args, edges[i].1));
      forall key | key in next ::
        && next[key].total == (if key in first then first[key].total else 0)
        && next[key].accepted == (if key in first then first[key].accepted else 0)
        && next[key].attacksOut == EndCount(args, edges[..i + 1], 0, key)
        && next[key].attacksIn == EndCount(args, edges[..i + 1], 1, key)
  {
    var next := AddIn(AddOut(summary, EndpointKey(args, edges[i].0)), EndpointKey(args, edges[i].1));
    forall key | key in next
      ensures next[key].total == (if key in first then first[key].total else 0)
      ensures next[key].accepted == (if key in first then first[key].accepted else 0)
      ensures next[key].attacksOut == EndCount(args, edges[..i + 1], 0, key)
      ensures next[key].attacksIn == EndCount(args, edges[..i + 1], 1, key)
    {
      AttackEntry(args, first, edges, i, summary, key);
    }
  }

  /** One key's entry after edge `i` is charged. */
  lemma AttackEntry(args: map<string, Argument>, first: map<Key, Tally>, edges: seq<Edge>, i: nat,
                    summary: map<Key, Tally>, key: Key)
    requires forall key | key in first :: first[key].attacksOut == 0 && first[key].attacksIn == 0
    requires AttackInv(args, first, edges, i, summary) && i < |edges|
    requires key in AddIn(AddOut(summary, EndpointKey(args, edges[i].0)), EndpointKey(args, edges[i].1))
    ensures var next := AddIn(AddOut(summary, EndpointKey(args, edges[i].0)), EndpointKey(args, edges[i].1));
      && next[key].total == (if key in first then first[key].total else 0)
      && next[key].accepted == (if key in first then first[key].accepted else 0)
      && next[key].attacksOut == EndCount(args, edges[..i + 1], 0, key)
      && next[key].attacksIn == EndCount(args, edges[..i + 1], 1, key)
  {
    var kAtt := EndpointKey(args, edges[i].0);
    var kTar := EndpointKey(args, edges[i].1);
    ChargeEntry(summary, kAtt, kTar, key);
    EndCountAppend(args, edges, i, 0, key);
    EndCountAppend(args, edges, i, 1, key);
    if key in summary {
      assert summary[key].attacksOut == EndCount(args, edges[..i], 0, key);
      assert summary[key].attacksIn == EndCount(args, edges[..i], 1, key);
    } else {
      assert key !in first;
      EndCountAbsent(args, edges[..i], 0, key);
      EndCountAbsent(args, edges[..i], 1, key);
    }
  }

  lemma AttackInvInit(args: map<string, Argument>, first: map<Key, Tally>, edges: seq<Edge>)
    requires forall key | key in first :: first[key].attacksOut == 0 && first[key].attacksIn == 0
    ensures AttackInv(args, first, edges, 0, first)
  {
    assert edges[..0] == [];
    assert EndKeys(args, []) == {};
  }

  /** The second pass: charge every edge to its attacker's key and its target's key. */
  method TallyAttacks(args: map<string, Argument>, edges: seq<Edge>, first: map<Key, Tally>)
    returns (summary: map<Key, Tally>)
    requires forall key | key in first :: first[key].attacksOut == 0 && first[key].attacksIn == 0
    ensures AttackInv(args, first, edges, |edges|, summary)
  {
    summary := first;
    var i := 0;
    AttackInvInit(args, first, edges);
    while i < |edges|
      invariant AttackInv(args, first, edges, i, summary)
    {
      var (attacker, target) := edges[i];
      AttackStep(args, first, edges, i, summary);
      summary := AddOut(summary, EndpointKey(args, attacker));
      summary := AddIn(summary, EndpointKey(args, target));
      i := i + 1;
    }
  }

  /** Python's order on (source, role) tuples. */
  predicate KeyLeq(a: Key, b: Key) {
    if a.0 == b.0 then LexLeq(a.1, b.1) else LexLeq(a.0, b.0)
  }

  lemma KeyTotal(a: Key, b: Key)
    ensures KeyLeq(a, b) || KeyLeq(b, a)
  {
    LexTotal(a.0, b.0);
    LexTotal(a.1, b.1);
  }

  lemma KeyAntisymmetric(a: Key, b: Key)
    requires KeyLeq(a, b) && KeyLeq(b, a)
    ensures a == b
  {
    if a.0 == b.0 {
      LexAntisymmetric(a.1, b.1);
    } else {
      LexAntisymmetric(a.0, b.0);
    }
  }

  lemma KeyTransitive(a: Key, b: Key, c: Key)
    requires KeyLeq(a, b) && KeyLeq(b, c)
    ensures KeyLeq(a, c)
  {
    if a.0 == b.0 && b.0 == c.0 {
      LexTransitive(a.1, b.1, c.1);
    } else if a.0 == b.0 {
    } else if b.0 == c.0 {
    } else {
      LexTransitive(a.0, b.0, c.0);
      if a.0 == c.0 {
        LexAntisymmetric(a.0, b.0);
      }
    }
  }

  /** Strictly increasing: sorted and free of repeats. */
  predicate StrictlySorted(s: seq<Key>) {
    forall i, j | 0 <= i < j < |s| :: KeyLeq(s[i], s[j]) && s[i] != s[j]
  }

  function InsertKey(x: Key, s: seq<Key>): seq<Key> {
    if s == [] then [x]
    else if KeyLeq(x, s[0]) then [x] + s
    else [s[0]] + InsertKey(x, s[1..])
  }

  /** Inserting adds the key and keeps every other. */
  lemma {:induction false} InsertKeyMultiset(x: Key, s: seq<Key>)
    ensures multiset(InsertKey(x, s)) == multiset(s) + multiset{x}
  {
    if s != [] {
      assert s == [s[0]] + s[1..];
      if !KeyLeq(x, s[0]) {
        InsertKeyMultiset(x, s[1..]);
      }
    }
  }

  /** Inserting a new key into a strictly sorted sequence keeps it strictly sorted. */
  lemma {:induction false} InsertKeySorted(x: Key, s: seq<Key>)
    requires StrictlySorted(s) && x !in s
    ensures StrictlySorted(InsertKey(x, s))
  {
    if s == [] {
    } else if KeyLeq(x, s[0]) {
      forall j | 0 <= j < |s|
        ensures KeyLeq(x, s[j])
      {
        if j > 0 {
          KeyTransitive(x, s[0], s[j]);
        }
      }
    } else {
      KeyTotal(x, s[0]);
      assert s == [s[0]] + s[1..];
      InsertKeySorted(x, s[1..]);
      InsertKeyMultiset(x, s[1..]);
      var t := InsertKey(x, s[1..]);
      forall k | 0 <= k < |t|
        ensures KeyLeq(s[0], t[k]) && s[0] != t[k]
      {
        assert t[k] in multiset(s[1..]) + multiset{x};
        if t[k] != x {
          assert t[k] in s[1..];
        }
      }
    }
  }

  /** `sorted(keys)`: the keys in increasing order, each once. */
  method SortKeys(keys: set<Key>) returns (r: seq<Key>)
    ensures StrictlySorted(r)
    ensures forall k :: k in r <==> k in keys
    ensures |r| == |keys|
  {
    r := [];
    var todo := keys;
    while todo != {}
      invariant todo <= keys
      invariant StrictlySorted(r)
      invariant multiset(r) + multiset(todo) == multiset(keys)
      decreases todo
    {
      var k :| k in todo;
      assert multiset(keys)[k] == 1 && multiset(todo)[k] == 1;
      assert multiset(r)[k] == 0;
      InsertKeySorted(k, r);
      InsertKeyMultiset(k, r);
      assert multiset(todo) == multiset(todo - {k}) + multiset{k};
      r := InsertKey(k, r);
      todo := todo - {k};
    }
    assert multiset(r) == multiset(keys);
    forall k
      ensures k in r <==> k in keys
    {
      assert k in r <==> k in multiset(r);
    }
    assert |r| == |multiset(r)| == |multiset(keys)| == |keys|;
  }

  /** One output row; the acceptance rate is kept exact rather than formatted to two decimals. */
  datatype SourceRow = SourceRow(
    source: string, role: string, total: nat, accepted: nat, rejected: nat,
    accRate: real, attacksOut: nat, attacksIn: nat)

  function RowOf(key: Key, t: Tally): SourceRow {
    var rejected := if t.total - t.accepted > 0 then t.total - t.accepted else 0;
    SourceRow(key.0, key.1, t.total, t.accepted, rejected,
      if t.total > 0 then t.accepted as real / t.total as real else 0.0,
      t.attacksOut, t.attacksIn)
  }

  /** The accepted arguments of a key are among its arguments. */
  lemma AcceptedWithinTotal(args: map<string, Argument>, acc: set<string>, key: Key)
    ensures KeyCount(args, args.Keys * acc, key) <= KeyCount(args, args.Keys, key)
  {
    var a := set x | x in args.Keys * acc && ArgKey(args[x]) == key;
    var b := set x | x in args.Keys && ArgKey(args[x]) == key;
    SubsetCard(a, b);
  }

  /** The row a key gets, stated from the arguments and edges directly. */
  ghost predicate RowFor(args: map<string, Argument>, acc: set<string>, edges: seq<Edge>, row: SourceRow) {
    var key := (row.source, row.role);
    var total := KeyCount(args, args.Keys, key);
    var accepted := KeyCount(args, args.Keys * acc, key);
    row.total == total && row.accepted == accepted && row.rejected == total - accepted
    && row.accRate == (if total > 0 then accepted as real / total as real else 0.0)
    && row.attacksOut == EndCount(args, edges, 0, key)
    && row.attacksIn == EndCount(args, edges, 1, key)
  }

  /** After both passes the summary has exactly the keys of `AllKeys`, each with its row's counts. */
  lemma SummaryRows(args: map<string, Argument>, acc: set<string>, edges: seq<Edge>,
                    first: map<Key, Tally>, summary: map<Key, Tally>)
    requires TallyInv(args, acc, args.Keys, first)
    requires AttackInv(args, first, edges, |edges|, summary)
    ensures summary.Keys == AllKeys(args, edges)
    ensures forall key | key in summary :: RowFor(args, acc, edges, RowOf(key, summary[key]))
  {
    assert edges[..|edges|] == edges;
    forall key | key in summary
      ensures RowFor(args, acc, edges, RowOf(key, summary[key]))
    {
      AcceptedWithinTotal(args, acc, key);
      if key !in first {
        CountAbsent(args, args.Keys, key);
        CountAbsent(args, args.Keys * acc, key);
      }
    }
  }

  /** The rows for `keys`, in the order given. */
  method BuildRows(summary: map<Key, Tally>, keys: seq<Key>) returns (rows: seq<SourceRow>)
    requires forall j | 0 <= j < |keys| :: keys[j] in summary
    ensures |rows| == |keys|
    ensures forall j | 0 <= j < |keys| :: rows[j] == RowOf(keys[j], summary[keys[j]])
  {
    rows := [];
    var i := 0;
    while i < |keys|
      invariant 0 <= i <= |keys| && |rows| == i
      invariant forall j | 0 <= j < i :: rows[j] == RowOf(keys[j], summary[keys[j]])
    {
      rows := rows + [RowOf(keys[i], summary[keys[i]])];
      i := i + 1;
    }
  }

  /** Rows built in sorted key order from a finished summary meet the summary's contract. */
  lemma RowsMeetSummary(args: map<string, Argument>, acc: set<string>, edges: seq<Edge>,
                        summary: map<Key, Tally>, keys: seq<Key>, rows: seq<SourceRow>)
    requires summary.Keys == AllKeys(args, edges)
    requires forall key | key in summary :: RowFor(args, acc, edges, RowOf(key, summary[key]))
    requires StrictlySorted(keys) && forall k :: k in keys <==> k in summary
    requires |rows| == |keys| && forall j | 0 <= j < |keys| :: keys[j] in summary && rows[j] == RowOf(keys[j], summary[keys[j]])
    ensures StrictlySorted(seq(|rows|, i requires 0 <= i < |rows| => (rows[i].source, rows[i].role)))
    ensures forall key ::
      key in AllKeys(args, edges) <==> exists i | 0 <= i < |rows| :: (rows[i].source, rows[i].role) == key
    ensures forall i | 0 <= i < |rows| :: RowFor(args, acc, edges, rows[i])
  {
    var rowKeys := seq(|rows|, i requires 0 <= i < |rows| => (rows[i].source, rows[i].role));
    assert rowKeys == keys;
    forall key
      ensures key in AllKeys(args, edges) <==> exists j | 0 <= j < |rows| :: (rows[j].source, rows[j].role) == key
    {
      if key in AllKeys(args, edges) {
        var j :| 0 <= j < |keys| && keys[j] == key;
        assert (rows[j].source, rows[j].role) == key;
      }
    }
  }

  /**
   * `summarize_sources`: one row per key that some argument or attack
   * endpoint is tallied under, in key order, each holding that key's counts.
   */
  method SummarizeSources(args: map<string, Argument>, acceptedIds: set<string>, attacks: seq<RawEdge>)
    returns (rows: seq<SourceRow>)
    ensures StrictlySorted(seq(|rows|, i requires 0 <= i < |rows| => (rows[i].source, rows[i].role)))
    ensures forall key ::
      key in AllKeys(args, KeptEdges(attacks)) <==> exists i | 0 <= i < |rows| :: (rows[i].source, rows[i].role) == key
    ensures forall i | 0 <= i < |rows| :: RowFor(args, acceptedIds, KeptEdges(attacks), rows[i])
  {
    var edges := NormalizeAttacks(attacks);
    var first := TallyArguments(args, acceptedIds);
    var summary := TallyAttacks(args, edges, first);
    SummaryRows(args, acceptedIds, edges, first, summary);
    var keys := SortKeys(summary.Keys);
    rows := BuildRows(summary, keys);
    RowsMeetSummary(args, acceptedIds, edges, summary, keys, rows);
  }
}
