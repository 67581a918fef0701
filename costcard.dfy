/**
 * The cost card of the run page: the total cost and tokens of a run's cost rows,
 * the per-service breakdown (grouped by service and model, sorted by cost, top
 * three), the choice of number format, and the "+N more operations" line.
 * Amounts are exact reals; floating-point rounding and `toFixed` digits are not modelled.
 */
module CostCard {
  import opened Wrappers
  import opened Js

  /** The fields of a cost row the card reads (token counts are validated non-negative integers). */
  datatype CostRow = CostRow(service: string, model: Option<string>, tokensInput: nat, tokensOutput: nat, costUsd: real)

  // ---------------------------------------------------------------------------
  // Totals

  /** The quantities a group accumulates: its cost, its tokens and its number of operations. */
  datatype Measure = CostMeasure | TokenMeasure | OperationMeasure

  /** What one row adds to a measure. */
  function RowMeasure(row: CostRow, m: Measure): real {
    match m
    case CostMeasure => row.costUsd
    case TokenMeasure => (row.tokensInput + row.tokensOutput) as real
    case OperationMeasure => 1.0
  }

  /** A left-to-right sum of a measure over rows. */
  function RowSum(rows: seq<CostRow>, m: Measure): real {
    if rows == [] then 0.0 else RowSum(rows[..|rows| - 1], m) + RowMeasure(rows[|rows| - 1], m)
  }

  /** `costs?.reduce((sum, cost) => sum + cost.costUsd, 0) || 0`. */
  function TotalCost(costs: Option<seq<CostRow>>): (r: real)
    ensures costs.None? || costs.value == [] ==> r == 0.0
    ensures costs.Some? && (forall i :: 0 <= i < |costs.value| ==> costs.value[i].costUsd >= 0.0) ==> r >= 0.0
  {
    if costs.None? then 0.0
    else
      NonNegativeCostSum(costs.value);
      RowSum(costs.value, CostMeasure)
  }

  lemma {:induction false} NonNegativeCostSum(rows: seq<CostRow>)
    ensures (forall i :: 0 <= i < |rows| ==> rows[i].costUsd >= 0.0) ==> RowSum(rows, CostMeasure) >= 0.0
  {
    if rows != [] {
      NonNegativeCostSum(rows[..|rows| - 1]);
    }
  }

  function InputTokens(rows: seq<CostRow>): nat {
    if rows == [] then 0 else InputTokens(rows[..|rows| - 1]) + rows[|rows| - 1].tokensInput
  }

  function OutputTokens(rows: seq<CostRow>): nat {
    if rows == [] then 0 else OutputTokens(rows[..|rows| - 1]) + rows[|rows| - 1].tokensOutput
  }

  /** `totalTokensInput + totalTokensOutput`, each a separate reduce defaulting to 0. */
  function TotalTokens(costs: Option<seq<CostRow>>): nat {
    if costs.None? then 0 else InputTokens(costs.value) + OutputTokens(costs.value)
  }

  /** Summing inputs and outputs separately equals summing each row's tokens. */
  lemma {:induction false} TotalTokensIsRowSum(rows: seq<CostRow>)
    ensures TotalTokens(Some(rows)) as real == RowSum(rows, TokenMeasure)
  {
    if rows != [] {
      TotalTokensIsRowSum(rows[..|rows| - 1]);
    }
  }

  // ---------------------------------------------------------------------------
  // Grouping

  /** The breakdown key: the service, followed by " (model)" only when the model is a non-empty string. */
  function Key(row: CostRow): (k: string)
    ensures row.model.None? || row.model.value == "" ==> k == row.service
    ensures row.model.Some? && row.model.value != "" ==> k == row.service + " (" + row.model.value + ")"
    ensures row.model.Some? && row.model.value != "" ==>
      |k| == |row.service| + |row.model.value| + 3 && k[..|row.service|] == row.service
  {
    if row.model.Some? && row.model.value != "" then row.service + " (" + row.model.value + ")" else row.service
  }

  /** Different rows can share a key: a service whose name already ends in a parenthesised model. */
  lemma KeyCanCollide()
    ensures Key(CostRow("openai (gpt-4)", None, 0, 0, 0.0)) == Key(CostRow("openai", Some("gpt-4"), 0, 0, 0.0))
  {
  }

  /** One accumulator entry: `{ cost, tokens, operations }`. */
  datatype Group = Group(cost: real, tokens: nat, operations: nat)

  function GroupMeasure(g: Group, m: Measure): real {
    match m
    case CostMeasure => g.cost
    case TokenMeasure => g.tokens as real
    case OperationMeasure => g.operations as real
  }

  const EmptyGroup := Group(0.0, 0, 0)

  /** `acc[key].cost += …; acc[key].tokens += …; acc[key].operations += 1`. */
  function Bump(g: Group, row: CostRow): (r: Group)
    ensures forall m :: GroupMeasure(r, m) == GroupMeasure(g, m) + RowMeasure(row, m)
  {
    Group(g.cost + row.costUsd, g.tokens + row.tokensInput + row.tokensOutput, g.operations + 1)
  }

  /** The accumulator: its keys in first-insertion order, and the group of each. */
  datatype Tally = Tally(keys: seq<string>, groups: map<string, Group>)

  /** Each key listed once, and exactly the keys of the map listed. */
  predicate WellFormed(t: Tally) {
    (forall i, j | 0 <= i < j < |t.keys| :: t.keys[i] != t.keys[j])
    && (forall k | k in t.groups :: k in t.keys)
    && (forall i | 0 <= i < |t.keys| :: t.keys[i] in t.groups)
  }

  /** One step of the reduce: create the group on first sight, then add the row to it. */
  function AddRow(t: Tally, row: CostRow): (r: Tally)
    requires WellFormed(t)
    ensures WellFormed(r)
    ensures r.groups.Keys == t.groups.Keys + {Key(row)}
  {
    var k := Key(row);
    if k in t.groups then Tally(t.keys, t.groups[k := Bump(t.groups[k], row)])
    else Tally(t.keys + [k], t.groups[k := Bump(EmptyGroup, row)])
  }

  /** The keys of the rows. */
  function KeysOf(rows: seq<CostRow>): set<string> {
    set i | 0 <= i < |rows| :: Key(rows[i])
  }

  /** The accumulator after reducing over `rows`. */
  function Tallied(rows: seq<CostRow>): (t: Tally)
    ensures WellFormed(t)
  {
    if rows == [] then Tally([], map[]) else AddRow(Tallied(rows[..|rows| - 1]), rows[|rows| - 1])
  }

  /** The accumulator has one group per distinct key of the rows, and no other. */
  lemma {:induction false} TalliedKeys(rows: seq<CostRow>)
    ensures Tallied(rows).groups.Keys == KeysOf(rows)
  {
    if rows != [] {
      var init := rows[..|rows| - 1];
      TalliedKeys(init);
      forall k | k in KeysOf(rows) ensures k in KeysOf(init) + {Key(rows[|rows| - 1])} {
        var i :| 0 <= i < |rows| && Key(rows[i]) == k;
        if i < |rows| - 1 {
          assert init[i] == rows[i];
        }
      }
      forall k | k in KeysOf(init) ensures k in KeysOf(rows) {
        var i :| 0 <= i < |init| && Key(init[i]) == k;
        assert rows[i] == init[i];
      }
      assert KeysOf(rows) == KeysOf(init) + {Key(rows[|rows| - 1])};
    }
  }

  /** The position of the first row whose key is `k`, or `|rows|` when no row has it. */
  function FirstIndex(rows: seq<CostRow>, k: string): (p: nat)
    ensures p <= |rows|
    ensures p < |rows| ==> Key(rows[p]) == k
  {
    if rows == [] then 0
    else
      var p := FirstIndex(rows[..|rows| - 1], k);
      if p < |rows| - 1 then p else if Key(rows[|rows| - 1]) == k then |rows| - 1 else |rows|
  }

  /** No row before that position has the key. */
  lemma {:induction false} FirstIndexIsFirst(rows: seq<CostRow>, k: string)
    ensures forall q | 0 <= q < FirstIndex(rows, k) && q < |rows| :: Key(rows[q]) != k
  {
    if rows != [] {
      var init := rows[..|rows| - 1];
      FirstIndexIsFirst(init, k);
      assert forall q | 0 <= q < |init| :: init[q] == rows[q];
    }
  }

  /** A key already seen among the first rows keeps its first position when a row is added. */
  lemma FirstIndexKept(rows: seq<CostRow>, k: string)
    requires rows != [] && FirstIndex(rows[..|rows| - 1], k) < |rows| - 1
    ensures FirstIndex(rows, k) == FirstIndex(rows[..|rows| - 1], k)
  {
  }

  /** A key first seen in the last row is first found there. */
  lemma FirstIndexNew(rows: seq<CostRow>)
    requires rows != [] && Key(rows[|rows| - 1]) !in KeysOf(rows[..|rows| - 1])
    ensures FirstIndex(rows, Key(rows[|rows| - 1])) == |rows| - 1
  {
  }

  /** The positions of the first rows of `keys`, key by key. */
  function Positions(rows: seq<CostRow>, keys: seq<string>): seq<nat> {
    seq(|keys|, i requires 0 <= i < |keys| => FirstIndex(rows, keys[i]))
  }

  /** Strictly increasing positions, all below `bound`. */
  predicate Increasing(ps: seq<int>, bound: int) {
    (forall i | 0 <= i < |ps| :: ps[i] < bound)
    && (forall i, j | 0 <= i < j < |ps| :: ps[i] < ps[j])
  }

  /** Every key has a row, and the keys come in the order of their first rows. */
  predicate FirstSightOrder(rows: seq<CostRow>, keys: seq<string>) {
    Increasing(Positions(rows, keys), |rows|)
  }

  /** Adding a row keeps the first positions of keys already seen. */
  lemma KeptOrder(rows: seq<CostRow>, keys: seq<string>)
    requires rows != [] && FirstSightOrder(rows[..|rows| - 1], keys)
    ensures Positions(rows, keys) == Positions(rows[..|rows| - 1], keys)
    ensures Increasing(Positions(rows, keys), |rows| - 1) && FirstSightOrder(rows, keys)
  {
    forall i | 0 <= i < |keys| ensures FirstIndex(rows, keys[i]) == FirstIndex(rows[..|rows| - 1], keys[i]) {
      assert Positions(rows[..|rows| - 1], keys)[i] == FirstIndex(rows[..|rows| - 1], keys[i]);
      FirstIndexKept(rows, keys[i]);
    }
  }

  /** A key first seen in the added row goes after all keys already seen. */
  lemma NewKeyOrder(rows: seq<CostRow>, keys: seq<string>)
    requires rows != [] && FirstSightOrder(rows[..|rows| - 1], keys)
    requires FirstIndex(rows, Key(rows[|rows| - 1])) == |rows| - 1
    ensures FirstSightOrder(rows, keys + [Key(rows[|rows| - 1])])
  {
    KeptOrder(rows, keys);
    var k := Key(rows[|rows| - 1]);
    PositionsAppend(rows, keys, k);
    IncreasingAppend(Positions(rows, keys), |rows| - 1);
  }

  /** The positions of one more key are one more position. */
  lemma PositionsAppend(rows: seq<CostRow>, keys: seq<string>, k: string)
    ensures Positions(rows, keys + [k]) == Positions(rows, keys) + [FirstIndex(rows, k)]
  {
    var all := keys + [k];
    assert forall i | 0 <= i < |keys| :: all[i] == keys[i];
    assert all[|keys|] == k;
  }

  /** Appending a position above all others keeps the positions increasing. */
  lemma IncreasingAppend(ps: seq<int>, p: int)
    requires Increasing(ps, p)
    ensures Increasing(ps + [p], p + 1)
  {
    var all := ps + [p];
    assert forall i | 0 <= i < |ps| :: all[i] == ps[i];
  }

  /**
   * The accumulator lists each key at its first sight: every listed key has a row,
   * and of two listed keys the earlier one was first seen earlier.
   */
  lemma {:induction false} TalliedOrder(rows: seq<CostRow>)
    ensures FirstSightOrder(rows, Tallied(rows).keys)
  {
    if rows != [] {
      var init := rows[..|rows| - 1];
      var t := Tallied(init);
      TalliedOrder(init);
      assert Tallied(rows) == AddRow(t, rows[|rows| - 1]);
      if Key(rows[|rows| - 1]) in t.groups {
        KeptOrder(rows, t.keys);
      } else {
        TalliedKeys(init);
        FirstIndexNew(rows);
        NewKeyOrder(rows, t.keys);
      }
    }
  }

  /** One reduce step in the accumulator's own terms: a new key is listed, and its group is created and bumped. */
  lemma AccumulateRow(keys: seq<string>, acc: map<string, Group>, row: CostRow)
    requires WellFormed(Tally(keys, acc))
    ensures AddRow(Tally(keys, acc), row) ==
      Tally(if Key(row) in acc then keys else keys + [Key(row)],
            acc[Key(row) := Bump(if Key(row) in acc then acc[Key(row)] else EmptyGroup, row)])
  {
  }

  /** Reducing one more row is one more step. */
  lemma TalliedPrefix(rows: seq<CostRow>, i: nat)
    requires i < |rows|
    ensures Tallied(rows[..i + 1]) == AddRow(Tallied(rows[..i]), rows[i])
  {
    assert rows[..i + 1][..i] == rows[..i];
  }

  /** A breakdown line: the key and its group. */
  datatype Entry = Entry(key: string, group: Group)

  /** The accumulator's entries in the order their keys were created. */
  function EntriesOf(t: Tally): (r: seq<Entry>)
    requires WellFormed(t)
    ensures |r| == |t.keys|
    ensures forall i :: 0 <= i < |r| ==> r[i] == Entry(t.keys[i], t.groups[t.keys[i]])
  {
    seq(|t.keys|, i requires 0 <= i < |t.keys| => Entry(t.keys[i], t.groups[t.keys[i]]))
  }

  /**
   * A canonical array index: "0", or digits with no leading zero, below 2^32 - 1.
   * `Object.entries` lists such keys before all others.
   */
  predicate IsArrayIndex(k: string) {
    k != [] && AllDigits(k) && (k[0] == '0' ==> |k| == 1) && DigitsValue(k) < 0xFFFF_FFFF
  }

  /** The lines whose key is an array index, in their order. */
  function IndexLines(s: seq<Entry>): seq<Entry> {
    if s == [] then []
    else IndexLines(s[..|s| - 1]) + (if IsArrayIndex(s[|s| - 1].key) then [s[|s| - 1]] else [])
  }

  /** The lines whose key is not an array index, in their order. */
  function NamedLines(s: seq<Entry>): seq<Entry> {
    if s == [] then []
    else NamedLines(s[..|s| - 1]) + (if IsArrayIndex(s[|s| - 1].key) then [] else [s[|s| - 1]])
  }

  /** The first part holds lines of the list with array-index keys only. */
  lemma {:induction false} IndexLinesAreIndices(s: seq<Entry>)
    ensures forall x | x in IndexLines(s) :: x in s && IsArrayIndex(x.key)
  {
    if s != [] {
      IndexLinesAreIndices(s[..|s| - 1]);
    }
  }

  /** The second part holds lines of the list with other keys only. */
  lemma {:induction false} NamedLinesAreNames(s: seq<Entry>)
    ensures forall x | x in NamedLines(s) :: x in s && !IsArrayIndex(x.key)
  {
    if s != [] {
      NamedLinesAreNames(s[..|s| - 1]);
    }
  }

  /** Every line goes to exactly one of the two parts. */
  lemma {:induction false} LinesSplit(s: seq<Entry>)
    ensures multiset(IndexLines(s)) + multiset(NamedLines(s)) == multiset(s)
  {
    if s != [] {
      var init := s[..|s| - 1];
      var last := s[|s| - 1];
      LinesSplit(init);
      assert multiset(s) == multiset(init) + multiset{last} by {
        assert s == init + [last];
      }
      if IsArrayIndex(last.key) {
        assert IndexLines(s) == IndexLines(init) + [last];
        assert NamedLines(s) == NamedLines(init);
      } else {
        assert IndexLines(s) == IndexLines(init);
        assert NamedLines(s) == NamedLines(init) + [last];
      }
    }
  }

  /** The numeric value of an array-index key, and -1 for any other key. */
  function IndexRank(k: string): int {
    if IsArrayIndex(k) then DigitsValue(k) else -1
  }

  /** Lines with array-index keys, in ascending numeric order. */
  predicate AscendingIndices(s: seq<Entry>) {
    (forall i | 0 <= i < |s| :: IsArrayIndex(s[i].key))
    && (forall i, j | 0 <= i < j < |s| :: IndexRank(s[i].key) <= IndexRank(s[j].key))
  }

  /** A line whose index is at least every line's of an ascending list can go at its end. */
  lemma AscendingAppend(s: seq<Entry>, e: Entry)
    requires AscendingIndices(s) && IsArrayIndex(e.key)
    requires forall x | x in s :: IndexRank(x.key) <= IndexRank(e.key)
    ensures AscendingIndices(s + [e])
  {
    var r := s + [e];
    forall i, j | 0 <= i < j < |r| ensures IndexRank(r[i].key) <= IndexRank(r[j].key) {
      if j == |s| {
        assert r[i] in s;
      }
    }
  }

  /** Dropping the last line of an ascending list leaves it ascending, below that line. */
  lemma AscendingInit(s: seq<Entry>)
    requires AscendingIndices(s) && s != []
    ensures AscendingIndices(s[..|s| - 1])
    ensures forall x | x in s[..|s| - 1] :: IndexRank(x.key) <= IndexRank(s[|s| - 1].key)
  {
    var init := s[..|s| - 1];
    forall x | x in init ensures IndexRank(x.key) <= IndexRank(s[|s| - 1].key) {
      var i :| 0 <= i < |init| && init[i] == x;
      assert s[i] == x;
    }
  }

  /** Puts `e` after every line with a smaller or equal index. */
  function InsertByIndex(s: seq<Entry>, e: Entry): (r: seq<Entry>)
    requires AscendingIndices(s) && IsArrayIndex(e.key)
    ensures AscendingIndices(r) && multiset(r) == multiset(s) + multiset{e}
    ensures forall x | x in r :: x in s || x == e
  {
    if s == [] then [e]
    else if IndexRank(s[|s| - 1].key) <= IndexRank(e.key) then
      AscendingInit(s);
      AscendingAppend(s, e);
      s + [e]
    else
      var init := s[..|s| - 1];
      var last := s[|s| - 1];
      AscendingInit(s);
      var r' := InsertByIndex(init, e);
      AscendingAppend(r', last);
      assert s == init + [last];
      r' + [last]
  }

  function SortByIndex(s: seq<Entry>): (r: seq<Entry>)
    requires forall x | x in s :: IsArrayIndex(x.key)
    ensures AscendingIndices(r) && multiset(r) == multiset(s)
  {
    if s == [] then []
    else
      var init := s[..|s| - 1];
      assert s == init + [s[|s| - 1]];
      InsertByIndex(SortByIndex(init), s[|s| - 1])
  }

  /**
   * `Object.entries(breakdown)`: the array-index keys first, in ascending numeric
   * order, then the other keys in the order they were created.
   */
  function ObjectOrder(s: seq<Entry>): (r: seq<Entry>)
    ensures multiset(r) == multiset(s) && |r| == |s|
  {
    IndexLinesAreIndices(s);
    LinesSplit(s);
    var indexed := SortByIndex(IndexLines(s));
    var r := indexed + NamedLines(s);
    assert multiset(r) == multiset(indexed) + multiset(NamedLines(s));
    assert |r| == |s| by {
      assert |multiset(r)| == |multiset(s)|;
    }
    r
  }

  /**
   * The layout of `Object.entries`: first the array-index lines in ascending
   * numeric order, then every other line in its original order.
   */
  lemma ObjectOrderLayout(s: seq<Entry>)
    ensures |IndexLines(s)| <= |ObjectOrder(s)|
    ensures AscendingIndices(ObjectOrder(s)[..|IndexLines(s)|])
    ensures multiset(ObjectOrder(s)[..|IndexLines(s)|]) == multiset(IndexLines(s))
    ensures ObjectOrder(s)[|IndexLines(s)|..] == NamedLines(s)
  {
    IndexLinesAreIndices(s);
    var indexed := SortByIndex(IndexLines(s));
    var r := ObjectOrder(s);
    assert r == indexed + NamedLines(s);
    assert |indexed| == |IndexLines(s)| by {
      assert |multiset(indexed)| == |multiset(IndexLines(s))|;
    }
    assert r[..|indexed|] == indexed;
    assert r[|indexed|..] == NamedLines(s);
  }

  /** A left-to-right sum of a measure over breakdown lines. */
  function GroupSum(entries: seq<Entry>, m: Measure): real {
    if entries == [] then 0.0 else GroupSum(entries[..|entries| - 1], m) + GroupMeasure(entries[|entries| - 1].group, m)
  }

  /** Replacing one line's group changes the sum by the difference of the two groups. */
  lemma {:induction false} GroupSumUpdate(entries: seq<Entry>, p: nat, e: Entry, m: Measure)
    requires p < |entries|
    ensures GroupSum(entries[p := e], m) == GroupSum(entries, m) - GroupMeasure(entries[p].group, m) + GroupMeasure(e.group, m)
  {
    var n := |entries|;
    if p < n - 1 {
      assert entries[p := e][..n - 1] == entries[..n - 1][p := e];
      GroupSumUpdate(entries[..n - 1], p, e, m);
    } else {
      assert entries[p := e][..n - 1] == entries[..n - 1];
    }
  }

  /** Appending a line adds its group to the sum. */
  lemma GroupSumAppend(entries: seq<Entry>, e: Entry, m: Measure)
    ensures GroupSum(entries + [e], m) == GroupSum(entries, m) + GroupMeasure(e.group, m)
  {
    assert (entries + [e])[..|entries|] == entries;
  }

  /** A row of a known key changes that key's line in place. */
  lemma EntriesAfterBump(t: Tally, row: CostRow, p: nat)
    requires WellFormed(t) && p < |t.keys| && t.keys[p] == Key(row)
    ensures EntriesOf(AddRow(t, row)) == EntriesOf(t)[p := Entry(Key(row), Bump(t.groups[Key(row)], row))]
  {
    var before := EntriesOf(t);
    var after := EntriesOf(AddRow(t, row));
    var e := Entry(Key(row), Bump(t.groups[Key(row)], row));
    forall i | 0 <= i < |after| ensures after[i] == before[p := e][i] {
      if i != p {
        assert t.keys[i] != Key(row);
      }
    }
  }

  /** A row of a new key adds one line at the end. */
  lemma EntriesAfterNewKey(t: Tally, row: CostRow)
    requires WellFormed(t) && Key(row) !in t.groups
    ensures EntriesOf(AddRow(t, row)) == EntriesOf(t) + [Entry(Key(row), Bump(EmptyGroup, row))]
  {
    var before := EntriesOf(t);
    var after := EntriesOf(AddRow(t, row));
    var e := Entry(Key(row), Bump(EmptyGroup, row));
    forall i | 0 <= i < |after| ensures after[i] == (before + [e])[i] {
      if i < |before| {
        assert t.keys[i] != Key(row);
      }
    }
  }

  /** One reduce step adds exactly the row's measure to the breakdown's total. */
  lemma AddRowConserves(t: Tally, row: CostRow, m: Measure)
    requires WellFormed(t)
    ensures GroupSum(EntriesOf(AddRow(t, row)), m) == GroupSum(EntriesOf(t), m) + RowMeasure(row, m)
  {
    var k := Key(row);
    if k in t.groups {
      var p :| 0 <= p < |t.keys| && t.keys[p] == k;
      EntriesAfterBump(t, row, p);
      GroupSumUpdate(EntriesOf(t), p, Entry(k, Bump(t.groups[k], row)), m);
    } else {
      EntriesAfterNewKey(t, row);
      GroupSumAppend(EntriesOf(t), Entry(k, Bump(EmptyGroup, row)), m);
    }
  }

  /**
   * Before the slice, the breakdown conserves every measure: its groups' costs,
   * tokens and operations add up to the rows' total cost, total tokens and count.
   */
  lemma {:induction false} BreakdownConserves(rows: seq<CostRow>, m: Measure)
    ensures GroupSum(EntriesOf(Tallied(rows)), m) == RowSum(rows, m)
  {
    if rows != [] {
      var init := rows[..|rows| - 1];
      BreakdownConserves(init, m);
      AddRowConserves(Tallied(init), rows[|rows| - 1], m);
    }
  }

  /** Splitting the lines splits the sum. */
  lemma {:induction false} GroupSumConcat(a: seq<Entry>, b: seq<Entry>, m: Measure)
    ensures GroupSum(a + b, m) == GroupSum(a, m) + GroupSum(b, m)
    decreases |b|
  {
    if b != [] {
      var b' := b[..|b| - 1];
      assert (a + b)[..|a + b| - 1] == a + b';
      assert (a + b)[|a + b| - 1] == b[|b| - 1];
      GroupSumConcat(a, b', m);
    } else {
      assert a + b == a;
    }
  }

  /** Taking one line out of a list takes its measure out of the sum. */
  lemma GroupSumRemove(b: seq<Entry>, p: nat, m: Measure)
    requires p < |b|
    ensures GroupSum(b, m) == GroupSum(b[..p] + b[p + 1..], m) + GroupMeasure(b[p].group, m)
  {
    var x := b[p];
    assert b == (b[..p] + [x]) + b[p + 1..];
    GroupSumConcat(b[..p] + [x], b[p + 1..], m);
    GroupSumAppend(b[..p], x, m);
    GroupSumConcat(b[..p], b[p + 1..], m);
  }

  /** Taking one line out of a list takes it out of its multiset. */
  lemma MultisetRemove(b: seq<Entry>, p: nat)
    requires p < |b|
    ensures multiset(b[..p] + b[p + 1..]) == multiset(b) - multiset{b[p]}
  {
    assert b == b[..p] + [b[p]] + b[p + 1..];
  }

  /** The sum does not depend on the order of the lines. */
  lemma {:induction false} GroupSumPermutation(a: seq<Entry>, b: seq<Entry>, m: Measure)
    requires multiset(a) == multiset(b)
    ensures GroupSum(a, m) == GroupSum(b, m)
    decreases |a|
  {
    if a == [] {
      assert |multiset(b)| == 0;
    } else {
      var x := a[|a| - 1];
      var a' := a[..|a| - 1];
      MultisetRemove(a, |a| - 1);
      assert a[..|a| - 1] + a[|a|..] == a';
      assert x in multiset(b);
      var p :| 0 <= p < |b| && b[p] == x;
      MultisetRemove(b, p);
      GroupSumPermutation(a', b[..p] + b[p + 1..], m);
      GroupSumRemove(b, p, m);
    }
  }

  /**
   * The three conservation facts in the card's own terms, for the entries as
   * `Object.entries` lists them before the sort.
   */
  lemma BreakdownTotals(rows: seq<CostRow>)
    ensures GroupSum(ObjectOrder(EntriesOf(Tallied(rows))), OperationMeasure) == |rows| as real
    ensures GroupSum(ObjectOrder(EntriesOf(Tallied(rows))), CostMeasure) == TotalCost(Some(rows))
    ensures GroupSum(ObjectOrder(EntriesOf(Tallied(rows))), TokenMeasure) == TotalTokens(Some(rows)) as real
  {
    var entries := EntriesOf(Tallied(rows));
    BreakdownConserves(rows, OperationMeasure);
    BreakdownConserves(rows, CostMeasure);
    BreakdownConserves(rows, TokenMeasure);
    GroupSumPermutation(ObjectOrder(entries), entries, OperationMeasure);
    GroupSumPermutation(ObjectOrder(entries), entries, CostMeasure);
    GroupSumPermutation(ObjectOrder(entries), entries, TokenMeasure);
    TotalTokensIsRowSum(rows);
    RowCount(rows);
  }

  lemma {:induction false} RowCount(rows: seq<CostRow>)
    ensures RowSum(rows, OperationMeasure) == |rows| as real
  {
    if rows != [] {
      RowCount(rows[..|rows| - 1]);
    }
  }

  // ---------------------------------------------------------------------------
  // Sorting and slicing

  predicate SortedByCost(s: seq<Entry>) {
    forall i, j | 0 <= i < j < |s| :: s[i].group.cost >= s[j].group.cost
  }

  /** A line no dearer than every line of a sorted list can go at its end. */
  lemma SortedAppend(s: seq<Entry>, e: Entry)
    requires SortedByCost(s)
    requires forall x | x in s :: x.group.cost >= e.group.cost
    ensures SortedByCost(s + [e])
  {
    var r := s + [e];
    forall i, j | 0 <= i < j < |r| ensures r[i].group.cost >= r[j].group.cost {
      if j == |s| {
        assert r[i] in s;
      }
    }
  }

  /** Dropping the last line of a sorted list leaves it sorted, and every line left costs at least that much. */
  lemma SortedInit(s: seq<Entry>)
    requires SortedByCost(s) && s != []
    ensures SortedByCost(s[..|s| - 1])
    ensures forall x | x in s[..|s| - 1] :: x.group.cost >= s[|s| - 1].group.cost
  {
    var init := s[..|s| - 1];
    forall x | x in init ensures x.group.cost >= s[|s| - 1].group.cost {
      var i :| 0 <= i < |init| && init[i] == x;
      assert s[i] == x;
    }
  }

  /** Puts `e` after every line that costs at least as much, keeping equal lines in order. */
  function InsertByCost(s: seq<Entry>, e: Entry): (r: seq<Entry>)
    requires SortedByCost(s)
    ensures SortedByCost(r) && multiset(r) == multiset(s) + multiset{e}
    ensures forall x | x in r :: x in s || x == e
  {
    if s == [] then [e]
    else if s[|s| - 1].group.cost >= e.group.cost then
      SortedAppend(s, e);
      s + [e]
    else
      var init := s[..|s| - 1];
      var last := s[|s| - 1];
      SortedInit(s);
      var r' := InsertByCost(init, e);
      SortedAppend(r', last);
      assert s == init + [last];
      r' + [last]
  }

  /** `.sort(([, a], [, b]) => b.cost - a.cost)`: a stable sort by decreasing cost. */
  function SortByCost(s: seq<Entry>): (r: seq<Entry>)
    ensures SortedByCost(r) && multiset(r) == multiset(s) && |r| == |s|
  {
    if s == [] then []
    else
      var init := s[..|s| - 1];
      assert s == init + [s[|s| - 1]];
      assert multiset(s) == multiset(init) + multiset{s[|s| - 1]};
      InsertByCost(SortByCost(init), s[|s| - 1])
  }

  /**
   * `getServiceBreakdown()`: nothing for absent or empty costs, else the three most
   * expensive groups, ties broken by `Object.entries` order.
   */
  function BreakdownOf(costs: Option<seq<CostRow>>): (r: seq<Entry>)
    ensures |r| <= 3 && SortedByCost(r)
    ensures costs.None? || costs.value == [] ==> r == []
    ensures costs.Some? && costs.value != [] ==> |r| == Min(3, |Tallied(costs.value).keys|)
  {
    if costs.None? || costs.value == [] then []
    else
      var sorted := SortByCost(ObjectOrder(EntriesOf(Tallied(costs.value))));
      sorted[..Min(3, |sorted|)]
  }

  function Min(a: int, b: int): int {
    if a <= b then a else b
  }

  /** A prefix of a sorted list holds its costliest lines: no line after it costs more than one in it. */
  lemma SortedPrefixIsCostliest(s: seq<Entry>, n: nat)
    requires SortedByCost(s) && n <= |s|
    ensures forall e, x | e in s && e !in s[..n] && x in s[..n] :: e.group.cost <= x.group.cost
  {
    forall e, x | e in s && e !in s[..n] && x in s[..n] ensures e.group.cost <= x.group.cost {
      var j :| 0 <= j < |s| && s[j] == e;
      var i :| 0 <= i < n && s[..n][i] == x;
      assert s[i] == x;
    }
  }

  /** `top` holds the costliest of `entries`: every line of it is an entry, and no entry left out costs more than one kept. */
  predicate IsTop(top: seq<Entry>, entries: seq<Entry>) {
    (forall x | x in top :: x in entries)
    && (forall e, x | e in entries && e !in top && x in top :: e.group.cost <= x.group.cost)
  }

  /** Listing, sorting and keeping the first `n` keeps the costliest entries. */
  lemma TopOfEntries(entries: seq<Entry>, n: nat)
    requires n <= |entries|
    ensures IsTop(SortByCost(ObjectOrder(entries))[..n], entries)
  {
    var sorted := SortByCost(ObjectOrder(entries));
    assert multiset(sorted) == multiset(entries);
    SortedPrefixIsCostliest(sorted, n);
    forall x | x in sorted[..n] ensures x in entries {
      assert x in sorted;
      assert x in multiset(sorted);
    }
    forall e | e in entries ensures e in sorted {
      assert e in multiset(entries);
    }
  }

  /** The breakdown shows the costliest groups: every group it leaves out costs no more than any it shows. */
  lemma BreakdownIsTopThree(rows: seq<CostRow>)
    requires rows != []
    ensures IsTop(BreakdownOf(Some(rows)), EntriesOf(Tallied(rows)))
  {
    var entries := EntriesOf(Tallied(rows));
    var n := Min(3, |entries|);
    TopOfEntries(entries, n);
  }

  /** The lines of one cost, in their order. */
  function WithCost(s: seq<Entry>, c: real): seq<Entry> {
    if s == [] then []
    else WithCost(s[..|s| - 1], c) + (if s[|s| - 1].group.cost == c then [s[|s| - 1]] else [])
  }

  lemma {:induction false} WithCostConcat(a: seq<Entry>, b: seq<Entry>, c: real)
    ensures WithCost(a + b, c) == WithCost(a, c) + WithCost(b, c)
    decreases |b|
  {
    if b != [] {
      var b' := b[..|b| - 1];
      assert (a + b)[..|a + b| - 1] == a + b';
      assert (a + b)[|a + b| - 1] == b[|b| - 1];
      WithCostConcat(a, b', c);
    } else {
      assert a + b == a;
    }
  }

  lemma WithCostSingle(e: Entry, c: real)
    ensures WithCost([e], c) == if e.group.cost == c then [e] else []
  {
    assert [e][..0] == [];
  }

  /** Two lines of different costs: at most one of them has cost `c`, so their order does not matter. */
  lemma WithCostSwap(e: Entry, f: Entry, c: real)
    requires e.group.cost != f.group.cost
    ensures WithCost([e], c) + WithCost([f], c) == WithCost([f], c) + WithCost([e], c)
  {
    WithCostSingle(e, c);
    WithCostSingle(f, c);
  }

  /** Insertion puts `e` after every line of its own cost. */
  lemma {:induction false} InsertByCostStable(s: seq<Entry>, e: Entry, c: real)
    requires SortedByCost(s)
    ensures WithCost(InsertByCost(s, e), c) == WithCost(s, c) + WithCost([e], c)
    decreases |s|, 1
  {
    if s == [] {
      assert InsertByCost(s, e) == [e];
    } else if s[|s| - 1].group.cost >= e.group.cost {
      assert InsertByCost(s, e) == s + [e];
      WithCostConcat(s, [e], c);
    } else {
      InsertPastCheaper(s, e, c);
    }
  }

  /** The inductive step: `e` goes before a cheaper last line. */
  lemma {:induction false} InsertPastCheaper(s: seq<Entry>, e: Entry, c: real)
    requires SortedByCost(s) && s != [] && s[|s| - 1].group.cost < e.group.cost
    ensures WithCost(InsertByCost(s, e), c) == WithCost(s, c) + WithCost([e], c)
    decreases |s|, 0
  {
    var init := s[..|s| - 1];
    var last := s[|s| - 1];
    assert SortedByCost(init) by {
      SortedInit(s);
    }
    var r' := InsertByCost(init, e);
    assert InsertByCost(s, e) == r' + [last];
    assert WithCost(r', c) == WithCost(init, c) + WithCost([e], c) by {
      InsertByCostStable(init, e, c);
    }
    assert WithCost(r' + [last], c) == WithCost(r', c) + WithCost([last], c) by {
      WithCostConcat(r', [last], c);
    }
    assert WithCost(s, c) == WithCost(init, c) + WithCost([last], c) by {
      assert s == init + [last];
      WithCostConcat(init, [last], c);
    }
    assert WithCost([e], c) + WithCost([last], c) == WithCost([last], c) + WithCost([e], c) by {
      WithCostSwap(e, last, c);
    }
    Regroup(WithCost(r', c), WithCost(init, c), WithCost([e], c), WithCost([last], c));
  }

  /** `r = i + e` and `e + l == l + e` give `r + l == (i + l) + e`. */
  lemma Regroup(r: seq<Entry>, i: seq<Entry>, e: seq<Entry>, l: seq<Entry>)
    requires r == i + e && e + l == l + e
    ensures r + l == (i + l) + e
  {
    calc {
      r + l;
      i + (e + l);
      i + (l + e);
    }
  }

  /** The sort is stable: lines of equal cost keep their relative order. */
  lemma {:induction false} SortByCostStable(s: seq<Entry>, c: real)
    ensures WithCost(SortByCost(s), c) == WithCost(s, c)
  {
    if s != [] {
      var init := s[..|s| - 1];
      var last := s[|s| - 1];
      var sorted := SortByCost(init);
      assert SortByCost(s) == InsertByCost(sorted, last);
      assert WithCost(sorted, c) == WithCost(init, c) by {
        SortByCostStable(init, c);
      }
      assert WithCost(InsertByCost(sorted, last), c) == WithCost(sorted, c) + WithCost([last], c) by {
        InsertByCostStable(sorted, last, c);
      }
      assert WithCost(s, c) == WithCost(init, c) + WithCost([last], c) by {
        WithCostSingle(last, c);
      }
    }
  }

  /** When every line has cost `c`, the lines of cost `c` are all of them. */
  lemma {:induction false} WithCostAll(s: seq<Entry>, c: real)
    requires forall x | x in s :: x.group.cost == c
    ensures WithCost(s, c) == s
  {
    if s != [] {
      WithCostAll(s[..|s| - 1], c);
    }
  }

  /** Lines that all cost the same are left as they are by the sort. */
  lemma SortByCostKeepsTies(s: seq<Entry>, c: real)
    requires forall x | x in s :: x.group.cost == c
    ensures SortByCost(s) == s
  {
    var sorted := SortByCost(s);
    assert forall x | x in sorted :: x.group.cost == c by {
      forall x | x in sorted ensures x.group.cost == c {
        assert x in multiset(sorted);
      }
    }
    SortByCostStable(s, c);
    WithCostAll(s, c);
    WithCostAll(sorted, c);
  }

  /** A reordering of lines that all cost `c` costs `c` throughout. */
  lemma PermutationKeepsCost(a: seq<Entry>, b: seq<Entry>, c: real)
    requires multiset(a) == multiset(b)
    requires forall x | x in a :: x.group.cost == c
    ensures forall x | x in b :: x.group.cost == c
  {
    forall x | x in b ensures x.group.cost == c {
      assert x in multiset(b);
    }
  }

  /**
   * When every group costs the same, the breakdown is the first three entries in
   * `Object.entries` order: array-index keys first, then first-seen order.
   */
  lemma BreakdownOfTies(rows: seq<CostRow>, c: real)
    requires rows != []
    requires forall x | x in EntriesOf(Tallied(rows)) :: x.group.cost == c
    ensures var listed := ObjectOrder(EntriesOf(Tallied(rows)));
      BreakdownOf(Some(rows)) == listed[..Min(3, |listed|)]
  {
    var entries := EntriesOf(Tallied(rows));
    var listed := ObjectOrder(entries);
    PermutationKeepsCost(entries, listed, c);
    SortByCostKeepsTies(listed, c);
  }

  /**
   * `getServiceBreakdown`: reduces the rows into an accumulator map (groups created
   * on first sight, in that order), lists its entries as `Object.entries` does,
   * then sorts them by cost and keeps three.
   */
  method ServiceBreakdown(costs: Option<seq<CostRow>>) returns (top: seq<Entry>)
    ensures top == BreakdownOf(costs)
  {
    if costs.None? || |costs.value| == 0 {
      return [];
    }
    var rows := costs.value;
    var keys: seq<string> := [];
    var acc: map<string, Group> := map[];
    var i := 0;
    while i < |rows|
      invariant 0 <= i <= |rows|
      invariant Tally(keys, acc) == Tallied(rows[..i])
    {
      var row := rows[i];
      TalliedPrefix(rows, i);
      AccumulateRow(keys, acc, row);
      var key := Key(row);
      var group := if key in acc then acc[key] else EmptyGroup;
      if key !in acc {
        keys := keys + [key];
      }
      acc := acc[key := Bump(group, row)];
      i := i + 1;
    }
    assert rows[..i] == rows;
    var sorted := SortByCost(ObjectOrder(EntriesOf(Tally(keys, acc))));
    top := sorted[..Min(3, |sorted|)];
  }

  // ---------------------------------------------------------------------------
  // Number formats

  /** The text `formatCost` shows: "$0.00", or "$" and the amount with a fixed number of decimals. */
  datatype Dollars = ZeroDollars | FixedDollars(decimals: nat, amount: real)

  /** `formatCost`: zero is "$0.00", below a cent four decimals (negatives included), otherwise two. */
  function FormatCost(cost: real): (r: Dollars)
    ensures r == ZeroDollars <==> cost == 0.0
    ensures r.FixedDollars? ==> r.amount == cost
    ensures r.FixedDollars? ==> (r.decimals == 4 <==> cost < 0.01) && (r.decimals == 2 <==> cost >= 0.01)
  {
    if cost == 0.0 then ZeroDollars
    else if cost < 0.01 then FixedDollars(4, cost)
    else FixedDollars(2, cost)
  }

  /** The text `formatTokens` shows: a plain decimal, or a scaled amount with one decimal and a suffix. */
  datatype TokenText = Plain(text: string) | Scaled(amount: real, suffix: char)

  /** `formatTokens`: "0", millions with "M", thousands with "K", otherwise the plain count. */
  function FormatTokens(tokens: nat): (r: TokenText)
    ensures r.Scaled? <==> tokens >= 1000
    ensures r.Scaled? && r.suffix == 'M' <==> tokens >= 1000000
    ensures r.Scaled? && r.suffix == 'K' ==> 1.0 <= r.amount < 1000.0 && r.amount * 1000.0 == tokens as real
    ensures r.Scaled? && r.suffix == 'M' ==> 1.0 <= r.amount && r.amount * 1000000.0 == tokens as real
  {
    if tokens == 0 then Plain("0")
    else if tokens >= 1000000 then Scaled(tokens as real / 1000000.0, 'M')
    else if tokens >= 1000 then Scaled(tokens as real / 1000.0, 'K')
    else Plain(NatToString(tokens))
  }

  /** Below a thousand the count is shown as its own decimal rendering (the "0" case agrees), which reads back. */
  lemma FormatTokensPlain(tokens: nat)
    requires tokens < 1000
    ensures FormatTokens(tokens) == Plain(NatToString(tokens))
    ensures ParseInt(FormatTokens(tokens).text) == Some(tokens)
  {
    ParseIntOfNatToString(tokens);
  }

  // ---------------------------------------------------------------------------
  // The card's conditional lines

  /** `costs.length > 3 && "+{costs.length - 3} more operations"`. */
  function MoreOperations(costs: Option<seq<CostRow>>): (r: Option<nat>)
    ensures r.Some? <==> costs.Some? && |costs.value| > 3
    ensures r.Some? ==> r.value + 3 == |costs.value| && r.value > 0
  {
    if costs.Some? && |costs.value| > 3 then Some(|costs.value| - 3) else None
  }

  /** Rows that all share one key make exactly one group. */
  lemma {:induction false} TalliedOneKey(rows: seq<CostRow>)
    requires rows != [] && forall i | 0 <= i < |rows| :: Key(rows[i]) == Key(rows[0])
    ensures Tallied(rows).keys == [Key(rows[0])]
  {
    var init := rows[..|rows| - 1];
    if init == [] {
      assert Tallied(init) == Tally([], map[]);
    } else {
      TalliedOneKey(init);
      assert Key(init[0]) in Tallied(init).groups;
    }
  }

  /** The line counts rows, not groups: four or more rows of one service show one group and "+n more". */
  lemma MoreOperationsCountsRows(rows: seq<CostRow>)
    requires |rows| > 3 && forall i | 0 <= i < |rows| :: Key(rows[i]) == Key(rows[0])
    ensures |BreakdownOf(Some(rows))| == 1
    ensures MoreOperations(Some(rows)) == Some(|rows| - 3)
  {
    TalliedOneKey(rows);
    var shown := BreakdownOf(Some(rows));
    assert |shown| == Min(3, |Tallied(rows).keys|);
  }

  /** `totalTokens > 0 && …`: the token line under the total. */
  predicate ShowsTokens(costs: Option<seq<CostRow>>) {
    TotalTokens(costs) > 0
  }

  /** The token line shows exactly when some row used a token. */
  lemma {:induction false} ShowsTokensIff(rows: seq<CostRow>)
    ensures ShowsTokens(Some(rows)) <==> exists i :: 0 <= i < |rows| && rows[i].tokensInput + rows[i].tokensOutput > 0
  {
    if rows != [] {
      var init := rows[..|rows| - 1];
      ShowsTokensIff(init);
      if exists i :: 0 <= i < |init| && init[i].tokensInput + init[i].tokensOutput > 0 {
        var i :| 0 <= i < |init| && init[i].tokensInput + init[i].tokensOutput > 0;
        assert rows[i] == init[i];
      }
      if exists i :: 0 <= i < |rows| && rows[i].tokensInput + rows[i].tokensOutput > 0 {
        var i :| 0 <= i < |rows| && rows[i].tokensInput + rows[i].tokensOutput > 0;
        if i < |init| {
          assert init[i] == rows[i];
        }
      }
    }
  }

  /** "No costs recorded yet" shows exactly when the breakdown section does not. */
  lemma EmptyNoteAndBreakdownExclusive(costs: Option<seq<CostRow>>)
    ensures (costs.None? || costs.value == []) <==> BreakdownOf(costs) == []
  {
    if costs.Some? && costs.value != [] {
      TalliedKeys(costs.value);
      assert Key(costs.value[0]) in KeysOf(costs.value);
    }
  }

  // ---------------------------------------------------------------------------
  // The accumulator as written

  /**
   * The names a plain object `{}` inherits from `Object.prototype`: `acc[name]` is
   * already truthy for them, so no own entry is created and the row is added to
   * the inherited value instead.
   */
  const InheritedNames: set<string> := {
    "constructor", "hasOwnProperty", "isPrototypeOf", "propertyIsEnumerable", "toLocaleString",
    "toString", "valueOf", "__proto__", "__defineGetter__", "__defineSetter__",
    "__lookupGetter__", "__lookupSetter__"
  }

  /** The reduce as the card writes it, over a plain object: rows keyed by an inherited name leave no entry. */
  function TalliedAsWritten(rows: seq<CostRow>): (t: Tally)
    ensures WellFormed(t)
  {
    if rows == [] then Tally([], map[])
    else
      var t := TalliedAsWritten(rows[..|rows| - 1]);
      if Key(rows[|rows| - 1]) in InheritedNames then t else AddRow(t, rows[|rows| - 1])
  }

  /** A service called "constructor" with no model vanishes from the breakdown, so the groups no longer add up. */
  lemma AsWrittenDropsInheritedKeys()
    ensures var rows := [CostRow("constructor", None, 10, 5, 1.0)];
      TalliedAsWritten(rows).keys == [] && TotalCost(Some(rows)) == 1.0
      && GroupSum(EntriesOf(Tallied(rows)), CostMeasure) == 1.0
  {
    var rows := [CostRow("constructor", None, 10, 5, 1.0)];
    assert rows[..0] == [];
    BreakdownConserves(rows, CostMeasure);
  }
}
