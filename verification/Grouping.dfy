/** Rows grouped by a key, and one verdict for each group, on its latest row. */
module Grouping {

  /** The rows of one key, in order. */
  function Group<R, K(==)>(key: R -> K, rows: seq<R>, k: K): (g: seq<R>)
    ensures |g| > 0 ==> key(g[|g| - 1]) == k
  {
    if |rows| == 0 then [] else
      var row := rows[|rows| - 1];
      var before := Group(key, rows[..|rows| - 1], k);
      if key(row) == k then before + [row] else before
  }

  /** The keys in order of first appearance. */
  function Keys<R, K(==)>(key: R -> K, rows: seq<R>): seq<K> {
    if |rows| == 0 then [] else
      var k := key(rows[|rows| - 1]);
      var before := Keys(key, rows[..|rows| - 1]);
      if k in before then before else before + [k]
  }

  /** The keys are those with a group. */
  lemma {:induction false} KeyIffGroup<R, K>(key: R -> K, rows: seq<R>, k: K)
    ensures k in Keys(key, rows) <==> |Group(key, rows, k)| > 0
  {
    if |rows| > 0 {
      KeyIffGroup(key, rows[..|rows| - 1], k);
    }
  }

  ghost predicate Distinct<K>(ks: seq<K>) {
    forall i, j :: 0 <= i < j < |ks| ==> ks[i] != ks[j]
  }

  /** Each is listed once. */
  lemma {:induction false} KeysDistinct<R, K>(key: R -> K, rows: seq<R>)
    ensures Distinct(Keys(key, rows))
  {
    if |rows| > 0 {
      KeysDistinct(key, rows[..|rows| - 1]);
    }
  }

  lemma GroupStep<R, K>(key: R -> K, rows: seq<R>, row: R, k: K)
    ensures Group(key, rows + [row], k) == Group(key, rows, k) + if key(row) == k then [row] else []
  {
    assert (rows + [row])[..|rows|] == rows;
  }

  lemma KeysStep<R, K>(key: R -> K, rows: seq<R>, row: R)
    ensures Keys(key, rows + [row])
      == if key(row) in Keys(key, rows) then Keys(key, rows) else Keys(key, rows) + [key(row)]
  {
    assert (rows + [row])[..|rows|] == rows;
  }

  ghost predicate GroupsOf<R, K>(key: R -> K, rows: seq<R>, order: seq<K>, grouped: map<K, seq<R>>) {
    && (forall k <- grouped :: k in order)
    && (forall k <- order :: k in grouped)
    && (forall k <- grouped :: grouped[k] == Group(key, rows, k))
  }

  /** One more row, taken into the groups. */
  method AddRow<R, K(==)>(key: R -> K, ghost rows: seq<R>, order: seq<K>, grouped: map<K, seq<R>>, row: R)
    returns (order': seq<K>, grouped': map<K, seq<R>>)
    requires order == Keys(key, rows) && GroupsOf(key, rows, order, grouped)
    ensures order' == Keys(key, rows + [row])
    ensures GroupsOf(key, rows + [row], order', grouped')
  {
    KeysStep(key, rows, row);
    KeyIffGroup(key, rows, key(row));
    forall k | k in grouped || k == key(row)
      ensures Group(key, rows + [row], k) == Group(key, rows, k) + if key(row) == k then [row] else []
    {
      GroupStep(key, rows, row, k);
    }
    if key(row) in grouped {
      order', grouped' := order, grouped[key(row) := grouped[key(row)] + [row]];
    } else {
      order', grouped' := order + [key(row)], grouped[key(row) := [row]];
    }
  }

  /** One pass over the rows: keys in order, and the rows of each. */
  method GroupRows<R, K(==)>(key: R -> K, rows: seq<R>) returns (order: seq<K>, grouped: map<K, seq<R>>)
    ensures order == Keys(key, rows)
    ensures GroupsOf(key, rows, order, grouped)
  {
    order, grouped := [], map[];
    for i := 0 to |rows|
      invariant order == Keys(key, rows[..i])
      invariant GroupsOf(key, rows[..i], order, grouped)
    {
      order, grouped := AddRow(key, rows[..i], order, grouped, rows[i]);
      assert rows[..i + 1] == rows[..i] + [rows[i]];
    }
    assert rows[..|rows|] == rows;
  }

  // ----- Verdicts -----

  datatype Finding<S> = Finding(state: S, active: bool)

  datatype Verdict<K, S> = Verdict(identity: K, observationCount: nat, state: S, active: bool)

  lemma ListedHasGroup<R, K>(key: R -> K, rows: seq<R>, i: nat)
    requires i < |Keys(key, rows)|
    ensures |Group(key, rows, Keys(key, rows)[i])| > 0
  {
    KeyIffGroup(key, rows, Keys(key, rows)[i]);
  }

  /** The row on which the i-th key is judged: the latest of its group. */
  function Latest<R, K(==)>(key: R -> K, rows: seq<R>, i: nat): (row: R)
    requires i < |Keys(key, rows)|
    ensures key(row) == Keys(key, rows)[i]
  {
    ListedHasGroup(key, rows, i);
    var g := Group(key, rows, Keys(key, rows)[i]);
    g[|g| - 1]
  }

  /** The place of the last row of a key. */
  ghost predicate LastOf<R, K>(key: R -> K, rows: seq<R>, k: K, at: nat) {
    && at < |rows| && key(rows[at]) == k
    && forall j :: at < j < |rows| ==> key(rows[j]) != k
  }

  lemma {:induction false} GroupEnds<R, K>(key: R -> K, rows: seq<R>, k: K, at: nat)
    requires LastOf(key, rows, k, at)
    ensures var g := Group(key, rows, k); |g| > 0 && g[|g| - 1] == rows[at]
  {
    if at < |rows| - 1 {
      var init := rows[..|rows| - 1];
      assert forall j :: at < j < |init| ==> init[j] == rows[j];
      GroupEnds(key, init, k, at);
    }
  }

  /** The key of a row that is the last of its key is listed, and judged on that row. */
  lemma LatestIs<R, K>(key: R -> K, rows: seq<R>, at: nat) returns (i: nat)
    requires at < |rows| && LastOf(key, rows, key(rows[at]), at)
    ensures i < |Keys(key, rows)| && Keys(key, rows)[i] == key(rows[at]) && Latest(key, rows, i) == rows[at]
  {
    var k := key(rows[at]);
    GroupEnds(key, rows, k, at);
    KeyIffGroup(key, rows, k);
    i :| 0 <= i < |Keys(key, rows)| && Keys(key, rows)[i] == k;
  }

  lemma {:induction false} LastPlace<R, K>(key: R -> K, rows: seq<R>, k: K) returns (at: nat)
    requires |Group(key, rows, k)| > 0
    ensures LastOf(key, rows, k, at)
  {
    var n := |rows| - 1;
    if key(rows[n]) == k {
      at := n;
    } else {
      at := LastPlace(key, rows[..n], k);
      assert forall j :: at < j < n ==> rows[..n][j] == rows[j];
    }
  }

  /** Every listed key is judged on the last row of that key. */
  lemma JudgedLast<R, K>(key: R -> K, rows: seq<R>, i: nat) returns (at: nat)
    requires i < |Keys(key, rows)|
    ensures LastOf(key, rows, Keys(key, rows)[i], at) && Latest(key, rows, i) == rows[at]
  {
    ListedHasGroup(key, rows, i);
    at := LastPlace(key, rows, Keys(key, rows)[i]);
    GroupEnds(key, rows, Keys(key, rows)[i], at);
  }

  function VerdictAt<R, K(==), S>(key: R -> K, judge: R -> Finding<S>, rows: seq<R>, i: nat): Verdict<K, S>
    requires i < |Keys(key, rows)|
  {
    var k := Keys(key, rows)[i];
    var finding := judge(Latest(key, rows, i));
    Verdict(k, |Group(key, rows, k)|, finding.state, finding.active)
  }

  /** One verdict for each key. */
  function Verdicts<R, K(==), S>(key: R -> K, judge: R -> Finding<S>, rows: seq<R>): (verdicts: seq<Verdict<K, S>>)
    ensures |verdicts| == |Keys(key, rows)|
    ensures forall i :: 0 <= i < |verdicts| ==> verdicts[i] == VerdictAt(key, judge, rows, i)
  {
    seq(|Keys(key, rows)|, i requires 0 <= i < |Keys(key, rows)| => VerdictAt(key, judge, rows, i))
  }

  method BuildVerdict<R, K(==), S>(
    key: R -> K, judge: R -> Finding<S>, rows: seq<R>, order: seq<K>, grouped: map<K, seq<R>>, i: nat)
    returns (verdict: Verdict<K, S>)
    requires order == Keys(key, rows) && GroupsOf(key, rows, order, grouped) && i < |order|
    ensures verdict == VerdictAt(key, judge, rows, i)
  {
    var k := order[i];
    assert k in grouped;
    ListedHasGroup(key, rows, i);
    var group := grouped[k];
    var finding := judge(group[|group| - 1]);
    verdict := Verdict(k, |group|, finding.state, finding.active);
  }

  method BuildVerdicts<R, K(==), S>(key: R -> K, judge: R -> Finding<S>, rows: seq<R>)
    returns (verdicts: seq<Verdict<K, S>>)
    ensures verdicts == Verdicts(key, judge, rows)
  {
    var order, grouped := GroupRows(key, rows);
    verdicts := [];
    for i := 0 to |order|
      invariant |verdicts| == i
      invariant forall j :: 0 <= j < i ==> verdicts[j] == VerdictAt(key, judge, rows, j)
    {
      var verdict := BuildVerdict(key, judge, rows, order, grouped, i);
      verdicts := verdicts + [verdict];
    }
  }

  // ----- Counting -----

  function CountSum<K, S>(verdicts: seq<Verdict<K, S>>): nat {
    if |verdicts| == 0 then 0 else
      CountSum(verdicts[..|verdicts| - 1]) + verdicts[|verdicts| - 1].observationCount
  }

  function CountState<K, S(==)>(verdicts: seq<Verdict<K, S>>, s: S): nat {
    if |verdicts| == 0 then 0 else
      CountState(verdicts[..|verdicts| - 1], s) + if verdicts[|verdicts| - 1].state == s then 1 else 0
  }

  function CountActive<K, S>(verdicts: seq<Verdict<K, S>>): nat {
    if |verdicts| == 0 then 0 else
      CountActive(verdicts[..|verdicts| - 1]) + if verdicts[|verdicts| - 1].active then 1 else 0
  }

  function GroupSizes<R, K(==)>(key: R -> K, rows: seq<R>, ks: seq<K>): nat {
    if |ks| == 0 then 0 else
      GroupSizes(key, rows, ks[..|ks| - 1]) + |Group(key, rows, ks[|ks| - 1])|
  }

  lemma LastIsNew<K>(ks: seq<K>)
    requires Distinct(ks) && |ks| > 0
    ensures ks[|ks| - 1] !in ks[..|ks| - 1]
  {
  }

  /** One more row makes exactly one group of a duplicate-free list of keys one larger. */
  lemma {:induction false} OneGroupGrows<R, K>(key: R -> K, rows: seq<R>, row: R, ks: seq<K>)
    requires Distinct(ks)
    ensures GroupSizes(key, rows + [row], ks) == GroupSizes(key, rows, ks) + if key(row) in ks then 1 else 0
  {
    if |ks| > 0 {
      var init, last := ks[..|ks| - 1], ks[|ks| - 1];
      OneGroupGrows(key, rows, row, init);
      GroupStep(key, rows, row, last);
      LastIsNew(ks);
      assert ks == init + [last];
    }
  }

  lemma {:induction false} GroupSizesTotal<R, K>(key: R -> K, rows: seq<R>)
    ensures GroupSizes(key, rows, Keys(key, rows)) == |rows|
  {
    if |rows| > 0 {
      var init, row := rows[..|rows| - 1], rows[|rows| - 1];
      var before := Keys(key, init);
      assert rows == init + [row];
      GroupSizesTotal(key, init);
      KeysDistinct(key, init);
      OneGroupGrows(key, init, row, before);
      if key(row) !in before {
        KeyIffGroup(key, init, key(row));
        GroupStep(key, init, row, key(row));
        assert (before + [key(row)])[..|before|] == before;
      }
    }
  }

  lemma {:induction false} CountSumIsGroupSizes<R, K, S>(key: R -> K, rows: seq<R>, verdicts: seq<Verdict<K, S>>,
      ks: seq<K>)
    requires |verdicts| == |ks|
    requires forall i :: 0 <= i < |ks| ==> verdicts[i].observationCount == |Group(key, rows, ks[i])|
    ensures CountSum(verdicts) == GroupSizes(key, rows, ks)
  {
    if |ks| > 0 {
      CountSumIsGroupSizes(key, rows, verdicts[..|verdicts| - 1], ks[..|ks| - 1]);
    }
  }

  lemma {:induction false} OwnKey<R, K>(key: R -> K, rows: seq<R>, i: nat)
    requires i < |rows|
    ensures key(rows[i]) in Keys(key, rows)
  {
    if i < |rows| - 1 {
      OwnKey(key, rows[..|rows| - 1], i);
    }
  }

  /** Every row belongs to exactly one verdict, and the verdicts count every row once. */
  lemma VerdictsPartition<R, K, S>(key: R -> K, judge: R -> Finding<S>, rows: seq<R>)
    ensures CountSum(Verdicts(key, judge, rows)) == |rows|
    ensures forall r :: 0 <= r < |rows| ==>
      exists i :: 0 <= i < |Keys(key, rows)| && Verdicts(key, judge, rows)[i].identity == key(rows[r])
    ensures forall i, j :: 0 <= i < j < |Keys(key, rows)| ==>
      Verdicts(key, judge, rows)[i].identity != Verdicts(key, judge, rows)[j].identity
  {
    var verdicts, ks := Verdicts(key, judge, rows), Keys(key, rows);
    KeysDistinct(key, rows);
    GroupSizesTotal(key, rows);
    CountSumIsGroupSizes(key, rows, verdicts, ks);
    forall r | 0 <= r < |rows| ensures exists i :: 0 <= i < |ks| && verdicts[i].identity == key(rows[r]) {
      OwnKey(key, rows, r);
      var i :| 0 <= i < |ks| && ks[i] == key(rows[r]);
      assert verdicts[i].identity == key(rows[r]);
    }
  }

  lemma {:induction false} FewerActive<K, S>(before: seq<Verdict<K, S>>, after: seq<Verdict<K, S>>)
    requires |before| == |after|
    requires forall i :: 0 <= i < |after| && after[i].active ==> before[i].active
    ensures CountActive(after) <= CountActive(before)
  {
    if |after| > 0 {
      FewerActive(before[..|before| - 1], after[..|after| - 1]);
    }
  }

  /** A judgement that finds no row active that another one does not, counts no more active groups. */
  lemma CalmerJudgement<R(!new), K, S>(key: R -> K, judge: R -> Finding<S>, calmer: R -> Finding<S>, rows: seq<R>)
    requires forall row :: calmer(row).active ==> judge(row).active
    ensures CountActive(Verdicts(key, calmer, rows)) <= CountActive(Verdicts(key, judge, rows))
  {
    FewerActive(Verdicts(key, judge, rows), Verdicts(key, calmer, rows));
  }

  /** When a row is found active exactly in two states, the active verdicts are those of the two. */
  lemma {:induction false} ActiveCounts<K, S>(verdicts: seq<Verdict<K, S>>, s: S, s': S)
    requires s != s' && forall i :: 0 <= i < |verdicts| ==>
      (verdicts[i].active <==> verdicts[i].state == s || verdicts[i].state == s')
    ensures CountActive(verdicts) == CountState(verdicts, s) + CountState(verdicts, s')
  {
    if |verdicts| > 0 {
      ActiveCounts(verdicts[..|verdicts| - 1], s, s');
    }
  }

  /** The verdict of a key after one more row of that key is the judgement of that row. */
  lemma LatestAppended<R, K>(key: R -> K, rows: seq<R>, row: R, i: nat)
    requires i < |Keys(key, rows + [row])| && Keys(key, rows + [row])[i] == key(row)
    ensures Latest(key, rows + [row], i) == row
  {
    GroupStep(key, rows, row, key(row));
  }

  /** The verdict of another key is unchanged. */
  lemma LatestElsewhere<R, K>(key: R -> K, rows: seq<R>, row: R, i: nat)
    requires i < |Keys(key, rows)|
    ensures i < |Keys(key, rows + [row])| && Keys(key, rows + [row])[i] == Keys(key, rows)[i]
    ensures Keys(key, rows)[i] != key(row) ==> Latest(key, rows + [row], i) == Latest(key, rows, i)
  {
    KeysStep(key, rows, row);
    GroupStep(key, rows, row, Keys(key, rows)[i]);
  }

  lemma CalmerAt<R, K, S>(key: R -> K, judge: R -> Finding<S>, rows: seq<R>, row: R, i: nat)
    requires !judge(row).active && i < |Keys(key, rows)|
    ensures i < |Keys(key, rows + [row])|
    ensures VerdictAt(key, judge, rows + [row], i).active ==> VerdictAt(key, judge, rows, i).active
  {
    LatestElsewhere(key, rows, row, i);
    if Keys(key, rows)[i] == key(row) {
      LatestAppended(key, rows, row, i);
    }
  }

  lemma CountAppended<K, S>(verdicts: seq<Verdict<K, S>>, v: Verdict<K, S>)
    ensures CountActive(verdicts + [v]) == CountActive(verdicts) + if v.active then 1 else 0
  {
    assert (verdicts + [v])[..|verdicts|] == verdicts;
  }

  /** One more row that is not found active adds no active verdict. */
  lemma CalmRow<R, K, S>(key: R -> K, judge: R -> Finding<S>, rows: seq<R>, row: R)
    requires !judge(row).active
    ensures CountActive(Verdicts(key, judge, rows + [row])) <= CountActive(Verdicts(key, judge, rows))
  {
    var before, after := Verdicts(key, judge, rows), Verdicts(key, judge, rows + [row]);
    var n := |before|;
    KeysStep(key, rows, row);
    forall i | 0 <= i < n ensures after[i].active ==> before[i].active {
      CalmerAt(key, judge, rows, row, i);
    }
    if |after| == n {
      FewerActive(before, after);
    } else {
      FewerActive(before, after[..n]);
      LatestAppended(key, rows, row, n);
      CountAppended(after[..n], after[n]);
      assert after == after[..n] + [after[n]];
    }
  }
}
