/** The statement page of src/pages/TransactionsPage.tsx: transactions are
    grouped by their date string, the groups are listed newest date first,
    and each line is signed and coloured by its type. */
module TransactionsPage {
  import opened Wrappers
  import opened Text
  import opened Calendar
  import opened Domain

  predicate Distinct(s: seq<string>) {
    forall i, j :: 0 <= i < j < |s| ==> s[i] != s[j]
  }

  /** The keys of the `groups` dictionary, in the order `Object.keys` lists
      them: each distinct date once, in order of first appearance (date
      strings are not array indices, so insertion order is kept). */
  function KeysOf(txs: seq<Transaction>): (keys: seq<string>)
    ensures Distinct(keys)
  {
    if txs == [] then []
    else
      var prev := KeysOf(txs[..|txs| - 1]);
      var d := txs[|txs| - 1].date;
      if d in prev then prev else prev + [d]
  }

  /** The keys are exactly the dates that occur. */
  lemma {:induction false} KeysOfMembers(txs: seq<Transaction>)
    ensures forall i :: 0 <= i < |txs| ==> txs[i].date in KeysOf(txs)
    ensures forall k :: k in KeysOf(txs) ==> exists i :: 0 <= i < |txs| && txs[i].date == k
  {
    if txs != [] {
      var p := txs[..|txs| - 1];
      KeysOfMembers(p);
      assert forall i :: 0 <= i < |p| ==> p[i] == txs[i];
    }
  }

  /** The transactions dated `d`, in input order: what `groups[d]` holds
      once every `push` has run. */
  function ItemsOn(txs: seq<Transaction>, d: string): seq<Transaction> {
    if txs == [] then []
    else
      var last := txs[|txs| - 1];
      ItemsOn(txs[..|txs| - 1], d) + (if last.date == d then [last] else [])
  }

  /** A group holds every transaction of its date and nothing else. */
  lemma {:induction false} ItemsOnMembers(txs: seq<Transaction>, d: string)
    ensures forall t :: t in ItemsOn(txs, d) ==> t in txs && t.date == d
    ensures forall i :: 0 <= i < |txs| && txs[i].date == d ==> txs[i] in ItemsOn(txs, d)
  {
    if txs != [] {
      var p := txs[..|txs| - 1];
      ItemsOnMembers(p, d);
      assert forall i :: 0 <= i < |p| ==> p[i] == txs[i];
      assert txs == p + [txs[|txs| - 1]];
    }
  }

  /** The `forEach` of the grouping memo: `keys` is `Object.keys(groups)`
      and each group holds the transactions of its date in input order. */
  method GroupByDate(txs: seq<Transaction>) returns (keys: seq<string>, groups: map<string, seq<Transaction>>)
    ensures keys == KeysOf(txs)
    ensures forall k :: k in groups <==> k in keys
    ensures forall k :: k in groups ==> groups[k] == ItemsOn(txs, k)
  {
    keys := [];
    groups := map[];
    for i := 0 to |txs|
      invariant GroupsInvariant(txs, i, keys, groups)
    {
      GroupStep(txs, i, keys, groups);
      var tx := txs[i];
      var items := if tx.date in groups then groups[tx.date] else [];
      if tx.date !in groups {
        keys := keys + [tx.date];
      }
      groups := groups[tx.date := items + [tx]];
    }
    assert txs[..|txs|] == txs;
  }

  /** The state of the grouping loop after the first `i` transactions. */
  ghost predicate GroupsInvariant(txs: seq<Transaction>, i: nat, keys: seq<string>, groups: map<string, seq<Transaction>>)
    requires i <= |txs|
  {
    && keys == KeysOf(txs[..i])
    && (forall k :: k in groups <==> k in keys)
    && (forall k :: k in groups ==> groups[k] == ItemsOn(txs[..i], k))
  }

  /** One iteration of the grouping loop keeps its invariant. */
  lemma GroupStep(txs: seq<Transaction>, i: nat, keys: seq<string>, groups: map<string, seq<Transaction>>)
    requires i < |txs| && GroupsInvariant(txs, i, keys, groups)
    ensures var d := txs[i].date;
      var items := if d in groups then groups[d] else [];
      GroupsInvariant(txs, i + 1, if d in groups then keys else keys + [d], groups[d := items + [txs[i]]])
  {
    var d := txs[i].date;
    var p, q := txs[..i], txs[..i + 1];
    assert q[..|q| - 1] == p && q[|q| - 1] == txs[i];
    assert KeysOf(q) == if d in keys then keys else keys + [d];
    assert forall k :: ItemsOn(q, k) == ItemsOn(p, k) + (if k == d then [txs[i]] else []);
    if d !in groups {
      ItemsOnAbsent(p, d);
    }
    var items := if d in groups then groups[d] else [];
    var groups' := groups[d := items + [txs[i]]];
    forall k | k in groups'
      ensures groups'[k] == ItemsOn(q, k)
    {
      if k != d {
        assert groups'[k] == groups[k];
      }
    }
  }

  // ---- the descending sort of the keys ----

  function InsertDesc(k: string, s: seq<string>): seq<string> {
    if s == [] then [k]
    else if LexLess(s[0], k) then [k] + s
    else [s[0]] + InsertDesc(k, s[1..])
  }

  /** The keys sorted newest first. */
  function SortDesc(s: seq<string>): seq<string> {
    if s == [] then [] else InsertDesc(s[0], SortDesc(s[1..]))
  }

  predicate SortedDesc(s: seq<string>) {
    forall i, j :: 0 <= i < j < |s| ==> !LexLess(s[i], s[j])
  }

  lemma {:induction false} InsertDescProps(k: string, s: seq<string>)
    requires SortedDesc(s)
    ensures multiset(InsertDesc(k, s)) == multiset(s) + multiset{k}
    ensures SortedDesc(InsertDesc(k, s))
  {
    if s == [] {
    } else if LexLess(s[0], k) {
      var r := [k] + s;
      forall j | 0 < j < |r|
        ensures !LexLess(k, r[j])
      {
        if j > 1 && LexLess(k, r[j]) {
          LexTransitive(s[0], k, r[j]);
        } else if j == 1 {
          LexAsymmetric(s[0], k);
        }
      }
      assert s == [s[0]] + s[1..];
    } else {
      var rest := InsertDesc(k, s[1..]);
      InsertDescProps(k, s[1..]);
      var r := [s[0]] + rest;
      forall j | 0 < j < |r|
        ensures !LexLess(s[0], r[j])
      {
        assert r[j] in multiset(rest);
        assert r[j] == k || r[j] in s[1..];
      }
      assert s == [s[0]] + s[1..];
    }
  }

  /** The sort is a permutation into non-increasing order. */
  lemma {:induction false} SortDescProps(s: seq<string>)
    ensures multiset(SortDesc(s)) == multiset(s)
    ensures SortedDesc(SortDesc(s))
  {
    if s != [] {
      SortDescProps(s[1..]);
      InsertDescProps(s[0], SortDesc(s[1..]));
      assert s == [s[0]] + s[1..];
    }
  }

  /** Sorting distinct keys keeps them distinct and orders them strictly. */
  lemma SortDescDistinct(s: seq<string>)
    requires Distinct(s)
    ensures Distinct(SortDesc(s))
    ensures forall i, j :: 0 <= i < j < |SortDesc(s)| ==> LexLess(SortDesc(s)[j], SortDesc(s)[i])
  {
    var r := SortDesc(s);
    SortDescProps(s);
    forall i, j | 0 <= i < j < |r|
      ensures r[i] != r[j]
    {
      if r[i] == r[j] {
        MultisetTwice(r, i, j);
        DistinctOnce(s, r[i]);
      }
    }
    forall i, j | 0 <= i < j < |r|
      ensures LexLess(r[j], r[i])
    {
      LexTotal(r[i], r[j]);
    }
  }

  lemma {:induction false} MultisetTwice(r: seq<string>, i: nat, j: nat)
    requires i < j < |r| && r[i] == r[j]
    ensures multiset(r)[r[i]] >= 2
  {
    var x := r[i];
    assert r == r[..i] + [x] + r[i + 1..j] + [x] + r[j + 1..];
    assert multiset(r) == multiset(r[..i]) + multiset{x} + multiset(r[i + 1..j]) + multiset{x} + multiset(r[j + 1..]);
  }

  lemma {:induction false} DistinctOnce(s: seq<string>, x: string)
    requires Distinct(s)
    ensures multiset(s)[x] <= 1
  {
    if s != [] {
      assert s == [s[0]] + s[1..];
      assert Distinct(s[1..]);
      DistinctOnce(s[1..], x);
      if s[0] == x {
        assert x !in s[1..];
      }
    }
  }

  // ---- the groups ----

  datatype Group = Group(date: string, items: seq<Transaction>)

  /** `groupedTransactions`: one group per distinct date, newest first, each
      holding the transactions of that date in input order. */
  function GroupedTransactions(txs: seq<Transaction>): seq<Group> {
    var sorted := SortDesc(KeysOf(txs));
    seq(|sorted|, i requires 0 <= i < |sorted| => Group(sorted[i], ItemsOn(txs, sorted[i])))
  }

  /** The memo: the grouping loop followed by the sort and the `map`. */
  method GroupTransactions(txs: seq<Transaction>) returns (result: seq<Group>)
    ensures result == GroupedTransactions(txs)
  {
    var keys, groups := GroupByDate(txs);
    var sorted := SortDesc(keys);
    SortDescProps(keys);
    forall k | k in sorted
      ensures k in groups
    {
      assert k in multiset(sorted);
    }
    result := seq(|sorted|, i requires 0 <= i < |sorted| => Group(sorted[i], groups[sorted[i]]));
  }

  lemma SortedKeys(txs: seq<Transaction>)
    ensures var sorted := SortDesc(KeysOf(txs));
      |sorted| == |KeysOf(txs)| && forall k :: k in sorted <==> k in KeysOf(txs)
  {
    SortDescProps(KeysOf(txs));
    var sorted := SortDesc(KeysOf(txs));
    assert |sorted| == |multiset(sorted)|;
    forall k
      ensures k in sorted <==> k in KeysOf(txs)
    {
      assert k in sorted <==> k in multiset(sorted);
    }
  }

  /** Every transaction lands in exactly one group: the one whose date is
      its own. */
  lemma ExactlyOneGroup(txs: seq<Transaction>, i: nat)
    requires i < |txs|
    ensures var g := GroupedTransactions(txs);
      && (exists j :: 0 <= j < |g| && g[j].date == txs[i].date && txs[i] in g[j].items)
      && (forall j :: 0 <= j < |g| && txs[i] in g[j].items ==> g[j].date == txs[i].date)
      && (forall j, k :: 0 <= j < k < |g| ==> g[j].date != g[k].date)
  {
    var g := GroupedTransactions(txs);
    var sorted := SortDesc(KeysOf(txs));
    SortedKeys(txs);
    SortDescDistinct(KeysOf(txs));
    KeysOfMembers(txs);
    var j :| 0 <= j < |sorted| && sorted[j] == txs[i].date;
    ItemsOnMembers(txs, txs[i].date);
    assert g[j].date == txs[i].date && txs[i] in g[j].items;
    forall j' | 0 <= j' < |g| && txs[i] in g[j'].items
      ensures g[j'].date == txs[i].date
    {
      ItemsOnMembers(txs, g[j'].date);
    }
  }

  /** Groups are listed strictly newest first as text; when every date reads
      as a calendar date, that is strictly newest first in time. */
  lemma GroupsDescending(txs: seq<Transaction>, j: nat, k: nat)
    requires j < k < |GroupedTransactions(txs)|
    ensures var g := GroupedTransactions(txs);
      && LexLess(g[k].date, g[j].date)
      && (ParseIso(g[j].date).Some? && ParseIso(g[k].date).Some? ==>
            Before(ParseIso(g[k].date).value, ParseIso(g[j].date).value))
  {
    var g := GroupedTransactions(txs);
    SortDescDistinct(KeysOf(txs));
    if ParseIso(g[j].date).Some? && ParseIso(g[k].date).Some? {
      IsoTextOrder(g[k].date, g[j].date);
    }
  }

  /** Filtering by date commutes with concatenation, so a group lists its
      transactions in the order they came in. */
  lemma {:induction false} ItemsOnAppend(a: seq<Transaction>, b: seq<Transaction>, d: string)
    ensures ItemsOn(a + b, d) == ItemsOn(a, d) + ItemsOn(b, d)
    decreases |b|
  {
    if b == [] {
      assert a + b == a;
    } else {
      var b' := b[..|b| - 1];
      assert (a + b)[..|a + b| - 1] == a + b';
      ItemsOnAppend(a, b', d);
    }
  }

  // ---- counting ----

  function TotalItems(gs: seq<Group>): nat {
    if gs == [] then 0 else |gs[0].items| + TotalItems(gs[1..])
  }

  function SumCounts(txs: seq<Transaction>, keys: seq<string>): nat {
    if keys == [] then 0 else |ItemsOn(txs, keys[0])| + SumCounts(txs, keys[1..])
  }

  lemma {:induction false} SumCountsAppend(txs: seq<Transaction>, keys: seq<string>, k: string)
    ensures SumCounts(txs, keys + [k]) == SumCounts(txs, keys) + |ItemsOn(txs, k)|
  {
    if keys != [] {
      assert (keys + [k])[1..] == keys[1..] + [k];
      SumCountsAppend(txs, keys[1..], k);
    }
  }

  lemma {:induction false} SumCountsInsert(txs: seq<Transaction>, k: string, s: seq<string>)
    ensures SumCounts(txs, InsertDesc(k, s)) == |ItemsOn(txs, k)| + SumCounts(txs, s)
  {
    if s != [] && !LexLess(s[0], k) {
      SumCountsInsert(txs, k, s[1..]);
    }
  }

  lemma {:induction false} SumCountsSort(txs: seq<Transaction>, s: seq<string>)
    ensures SumCounts(txs, SortDesc(s)) == SumCounts(txs, s)
  {
    if s != [] {
      SumCountsSort(txs, s[1..]);
      SumCountsInsert(txs, s[0], SortDesc(s[1..]));
    }
  }

  /** Adding one transaction adds one to the count of its own date only. */
  lemma {:induction false} SumCountsStep(p: seq<Transaction>, t: Transaction, keys: seq<string>)
    requires Distinct(keys)
    ensures SumCounts(p + [t], keys) == SumCounts(p, keys) + (if t.date in keys then 1 else 0)
  {
    if keys != [] {
      var txs := p + [t];
      assert txs[..|txs| - 1] == p;
      assert Distinct(keys[1..]);
      SumCountsStep(p, t, keys[1..]);
      if keys[0] == t.date {
        assert t.date !in keys[1..];
      }
    }
  }

  lemma ItemsOnAbsent(txs: seq<Transaction>, d: string)
    requires d !in KeysOf(txs)
    ensures ItemsOn(txs, d) == []
  {
    KeysOfMembers(txs);
    ItemsOnMembers(txs, d);
  }

  lemma {:induction false} SumCountsKeys(txs: seq<Transaction>)
    ensures SumCounts(txs, KeysOf(txs)) == |txs|
  {
    if txs != [] {
      var p, t := txs[..|txs| - 1], txs[|txs| - 1];
      assert txs == p + [t];
      SumCountsKeys(p);
      var prev := KeysOf(p);
      SumCountsStep(p, t, prev);
      if t.date !in prev {
        SumCountsAppend(txs, prev, t.date);
        ItemsOnAbsent(p, t.date);
        assert ItemsOn(txs, t.date) == ItemsOn(p, t.date) + [t];
      }
    }
  }

  lemma {:induction false} TotalItemsSum(txs: seq<Transaction>, keys: seq<string>)
    ensures TotalItems(seq(|keys|, i requires 0 <= i < |keys| => Group(keys[i], ItemsOn(txs, keys[i]))))
         == SumCounts(txs, keys)
  {
    var gs := seq(|keys|, i requires 0 <= i < |keys| => Group(keys[i], ItemsOn(txs, keys[i])));
    if keys != [] {
      TotalItemsSum(txs, keys[1..]);
      assert gs[1..] == seq(|keys[1..]|, i requires 0 <= i < |keys[1..]| => Group(keys[1..][i], ItemsOn(txs, keys[1..][i])));
    }
  }

  /** The groups hold, all together, exactly as many items as there are
      transactions. */
  lemma CountPreserved(txs: seq<Transaction>)
    ensures TotalItems(GroupedTransactions(txs)) == |txs|
  {
    var sorted := SortDesc(KeysOf(txs));
    TotalItemsSum(txs, sorted);
    SumCountsSort(txs, KeysOf(txs));
    SumCountsKeys(txs);
  }

  // ---- rendering ----

  datatype View = EmptyState | Groups(groups: seq<Group>)

  /** The page body: the empty state for no transactions, else the groups. */
  function PageView(txs: seq<Transaction>): View {
    if |txs| == 0 then EmptyState else Groups(GroupedTransactions(txs))
  }

  /** The empty state shows exactly when there is nothing to list; a
      non-empty list always shows at least one group. */
  lemma EmptyStateIff(txs: seq<Transaction>)
    ensures PageView(txs) == EmptyState <==> txs == []
    ensures txs != [] ==> |PageView(txs).groups| >= 1
  {
    if txs != [] {
      SortedKeys(txs);
      KeysOfMembers(txs);
      assert txs[0].date in KeysOf(txs);
    }
  }

  /** The sign written before the amount. */
  function SignOf(t: Transaction): string {
    if t.txType == Some(Expense) then "- " else "+ "
  }

  /** Whether the line gets the income (green, arrow up) styling. */
  predicate IncomeStyled(t: Transaction) {
    t.txType == Some(Income)
  }

  /** The minus sign marks exactly the expenses and the green styling
      exactly the incomes, so a transfer or an untyped line is shown with a
      plus sign in the expense colour. */
  lemma SignAndStyle(t: Transaction)
    ensures SignOf(t) == "- " <==> t.txType == Some(Expense)
    ensures IncomeStyled(t) <==> t.txType == Some(Income)
    ensures t.txType !in {Some(Expense), Some(Income)} ==> SignOf(t) == "+ " && !IncomeStyled(t)
  {
    assert "+ " != "- " by { assert "+ "[0] != "- "[0]; }
  }
}
