/** The group panel: yes/no voting on proposals and the split of shared
    expenses into what each member paid, their fair share and what they owe.
    Amounts are exact rationals (`real`); see README for floating point. */
module GroupCoordination {
  import opened Wrappers

  datatype Member = Member(id: string, name: string, isAdmin: bool)

  datatype Expense = Expense(id: string, amount: real, paidBy: string, splitBetween: seq<string>)

  /** One entry of the per-member record the split builds. */
  datatype Entry = Entry(paid: real, owes: real, share: real)

  datatype Split = Split(balances: map<string, Entry>, totalExpenses: real)

  /** Indexing the record with an id that has no entry throws a TypeError. */
  datatype SplitError = UnknownMember(id: string)

  // ---------------------------------------------------------------------------
  // Specification of the split

  /** `q` once for every occurrence of `x` in `xs`. */
  function Tally(xs: seq<string>, x: string, q: real): real {
    if xs == [] then 0.0 else (if xs[0] == x then q else 0.0) + Tally(xs[1..], x, q)
  }

  /** The equal part of an expense; an empty split list hands out nothing. */
  function EachPart(e: Expense): real {
    if |e.splitBetween| == 0 then 0.0 else e.amount / (|e.splitBetween| as real)
  }

  /** Which amount an expense contributes to a member. */
  datatype Column = Paid | Share

  /** What expense `e` adds to member `id`'s paid total or share. Every
      occurrence of `id` in the split list earns one equal part. */
  function Part(e: Expense, id: string, col: Column): real {
    match col
    case Paid => if e.paidBy == id then e.amount else 0.0
    case Share => Tally(e.splitBetween, id, EachPart(e))
  }

  function SumParts(es: seq<Expense>, id: string, col: Column): real {
    if es == [] then 0.0 else Part(es[0], id, col) + SumParts(es[1..], id, col)
  }

  /** Sum of the amounts this member paid. */
  function PaidBy(es: seq<Expense>, id: string): real {
    SumParts(es, id, Paid)
  }

  /** Sum of this member's parts of every expense split with them. */
  function ShareOf(es: seq<Expense>, id: string): real {
    SumParts(es, id, Share)
  }

  /** Net balance: positive owes money to the group, negative is owed money. */
  function Owes(es: seq<Expense>, id: string): real {
    ShareOf(es, id) - PaidBy(es, id)
  }

  function TotalExpenses(es: seq<Expense>): real {
    if es == [] then 0.0 else es[0].amount + TotalExpenses(es[1..])
  }

  function MemberIds(members: seq<Member>): set<string> {
    set m | m in members :: m.id
  }

  /** The expense names only roster members, as payer and in its split list. */
  predicate Known(ids: set<string>, e: Expense) {
    e.paidBy in ids && forall x | x in e.splitBetween :: x in ids
  }

  /** Every payer and every split id names a member of the roster. */
  predicate AllKnown(members: seq<Member>, es: seq<Expense>) {
    forall e | e in es :: Known(MemberIds(members), e)
  }

  lemma {:induction false} SumPartsSnoc(es: seq<Expense>, e: Expense, id: string, col: Column)
    ensures SumParts(es + [e], id, col) == SumParts(es, id, col) + Part(e, id, col)
  {
    if es != [] {
      assert (es + [e])[1..] == es[1..] + [e];
      SumPartsSnoc(es[1..], e, id, col);
    }
  }

  lemma {:induction false} TotalSnoc(es: seq<Expense>, e: Expense)
    ensures TotalExpenses(es + [e]) == TotalExpenses(es) + e.amount
  {
    if es != [] {
      assert (es + [e])[1..] == es[1..] + [e];
      TotalSnoc(es[1..], e);
    }
  }

  lemma {:induction false} TallySnoc(xs: seq<string>, y: string, x: string, q: real)
    ensures Tally(xs + [y], x, q) == Tally(xs, x, q) + (if y == x then q else 0.0)
  {
    if xs != [] {
      assert (xs + [y])[1..] == xs[1..] + [y];
      TallySnoc(xs[1..], y, x, q);
    }
  }

  // ---------------------------------------------------------------------------
  // The split as the component computes it

  /** The reduce that totals the expense amounts. */
  method SumAmounts(expenses: seq<Expense>) returns (total: real)
    ensures total == TotalExpenses(expenses)
  {
    total := 0.0;
    var i := 0;
    while i < |expenses|
      invariant i <= |expenses|
      invariant total == TotalExpenses(expenses[..i])
    {
      TotalSnoc(expenses[..i], expenses[i]);
      assert expenses[..i + 1] == expenses[..i] + [expenses[i]];
      total := total + expenses[i].amount;
      i := i + 1;
    }
    assert expenses[..i] == expenses;
  }

  /** One zeroed entry per roster member; a repeated id keeps one entry. */
  method ZeroEntries(members: seq<Member>) returns (balances: map<string, Entry>)
    ensures balances.Keys == MemberIds(members)
    ensures forall id | id in balances :: balances[id] == Entry(0.0, 0.0, 0.0)
  {
    balances := map[];
    var k := 0;
    while k < |members|
      invariant k <= |members|
      invariant balances.Keys == MemberIds(members[..k])
      invariant forall id | id in balances :: balances[id] == Entry(0.0, 0.0, 0.0)
    {
      assert members[..k + 1] == members[..k] + [members[k]];
      balances := balances[members[k].id := Entry(0.0, 0.0, 0.0)];
      k := k + 1;
    }
    assert members[..k] == members;
  }

  /** The inner loop over one split list: each id in turn gains `part` in
      its share. The first id without an entry stops the whole split. */
  method AddShares(acc: map<string, Entry>, split: seq<string>, part: real) returns (r: Result<map<string, Entry>, SplitError>)
    ensures r.Ok? <==> forall x | x in split :: x in acc
    ensures r.Err? ==> r.error.id in split && r.error.id !in acc
    ensures r.Ok? ==> r.value.Keys == acc.Keys
    ensures r.Ok? ==> forall id | id in r.value ::
      r.value[id].paid == acc[id].paid && r.value[id].owes == acc[id].owes &&
      r.value[id].share == acc[id].share + Tally(split, id, part)
  {
    var cur := acc;
    var j := 0;
    while j < |split|
      invariant j <= |split|
      invariant cur.Keys == acc.Keys
      invariant forall x | x in split[..j] :: x in acc
      invariant forall id | id in cur ::
        cur[id].paid == acc[id].paid && cur[id].owes == acc[id].owes &&
        cur[id].share == acc[id].share + Tally(split[..j], id, part)
    {
      var m := split[j];
      assert split[..j + 1] == split[..j] + [m];
      if m !in cur {
        return Err(UnknownMember(m));
      }
      forall id | id in cur
        ensures Tally(split[..j + 1], id, part) == Tally(split[..j], id, part) + (if m == id then part else 0.0)
      {
        TallySnoc(split[..j], m, id, part);
      }
      cur := cur[m := cur[m].(share := cur[m].share + part)];
      j := j + 1;
    }
    assert split[..j] == split;
    return Ok(cur);
  }

  /** The body of the loop over expenses: the payer's entry gains the amount,
      then each id of the split list gains one equal part. */
  method AddExpense(balances: map<string, Entry>, e: Expense) returns (r: Result<map<string, Entry>, SplitError>)
    ensures r.Ok? <==> Known(balances.Keys, e)
    ensures r.Err? ==> r.error.id !in balances
    ensures r.Ok? ==> r.value.Keys == balances.Keys
    ensures r.Ok? ==> forall id | id in r.value ::
      r.value[id].paid == balances[id].paid + Part(e, id, Paid) &&
      r.value[id].owes == balances[id].owes &&
      r.value[id].share == balances[id].share + Part(e, id, Share)
  {
    if e.paidBy !in balances {
      return Err(UnknownMember(e.paidBy));
    }
    var acc := balances[e.paidBy := balances[e.paidBy].(paid := balances[e.paidBy].paid + e.amount)];
    // With an empty split list the part is never used (the source computes Infinity there).
    var part := EachPart(e);
    r := AddShares(acc, e.splitBetween, part);
  }

  /** The loop over the roster that sets each member's `owes` to their share
      minus what they paid. */
  method SettleOwes(balances: map<string, Entry>, members: seq<Member>) returns (r: map<string, Entry>)
    requires balances.Keys == MemberIds(members)
    ensures r.Keys == balances.Keys
    ensures forall id | id in r :: r[id] == balances[id].(owes := balances[id].share - balances[id].paid)
  {
    r := balances;
    var k := 0;
    while k < |members|
      invariant k <= |members|
      invariant r.Keys == balances.Keys
      invariant forall id | id in r :: r[id].paid == balances[id].paid && r[id].share == balances[id].share
      invariant forall id | id in r :: id in MemberIds(members[..k]) ==> r[id].owes == balances[id].share - balances[id].paid
      invariant forall id | id in r :: id !in MemberIds(members[..k]) ==> r[id].owes == balances[id].owes
    {
      assert members[..k + 1] == members[..k] + [members[k]];
      var id := members[k].id;
      r := r[id := r[id].(owes := r[id].share - r[id].paid)];
      k := k + 1;
    }
    assert members[..k] == members;
  }

  /** Builds one zeroed entry per roster member, adds each expense's amount
      to its payer and an equal part to every id in its split list, then
      derives what each member owes. */
  method CalculateExpenseSplit(members: seq<Member>, expenses: seq<Expense>) returns (r: Result<Split, SplitError>)
    ensures r.Ok? <==> AllKnown(members, expenses)
    ensures r.Err? ==> r.error.id !in MemberIds(members)
    ensures r.Ok? ==> r.value.totalExpenses == TotalExpenses(expenses)
    ensures r.Ok? ==> r.value.balances.Keys == MemberIds(members)
    ensures r.Ok? ==> forall id | id in r.value.balances ::
      r.value.balances[id] == Entry(PaidBy(expenses, id), Owes(expenses, id), ShareOf(expenses, id))
  {
    var total := SumAmounts(expenses);
    var balances := ZeroEntries(members);
    var ids := MemberIds(members);

    var i := 0;
    while i < |expenses|
      invariant i <= |expenses|
      invariant balances.Keys == ids
      invariant AllKnown(members, expenses[..i])
      invariant forall id | id in balances ::
        balances[id].paid == PaidBy(expenses[..i], id) && balances[id].share == ShareOf(expenses[..i], id)
    {
      var e := expenses[i];
      assert expenses[..i + 1] == expenses[..i] + [e];
      forall id | id in balances
        ensures PaidBy(expenses[..i + 1], id) == PaidBy(expenses[..i], id) + Part(e, id, Paid)
        ensures ShareOf(expenses[..i + 1], id) == ShareOf(expenses[..i], id) + Part(e, id, Share)
      {
        SumPartsSnoc(expenses[..i], e, id, Paid);
        SumPartsSnoc(expenses[..i], e, id, Share);
      }
      var step := AddExpense(balances, e);
      if step.Err? {
        assert e in expenses;
        return Err(step.error);
      }
      balances := step.value;
      i := i + 1;
    }
    assert expenses[..i] == expenses;

    balances := SettleOwes(balances, members);
    r := Ok(Split(balances, total));
  }

  // ---------------------------------------------------------------------------
  // Conservation of money

  /** The roster has no two members with the same id. */
  predicate DistinctIds(ids: seq<string>) {
    forall a, b | 0 <= a < b < |ids| :: ids[a] != ids[b]
  }

  /** Sum of one column over the listed members. */
  function SumColumn(ids: seq<string>, es: seq<Expense>, col: Column): real {
    if ids == [] then 0.0 else SumParts(es, ids[0], col) + SumColumn(ids[1..], es, col)
  }

  /** Sum of what one expense contributes to the listed members. */
  function RowSum(ids: seq<string>, e: Expense, col: Column): real {
    if ids == [] then 0.0 else Part(e, ids[0], col) + RowSum(ids[1..], e, col)
  }

  function SumOwes(ids: seq<string>, es: seq<Expense>): real {
    if ids == [] then 0.0 else Owes(es, ids[0]) + SumOwes(ids[1..], es)
  }

  /** Summed over the listed members, the tallies of `xs`. */
  function TallyIn(ids: seq<string>, xs: seq<string>, q: real): real {
    if ids == [] then 0.0 else Tally(xs, ids[0], q) + TallyIn(ids[1..], xs, q)
  }

  /** `q` added `n` times. */
  function Times(q: real, n: nat): real {
    if n == 0 then 0.0 else Times(q, n - 1) + q
  }

  lemma {:induction false} SumColumnSnoc(ids: seq<string>, es: seq<Expense>, e: Expense, col: Column)
    ensures SumColumn(ids, es + [e], col) == SumColumn(ids, es, col) + RowSum(ids, e, col)
  {
    if ids != [] {
      SumColumnSnoc(ids[1..], es, e, col);
      SumPartsSnoc(es, e, ids[0], col);
    }
  }

  lemma {:induction false} DistinctTail(ids: seq<string>)
    requires ids != [] && DistinctIds(ids)
    ensures DistinctIds(ids[1..]) && ids[0] !in ids[1..]
  {
    var tail := ids[1..];
    forall a, b | 0 <= a < b < |tail| ensures tail[a] != tail[b] {
      assert ids[a + 1] != ids[b + 1];
    }
    forall a | 0 <= a < |tail| ensures tail[a] != ids[0] {
      assert ids[0] != ids[a + 1];
    }
  }

  lemma {:induction false} TallyAbsent(xs: seq<string>, x: string, q: real)
    requires x !in xs
    ensures Tally(xs, x, q) == 0.0
  {
    if xs != [] {
      TallyAbsent(xs[1..], x, q);
    }
  }

  /** A member listed in a duplicate-free roster is tallied exactly once. */
  lemma {:induction false} TallyOnce(ids: seq<string>, x: string, q: real)
    requires DistinctIds(ids)
    ensures Tally(ids, x, q) == if x in ids then q else 0.0
  {
    if ids != [] {
      DistinctTail(ids);
      TallyOnce(ids[1..], x, q);
    }
  }

  lemma {:induction false} PaidRow(ids: seq<string>, e: Expense)
    ensures RowSum(ids, e, Paid) == Tally(ids, e.paidBy, e.amount)
  {
    if ids != [] {
      PaidRow(ids[1..], e);
    }
  }

  lemma {:induction false} ShareRow(ids: seq<string>, e: Expense)
    ensures RowSum(ids, e, Share) == TallyIn(ids, e.splitBetween, EachPart(e))
  {
    if ids != [] {
      ShareRow(ids[1..], e);
    }
  }

  lemma {:induction false} TallyInSnoc(ids: seq<string>, xs: seq<string>, y: string, q: real)
    ensures TallyIn(ids, xs + [y], q) == TallyIn(ids, xs, q) + Tally(ids, y, q)
  {
    if ids != [] {
      TallyInSnoc(ids[1..], xs, y, q);
      TallySnoc(xs, y, ids[0], q);
    }
  }

  lemma {:induction false} TallyInEmpty(ids: seq<string>, q: real)
    ensures TallyIn(ids, [], q) == 0.0
  {
    if ids != [] {
      TallyInEmpty(ids[1..], q);
    }
  }

  /** Summed over a duplicate-free roster that lists every id of `xs`, the
      tallies of `xs` hand out `q` exactly `|xs|` times. */
  lemma {:induction false} TallyInAll(ids: seq<string>, xs: seq<string>, q: real)
    requires DistinctIds(ids)
    requires forall x | x in xs :: x in ids
    ensures TallyIn(ids, xs, q) == Times(q, |xs|)
    decreases |xs|
  {
    if xs == [] {
      TallyInEmpty(ids, q);
    } else {
      var init, y := xs[..|xs| - 1], xs[|xs| - 1];
      assert xs == init + [y];
      TallyInAll(ids, init, q);
      TallyInSnoc(ids, init, y, q);
      TallyOnce(ids, y, q);
    }
  }

  lemma {:induction false} TimesIsProduct(q: real, n: nat)
    ensures Times(q, n) == q * (n as real)
  {
    if n > 0 {
      TimesIsProduct(q, n - 1);
      assert q * ((n - 1) as real) + q == q * (n as real);
    }
  }

  /** The equal parts of an expense with a non-empty split list add back up to its amount. */
  lemma PartsAddUp(e: Expense)
    requires |e.splitBetween| > 0
    ensures Times(EachPart(e), |e.splitBetween|) == e.amount
  {
    var n := |e.splitBetween| as real;
    TimesIsProduct(EachPart(e), |e.splitBetween|);
    assert e.amount / n * n == e.amount;
  }

  /** The member ids of the roster, in roster order. */
  function RosterIds(members: seq<Member>): (ids: seq<string>)
    ensures |ids| == |members|
    ensures forall k | 0 <= k < |members| :: ids[k] == members[k].id
  {
    if members == [] then [] else [members[0].id] + RosterIds(members[1..])
  }

  lemma RosterIdsCover(members: seq<Member>)
    ensures forall x :: x in RosterIds(members) <==> x in MemberIds(members)
  {
    var ids := RosterIds(members);
    forall x | x in MemberIds(members) ensures x in ids {
      var m :| m in members && m.id == x;
      var k :| 0 <= k < |members| && members[k] == m;
      assert ids[k] == x;
    }
  }

  lemma {:induction false} SumColumnEmpty(ids: seq<string>, col: Column)
    ensures SumColumn(ids, [], col) == 0.0
  {
    if ids != [] {
      SumColumnEmpty(ids[1..], col);
    }
  }

  /** Summed over the roster, the paid totals equal all expenses. */
  lemma {:induction false} PaidConserved(ids: seq<string>, es: seq<Expense>)
    requires DistinctIds(ids)
    requires forall e | e in es :: e.paidBy in ids
    ensures SumColumn(ids, es, Paid) == TotalExpenses(es)
    decreases |es|
  {
    if es == [] {
      SumColumnEmpty(ids, Paid);
    } else {
      var init, e := es[..|es| - 1], es[|es| - 1];
      assert es == init + [e];
      PaidConserved(ids, init);
      SumColumnSnoc(ids, init, e, Paid);
      PaidRow(ids, e);
      TallyOnce(ids, e.paidBy, e.amount);
      TotalSnoc(init, e);
    }
  }

  /** Summed over the roster, the shares equal all expenses, provided no split list is empty. */
  lemma {:induction false} ShareConserved(ids: seq<string>, es: seq<Expense>)
    requires DistinctIds(ids)
    requires forall e | e in es :: |e.splitBetween| > 0 && forall x | x in e.splitBetween :: x in ids
    ensures SumColumn(ids, es, Share) == TotalExpenses(es)
    decreases |es|
  {
    if es == [] {
      SumColumnEmpty(ids, Share);
    } else {
      var init, e := es[..|es| - 1], es[|es| - 1];
      assert es == init + [e];
      ShareConserved(ids, init);
      SumColumnSnoc(ids, init, e, Share);
      ShareRow(ids, e);
      TallyInAll(ids, e.splitBetween, EachPart(e));
      PartsAddUp(e);
      TotalSnoc(init, e);
    }
  }

  lemma {:induction false} SumOwesSplit(ids: seq<string>, es: seq<Expense>)
    ensures SumOwes(ids, es) == SumColumn(ids, es, Share) - SumColumn(ids, es, Paid)
  {
    if ids != [] {
      SumOwesSplit(ids[1..], es);
    }
  }

  /** Conservation of money: when every id names a roster member, the roster
      has no duplicate ids and no split list is empty, the members' paid
      totals and shares both add up to the total expenses, so the balances
      sum to exactly zero. */
  lemma Conservation(members: seq<Member>, es: seq<Expense>)
    requires DistinctIds(RosterIds(members))
    requires AllKnown(members, es)
    requires forall e | e in es :: |e.splitBetween| > 0
    ensures SumColumn(RosterIds(members), es, Paid) == TotalExpenses(es)
    ensures SumColumn(RosterIds(members), es, Share) == TotalExpenses(es)
    ensures SumOwes(RosterIds(members), es) == 0.0
  {
    var ids := RosterIds(members);
    RosterIdsCover(members);
    PaidConserved(ids, es);
    ShareConserved(ids, es);
    SumOwesSplit(ids, es);
  }

  // ---------------------------------------------------------------------------
  // Order of the expenses and untouched members

  function RemoveAt(es: seq<Expense>, k: nat): (r: seq<Expense>)
    requires k < |es|
    ensures |r| == |es| - 1
  {
    es[..k] + es[k + 1..]
  }

  lemma {:induction false} SumPartsRemove(es: seq<Expense>, k: nat, id: string, col: Column)
    requires k < |es|
    ensures SumParts(es, id, col) == SumParts(RemoveAt(es, k), id, col) + Part(es[k], id, col)
    decreases |es|
  {
    if k > 0 {
      SumPartsRemove(es[1..], k - 1, id, col);
      assert RemoveAt(es, k) == [es[0]] + RemoveAt(es[1..], k - 1);
    } else {
      assert RemoveAt(es, k) == es[1..];
    }
  }

  lemma RemoveMatching(a: seq<Expense>, b: seq<Expense>, k: nat)
    requires multiset(a) == multiset(b) && a != [] && k < |b| && b[k] == a[0]
    ensures multiset(a[1..]) == multiset(RemoveAt(b, k))
  {
    var x := a[0];
    assert a == [x] + a[1..];
    assert multiset(a) == multiset{x} + multiset(a[1..]);
    assert b == b[..k] + [x] + b[k + 1..];
    assert multiset(b) == multiset(b[..k]) + multiset{x} + multiset(b[k + 1..]);
    assert multiset(RemoveAt(b, k)) == multiset(b[..k]) + multiset(b[k + 1..]);
    assert multiset(a[1..]) == multiset(a) - multiset{x};
    assert multiset(RemoveAt(b, k)) == multiset(b) - multiset{x};
  }

  /** Any reordering of the expense list gives every member the same paid total and share. */
  lemma {:induction false} PermutationInvariant(a: seq<Expense>, b: seq<Expense>, id: string, col: Column)
    requires multiset(a) == multiset(b)
    ensures SumParts(a, id, col) == SumParts(b, id, col)
    decreases |a|
  {
    if a == [] {
      assert |b| == |multiset(b)| == 0;
    } else {
      var x := a[0];
      assert x in multiset(b);
      var k :| 0 <= k < |b| && b[k] == x;
      assert a == [x] + a[1..];
      RemoveMatching(a, b, k);
      PermutationInvariant(a[1..], RemoveAt(b, k), id, col);
      SumPartsRemove(b, k, id, col);
    }
  }

  lemma BalancesPermutationInvariant(a: seq<Expense>, b: seq<Expense>, id: string)
    requires multiset(a) == multiset(b)
    ensures PaidBy(a, id) == PaidBy(b, id) && ShareOf(a, id) == ShareOf(b, id) && Owes(a, id) == Owes(b, id)
  {
    PermutationInvariant(a, b, id, Paid);
    PermutationInvariant(a, b, id, Share);
  }

  /** A member who neither paid nor shares in any expense stays at zero. */
  lemma {:induction false} UntouchedMember(es: seq<Expense>, id: string)
    requires forall e | e in es :: e.paidBy != id && id !in e.splitBetween
    ensures PaidBy(es, id) == 0.0 && ShareOf(es, id) == 0.0 && Owes(es, id) == 0.0
  {
    if es != [] {
      UntouchedMember(es[1..], id);
      TallyAbsent(es[0].splitBetween, id, EachPart(es[0]));
    }
  }

  // ---------------------------------------------------------------------------
  // Balance labels

  datatype BalanceLabel = IsOwed | OwesMoney | Settled

  /** The label shown beside a member's balance. */
  function LabelOf(owes: real): (l: BalanceLabel)
    ensures l == IsOwed <==> owes < 0.0
    ensures l == OwesMoney <==> owes > 0.0
    ensures l == Settled <==> owes == 0.0
  {
    if owes < 0.0 then IsOwed else if owes > 0.0 then OwesMoney else Settled
  }

  // ---------------------------------------------------------------------------
  // The sample trip

  const MockMembers: seq<Member> := [
    Member("1", "You", true), Member("2", "Priya Sharma", false),
    Member("3", "Raj Patel", false), Member("4", "Anita Kumar", false)]

  const MockExpenses: seq<Expense> := [
    Expense("1", 4800.0, "1", ["1", "2", "3", "4"]),
    Expense("2", 7000.0, "2", ["1", "2", "3", "4"]),
    Expense("3", 1200.0, "3", ["1", "2", "3"])]

  /** The demo expenses: 13000 in all; members 1 and 2 are owed 1450 and
      3650, members 3 and 4 owe 2150 and 2950. */
  lemma MockBalances()
    ensures TotalExpenses(MockExpenses) == 13000.0
    ensures Owes(MockExpenses, "1") == -1450.0 && Owes(MockExpenses, "2") == -3650.0
    ensures Owes(MockExpenses, "3") == 2150.0 && Owes(MockExpenses, "4") == 2950.0
  {
    assert EachPart(MockExpenses[0]) == 1200.0;
    assert EachPart(MockExpenses[1]) == 1750.0;
    assert EachPart(MockExpenses[2]) == 400.0;
  }

  /** Every demo payer and split id is on the demo roster. */
  lemma MockKnown()
    ensures AllKnown(MockMembers, MockExpenses)
  {
    assert MockMembers[0].id == "1" && MockMembers[1].id == "2" && MockMembers[2].id == "3" && MockMembers[3].id == "4";
    assert MemberIds(MockMembers) == {"1", "2", "3", "4"};
  }

  // ---------------------------------------------------------------------------
  // Voting

  datatype Choice = Yes | No
  datatype Vote = Vote(userId: string, choice: Choice)

  function YesVotes(votes: seq<Vote>): (n: nat)
    ensures n <= |votes|
  {
    if votes == [] then 0 else (if votes[0].choice == Yes then 1 else 0) + YesVotes(votes[1..])
  }

  /** Share of yes votes as a percentage; 0 when nobody has voted. */
  function VotePercentage(votes: seq<Vote>): (p: real)
    ensures 0.0 <= p <= 100.0
    ensures |votes| == 0 ==> p == 0.0
  {
    if |votes| > 0 then Percent(YesVotes(votes), |votes|) else 0.0
  }

  function Percent(y: nat, n: nat): (p: real)
    requires 0 < n && y <= n
    ensures 0.0 <= p <= 100.0
  {
    FractionAtMostOne(y, n);
    (y as real) / (n as real) * 100.0
  }

  lemma FractionAtMostOne(y: nat, n: nat)
    requires 0 < n && y <= n
    ensures 0.0 <= (y as real) / (n as real) <= 1.0
  {
    var f := (y as real) / (n as real);
    assert f * (n as real) == y as real;
  }

  /** Reaching a percentage threshold is a comparison of whole counts. */
  lemma {:induction false} PercentThreshold(y: nat, n: nat, c: real)
    requires 0 < n && y <= n
    ensures Percent(y, n) >= c <==> (y as real) * 100.0 >= c * (n as real)
  {
    var f := (y as real) / (n as real);
    var m := n as real;
    assert f * m == y as real;
    assert Percent(y, n) * m == (y as real) * 100.0;
    ScaleComparison(Percent(y, n), c, m);
  }

  datatype VoteStatus = Winning | Leading | Losing

  /** `getVoteStatus` on the yes percentage, with its thresholds restated on
      whole vote counts: winning from three quarters yes, leading from one
      half, losing below that or with no votes. */
  function StatusOf(votes: seq<Vote>): (s: VoteStatus)
    ensures s == Winning <==> |votes| > 0 && 4 * YesVotes(votes) >= 3 * |votes|
    ensures s == Leading <==> |votes| > 0 && 2 * YesVotes(votes) >= |votes| && 4 * YesVotes(votes) < 3 * |votes|
    ensures s == Losing <==> |votes| == 0 || 2 * YesVotes(votes) < |votes|
  {
    var p, y, n := VotePercentage(votes), YesVotes(votes), |votes|;
    assert n > 0 ==> (p >= 75.0 <==> 4 * y >= 3 * n) && (p >= 50.0 <==> 2 * y >= n) by {
      if n > 0 {
        StatusThresholds(y, n);
      }
    }
    if p >= 75.0 then Winning else if p >= 50.0 then Leading else Losing
  }

  lemma StatusThresholds(y: nat, n: nat)
    requires 0 < n && y <= n
    ensures Percent(y, n) >= 75.0 <==> 4 * y >= 3 * n
    ensures Percent(y, n) >= 50.0 <==> 2 * y >= n
  {
    PercentThreshold(y, n, 75.0);
    PercentThreshold(y, n, 50.0);
    CountsAgainstThreshold(y, n);
  }

  lemma CountsAgainstThreshold(y: nat, n: nat)
    ensures (y as real) * 100.0 >= 75.0 * (n as real) <==> 4 * y >= 3 * n
    ensures (y as real) * 100.0 >= 50.0 * (n as real) <==> 2 * y >= n
  {
  }

  lemma ScaleComparison(p: real, c: real, n: real)
    requires n > 0.0
    ensures p >= c <==> p * n >= c * n
  {
    if p >= c {
      assert p * n - c * n == (p - c) * n;
    } else {
      assert c * n - p * n == (c - p) * n;
    }
  }

  lemma MockVotes()
    ensures StatusOf([Vote("1", Yes), Vote("2", Yes), Vote("3", No)]) == Leading
    ensures StatusOf([Vote("1", No), Vote("2", Yes), Vote("3", No), Vote("4", No)]) == Losing
    ensures StatusOf([]) == Losing
  {
  }
}
