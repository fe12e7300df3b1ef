/**
 * The budget ledger: the list `budgets` of entries tagged with their owner, a
 * type (income, expense, savings or goal), a payload and a month and year.
 * Every route handler is a list operation on it; this module defines each one
 * as a function on sequences and proves what the routes promise about them.
 */
module Ledger {
  import opened Js
  import opened Seqs

  /** A parsed JSON request body (or query string). */
  type Body = map<string, Value>

  datatype Kind = Income | Expense | Savings | Goal

  /**
   * One element of `budgets`. `kind` is the entry's own `type`; the `data` of a
   * goal may hold a `type` field of its own, which is unrelated.
   */
  datatype Entry = Entry(userId: UserId, kind: Kind, data: Value, month: Value, year: Value)

  const IncomeFields: seq<string> := ["id", "source", "amount", "frequency", "date"]
  const ItemFields: seq<string> := ["id", "description", "amount", "category", "date"]
  const GoalFields: seq<string> := ["id", "description", "amount", "date", "type", "saved", "monthlyTarget"]

  /** The object literal `{ k1, k2, ... }` built from fields destructured out of the body. */
  function Pick(body: Body, keys: seq<string>): map<string, Value> {
    map k | k in keys :: Get(body, k)
  }

  /** What `POST /api/income` pushes (server.js:43-44). */
  function IncomeEntry(uid: UserId, body: Body): Entry {
    Entry(uid, Income, Obj(Pick(body, IncomeFields)), Get(body, "month"), Get(body, "year"))
  }

  /** What `POST /api/expense` pushes (server.js:49-50). */
  function ExpenseEntry(uid: UserId, body: Body): Entry {
    Entry(uid, Expense, Obj(Pick(body, ItemFields)), Get(body, "month"), Get(body, "year"))
  }

  /** What `POST /api/savings` pushes (server.js:55-56). */
  function SavingsEntry(uid: UserId, body: Body): Entry {
    Entry(uid, Savings, Obj(Pick(body, ItemFields)), Get(body, "month"), Get(body, "year"))
  }

  /** What `POST /api/goals` pushes (server.js:61-62): a falsy month or year is stored as `null`. */
  function GoalEntry(uid: UserId, body: Body): Entry {
    Entry(uid, Goal, Obj(Pick(body, GoalFields)), OrNull(Get(body, "month")), OrNull(Get(body, "year")))
  }

  // ---------------------------------------------------------------------------
  // The tests the handlers' callbacks apply to one entry

  /** `b.userId === uid && b.month === month && b.year === year`: the slice test of server.js:94, 104 and 115. */
  predicate InSlice(e: Entry, uid: UserId, month: Value, year: Value) {
    e.userId == uid && StrictEq(e.month, month) && StrictEq(e.year, year)
  }

  /**
   * Evaluating `b.userId === uid && b.type === 'goal' && b.data.id === id`
   * (server.js:71 and 83) throws a TypeError: the entry is one of the caller's goals and its data is
   * null or undefined (possible for goals saved through `POST /api/budget`).
   */
  predicate IdReadThrows(e: Entry, uid: UserId) {
    e.userId == uid && e.kind == Goal && (e.data == Null || e.data == Undefined)
  }

  /**
   * The same test (server.js:71 and 83) evaluates to true. Only an object can have an `id` property
   * strictly equal to a string, so the data of a target is always an object.
   */
  predicate IsTarget(e: Entry, uid: UserId, id: string) {
    e.userId == uid && e.kind == Goal && e.data.Obj? && StrictEq(Get(e.data.fields, "id"), Str(id))
  }

  /** Some entry makes the test of server.js:71 and 83 throw, so the `map` or `filter` never finishes. */
  predicate AnyThrows(bs: seq<Entry>, uid: UserId) {
    exists i :: 0 <= i < |bs| && IdReadThrows(bs[i], uid)
  }

  /** Some entry passes the test of server.js:71, which is what sets `found`. */
  predicate AnyTarget(bs: seq<Entry>, uid: UserId, id: string) {
    exists i :: 0 <= i < |bs| && IsTarget(bs[i], uid, id)
  }

  function InSliceOf(uid: UserId, month: Value, year: Value): Entry -> bool {
    e => InSlice(e, uid, month, year)
  }

  function OutsideSliceOf(uid: UserId, month: Value, year: Value): Entry -> bool {
    e => !InSlice(e, uid, month, year)
  }

  function OfKind(k: Kind): Entry -> bool {
    (e: Entry) => e.kind == k
  }

  function GoalOf(uid: UserId): Entry -> bool {
    (e: Entry) => e.userId == uid && e.kind == Goal
  }

  function NotTarget(uid: UserId, id: string): Entry -> bool {
    e => !IsTarget(e, uid, id)
  }

  function OwnedBy(uid: UserId): Entry -> bool {
    (e: Entry) => e.userId == uid
  }

  function NotOwnedBy(uid: UserId): Entry -> bool {
    (e: Entry) => e.userId != uid
  }

  // ---------------------------------------------------------------------------
  // The list operations

  /** Reset-month (server.js:115), and the first step of replace-month (94): drop the (user, month, year) slice. */
  function WithoutSlice(bs: seq<Entry>, uid: UserId, month: Value, year: Value): seq<Entry> {
    Filter(bs, OutsideSliceOf(uid, month, year))
  }

  /** Delete-goal when no test throws (server.js:83): drop the caller's goals with that id. */
  function WithoutGoal(bs: seq<Entry>, uid: UserId, id: string): seq<Entry> {
    Filter(bs, NotTarget(uid, id))
  }

  /** The update-goal callback of server.js:70-76: `{ ...b, data: { ...b.data, ...updatedGoal } }` on a target. */
  function Merged(e: Entry, uid: UserId, id: string, patch: Body): Entry {
    if IsTarget(e, uid, id) then e.(data := Obj(e.data.fields + patch)) else e
  }

  /** Update-goal when no test throws (server.js:70-76): every target merged, every other entry as it was. */
  function MergeGoals(bs: seq<Entry>, uid: UserId, id: string, patch: Body): seq<Entry> {
    seq(|bs|, i requires 0 <= i < |bs| => Merged(bs[i], uid, id, patch))
  }

  /** One `forEach` push loop of replace-month (server.js:95-98): one entry per item, in order. */
  function Stamp(uid: UserId, kind: Kind, items: seq<Value>, month: Value, year: Value): seq<Entry> {
    seq(|items|, i requires 0 <= i < |items| => Entry(uid, kind, items[i], month, year))
  }

  /** The order in which replace-month pushes its four batches, and the body fields they come from. */
  const BatchKinds: seq<Kind> := [Income, Expense, Savings, Goal]
  const BatchKeys: seq<string> := ["incomes", "expenses", "savings", "goals"]

  /** Each batch has a type of its own. */
  lemma BatchKindsDistinct(a: nat, b: nat)
    requires a < b < |BatchKinds|
    ensures BatchKinds[a] != BatchKinds[b]
  {
    assert BatchKinds[0] == Income && BatchKinds[1] == Expense && BatchKinds[2] == Savings && BatchKinds[3] == Goal;
  }

  /** The pushes of the first `n` batches of replace-month (server.js:95-98), one batch after the other. */
  function Stamped(uid: UserId, month: Value, year: Value, lists: seq<seq<Value>>, n: nat): seq<Entry>
    requires n <= |lists| == |BatchKinds|
  {
    if n == 0 then []
    else Stamped(uid, month, year, lists, n - 1) + Stamp(uid, BatchKinds[n - 1], lists[n - 1], month, year)
  }

  /** Replace-month when every batch is an array (server.js:94-98): the slice replaced by the four batches. */
  function Replaced(bs: seq<Entry>, uid: UserId, month: Value, year: Value, lists: seq<seq<Value>>): seq<Entry>
    requires |lists| == |BatchKinds|
  {
    WithoutSlice(bs, uid, month, year) + Stamped(uid, month, year, lists, |lists|)
  }

  /** `v || []` (server.js:88-91) followed by `.forEach` (95-98): None when `forEach` is not a function (a truthy non-array). */
  function AsBatch(v: Value): Option<seq<Value>> {
    if Falsy(v) then Some([]) else if v.Arr? then Some(v.items) else None
  }

  /** The four batches of `POST /api/budget`, read from the body at server.js:88-91. */
  function Batches(body: Body): (r: seq<Option<seq<Value>>>)
    ensures |r| == |BatchKinds|
  {
    seq(|BatchKeys|, i requires 0 <= i < |BatchKeys| => AsBatch(Get(body, BatchKeys[i])))
  }

  /** The items of each batch read at server.js:88-91, a non-array batch counting as none. */
  function BatchLists(body: Body): (r: seq<seq<Value>>)
    ensures |r| == |BatchKinds|
  {
    var b := Batches(body);
    seq(|b|, i requires 0 <= i < |b| => if b[i].Some? then b[i].value else [])
  }

  /** The index of the first batch that is not an array, or the number of batches. */
  function FirstBad(batches: seq<Option<seq<Value>>>): (k: nat)
    ensures k <= |batches|
    ensures forall j :: 0 <= j < k ==> batches[j].Some?
    ensures k < |batches| ==> batches[k].None?
  {
    if batches == [] || batches[0].None? then 0 else 1 + FirstBad(batches[1..])
  }

  /** The `data` of each entry, in order: `.map(b => b.data)`. */
  function Datas(s: seq<Entry>): seq<Value> {
    seq(|s|, i requires 0 <= i < |s| => s[i].data)
  }

  /** The body of `GET /api/budget`. */
  datatype MonthView = MonthView(incomes: seq<Value>, expenses: seq<Value>, savings: seq<Value>, goals: seq<Value>)

  const EmptyView := MonthView([], [], [], [])

  /** The four `filter(b => b.type === ...).map(b => b.data)` partitions of a list (server.js:106-109). */
  function Partition(s: seq<Entry>): MonthView {
    MonthView(Datas(Filter(s, OfKind(Income))), Datas(Filter(s, OfKind(Expense))),
              Datas(Filter(s, OfKind(Savings))), Datas(Filter(s, OfKind(Goal))))
  }

  /** Get-month (server.js:104-110): the caller's entries for that month and year, partitioned by type. */
  function GetMonth(bs: seq<Entry>, uid: UserId, month: Value, year: Value): MonthView {
    Partition(Filter(bs, InSliceOf(uid, month, year)))
  }

  /** List-goals (server.js:121): the data of all the caller's goals, of every month, in ledger order. */
  function ListGoals(bs: seq<Entry>, uid: UserId): seq<Value> {
    Datas(Filter(bs, GoalOf(uid)))
  }

  /** A view holding `items` in the partition of `k` and nothing elsewhere. */
  function Place(k: Kind, items: seq<Value>): MonthView {
    match k
    case Income => MonthView(items, [], [], [])
    case Expense => MonthView([], items, [], [])
    case Savings => MonthView([], [], items, [])
    case Goal => MonthView([], [], [], items)
  }

  /** Two views one after the other, partition by partition. */
  function Combine(v: MonthView, w: MonthView): MonthView {
    MonthView(v.incomes + w.incomes, v.expenses + w.expenses, v.savings + w.savings, v.goals + w.goals)
  }

  // ---------------------------------------------------------------------------
  // Facts about the building blocks

  lemma DatasConcat(a: seq<Entry>, b: seq<Entry>)
    ensures Datas(a + b) == Datas(a) + Datas(b)
  {
  }

  /** Each entry of a list lands in exactly one of the four partitions. */
  lemma {:induction false} PartitionSizes(s: seq<Entry>)
    ensures |Filter(s, OfKind(Income))| + |Filter(s, OfKind(Expense))|
          + |Filter(s, OfKind(Savings))| + |Filter(s, OfKind(Goal))| == |s|
  {
    if s != [] {
      PartitionSizes(s[1..]);
    }
  }

  /** Partitioning is done entry by entry, so it distributes over concatenation. */
  lemma PartitionConcat(a: seq<Entry>, b: seq<Entry>)
    ensures Partition(a + b) == Combine(Partition(a), Partition(b))
  {
    forall k: Kind ensures Filter(a + b, OfKind(k)) == Filter(a, OfKind(k)) + Filter(b, OfKind(k)) {
      FilterConcat(a, b, OfKind(k));
    }
    forall k: Kind ensures Datas(Filter(a + b, OfKind(k))) == Datas(Filter(a, OfKind(k))) + Datas(Filter(b, OfKind(k))) {
      DatasConcat(Filter(a, OfKind(k)), Filter(b, OfKind(k)));
    }
  }

  /** Selecting one type from a pushed batch keeps all of it or none of it. */
  lemma FilterStampKind(uid: UserId, kind: Kind, items: seq<Value>, month: Value, year: Value, k: Kind)
    ensures Filter(Stamp(uid, kind, items, month, year), OfKind(k)) ==
      if k == kind then Stamp(uid, kind, items, month, year) else []
  {
    var s := Stamp(uid, kind, items, month, year);
    if k == kind {
      FilterKeepsAll(s, OfKind(k));
    } else {
      FilterDropsAll(s, OfKind(k));
    }
  }

  /** A pushed batch lands, in order, in its own partition and nowhere else. */
  lemma PartitionStamp(uid: UserId, kind: Kind, items: seq<Value>, month: Value, year: Value)
    ensures Partition(Stamp(uid, kind, items, month, year)) == Place(kind, items)
  {
    var s := Stamp(uid, kind, items, month, year);
    FilterStampKind(uid, kind, items, month, year, Income);
    FilterStampKind(uid, kind, items, month, year, Expense);
    FilterStampKind(uid, kind, items, month, year, Savings);
    FilterStampKind(uid, kind, items, month, year, Goal);
    DatasStamp(uid, kind, items, month, year);
    var none: seq<Entry> := [];
    assert Datas(none) == [];
    match kind
    case Income =>
      assert Partition(s) == MonthView(Datas(s), Datas(none), Datas(none), Datas(none));
    case Expense =>
      assert Partition(s) == MonthView(Datas(none), Datas(s), Datas(none), Datas(none));
    case Savings =>
      assert Partition(s) == MonthView(Datas(none), Datas(none), Datas(s), Datas(none));
    case Goal =>
      assert Partition(s) == MonthView(Datas(none), Datas(none), Datas(none), Datas(s));
  }

  /** Every entry the replacement pushes belongs to the caller and carries the given month and year. */
  lemma {:induction false} StampedShape(uid: UserId, month: Value, year: Value, lists: seq<seq<Value>>, n: nat)
    requires n <= |lists| == |BatchKinds|
    ensures forall i :: 0 <= i < |Stamped(uid, month, year, lists, n)| ==>
      Stamped(uid, month, year, lists, n)[i].userId == uid &&
      Stamped(uid, month, year, lists, n)[i].month == month &&
      Stamped(uid, month, year, lists, n)[i].year == year
  {
    if n > 0 {
      StampedShape(uid, month, year, lists, n - 1);
    }
  }

  /** The four batches are pushed incomes first, then expenses, savings and goals. */
  lemma StampedFour(uid: UserId, month: Value, year: Value, lists: seq<seq<Value>>)
    requires |lists| == |BatchKinds|
    ensures Stamped(uid, month, year, lists, |lists|) ==
      Stamp(uid, Income, lists[0], month, year) + Stamp(uid, Expense, lists[1], month, year)
      + Stamp(uid, Savings, lists[2], month, year) + Stamp(uid, Goal, lists[3], month, year)
  {
    var s0 := Stamp(uid, Income, lists[0], month, year);
    var s1 := Stamp(uid, Expense, lists[1], month, year);
    var s2 := Stamp(uid, Savings, lists[2], month, year);
    var s3 := Stamp(uid, Goal, lists[3], month, year);
    assert BatchKinds[0] == Income && BatchKinds[1] == Expense && BatchKinds[2] == Savings && BatchKinds[3] == Goal;
    assert Stamped(uid, month, year, lists, 1) == [] + s0;
    assert Stamped(uid, month, year, lists, 2) == s0 + s1;
    assert Stamped(uid, month, year, lists, 3) == s0 + s1 + s2;
  }

  // ---------------------------------------------------------------------------
  // Get-month and list-goals

  /**
   * The four lists of get-month together hold exactly the caller's entries for
   * that month and year: each entry is in one partition, and only one.
   */
  lemma GetMonthPartitionsSlice(bs: seq<Entry>, uid: UserId, month: Value, year: Value)
    ensures var v := GetMonth(bs, uid, month, year);
      |v.incomes| + |v.expenses| + |v.savings| + |v.goals| == |Filter(bs, InSliceOf(uid, month, year))|
  {
    PartitionSizes(Filter(bs, InSliceOf(uid, month, year)));
  }

  /**
   * After appending an entry, get-month for a key shows that entry's data at
   * the end of its type's list when the entry is in that key's slice, and is
   * unchanged otherwise.
   */
  lemma GetMonthAfterAppend(bs: seq<Entry>, e: Entry, uid: UserId, month: Value, year: Value)
    ensures GetMonth(bs + [e], uid, month, year) ==
      if InSlice(e, uid, month, year) then Combine(GetMonth(bs, uid, month, year), Place(e.kind, [e.data]))
      else GetMonth(bs, uid, month, year)
  {
    var p := InSliceOf(uid, month, year);
    var before := Filter(bs, p);
    FilterConcat(bs, [e], p);
    if InSlice(e, uid, month, year) {
      FilterKeepsAll([e], p);
      PartitionConcat(before, [e]);
      assert [e] == Stamp(e.userId, e.kind, [e.data], e.month, e.year);
      PartitionStamp(e.userId, e.kind, [e.data], e.month, e.year);
    } else {
      FilterDropsAll([e], p);
      assert before + [] == before;
    }
  }

  /**
   * A goal added without a month (or year) is stored with `null`, which no
   * query-string value equals: it is in list-goals but never in get-month for
   * a non-null key.
   */
  lemma UndatedGoalOnlyListed(bs: seq<Entry>, uid: UserId, body: Body, month: Value, year: Value)
    requires Falsy(Get(body, "month")) || Falsy(Get(body, "year"))
    requires month != Null && year != Null
    ensures GetMonth(bs + [GoalEntry(uid, body)], uid, month, year) == GetMonth(bs, uid, month, year)
    ensures ListGoals(bs + [GoalEntry(uid, body)], uid) == ListGoals(bs, uid) + [GoalEntry(uid, body).data]
  {
    var g := GoalEntry(uid, body);
    GetMonthAfterAppend(bs, g, uid, month, year);
    FilterConcat(bs, [g], GoalOf(uid));
    assert [g][1..] == [];
    assert Filter([g], GoalOf(uid)) == [g];
    DatasConcat(Filter(bs, GoalOf(uid)), [g]);
  }

  /** The two read routes see only the caller's own entries: everyone else's could be absent. */
  lemma ReadsIgnoreOthers(bs: seq<Entry>, uid: UserId, month: Value, year: Value)
    ensures GetMonth(bs, uid, month, year) == GetMonth(Filter(bs, OwnedBy(uid)), uid, month, year)
    ensures ListGoals(bs, uid) == ListGoals(Filter(bs, OwnedBy(uid)), uid)
  {
    FilterOfFilter(bs, OwnedBy(uid), InSliceOf(uid, month, year));
    FilterOfFilter(bs, OwnedBy(uid), GoalOf(uid));
  }

  /** Every goal get-month returns, for any month and year, is also returned by list-goals. */
  lemma MonthGoalsAreListed(bs: seq<Entry>, uid: UserId, month: Value, year: Value)
    ensures forall i :: 0 <= i < |GetMonth(bs, uid, month, year).goals| ==>
      GetMonth(bs, uid, month, year).goals[i] in ListGoals(bs, uid)
  {
    var slice := Filter(bs, InSliceOf(uid, month, year));
    var goals := Filter(slice, OfKind(Goal));
    var all := Filter(bs, GoalOf(uid));
    FilterSound(bs, InSliceOf(uid, month, year));
    FilterSound(slice, OfKind(Goal));
    FilterSound(bs, GoalOf(uid));
    forall i | 0 <= i < |goals| ensures goals[i].data in Datas(all) {
      assert goals[i] in slice;
      var j :| 0 <= j < |slice| && slice[j] == goals[i];
      assert slice[j] in bs;
      var k :| 0 <= k < |bs| && bs[k] == goals[i];
      assert GoalOf(uid)(bs[k]);
      assert goals[i] in all;
      var n :| 0 <= n < |all| && all[n] == goals[i];
      assert Datas(all)[n] == goals[i].data;
    }
  }

  // ---------------------------------------------------------------------------
  // Reset-month

  /** After reset-month, get-month for the same key returns four empty lists. */
  lemma GetMonthAfterReset(bs: seq<Entry>, uid: UserId, month: Value, year: Value)
    ensures GetMonth(WithoutSlice(bs, uid, month, year), uid, month, year) == EmptyView
  {
    SliceGone(bs, uid, month, year);
  }

  /** Nothing of the slice survives dropping it. */
  lemma SliceGone(bs: seq<Entry>, uid: UserId, month: Value, year: Value)
    ensures Filter(WithoutSlice(bs, uid, month, year), InSliceOf(uid, month, year)) == []
  {
    FilterSound(bs, OutsideSliceOf(uid, month, year));
    FilterDropsAll(WithoutSlice(bs, uid, month, year), InSliceOf(uid, month, year));
  }

  /** Resetting a month twice is resetting it once. */
  lemma ResetIdempotent(bs: seq<Entry>, uid: UserId, month: Value, year: Value)
    ensures WithoutSlice(WithoutSlice(bs, uid, month, year), uid, month, year) == WithoutSlice(bs, uid, month, year)
  {
    FilterIdempotent(bs, OutsideSliceOf(uid, month, year));
  }

  // ---------------------------------------------------------------------------
  // Replace-month

  /**
   * After replace-month with primitive month and year, the caller's slice for
   * that key is exactly the supplied items, incomes then expenses, savings and
   * goals.
   */
  lemma ReplacedSlice(bs: seq<Entry>, uid: UserId, month: Value, year: Value, lists: seq<seq<Value>>)
    requires |lists| == |BatchKinds|
    requires IsPrimitive(month) && IsPrimitive(year)
    ensures Filter(Replaced(bs, uid, month, year, lists), InSliceOf(uid, month, year)) == Stamped(uid, month, year, lists, |lists|)
  {
    var w := WithoutSlice(bs, uid, month, year);
    var st := Stamped(uid, month, year, lists, |lists|);
    SliceGone(bs, uid, month, year);
    StampedInSlice(uid, month, year, lists);
    FilterAppendKept(w, st, InSliceOf(uid, month, year));
    assert [] + st == st;
  }

  /** With primitive month and year, every pushed entry is in the slice it replaced. */
  lemma StampedInSlice(uid: UserId, month: Value, year: Value, lists: seq<seq<Value>>)
    requires |lists| == |BatchKinds|
    requires IsPrimitive(month) && IsPrimitive(year)
    ensures forall i :: 0 <= i < |Stamped(uid, month, year, lists, |lists|)| ==>
      InSlice(Stamped(uid, month, year, lists, |lists|)[i], uid, month, year)
  {
    StampedShape(uid, month, year, lists, |lists|);
  }

  /** ... and every other entry is kept, in its order. */
  lemma ReplacedKeepsRest(bs: seq<Entry>, uid: UserId, month: Value, year: Value, lists: seq<seq<Value>>)
    requires |lists| == |BatchKinds|
    requires IsPrimitive(month) && IsPrimitive(year)
    ensures WithoutSlice(Replaced(bs, uid, month, year, lists), uid, month, year) == WithoutSlice(bs, uid, month, year)
  {
    var p := OutsideSliceOf(uid, month, year);
    var w := WithoutSlice(bs, uid, month, year);
    var st := Stamped(uid, month, year, lists, |lists|);
    FilterConcat(w, st, p);
    FilterIdempotent(bs, p);
    StampedShape(uid, month, year, lists, |lists|);
    FilterDropsAll(st, p);
  }

  /** Replace-month with primitive month and year is idempotent. */
  lemma ReplacedIdempotent(bs: seq<Entry>, uid: UserId, month: Value, year: Value, lists: seq<seq<Value>>)
    requires |lists| == |BatchKinds|
    requires IsPrimitive(month) && IsPrimitive(year)
    ensures Replaced(Replaced(bs, uid, month, year, lists), uid, month, year, lists) == Replaced(bs, uid, month, year, lists)
  {
    ReplacedKeepsRest(bs, uid, month, year, lists);
  }

  /** Saving a month and reading it back (primitive month and year) returns the saved lists. */
  lemma GetMonthAfterReplace(bs: seq<Entry>, uid: UserId, month: Value, year: Value, lists: seq<seq<Value>>)
    requires |lists| == |BatchKinds|
    requires IsPrimitive(month) && IsPrimitive(year)
    ensures GetMonth(Replaced(bs, uid, month, year, lists), uid, month, year) == MonthView(lists[0], lists[1], lists[2], lists[3])
  {
    ReplacedSlice(bs, uid, month, year, lists);
    PartitionStampedFour(uid, month, year, lists);
  }

  /** The pushes of the first `n` batches hold none of the types pushed later. */
  lemma {:induction false} StampedLacksLater(uid: UserId, month: Value, year: Value, lists: seq<seq<Value>>, n: nat, m: nat)
    requires n <= m < |lists| == |BatchKinds|
    ensures Filter(Stamped(uid, month, year, lists, n), OfKind(BatchKinds[m])) == []
  {
    if n > 0 {
      var prev := Stamped(uid, month, year, lists, n - 1);
      var last := Stamp(uid, BatchKinds[n - 1], lists[n - 1], month, year);
      assert Stamped(uid, month, year, lists, n) == prev + last;
      StampedLacksLater(uid, month, year, lists, n - 1, m);
      BatchKindsDistinct(n - 1, m);
      FilterAppendDropped(prev, last, OfKind(BatchKinds[m]));
    }
  }

  /** Selecting the type of the last pushed batch gives exactly that batch. */
  lemma KindOfStampedLast(uid: UserId, month: Value, year: Value, lists: seq<seq<Value>>, n: nat)
    requires 0 < n <= |lists| == |BatchKinds|
    ensures Filter(Stamped(uid, month, year, lists, n), OfKind(BatchKinds[n - 1])) == Stamp(uid, BatchKinds[n - 1], lists[n - 1], month, year)
  {
    var prev := Stamped(uid, month, year, lists, n - 1);
    var last := Stamp(uid, BatchKinds[n - 1], lists[n - 1], month, year);
    assert Stamped(uid, month, year, lists, n) == prev + last;
    StampedLacksLater(uid, month, year, lists, n - 1, n - 1);
    FilterAppendKept(prev, last, OfKind(BatchKinds[n - 1]));
    assert [] + last == last;
  }

  /** Selecting one type from the pushes of the first `n` batches gives exactly that type's batch. */
  lemma {:induction false} KindOfStamped(uid: UserId, month: Value, year: Value, lists: seq<seq<Value>>, n: nat, j: nat)
    requires j < n <= |lists| == |BatchKinds|
    ensures Filter(Stamped(uid, month, year, lists, n), OfKind(BatchKinds[j])) == Stamp(uid, BatchKinds[j], lists[j], month, year)
  {
    if j == n - 1 {
      KindOfStampedLast(uid, month, year, lists, n);
    } else {
      var prev := Stamped(uid, month, year, lists, n - 1);
      var last := Stamp(uid, BatchKinds[n - 1], lists[n - 1], month, year);
      assert Stamped(uid, month, year, lists, n) == prev + last;
      KindOfStamped(uid, month, year, lists, n - 1, j);
      BatchKindsDistinct(j, n - 1);
      FilterAppendDropped(prev, last, OfKind(BatchKinds[j]));
    }
  }

  lemma DatasStamp(uid: UserId, kind: Kind, items: seq<Value>, month: Value, year: Value)
    ensures Datas(Stamp(uid, kind, items, month, year)) == items
  {
  }

  /** Partitioning the four pushed batches gives back the four lists. */
  lemma PartitionStampedFour(uid: UserId, month: Value, year: Value, lists: seq<seq<Value>>)
    requires |lists| == |BatchKinds|
    ensures Partition(Stamped(uid, month, year, lists, |lists|)) == MonthView(lists[0], lists[1], lists[2], lists[3])
  {
    assert BatchKinds[0] == Income && BatchKinds[1] == Expense && BatchKinds[2] == Savings && BatchKinds[3] == Goal;
    KindOfStamped(uid, month, year, lists, |lists|, 0);
    KindOfStamped(uid, month, year, lists, |lists|, 1);
    KindOfStamped(uid, month, year, lists, |lists|, 2);
    KindOfStamped(uid, month, year, lists, |lists|, 3);
    DatasStamp(uid, Income, lists[0], month, year);
    DatasStamp(uid, Expense, lists[1], month, year);
    DatasStamp(uid, Savings, lists[2], month, year);
    DatasStamp(uid, Goal, lists[3], month, year);
  }

  /**
   * With an object or array as month or year nothing stored is ever strictly
   * equal to it, so replace-month removes nothing and only appends.
   */
  lemma ReplacedWithObjectKeyOnlyAppends(bs: seq<Entry>, uid: UserId, month: Value, year: Value, lists: seq<seq<Value>>)
    requires |lists| == |BatchKinds|
    requires !IsPrimitive(month) || !IsPrimitive(year)
    ensures Replaced(bs, uid, month, year, lists) == bs + Stamped(uid, month, year, lists, |lists|)
  {
    FilterKeepsAll(bs, OutsideSliceOf(uid, month, year));
  }

  // ---------------------------------------------------------------------------
  // Update-goal and delete-goal

  /** Deleting a goal twice is deleting it once. */
  lemma DeleteIdempotent(bs: seq<Entry>, uid: UserId, id: string)
    ensures WithoutGoal(WithoutGoal(bs, uid, id), uid, id) == WithoutGoal(bs, uid, id)
  {
    FilterIdempotent(bs, NotTarget(uid, id));
  }

  /** After delete-goal, no goal the caller lists has that id. */
  lemma ListGoalsAfterDelete(bs: seq<Entry>, uid: UserId, id: string)
    ensures forall i :: 0 <= i < |ListGoals(WithoutGoal(bs, uid, id), uid)| ==>
      var d := ListGoals(WithoutGoal(bs, uid, id), uid)[i];
      !(d.Obj? && StrictEq(Get(d.fields, "id"), Str(id)))
  {
    var w := WithoutGoal(bs, uid, id);
    var g := Filter(w, GoalOf(uid));
    FilterSound(bs, NotTarget(uid, id));
    FilterSound(w, GoalOf(uid));
    forall i | 0 <= i < |g| ensures !IsTarget(g[i], uid, id) {
      assert g[i] in w;
    }
  }

  /** Update-goal is idempotent: merging the same patch again changes nothing. */
  lemma MergeIdempotent(bs: seq<Entry>, uid: UserId, id: string, patch: Body)
    ensures MergeGoals(MergeGoals(bs, uid, id, patch), uid, id, patch) == MergeGoals(bs, uid, id, patch)
  {
    var once := MergeGoals(bs, uid, id, patch);
    forall i | 0 <= i < |bs| ensures Merged(once[i], uid, id, patch) == once[i] {
      if IsTarget(bs[i], uid, id) && IsTarget(once[i], uid, id) {
        var m := bs[i].data.fields;
        assert (m + patch) + patch == m + patch;
      }
    }
  }

  /** Update-goal keeps the number of goals the caller lists. */
  lemma {:induction false} MergeKeepsGoalCount(bs: seq<Entry>, uid: UserId, id: string, patch: Body)
    ensures |ListGoals(MergeGoals(bs, uid, id, patch), uid)| == |ListGoals(bs, uid)|
  {
    if bs != [] {
      var tail := MergeGoals(bs[1..], uid, id, patch);
      MergeKeepsGoalCount(bs[1..], uid, id, patch);
      assert MergeGoals(bs, uid, id, patch)[1..] == tail;
    }
  }

  // ---------------------------------------------------------------------------
  // No route touches another user's entries

  /** Appending one of the caller's entries leaves everyone else's entries as they were. */
  lemma AppendKeepsOthers(bs: seq<Entry>, e: Entry, uid: UserId)
    requires e.userId == uid
    ensures Filter(bs + [e], NotOwnedBy(uid)) == Filter(bs, NotOwnedBy(uid))
  {
    FilterConcat(bs, [e], NotOwnedBy(uid));
    FilterDropsAll([e], NotOwnedBy(uid));
  }

  /** Dropping the caller's slice and pushing any of the batches leaves everyone else's entries as they were. */
  lemma ReplaceKeepsOthers(bs: seq<Entry>, uid: UserId, month: Value, year: Value, lists: seq<seq<Value>>, n: nat)
    requires n <= |lists| == |BatchKinds|
    ensures Filter(WithoutSlice(bs, uid, month, year) + Stamped(uid, month, year, lists, n), NotOwnedBy(uid))
         == Filter(bs, NotOwnedBy(uid))
  {
    var st := Stamped(uid, month, year, lists, n);
    FilterConcat(WithoutSlice(bs, uid, month, year), st, NotOwnedBy(uid));
    FilterOfFilter(bs, OutsideSliceOf(uid, month, year), NotOwnedBy(uid));
    StampedShape(uid, month, year, lists, n);
    FilterDropsAll(st, NotOwnedBy(uid));
  }

  /** Reset-month leaves everyone else's entries as they were. */
  lemma ResetKeepsOthers(bs: seq<Entry>, uid: UserId, month: Value, year: Value)
    ensures Filter(WithoutSlice(bs, uid, month, year), NotOwnedBy(uid)) == Filter(bs, NotOwnedBy(uid))
  {
    FilterOfFilter(bs, OutsideSliceOf(uid, month, year), NotOwnedBy(uid));
  }

  /** Delete-goal leaves everyone else's entries as they were. */
  lemma DeleteKeepsOthers(bs: seq<Entry>, uid: UserId, id: string)
    ensures Filter(WithoutGoal(bs, uid, id), NotOwnedBy(uid)) == Filter(bs, NotOwnedBy(uid))
  {
    FilterOfFilter(bs, NotTarget(uid, id), NotOwnedBy(uid));
  }

  /** Update-goal leaves everyone else's entries as they were. */
  lemma {:induction false} MergeKeepsOthers(bs: seq<Entry>, uid: UserId, id: string, patch: Body)
    ensures Filter(MergeGoals(bs, uid, id, patch), NotOwnedBy(uid)) == Filter(bs, NotOwnedBy(uid))
  {
    if bs != [] {
      var tail := MergeGoals(bs[1..], uid, id, patch);
      MergeKeepsOthers(bs[1..], uid, id, patch);
      assert MergeGoals(bs, uid, id, patch)[1..] == tail;
    }
  }
}
