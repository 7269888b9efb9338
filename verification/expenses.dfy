/** The expense tracker (`useExpenses`): a list of expenses, newest first,
    with add / update / delete by id, filters by category and by date, totals
    and per-category totals. */
module Expenses {
  import opened Common
  import opened Seqs

  /** The values of `EXPENSE_CATEGORIES`. */
  datatype Category = Food | Transport | Shopping | Health | Entertainment | Bills | Other

  /** The categories in the order `EXPENSE_CATEGORIES` lists them. */
  const AllCategories: seq<Category> := [Food, Transport, Shopping, Health, Entertainment, Bills, Other]

  /** An expense record: `{ id, amount, category, description, date, createdAt }`. */
  datatype Expense = Expense(id: string, amount: int, category: Category, description: string, date: Millis, createdAt: Millis)

  /** The data `addExpense` receives; an absent `date` is any falsy value. */
  datatype ExpenseInput = ExpenseInput(amount: int, category: Category, description: string, date: Option<Millis>)

  /** The `updates` object of `updateExpense`: each field present overrides. */
  datatype ExpenseUpdate = ExpenseUpdate(
    id: Option<string>, amount: Option<int>, category: Option<Category>,
    description: Option<string>, date: Option<Millis>, createdAt: Option<Millis>)

  function ExpenseId(e: Expense): string { e.id }
  function Amount(e: Expense): int { e.amount }
  function CategoryOf(e: Expense): Category { e.category }

  /** The record `addExpense` builds with fresh id `id` at instant `now`:
      the input's fields, the date defaulting to `now`, created at `now`. */
  function NewExpense(id: string, input: ExpenseInput, now: Millis): (e: Expense)
    ensures e.id == id && e.createdAt == now
    ensures e.amount == input.amount && e.category == input.category && e.description == input.description
    ensures input.date.Some? ==> e.date == input.date.value
    ensures input.date.None? ==> e.date == now
  {
    Expense(id, input.amount, input.category, input.description, input.date.GetOr(now), now)
  }

  /** `{ ...expense, ...updates }` */
  function Merge(e: Expense, u: ExpenseUpdate): (r: Expense)
    ensures u.id.Some? ==> r.id == u.id.value
    ensures u.id.None? ==> r.id == e.id
    ensures u.amount.Some? ==> r.amount == u.amount.value
    ensures u.amount.None? ==> r.amount == e.amount
    ensures u.category.Some? ==> r.category == u.category.value
    ensures u.category.None? ==> r.category == e.category
    ensures u.description.Some? ==> r.description == u.description.value
    ensures u.description.None? ==> r.description == e.description
    ensures u.date.Some? ==> r.date == u.date.value
    ensures u.date.None? ==> r.date == e.date
    ensures u.createdAt.Some? ==> r.createdAt == u.createdAt.value
    ensures u.createdAt.None? ==> r.createdAt == e.createdAt
  {
    Expense(u.id.GetOr(e.id), u.amount.GetOr(e.amount), u.category.GetOr(e.category),
            u.description.GetOr(e.description), u.date.GetOr(e.date), u.createdAt.GetOr(e.createdAt))
  }

  /** An empty `updates` object changes nothing. */
  lemma MergeNothing(e: Expense)
    ensures Merge(e, ExpenseUpdate(None, None, None, None, None, None)) == e
  {
  }

  /** Merging the same updates twice is merging them once. */
  lemma MergeTwice(e: Expense, u: ExpenseUpdate)
    ensures Merge(Merge(e, u), u) == Merge(e, u)
  {
  }

  function MergeWith(u: ExpenseUpdate): Expense -> Expense {
    e => Merge(e, u)
  }

  /** The state after `updateExpense(id, updates)`. */
  function Updated(expenses: seq<Expense>, id: string, u: ExpenseUpdate): (r: seq<Expense>)
    ensures |r| == |expenses|
    ensures forall i :: 0 <= i < |expenses| && expenses[i].id != id ==> r[i] == expenses[i]
    ensures forall i :: 0 <= i < |expenses| && expenses[i].id == id ==> r[i] == Merge(expenses[i], u)
  {
    UpdateKey(expenses, ExpenseId, id, MergeWith(u))
  }

  /** Updates that leave the id alone: applying them twice is applying them
      once, and deleting afterwards is the same as deleting at once. */
  lemma UpdateIdempotent(expenses: seq<Expense>, id: string, u: ExpenseUpdate)
    requires u.id.None?
    ensures Updated(Updated(expenses, id, u), id, u) == Updated(expenses, id, u)
    ensures Deleted(Updated(expenses, id, u), id) == Deleted(expenses, id)
  {
    forall e ensures ExpenseId(MergeWith(u)(e)) == ExpenseId(e) && MergeWith(u)(MergeWith(u)(e)) == MergeWith(u)(e) {
      MergeTwice(e, u);
    }
    UpdateKeyTwice(expenses, ExpenseId, id, MergeWith(u));
    UpdateThenRemove(expenses, ExpenseId, id, MergeWith(u));
  }

  /** The state after `deleteExpense(id)`. */
  function Deleted(expenses: seq<Expense>, id: string): (r: seq<Expense>)
    ensures forall e :: e in r <==> e in expenses && e.id != id
    ensures |r| <= |expenses|
  {
    RemoveKey(expenses, ExpenseId, id)
  }

  /** Deleting an id no record carries changes nothing. */
  lemma DeleteUnknown(expenses: seq<Expense>, id: string)
    requires forall e :: e in expenses ==> e.id != id
    ensures Deleted(expenses, id) == expenses
  {
    RemoveUnknownKey(expenses, ExpenseId, id);
  }

  /** `getExpensesByCategory(category)`: that category's expenses, in order. */
  function ByCategory(expenses: seq<Expense>, c: Category): (r: seq<Expense>)
    ensures forall e :: e in r <==> e in expenses && e.category == c
  {
    assert forall e :: KeyIs(CategoryOf, c)(e) <==> e.category == c by {
      forall e ensures KeyIs(CategoryOf, c)(e) <==> e.category == c {
        assert KeyIs(CategoryOf, c)(e) == (CategoryOf(e) == c);
      }
    }
    Filter(expenses, KeyIs(CategoryOf, c))
  }

  /** `getTotalExpenses(filterFn)`: the sum of the amounts of every expense,
      or only of those `filterFn` accepts when it is given. */
  function TotalExpenses(expenses: seq<Expense>, filterFn: Option<Expense -> bool>): (r: int)
    ensures expenses == [] ==> r == 0
    ensures filterFn.Some? && (forall e :: e in expenses ==> filterFn.value(e)) ==> r == Sum(expenses, Amount)
    ensures filterFn.Some? && (forall e :: e in expenses ==> !filterFn.value(e)) ==> r == 0
    ensures (forall e :: e in expenses ==> 0 <= e.amount) ==> 0 <= r <= Sum(expenses, Amount)
  {
    match filterFn
    case None =>
      assert (forall e :: e in expenses ==> 0 <= e.amount) ==> 0 <= Sum(expenses, Amount) by {
        if forall e :: e in expenses ==> 0 <= e.amount {
          SumNonNegative(expenses, Amount);
        }
      }
      Sum(expenses, Amount)
    case Some(p) =>
      var total := Sum(Filter(expenses, p), Amount);
      assert (forall e :: e in expenses ==> p(e)) ==> total == Sum(expenses, Amount) by {
        if forall e :: e in expenses ==> p(e) {
          FilterAll(expenses, p);
        }
      }
      assert (forall e :: e in expenses ==> !p(e)) ==> total == 0 by {
        if forall e :: e in expenses ==> !p(e) {
          FilterNone(expenses, p);
        }
      }
      assert (forall e :: e in expenses ==> 0 <= e.amount) ==> 0 <= total <= Sum(expenses, Amount) by {
        if forall e :: e in expenses ==> 0 <= e.amount {
          SumFilterBounds(expenses, p, Amount);
        }
      }
      total
  }

  /** An expense in front adds its amount to the total exactly when there is
      no filter or the filter accepts it; together with the empty case this
      fixes every total, filtered or not. */
  lemma TotalExpensesCons(e: Expense, expenses: seq<Expense>, filterFn: Option<Expense -> bool>)
    ensures TotalExpenses([e] + expenses, filterFn) ==
      (if filterFn.None? || filterFn.value(e) then e.amount else 0) + TotalExpenses(expenses, filterFn)
  {
    assert ([e] + expenses)[1..] == expenses;
    match filterFn
    case None =>
    case Some(p) =>
      SumConcat(if p(e) then [e] else [], Filter(expenses, p), Amount);
  }

  /** The total of the expenses a filter accepts plus the total of those it
      rejects is the unfiltered total. */
  lemma TotalSplits(expenses: seq<Expense>, p: Expense -> bool)
    ensures TotalExpenses(expenses, Some(p)) + TotalExpenses(expenses, Some(Not(p))) == TotalExpenses(expenses, None)
  {
    SumSplit(expenses, p, Amount);
  }

  /** `getExpensesByDateRange(startDate, endDate)`: bounds included. */
  function ByDateRange(expenses: seq<Expense>, startDate: Millis, endDate: Millis): (r: seq<Expense>)
    ensures forall e :: e in r <==> e in expenses && startDate <= e.date <= endDate
    ensures |r| <= |expenses|
  {
    Filter(expenses, (e: Expense) => startDate <= e.date && e.date <= endDate)
  }

  /** The amount spent in category `c`. */
  function CategoryTotal(expenses: seq<Expense>, c: Category): int {
    Sum(ByCategory(expenses, c), Amount)
  }

  /** The per-category totals, added up over every category, are the total. */
  lemma CategoryTotalsAddUp(expenses: seq<Expense>)
    ensures SumPerKey(expenses, CategoryOf, AllCategories, Amount) == TotalExpenses(expenses, None)
  {
    forall e | e in expenses ensures CategoryOf(e) in AllCategories {
      match e.category
      case Food => assert AllCategories[0] == Food;
      case Transport => assert AllCategories[1] == Transport;
      case Shopping => assert AllCategories[2] == Shopping;
      case Health => assert AllCategories[3] == Health;
      case Entertainment => assert AllCategories[4] == Entertainment;
      case Bills => assert AllCategories[5] == Bills;
      case Other => assert AllCategories[6] == Other;
    }
    SumPerKeyCovers(expenses, CategoryOf, AllCategories, Amount);
  }

  /** An expense appended to the list adds its amount to its own category's
      total and to no other. */
  lemma CategoryTotalAppend(prefix: seq<Expense>, e: Expense, c: Category)
    ensures CategoryTotal(prefix + [e], c) == CategoryTotal(prefix, c) + (if e.category == c then e.amount else 0)
  {
    FilterConcat(prefix, [e], KeyIs(CategoryOf, c));
    assert Filter([e], KeyIs(CategoryOf, c)) == if e.category == c then [e] else [];
    SumConcat(ByCategory(prefix, c), Filter([e], KeyIs(CategoryOf, c)), Amount);
  }

  /** A category none of the first `i` expenses has totals 0 over them. */
  lemma NoExpenseInCategory(expenses: seq<Expense>, i: nat, c: Category)
    requires i <= |expenses|
    requires forall j :: 0 <= j < i ==> expenses[j].category != c
    ensures CategoryTotal(expenses[..i], c) == 0
  {
    forall x | x in expenses[..i] ensures !KeyIs(CategoryOf, c)(x) {
      assert KeyIs(CategoryOf, c)(x) == (CategoryOf(x) == c);
    }
    FilterNone(expenses[..i], KeyIs(CategoryOf, c));
  }

  /** The categories of the first `i` expenses. */
  function Seen(expenses: seq<Expense>, i: nat): set<Category>
    requires i <= |expenses|
  {
    set j | 0 <= j < i :: expenses[j].category
  }

  /** One step of the totals loop: `next` is `totals` after
      `if (!totals[c]) totals[c] = 0; totals[c] += amount` for expense `i`
      (a missing entry counts as 0; a zero entry is reset to the same 0). It
      keeps the keys equal to the categories seen and every entry equal to
      its category's total over the longer prefix. */
  lemma TotalsStep(expenses: seq<Expense>, i: nat, totals: map<Category, int>, next: map<Category, int>)
    requires i < |expenses|
    requires forall c :: c in totals <==> c in Seen(expenses, i)
    requires forall c :: c in totals ==> totals[c] == CategoryTotal(expenses[..i], c)
    requires forall c :: c in next <==> c in totals || c == expenses[i].category
    requires forall c :: c in next && c != expenses[i].category ==> next[c] == totals[c]
    requires expenses[i].category in next
    requires next[expenses[i].category] == (if expenses[i].category in totals then totals[expenses[i].category] else 0) + expenses[i].amount
    ensures forall c :: c in next <==> c in Seen(expenses, i + 1)
    ensures forall c :: c in next ==> next[c] == CategoryTotal(expenses[..i + 1], c)
  {
    var e := expenses[i];
    assert Seen(expenses, i + 1) == Seen(expenses, i) + {e.category};
    if e.category !in totals {
      NoExpenseInCategory(expenses, i, e.category);
    }
    assert expenses[..i + 1] == expenses[..i] + [e];
    forall c | c in next ensures next[c] == CategoryTotal(expenses[..i + 1], c) {
      CategoryTotalAppend(expenses[..i], e, c);
    }
  }

  /** The keys and entries the totals loop ends with. */
  lemma TotalsDone(expenses: seq<Expense>, totals: map<Category, int>)
    requires forall c :: c in totals <==> c in Seen(expenses, |expenses|)
    ensures forall c :: c in totals <==> exists e :: e in expenses && e.category == c
  {
    forall c | c in totals ensures exists e :: e in expenses && e.category == c {
      var j :| 0 <= j < |expenses| && expenses[j].category == c;
      assert expenses[j] in expenses;
    }
    forall c | exists e :: e in expenses && e.category == c ensures c in totals {
      var e :| e in expenses && e.category == c;
      var j :| 0 <= j < |expenses| && expenses[j] == e;
      assert c in Seen(expenses, |expenses|);
    }
  }

  /** The hook's state: the `expenses` list, newest first. */
  class ExpenseTracker {
    var expenses: seq<Expense>

    constructor ()
      ensures expenses == []
    {
      expenses := [];
    }

    /** `addExpense(expenseData)` with fresh id `id` at instant `now`. */
    method AddExpense(id: string, expenseData: ExpenseInput, now: Millis) returns (newExpense: Expense)
      modifies this
      ensures newExpense == NewExpense(id, expenseData, now)
      ensures expenses == [newExpense] + old(expenses)
    {
      newExpense := Expense(id, expenseData.amount, expenseData.category, expenseData.description,
                            expenseData.date.GetOr(now), now);
      expenses := [newExpense] + expenses;
    }

    /** `updateExpense(id, updates)` */
    method UpdateExpense(id: string, updates: ExpenseUpdate)
      modifies this
      ensures expenses == Updated(old(expenses), id, updates)
    {
      expenses := UpdateKey(expenses, ExpenseId, id, MergeWith(updates));
    }

    /** `deleteExpense(id)` */
    method DeleteExpense(id: string)
      modifies this
      ensures expenses == Deleted(old(expenses), id)
    {
      expenses := RemoveKey(expenses, ExpenseId, id);
    }

    /** `getCategoryTotals()`: an entry for each category that has an
        expense, holding the sum of that category's amounts; no entry for a
        category without expenses. */
    method GetCategoryTotals() returns (totals: map<Category, int>)
      ensures forall c :: c in totals <==> exists e :: e in expenses && e.category == c
      ensures forall c :: c in totals ==> totals[c] == CategoryTotal(expenses, c)
    {
      totals := map[];
      var i := 0;
      while i < |expenses|
        invariant 0 <= i <= |expenses|
        invariant forall c :: c in totals <==> c in Seen(expenses, i)
        invariant forall c :: c in totals ==> totals[c] == CategoryTotal(expenses[..i], c)
      {
        var expense := expenses[i];
        ghost var before := totals;
        if expense.category !in totals || totals[expense.category] == 0 {
          totals := totals[expense.category := 0];
        }
        totals := totals[expense.category := totals[expense.category] + expense.amount];
        TotalsStep(expenses, i, before, totals);
        assert forall c :: c in totals ==> totals[c] == CategoryTotal(expenses[..i + 1], c);
        assert forall c :: c in totals <==> c in Seen(expenses, i + 1);
        i := i + 1;
      }
      assert expenses[..i] == expenses;
      TotalsDone(expenses, totals);
    }
  }
}
