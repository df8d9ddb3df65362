/** The budget store of lib/services/budgetService.ts: categories with their
    spending, totals and percentages recomputed from the values, a single
    category updated with a trend classification, threshold insights, and
    the listeners told of each change. A listener is known by its identity;
    what it does when called is outside the model, so each call is recorded
    as a delivery of the data it received. */
module BudgetAnalytics {
  import opened Numeric
  import opened Sequences

  datatype Trend = Up | Down | Stable

  /** A category; `percentage` is `None` when it is not a finite number
      (a zero total budget makes the division infinite or undefined). */
  datatype BudgetCategory = BudgetCategory(
    id: string,
    name: string,
    value: real,
    percentage: Option<int>,
    color: string,
    target: real,
    trend: Trend,
    trendValue: real)

  datatype MonthlyFigures = MonthlyFigures(month: string, income: real, expenses: real, savings: real)

  datatype SavingsGoal = SavingsGoal(target: real, current: real, timeline: string)

  datatype BudgetData = BudgetData(
    totalBudget: real,
    totalSpent: real,
    categories: seq<BudgetCategory>,
    healthScore: int,
    monthlyTrend: seq<MonthlyFigures>,
    savingsGoal: SavingsGoal)

  /** The data the service starts with, totals not yet computed. */
  function InitialData(): BudgetData
  {
    BudgetData(0.0, 0.0,
      [ BudgetCategory("housing", "Housing", 1500.0, Some(35), "#4F46E5", 1400.0, Up, 5.2),
        BudgetCategory("food", "Food & Dining", 600.0, Some(14), "#7C3AED", 550.0, Down, -3.1),
        BudgetCategory("transportation", "Transportation", 400.0, Some(9), "#10B981", 380.0, Stable, 0.5),
        BudgetCategory("utilities", "Utilities", 200.0, Some(5), "#F59E0B", 180.0, Up, 8.3),
        BudgetCategory("entertainment", "Entertainment", 300.0, Some(7), "#EF4444", 250.0, Up, 12.5),
        BudgetCategory("savings", "Savings & Investments", 500.0, Some(12), "#06B6D4", 650.0, Down, -15.2),
        BudgetCategory("healthcare", "Healthcare", 250.0, Some(6), "#8B5CF6", 200.0, Stable, 1.2),
        BudgetCategory("other", "Miscellaneous", 550.0, Some(12), "#6B7280", 400.0, Up, 18.7) ],
      85,
      [ MonthlyFigures("Jan", 4300.0, 3950.0, 350.0),
        MonthlyFigures("Feb", 4300.0, 3750.0, 550.0),
        MonthlyFigures("Mar", 4300.0, 3800.0, 500.0),
        MonthlyFigures("Apr", 4300.0, 3600.0, 700.0),
        MonthlyFigures("May", 4300.0, 3900.0, 400.0),
        MonthlyFigures("Jun", 4300.0, 3800.0, 500.0) ],
      SavingsGoal(10000.0, 3200.0, "18 months"))
  }

  // ---------------------------------------------------------------------
  // calculateTotals

  /** The `reduce` over the category values. */
  function SumValues(cs: seq<BudgetCategory>): real
  {
    if cs == [] then 0.0 else cs[0].value + SumValues(cs[1..])
  }

  /** `Math.round(value / totalBudget × 100)`, when that is a finite number. */
  function Percentage(value: real, totalBudget: real): Option<int>
  {
    if totalBudget == 0.0 then None else Some(Round(value / totalBudget * 100.0))
  }

  function WithPercentages(cs: seq<BudgetCategory>, totalBudget: real): (r: seq<BudgetCategory>)
    ensures |r| == |cs|
    ensures forall i :: 0 <= i < |cs| ==> r[i] == cs[i].(percentage := Percentage(cs[i].value, totalBudget))
  {
    seq(|cs|, i requires 0 <= i < |cs| => cs[i].(percentage := Percentage(cs[i].value, totalBudget)))
  }

  /** `calculateTotals`: spending is the sum of the values, the budget 500
      more, and each category's percentage is its share of the budget; the
      categories keep their order and every other field. */
  function Totals(d: BudgetData): (r: BudgetData)
    ensures r.totalSpent == SumValues(d.categories)
    ensures r.totalBudget == r.totalSpent + 500.0
    ensures |r.categories| == |d.categories|
    ensures forall i :: 0 <= i < |d.categories| ==>
      r.categories[i] == d.categories[i].(percentage := Percentage(d.categories[i].value, r.totalBudget))
    ensures r.healthScore == d.healthScore && r.monthlyTrend == d.monthlyTrend && r.savingsGoal == d.savingsGoal
  {
    var spent := SumValues(d.categories);
    d.(totalSpent := spent, totalBudget := spent + 500.0,
       categories := WithPercentages(d.categories, spent + 500.0))
  }

  /** Data whose totals and percentages agree with its values. */
  predicate Totalled(d: BudgetData)
  {
    Totals(d) == d
  }

  /** Two category lists with the same values have the same sum. */
  lemma {:induction false} SumValuesByValues(a: seq<BudgetCategory>, b: seq<BudgetCategory>)
    requires |a| == |b| && forall i :: 0 <= i < |a| ==> a[i].value == b[i].value
    ensures SumValues(a) == SumValues(b)
  {
    if a != [] {
      SumValuesByValues(a[1..], b[1..]);
    }
  }

  /** Recomputing the totals a second time changes nothing. */
  lemma TotalsIdempotent(d: BudgetData)
    ensures Totalled(Totals(d))
  {
    var r := Totals(d);
    SumValuesByValues(r.categories, d.categories);
    assert Totals(r).categories == r.categories;
  }

  /** Changing one value changes the sum by the difference. */
  lemma {:induction false} SumValuesUpdate(cs: seq<BudgetCategory>, i: nat, c: BudgetCategory)
    requires i < |cs|
    ensures SumValues(cs[i := c]) == SumValues(cs) - cs[i].value + c.value
  {
    if i > 0 {
      SumValuesUpdate(cs[1..], i - 1, c);
      assert cs[i := c][1..] == cs[1..][i - 1 := c];
    }
  }

  /** With no negative value, every value is at most the sum. */
  lemma {:induction false} ValueAtMostSum(cs: seq<BudgetCategory>, i: nat)
    requires forall j :: 0 <= j < |cs| ==> cs[j].value >= 0.0
    requires i < |cs|
    ensures 0.0 <= cs[i].value <= SumValues(cs)
    ensures SumValues(cs) >= 0.0
  {
    if i > 0 {
      ValueAtMostSum(cs[1..], i - 1);
    } else if |cs| > 1 {
      ValueAtMostSum(cs[1..], 0);
    } else {
      assert cs[1..] == [];
    }
  }

  /** A share of a positive whole, as a rounded percentage, lies in 0..100. */
  lemma ShareInRange(v: real, b: real)
    requires 0.0 <= v <= b && b > 0.0
    ensures 0 <= Round(v / b * 100.0) <= 100
  {
    assert v / b <= 1.0 by {
      assert v / b * b == v;
      ScaledOrder(v / b, 1.0, b, v, b);
    }
    RoundMonotone(v / b * 100.0, 100.0);
    RoundMonotone(0.0, v / b * 100.0);
  }

  /** With no negative value every percentage is a whole number from 0 to 100. */
  lemma PercentagesInRange(d: BudgetData, i: nat)
    requires forall j :: 0 <= j < |d.categories| ==> d.categories[j].value >= 0.0
    requires i < |d.categories|
    ensures Totals(d).categories[i].percentage.Some?
    ensures 0 <= Totals(d).categories[i].percentage.value <= 100
  {
    ValueAtMostSum(d.categories, i);
    var r := Totals(d);
    assert r.categories[i].percentage == Percentage(d.categories[i].value, r.totalBudget);
    ShareInRange(d.categories[i].value, r.totalBudget);
  }

  /** The state a new service starts in is totalled, so the methods that
      require it can be called at once. */
  lemma InitialIsTotalled()
    ensures Totalled(Totals(InitialData()))
  {
    TotalsIdempotent(InitialData());
  }

  /** The service's first state: 4,300 spent of a 4,800 budget. */
  lemma InitialTotals()
    ensures Totals(InitialData()).totalSpent == 4300.0
    ensures Totals(InitialData()).totalBudget == 4800.0
    ensures Totals(InitialData()).categories[0].percentage == Some(31)
  {
    var cs := InitialData().categories;
    assert SumValues(cs[7..]) == 550.0;
    assert SumValues(cs[6..]) == 800.0;
    assert SumValues(cs[5..]) == 1300.0;
    assert SumValues(cs[4..]) == 1600.0;
    assert SumValues(cs[3..]) == 1800.0;
    assert SumValues(cs[2..]) == 2200.0;
    assert SumValues(cs[1..]) == 2800.0;
    assert Round(1500.0 / 4800.0 * 100.0) == 31;
  }

  // ---------------------------------------------------------------------
  // updateCategoryBudget

  /** `findIndex`: the first category with this id. */
  function FindIndex(cs: seq<BudgetCategory>, id: string): (r: Option<nat>)
    ensures r.Some? ==> r.value < |cs| && cs[r.value].id == id
    ensures r.Some? ==> forall j :: 0 <= j < r.value ==> cs[j].id != id
    ensures r.None? <==> forall j :: 0 <= j < |cs| ==> cs[j].id != id
  {
    if cs == [] then None
    else if cs[0].id == id then Some(0)
    else match FindIndex(cs[1..], id)
      case None => None
      case Some(k) => Some(k + 1)
  }

  /** The change as a percentage of the old value; no change is computed
      from an old value that is not positive. */
  function ChangePercent(oldValue: real, newValue: real): real
  {
    if oldValue > 0.0 then (newValue - oldValue) / oldValue * 100.0 else 0.0
  }

  /** A change of 2% or more either way is a trend; less is stable. */
  function TrendOf(changePercent: real): Trend
  {
    if Abs(changePercent) >= 2.0 then (if changePercent > 0.0 then Up else Down) else Stable
  }

  /** The category with its new value and the trend of the change. */
  function Updated(c: BudgetCategory, newValue: real): BudgetCategory
  {
    var change := ChangePercent(c.value, newValue);
    c.(value := newValue, trend := TrendOf(change), trendValue := Abs(change))
  }

  /** A rise of at least `k` percent, without division. */
  lemma RiseAtLeast(o: real, n: real, k: real)
    requires o > 0.0
    ensures (n - o) / o * 100.0 >= k <==> n >= o * (1.0 + k / 100.0)
  {
    var q := (n - o) / o;
    assert o * q == n - o;
    if q * 100.0 >= k {
      MulWeak(o, q, k / 100.0);
    } else {
      MulStrict(o, k / 100.0, q);
    }
  }

  /** A fall of at least `k` percent, without division. */
  lemma FallAtLeast(o: real, n: real, k: real)
    requires o > 0.0
    ensures (n - o) / o * 100.0 <= -k <==> n <= o * (1.0 - k / 100.0)
  {
    var q := (n - o) / o;
    assert o * q == n - o;
    if q * 100.0 <= -k {
      MulWeak(o, -k / 100.0, q);
    } else {
      MulStrict(o, q, -k / 100.0);
    }
  }

  /** On a positive old value: up exactly from a 2% rise, down exactly from a
      2% fall, stable in between, and the trend value is the size of the
      change in percent. On any other old value: stable, trend value 0. */
  lemma TrendThresholds(c: BudgetCategory, newValue: real)
    ensures var u := Updated(c, newValue);
      && (c.value > 0.0 ==>
            && (u.trend == Up <==> newValue >= c.value * 1.02)
            && (u.trend == Down <==> newValue <= c.value * 0.98)
            && (u.trend == Stable <==> c.value * 0.98 < newValue < c.value * 1.02)
            && u.trendValue * c.value == Abs(newValue - c.value) * 100.0)
      && (c.value <= 0.0 ==> u.trend == Stable && u.trendValue == 0.0)
  {
    if c.value > 0.0 {
      var o := c.value;
      RiseAtLeast(o, newValue, 2.0);
      FallAtLeast(o, newValue, 2.0);
      var q := (newValue - o) / o;
      assert o * q == newValue - o;
      if q < 0.0 {
        MulStrict(o, 0.0, q);
        assert Abs(q * 100.0) * o == -(o * q) * 100.0;
      } else {
        MulWeak(o, q, 0.0);
        assert Abs(q * 100.0) * o == (o * q) * 100.0;
      }
    }
  }

  /** The data after `updateCategoryBudget`: unchanged for an unknown id;
      otherwise the first matching category updated and the totals recomputed. */
  function UpdatedData(d: BudgetData, categoryId: string, newValue: real): BudgetData
  {
    match FindIndex(d.categories, categoryId)
    case None => d
    case Some(i) => Totals(d.(categories := d.categories[i := Updated(d.categories[i], newValue)]))
  }

  /** A category with its percentage set aside: what an update must keep. */
  function Unscored(c: BudgetCategory): BudgetCategory
  {
    c.(percentage := None)
  }

  /** For a known id, only that category's value, trend and trend value
      change (besides every percentage), and spending moves by the change in
      value; for an unknown id nothing changes. */
  lemma UpdateChangesOneCategory(d: BudgetData, categoryId: string, newValue: real)
    requires Totalled(d)
    ensures var r := UpdatedData(d, categoryId, newValue);
      match FindIndex(d.categories, categoryId)
      case None => r == d
      case Some(i) =>
        && Totalled(r)
        && |r.categories| == |d.categories|
        && (forall j :: 0 <= j < |d.categories| && j != i ==> Unscored(r.categories[j]) == Unscored(d.categories[j]))
        && Unscored(r.categories[i]) == Unscored(Updated(d.categories[i], newValue))
        && r.categories[i].value == newValue
        && r.totalSpent == d.totalSpent - d.categories[i].value + newValue
        && r.totalBudget == r.totalSpent + 500.0
  {
    match FindIndex(d.categories, categoryId)
    case None =>
    case Some(i) =>
      var cs := d.categories[i := Updated(d.categories[i], newValue)];
      SumValuesUpdate(d.categories, i, Updated(d.categories[i], newValue));
      TotalsIdempotent(d.(categories := cs));
  }

  // ---------------------------------------------------------------------
  // getSpendingInsights

  datatype InsightType = Warning | Success | Info

  /** An insight: overspending on a category (and by how much), a category
      well under target, or the whole budget overspent. */
  datatype SpendingInsight =
    | Overspending(category: string, overspend: real)
    | UnderBudget(category: string)
    | OverallOverBudget

  function Kind(s: SpendingInsight): InsightType
  {
    match s
    case Overspending(_, _) => Warning
    case UnderBudget(_) => Success
    case OverallOverBudget => Warning
  }

  /** At most one insight per category: a warning above target, a success
      below 80% of it, nothing in between. */
  function InsightFor(c: BudgetCategory): (r: seq<SpendingInsight>)
    ensures |r| <= 1
    ensures |r| == 1 && Kind(r[0]) == Warning <==> c.value > c.target
    ensures |r| == 1 && Kind(r[0]) == Success <==> c.value <= c.target && c.value < c.target * 0.8
    ensures forall s :: s in r ==> s != OverallOverBudget && s.category == c.name
  {
    if c.value > c.target then [Overspending(c.name, c.value - c.target)]
    else if c.value < c.target * 0.8 then [UnderBudget(c.name)]
    else []
  }

  /** The per-category insights in category order. */
  function CategoryInsights(cs: seq<BudgetCategory>): seq<SpendingInsight>
  {
    if cs == [] then [] else CategoryInsights(cs[..|cs| - 1]) + InsightFor(cs[|cs| - 1])
  }

  /** What `getSpendingInsights` returns for some data. */
  function Insights(d: BudgetData): seq<SpendingInsight>
  {
    CategoryInsights(d.categories) + (if d.totalSpent > d.totalBudget then [OverallOverBudget] else [])
  }

  /** Insights follow the categories: those of a list are those of its parts
      in turn, and there is at most one per category, none of them the
      overall warning. */
  lemma {:induction false} CategoryInsightsAppend(a: seq<BudgetCategory>, b: seq<BudgetCategory>)
    ensures CategoryInsights(a + b) == CategoryInsights(a) + CategoryInsights(b)
    decreases |b|
  {
    if b == [] {
      assert a + b == a;
    } else {
      var b' := b[..|b| - 1];
      assert (a + b)[..|a + b| - 1] == a + b';
      CategoryInsightsAppend(a, b');
    }
  }

  lemma {:induction false} CategoryInsightsBounded(cs: seq<BudgetCategory>)
    ensures |CategoryInsights(cs)| <= |cs|
    ensures OverallOverBudget !in CategoryInsights(cs)
  {
    if cs != [] {
      CategoryInsightsBounded(cs[..|cs| - 1]);
    }
  }

  /** Totals always leave 500 unspent, so the overall warning never appears. */
  lemma NoOverallWarning(d: BudgetData)
    requires Totalled(d)
    ensures Insights(d) == CategoryInsights(d.categories)
    ensures OverallOverBudget !in Insights(d)
  {
    assert Insights(d) == CategoryInsights(d.categories) + [];
    CategoryInsightsBounded(d.categories);
  }

  // ---------------------------------------------------------------------
  // Listeners

  /** A subscribed callback, known by its identity. */
  type Listener = nat

  /** One call of a listener, with the data it was given. */
  datatype Delivery = Delivery(listener: Listener, data: BudgetData)

  /** The function `subscribe` returns, which removes its callback. */
  datatype Unsubscriber = Unsubscriber(callback: Listener)

  /** Every listener called once, in registration order, with the same data. */
  function Broadcast(ls: seq<Listener>, d: BudgetData): (r: seq<Delivery>)
    ensures |r| == |ls|
    ensures forall i :: 0 <= i < |ls| ==> r[i] == Delivery(ls[i], d)
  {
    seq(|ls|, i requires 0 <= i < |ls| => Delivery(ls[i], d))
  }

  /** Subscribing and then unsubscribing a new callback restores the list,
      and after unsubscribing, a broadcast reaches the callback no more while
      every other listener still gets it. */
  lemma UnsubscribeUndoesSubscribe(ls: seq<Listener>, callback: Listener, d: BudgetData)
    ensures callback !in ls ==> RemoveAll(ls + [callback], callback) == ls
    ensures forall e :: e in Broadcast(RemoveAll(ls, callback), d) ==> e.listener != callback
    ensures forall l :: l in ls && l != callback ==> Delivery(l, d) in Broadcast(RemoveAll(ls, callback), d)
  {
    if callback !in ls {
      RemoveAllAppend(ls, [callback], callback);
      RemoveAllAbsent(ls, callback);
      assert RemoveAll([callback], callback) == [];
    }
    RemoveAllMembers(ls, callback, callback);
    var kept := RemoveAll(ls, callback);
    forall l | l in ls && l != callback
      ensures Delivery(l, d) in Broadcast(kept, d)
    {
      RemoveAllMembers(ls, callback, l);
      var k :| 0 <= k < |kept| && kept[k] == l;
      assert Broadcast(kept, d)[k] == Delivery(l, d);
    }
  }

  class BudgetService {
    var budgetData: BudgetData
    var listeners: seq<Listener>
    /** The calls made to listeners so far, oldest first. */
    var delivered: seq<Delivery>

    /** `new BudgetService()`: the initial data with its totals computed,
        which `InitialIsTotalled` shows is totalled data. */
    constructor()
      ensures budgetData == Totals(InitialData())
      ensures listeners == [] && delivered == []
    {
      budgetData := Totals(InitialData());
      listeners := [];
      delivered := [];
    }

    /** `calculateTotals`. */
    method CalculateTotals()
      modifies this
      ensures budgetData == Totals(old(budgetData))
      ensures Totalled(budgetData)
      ensures listeners == old(listeners) && delivered == old(delivered)
    {
      var spent := SumValues(budgetData.categories);
      budgetData := budgetData.(totalSpent := spent, totalBudget := spent + 500.0);
      budgetData := budgetData.(categories := WithPercentages(budgetData.categories, budgetData.totalBudget));
      TotalsIdempotent(old(budgetData));
    }

    /** `getBudgetData`: recompute the totals and hand out a copy. */
    method GetBudgetData() returns (d: BudgetData)
      modifies this
      ensures budgetData == Totals(old(budgetData)) && d == budgetData
      ensures listeners == old(listeners) && delivered == old(delivered)
    {
      CalculateTotals();
      d := budgetData;
    }

    /** `notifyListeners`: each listener in turn is called with a fresh
        `getBudgetData`, which on totalled data is the data itself. */
    method NotifyListeners()
      requires Totalled(budgetData)
      modifies this
      ensures budgetData == old(budgetData) && listeners == old(listeners)
      ensures delivered == old(delivered) + Broadcast(listeners, budgetData)
    {
      var i := 0;
      while i < |listeners|
        invariant 0 <= i <= |listeners|
        invariant budgetData == old(budgetData) && listeners == old(listeners)
        invariant delivered == old(delivered) + Broadcast(listeners[..i], budgetData)
      {
        var d := GetBudgetData();
        delivered := delivered + [Delivery(listeners[i], d)];
        assert Broadcast(listeners[..i + 1], budgetData) == Broadcast(listeners[..i], budgetData) + [Delivery(listeners[i], d)];
        i := i + 1;
      }
      assert listeners[..i] == listeners;
    }

    /** `updateCategoryBudget`: for a known id the category is updated, the
        totals recomputed and every listener told; an unknown id changes
        nothing and tells no one. */
    method UpdateCategoryBudget(categoryId: string, newValue: real)
      requires Totalled(budgetData)
      modifies this
      ensures budgetData == UpdatedData(old(budgetData), categoryId, newValue)
      ensures Totalled(budgetData)
      ensures listeners == old(listeners)
      ensures FindIndex(old(budgetData).categories, categoryId).None? ==> delivered == old(delivered)
      ensures FindIndex(old(budgetData).categories, categoryId).Some? ==>
        delivered == old(delivered) + Broadcast(listeners, budgetData)
    {
      var categoryIndex := FindIndex(budgetData.categories, categoryId);
      if categoryIndex.Some? {
        var i := categoryIndex.value;
        var category := budgetData.categories[i];
        var oldValue := category.value;
        var changePercent := if oldValue > 0.0 then (newValue - oldValue) / oldValue * 100.0 else 0.0;
        var trend := Stable;
        if Abs(changePercent) >= 2.0 {
          trend := if changePercent > 0.0 then Up else Down;
        }
        var updatedCategory := category.(value := newValue, trend := trend, trendValue := Abs(changePercent));
        budgetData := budgetData.(categories := budgetData.categories[i := updatedCategory]);
        CalculateTotals();
        NotifyListeners();
      }
    }

    /** `getSpendingInsights`: the per-category insights in category order,
        then the overall warning if spending exceeds the budget, which on
        totalled data it never does. */
    method GetSpendingInsights() returns (insights: seq<SpendingInsight>)
      ensures insights == Insights(budgetData)
      ensures Totalled(budgetData) ==> OverallOverBudget !in insights
    {
      insights := [];
      var cs := budgetData.categories;
      var i := 0;
      while i < |cs|
        invariant 0 <= i <= |cs|
        invariant insights == CategoryInsights(cs[..i])
      {
        var category := cs[i];
        if category.value > category.target {
          var overspend := category.value - category.target;
          insights := insights + [Overspending(category.name, overspend)];
        } else if category.value < category.target * 0.8 {
          insights := insights + [UnderBudget(category.name)];
        }
        assert cs[..i + 1][..i] == cs[..i];
        i := i + 1;
      }
      assert cs[..i] == cs;
      if budgetData.totalSpent > budgetData.totalBudget {
        insights := insights + [OverallOverBudget];
      }
      if Totalled(budgetData) {
        NoOverallWarning(budgetData);
      }
    }

    /** `subscribe`: add the callback at the end and return its unsubscriber. */
    method Subscribe(callback: Listener) returns (u: Unsubscriber)
      modifies this
      ensures listeners == old(listeners) + [callback] && u == Unsubscriber(callback)
      ensures budgetData == old(budgetData) && delivered == old(delivered)
    {
      listeners := listeners + [callback];
      u := Unsubscriber(callback);
    }

    /** Calling the function `subscribe` returned: every occurrence of its
        callback is removed, all other listeners stay in order. */
    method Unsubscribe(u: Unsubscriber)
      modifies this
      ensures listeners == RemoveAll(old(listeners), u.callback)
      ensures budgetData == old(budgetData) && delivered == old(delivered)
    {
      listeners := RemoveAll(listeners, u.callback);
    }
  }
}
