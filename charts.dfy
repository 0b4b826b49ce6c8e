/**
 * The two charts of the page and their "create once, then overwrite the
 * data" upsert.
 *
 * A chart is modelled by the part of its configuration the page owns: its
 * type, its category labels and its datasets (label and data array). The
 * charting library is an external collaborator; whether it is loaded and
 * whether each canvas exists are inputs (`Page`). A chart object that the
 * library would construct is counted in `instances`, so that "updated in
 * place, never rebuilt" is observable.
 */
module Charts {
  import opened Wrappers
  import opened MonthlyForm

  datatype Kind = Bar | Pie

  datatype Dataset = Dataset(name: Option<string>, data: seq<real>)

  datatype Chart = Chart(kind: Kind, labels: seq<string>, datasets: seq<Dataset>)

  /** What a refresh sees of the document at the moment it runs. */
  datatype Page = Page(hasLibrary: bool, hasBarCanvas: bool, hasPieCanvas: bool, form: Form)

  /** Largest pie total: twelve months at the per-field ceiling. */
  const MaxTotal: real := 600000.0

  /** `xs.reduce((a, b) => a + b, 0)`, folded from the left. */
  function Sum(xs: seq<real>): real {
    if xs == [] then 0.0 else Sum(xs[..|xs| - 1]) + xs[|xs| - 1]
  }

  /** A sum of `n` amounts each in [0, bound] lies in [0, n * bound]. */
  lemma {:induction false} SumBounds(xs: seq<real>, bound: real)
    requires forall i :: 0 <= i < |xs| ==> 0.0 <= xs[i] <= bound
    ensures 0.0 <= Sum(xs) <= |xs| as real * bound
  {
    if xs != [] {
      SumBounds(xs[..|xs| - 1], bound);
    }
  }

  /** The pie's one dataset: `[totalIncome, totalExpense]`. */
  function Totals(income: seq<real>, expense: seq<real>): (r: seq<real>)
    requires |income| == 12 && |expense| == 12
    requires InRange(income) && InRange(expense)
    ensures |r| == 2 && r[0] == Sum(income) && r[1] == Sum(expense)
    ensures forall i :: 0 <= i < 2 ==> 0.0 <= r[i] <= MaxTotal
  {
    SumBounds(income, MaxAmount);
    SumBounds(expense, MaxAmount);
    [Sum(income), Sum(expense)]
  }

  /** The bar chart as first constructed. */
  function NewBarChart(income: seq<real>, expense: seq<real>): (r: Chart)
    ensures |income| == 12 && |expense| == 12 && InRange(income) && InRange(expense) ==> WellFormedBar(r)
    ensures |r.datasets| == 2 && r.datasets[0].data == income && r.datasets[1].data == expense
  {
    Chart(Bar, MonthLabels(), [Dataset(Some("Income"), income), Dataset(Some("Expense"), expense)])
  }

  /** The pie chart as first constructed. */
  function NewPieChart(totals: seq<real>): (r: Chart)
    ensures |totals| == 2 && (forall i :: 0 <= i < 2 ==> 0.0 <= totals[i] <= MaxTotal) ==> WellFormedPie(r)
    ensures |r.datasets| == 1 && r.datasets[0].data == totals
  {
    Chart(Pie, ["Income", "Expense"], [Dataset(None, totals)])
  }

  /** `chart.data.datasets[i].data = data`: only that array is replaced. */
  function WithData(c: Chart, i: nat, data: seq<real>): (r: Chart)
    requires i < |c.datasets|
    ensures r.kind == c.kind && r.labels == c.labels && |r.datasets| == |c.datasets|
    ensures r.datasets[i] == Dataset(c.datasets[i].name, data)
    ensures forall j :: 0 <= j < |c.datasets| && j != i ==> r.datasets[j] == c.datasets[j]
  {
    c.(datasets := c.datasets[i := c.datasets[i].(data := data)])
  }

  /** The shape every bar chart of the page keeps. */
  predicate WellFormedBar(c: Chart) {
    c.kind == Bar && c.labels == MonthLabels() && |c.datasets| == 2
    && c.datasets[0].name == Some("Income") && c.datasets[1].name == Some("Expense")
    && |c.datasets[0].data| == 12 && InRange(c.datasets[0].data)
    && |c.datasets[1].data| == 12 && InRange(c.datasets[1].data)
  }

  /** The shape every pie chart of the page keeps; each total lies in [0, 600000]. */
  predicate WellFormedPie(c: Chart) {
    c.kind == Pie && c.labels == ["Income", "Expense"] && |c.datasets| == 1
    && c.datasets[0].name == None && |c.datasets[0].data| == 2
    && (forall i :: 0 <= i < 2 ==> 0.0 <= c.datasets[0].data[i] <= MaxTotal)
  }

  predicate BarOk(bar: Option<Chart>) { bar.Some? ==> WellFormedBar(bar.value) }

  predicate PieOk(pie: Option<Chart>) { pie.Some? ==> WellFormedPie(pie.value) }

  /** The bar chart after `ensureBarChart` ran against `page`. */
  function BarAfter(bar: Option<Chart>, page: Page): (r: Option<Chart>)
    requires BarOk(bar)
    ensures BarOk(r)
    ensures r.Some? <==> bar.Some? || (page.hasBarCanvas && page.hasLibrary)
  {
    if !page.hasBarCanvas || !page.hasLibrary then bar
    else
      var income := Series(page.form, IncomePrefix);
      var expense := Series(page.form, ExpensePrefix);
      match bar
      case Some(c) => Some(WithData(WithData(c, 0, income), 1, expense))
      case None => Some(NewBarChart(income, expense))
  }

  /** The pie chart after `ensureTotalsPieChart` ran against `page`. */
  function PieAfter(pie: Option<Chart>, page: Page): (r: Option<Chart>)
    requires PieOk(pie)
    ensures PieOk(r)
    ensures r.Some? <==> pie.Some? || (page.hasPieCanvas && page.hasLibrary)
  {
    if !page.hasPieCanvas || !page.hasLibrary then pie
    else
      var totals := Totals(Series(page.form, IncomePrefix), Series(page.form, ExpensePrefix));
      match pie
      case Some(c) => Some(WithData(c, 0, totals))
      case None => Some(NewPieChart(totals))
  }

  /**
   * The bar upsert: nothing happens without a canvas or the library;
   * otherwise the chart holds the month labels and the two freshly read
   * series, and an existing chart keeps its type, labels and dataset labels.
   */
  lemma BarUpsert(bar: Option<Chart>, page: Page)
    requires BarOk(bar)
    ensures BarOk(BarAfter(bar, page))
    ensures !page.hasBarCanvas || !page.hasLibrary ==> BarAfter(bar, page) == bar
    ensures page.hasBarCanvas && page.hasLibrary ==>
      BarAfter(bar, page).Some?
      && BarAfter(bar, page).value.labels == MonthLabels()
      && BarAfter(bar, page).value.datasets[0].data == Series(page.form, IncomePrefix)
      && BarAfter(bar, page).value.datasets[1].data == Series(page.form, ExpensePrefix)
    ensures bar.Some? ==>
      BarAfter(bar, page).Some?
      && BarAfter(bar, page).value.kind == bar.value.kind
      && BarAfter(bar, page).value.labels == bar.value.labels
      && BarAfter(bar, page).value.datasets[0].name == bar.value.datasets[0].name
      && BarAfter(bar, page).value.datasets[1].name == bar.value.datasets[1].name
  {
    SeriesInRange(page.form, IncomePrefix);
    SeriesInRange(page.form, ExpensePrefix);
  }

  /**
   * The pie upsert: nothing happens without a canvas or the library;
   * otherwise its one dataset is `[sum of income, sum of expense]`, each
   * total in [0, 600000], and an existing chart keeps its labels.
   */
  lemma PieUpsert(pie: Option<Chart>, page: Page)
    requires PieOk(pie)
    ensures PieOk(PieAfter(pie, page))
    ensures !page.hasPieCanvas || !page.hasLibrary ==> PieAfter(pie, page) == pie
    ensures page.hasPieCanvas && page.hasLibrary ==>
      PieAfter(pie, page).Some?
      && PieAfter(pie, page).value.labels == ["Income", "Expense"]
      && PieAfter(pie, page).value.datasets[0].data
         == [Sum(Series(page.form, IncomePrefix)), Sum(Series(page.form, ExpensePrefix))]
    ensures pie.Some? ==>
      PieAfter(pie, page).Some?
      && PieAfter(pie, page).value.labels == pie.value.labels
  {
  }

  /** Both upserts are idempotent: a second refresh against the same page changes nothing. */
  lemma UpsertIdempotent(bar: Option<Chart>, pie: Option<Chart>, page: Page)
    requires BarOk(bar) && PieOk(pie)
    ensures BarOk(BarAfter(bar, page)) && PieOk(PieAfter(pie, page))
    ensures BarAfter(BarAfter(bar, page), page) == BarAfter(bar, page)
    ensures PieAfter(PieAfter(pie, page), page) == PieAfter(pie, page)
  {
    BarUpsert(bar, page);
    PieUpsert(pie, page);
    if page.hasBarCanvas && page.hasLibrary {
      var c := BarAfter(bar, page).value;
      assert c.datasets[0] == Dataset(Some("Income"), Series(page.form, IncomePrefix));
      assert c.datasets[1] == Dataset(Some("Expense"), Series(page.form, ExpensePrefix));
      assert WithData(WithData(c, 0, c.datasets[0].data), 1, c.datasets[1].data).datasets == c.datasets;
    }
    if page.hasPieCanvas && page.hasLibrary {
      var c := PieAfter(pie, page).value;
      assert WithData(c, 0, c.datasets[0].data).datasets == c.datasets;
    }
  }

  /** `(v / (total || 1)) * 100`: a slice's percentage of a total, a zero total read as 1. */
  function Percent(v: real, total: real): real {
    v / (if total == 0.0 then 1.0 else total) * 100.0
  }

  /**
   * The pie tooltip's percentage as written: the callback closes over the
   * `dataset` array of the call that constructed the chart, so it divides
   * by the totals of that first refresh, whatever the chart shows now.
   */
  function TooltipPercentAsWritten(constructedWith: seq<real>, pie: Chart, i: nat): real
    requires |constructedWith| == 2 && WellFormedPie(pie) && i < 2
  {
    Percent(pie.datasets[0].data[i], Sum(constructedWith))
  }

  /** A sum whose every element after the first is zero is its first element. */
  lemma {:induction false} SumOfHead(xs: seq<real>)
    requires |xs| > 0 && forall i :: 1 <= i < |xs| ==> xs[i] == 0.0
    ensures Sum(xs) == xs[0]
  {
    if |xs| > 1 {
      SumOfHead(xs[..|xs| - 1]);
    }
  }

  /**
   * The page as loaded: library and both canvases present, and a form in
   * which no month field yields a number, so every amount reads as 0 (as an
   * empty field does, `'' || '0'` parsing to 0).
   */
  const LoadedPage: Page := Page(true, true, true, Some(map[]))

  /** The same page once January's income field holds 1000. */
  const IncomeEnteredPage: Page := Page(true, true, true, Some(map["income-january" := Some(1000.0)]))

  /** An empty form gives pie totals [0, 0]. */
  lemma LoadedTotals()
    ensures Totals(Series(LoadedPage.form, IncomePrefix), Series(LoadedPage.form, ExpensePrefix)) == [0.0, 0.0]
  {
    var income := Series(LoadedPage.form, IncomePrefix);
    assert forall i :: 0 <= i < 12 ==> income[i] == 0.0;
    SumOfHead(income);
    var expense := Series(LoadedPage.form, ExpensePrefix);
    assert forall i :: 0 <= i < 12 ==> expense[i] == 0.0;
    SumOfHead(expense);
  }

  /** A form holding only January's income of 1000 gives pie totals [1000, 0]. */
  lemma IncomeEnteredTotals()
    ensures Totals(Series(IncomeEnteredPage.form, IncomePrefix), Series(IncomeEnteredPage.form, ExpensePrefix))
      == [1000.0, 0.0]
  {
    var form := IncomeEnteredPage.form;
    var income := Series(form, IncomePrefix);
    assert income[0] == 1000.0 by {
      assert IncomePrefix + MonthKeys[0] == "income-january";
    }
    forall i | 1 <= i < 12
      ensures income[i] == 0.0
    {
      var key := IncomePrefix + MonthKeys[i];
      assert key[7..] == MonthKeys[i];
      assert "income-january"[7..] == "january";
    }
    SumOfHead(income);
    var expense := Series(form, ExpensePrefix);
    forall i | 0 <= i < 12
      ensures expense[i] == 0.0
    {
      var key := ExpensePrefix + MonthKeys[i];
      assert key[0] == 'e';
    }
    SumOfHead(expense);
  }

  /**
   * The page loads with an empty form, so the pie is constructed with
   * totals [0, 0]; once an income of 1000 is entered and the chart
   * refreshed, the income slice's tooltip reads 100000 % instead of 100 %.
   */
  lemma StaleTooltipPercent()
    ensures PieAfter(None, LoadedPage).Some?
    ensures PieAfter(PieAfter(None, LoadedPage), IncomeEnteredPage).Some?
    ensures var first := PieAfter(None, LoadedPage).value;
      var now := PieAfter(Some(first), IncomeEnteredPage).value;
      && first.datasets[0].data == [0.0, 0.0]
      && now.datasets[0].data == [1000.0, 0.0]
      && TooltipPercentAsWritten(first.datasets[0].data, now, 0) == 100000.0
      && TooltipPercent(now, 0) == 100.0
  {
    LoadedTotals();
    IncomeEnteredTotals();
    var first := PieAfter(None, LoadedPage).value;
    var now := PieAfter(Some(first), IncomeEnteredPage).value;
    SumPair(first.datasets[0].data);
    SumPair(now.datasets[0].data);
  }

  /** The intended tooltip percentage: the slice's share of the chart's current totals. */
  function TooltipPercent(pie: Chart, i: nat): (r: real)
    requires WellFormedPie(pie) && i < 2
    ensures 0.0 <= r <= 100.0
  {
    var data := pie.datasets[0].data;
    SumPair(data);
    var total := Sum(data);
    PercentBounds(data[i], total);
    Percent(data[i], total)
  }

  lemma SumPair(xs: seq<real>)
    requires |xs| == 2
    ensures Sum(xs) == xs[0] + xs[1]
  {
    var front := xs[..1];
    assert front[..0] == [];
    assert Sum(front) == xs[0];
    assert xs[..|xs| - 1] == front;
  }

  lemma PercentBounds(v: real, total: real)
    requires 0.0 <= v <= total
    ensures 0.0 <= Percent(v, total) <= 100.0
  {
    if total != 0.0 {
      assert v / total <= 1.0;
    }
  }

  /** Two shares whose parts make up a positive whole add up to one. */
  lemma SharesOfWhole(p: real, q: real, t: real, x: real, y: real)
    requires t > 0.0 && x == p * t && y == q * t && x + y == t
    ensures p + q == 1.0
  {
    assert (p + q) * t == p * t + q * t;
  }

  /** With any money entered, the two corrected percentages add up to 100. */
  lemma TooltipSharesSum(pie: Chart)
    requires WellFormedPie(pie)
    requires pie.datasets[0].data[0] + pie.datasets[0].data[1] > 0.0
    ensures TooltipPercent(pie, 0) + TooltipPercent(pie, 1) == 100.0
  {
    var data := pie.datasets[0].data;
    SumPair(data);
    var t := data[0] + data[1];
    var p, q := data[0] / t, data[1] / t;
    var x, y := p * t, q * t;
    assert x == data[0] && y == data[1];
    SharesOfWhole(p, q, t, x, y);
    assert TooltipPercent(pie, 0) == p * 100.0 && TooltipPercent(pie, 1) == q * 100.0;
  }

  /** The page's two chart handles (`barChart`, `pieChart`), owned by one presenter. */
  class ChartPresenter {
    var bar: Option<Chart>
    var pie: Option<Chart>
    /** Number of chart objects the library has been asked to construct. */
    var instances: nat
    /**
     * The totals the pie was constructed with: the `dataset` array the
     * tooltip callback closed over, which later updates do not replace.
     */
    ghost var pieConstructedWith: seq<real>

    /** Both charts keep their shape, and each existing chart was constructed exactly once. */
    ghost predicate Valid()
      reads this
    {
      BarOk(bar) && PieOk(pie) && (pie.Some? ==> |pieConstructedWith| == 2)
      && instances == (if bar.Some? then 1 else 0) + (if pie.Some? then 1 else 0)
    }

    constructor ()
      ensures Valid() && bar == None && pie == None && instances == 0
    {
      bar, pie, instances := None, None, 0;
      pieConstructedWith := [];
    }

    /** `ensureBarChart`. */
    method EnsureBarChart(page: Page)
      requires Valid()
      modifies this
      ensures Valid()
      ensures bar == BarAfter(old(bar), page) && pie == old(pie) && pieConstructedWith == old(pieConstructedWith)
      ensures instances == old(instances) + (if old(bar).None? && bar.Some? then 1 else 0)
    {
      if !page.hasBarCanvas || !page.hasLibrary {
        return;
      }
      var income, expense := ReadFormValues(page.form);
      SeriesInRange(page.form, IncomePrefix);
      SeriesInRange(page.form, ExpensePrefix);
      if bar.Some? {
        var c := WithData(bar.value, 0, income);
        bar := Some(WithData(c, 1, expense));
        return;
      }
      bar := Some(NewBarChart(income, expense));
      instances := instances + 1;
    }

    /** `ensureTotalsPieChart`. */
    method EnsureTotalsPieChart(page: Page)
      requires Valid()
      modifies this
      ensures Valid()
      ensures pie == PieAfter(old(pie), page) && bar == old(bar)
      ensures instances == old(instances) + (if old(pie).None? && pie.Some? then 1 else 0)
      ensures pieConstructedWith
        == if old(pie).None? && pie.Some? then pie.value.datasets[0].data else old(pieConstructedWith)
    {
      if !page.hasPieCanvas || !page.hasLibrary {
        return;
      }
      var income, expense := ReadFormValues(page.form);
      SeriesInRange(page.form, IncomePrefix);
      SeriesInRange(page.form, ExpensePrefix);
      var dataset := Totals(income, expense);
      if pie.Some? {
        pie := Some(WithData(pie.value, 0, dataset));
        return;
      }
      pie := Some(NewPieChart(dataset));
      pieConstructedWith := dataset;
      instances := instances + 1;
    }

    /** One refresh: the bar chart, then the pie chart, against the same page. */
    method Refresh(page: Page)
      requires Valid()
      modifies this
      ensures Valid()
      ensures bar == BarAfter(old(bar), page) && pie == PieAfter(old(pie), page)
      ensures pieConstructedWith
        == if old(pie).None? && pie.Some? then pie.value.datasets[0].data else old(pieConstructedWith)
    {
      EnsureBarChart(page);
      EnsureTotalsPieChart(page);
    }
  }
}
