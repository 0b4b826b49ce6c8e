/**
 * The monthly income/expense form: twelve fixed months, two numeric fields
 * per month, read into two sanitised series.
 *
 * The document is replaced by an explicit `Form`: `None` when there is no
 * element `monthlyForm`, otherwise a map from element id to what
 * `parseFloat` followed by `isFinite` makes of that input's value
 * (`Some(v)` for a finite number, `None` for an unparsable or non-finite
 * one). An id missing from the map is an input that does not exist.
 */
module MonthlyForm {
  import opened Wrappers

  type Form = Option<map<string, Option<real>>>

  /** Upper bound of every sanitised amount. */
  const MaxAmount: real := 50000.0

  /** The month keys in calendar order; they name the inputs `income-<key>` and `expense-<key>`. */
  const MonthKeys: seq<string> := [
    "january", "february", "march", "april", "may", "june",
    "july", "august", "september", "october", "november", "december"
  ]

  const IncomePrefix: string := "income-"
  const ExpensePrefix: string := "expense-"

  /** `Math.min(Math.max(v, lo), hi)`. */
  function Clamp(v: real, lo: real, hi: real): (r: real)
    ensures r <= hi
    ensures lo <= hi ==> lo <= r
    ensures lo <= v <= hi ==> r == v
    ensures lo <= hi && v < lo ==> r == lo
    ensures v > hi ==> r == hi
  {
    var m := if v > lo then v else lo;
    if m < hi then m else hi
  }

  /** Upper-casing of one ASCII letter; every other character is left alone. */
  function AsciiUpper(c: char): char {
    if 'a' <= c <= 'z' then (c as int - 32) as char else c
  }

  /** `m[0].toUpperCase() + m.slice(1)` for the month keys, which are lower-case ASCII. */
  function Capitalize(m: string): (r: string)
    requires m != []
    ensures |r| == |m| && r[1..] == m[1..]
    ensures 'a' <= m[0] <= 'z' ==> 'A' <= r[0] <= 'Z' && r[0] as int + 32 == m[0] as int
  {
    [AsciiUpper(m[0])] + m[1..]
  }

  /** The chart's category labels, `monthKeys.map(capitalize)`. */
  function MonthLabels(): (r: seq<string>)
    ensures |r| == |MonthKeys| == 12
    ensures forall i :: 0 <= i < 12 ==> r[i] == Capitalize(MonthKeys[i])
  {
    seq(12, i requires 0 <= i < 12 => Capitalize(MonthKeys[i]))
  }

  /** The labels spelled out: the twelve month names with a capital initial. */
  lemma MonthLabelsSpelled()
    ensures MonthLabels() == [
      "January", "February", "March", "April", "May", "June",
      "July", "August", "September", "October", "November", "December"
    ]
  {
    var spelled := [
      "January", "February", "March", "April", "May", "June",
      "July", "August", "September", "October", "November", "December"
    ];
    forall i | 0 <= i < 12
      ensures MonthLabels()[i] == spelled[i]
    {
      assert MonthKeys[i][1..] == spelled[i][1..];
    }
  }

  /** What `form?.querySelector('#' + id)` followed by `parseFloat`/`isFinite` gives. */
  function Lookup(form: Form, id: string): Option<real> {
    if form.Some? && id in form.value then form.value[id] else None
  }

  /** One pushed element: 0 for a missing or non-finite field, the clamped number otherwise. */
  function Sanitize(parsed: Option<real>): (r: real)
    ensures 0.0 <= r <= MaxAmount
    ensures parsed.None? ==> r == 0.0
    ensures parsed.Some? && 0.0 <= parsed.value <= MaxAmount ==> r == parsed.value
    ensures parsed.Some? && parsed.value < 0.0 ==> r == 0.0
    ensures parsed.Some? && parsed.value > MaxAmount ==> r == MaxAmount
  {
    match parsed
    case None => 0.0
    case Some(v) => Clamp(v, 0.0, MaxAmount)
  }

  /** The sanitised value of the field `prefix + MonthKeys[i]`. */
  function Field(form: Form, prefix: string, i: nat): real
    requires i < 12
  {
    Sanitize(Lookup(form, prefix + MonthKeys[i]))
  }

  /** The series the read produces for one prefix, January first. */
  function Series(form: Form, prefix: string): (r: seq<real>)
    ensures |r| == 12
    ensures forall i :: 0 <= i < 12 ==> r[i] == Field(form, prefix, i)
  {
    seq(12, i requires 0 <= i < 12 => Field(form, prefix, i))
  }

  /** Every element of a series read from any form lies in [0, 50000]. */
  predicate InRange(xs: seq<real>) {
    forall i :: 0 <= i < |xs| ==> 0.0 <= xs[i] <= MaxAmount
  }

  lemma SeriesInRange(form: Form, prefix: string)
    ensures |Series(form, prefix)| == 12 && InRange(Series(form, prefix))
  {
  }

  /**
   * `readFormValues`: walks the months in order and pushes one sanitised
   * income and one sanitised expense per month.
   */
  method ReadFormValues(form: Form) returns (income: seq<real>, expense: seq<real>)
    ensures |income| == 12 && |expense| == 12
    ensures forall i :: 0 <= i < 12 ==>
      income[i] == Sanitize(Lookup(form, IncomePrefix + MonthKeys[i]))
      && expense[i] == Sanitize(Lookup(form, ExpensePrefix + MonthKeys[i]))
    ensures income == Series(form, IncomePrefix) && expense == Series(form, ExpensePrefix)
  {
    income, expense := [], [];
    for i := 0 to |MonthKeys|
      invariant |income| == i && |expense| == i
      invariant forall k :: 0 <= k < i ==>
        income[k] == Field(form, IncomePrefix, k) && expense[k] == Field(form, ExpensePrefix, k)
    {
      var m := MonthKeys[i];
      var inc := Lookup(form, IncomePrefix + m);
      var exp := Lookup(form, ExpensePrefix + m);
      income := income + [Sanitize(inc)];
      expense := expense + [Sanitize(exp)];
    }
  }
}
