/**
 * The "Filing Suggestions" panel: ten completeness checks over the form and
 * the percentage of them that are met.
 */
module Filing {
  import opened Text
  import opened Variations

  /** The form state the panel reads. */
  datatype FormState = FormState(
    productName: string, selectedCategory: string, productDescription: string,
    price: string, hasVariations: bool, variationTableData: seq<Row>,
    sku: string, stock: string, weight: string,
    pkgLength: string, pkgWidth: string, pkgHeight: string)

  datatype Suggestion = Suggestion(id: string, text: string, isComplete: bool)

  /** `s.trim() !== ''`: the text holds a character that is not whitespace. */
  predicate Filled(s: string) {
    Trim(s) != ""
  }

  /** `s.trim().length > n`. */
  predicate LongerThan(s: string, n: nat) {
    |Trim(s)| > n
  }

  /** With variations on: a non-empty table whose every row has field `f` filled in. */
  predicate EveryRowFilled(table: seq<Row>, f: Field) {
    |table| > 0 && forall i :: 0 <= i < |table| ==> Filled(FieldOf(table[i], f))
  }

  /** The price, SKU or stock check: the table rows when variations are on, the base field otherwise. */
  predicate SalesFieldSet(s: FormState, f: Field, base: string) {
    if s.hasVariations then EveryRowFilled(s.variationTableData, f) else Filled(base)
  }

  /** The ids of the ten suggestions, in display order. */
  const SuggestionIds: seq<string> :=
    ["name", "category", "description", "price", "sku", "stock", "weight", "dimensions", "images", "video"]

  /** The texts of the ten suggestions, in display order. */
  const SuggestionTexts: seq<string> :=
    [ "Product Name added (min 10 chars)", "Category selected", "Description added (min 50 chars)",
      "Price is set", "SKU is set", "Stock is set", "Weight is set", "Package Dimensions are set",
      "Add at least 3 images", "Add video" ]

  /** Whether check `i` (in display order) is met; the image and video checks never are. */
  predicate Met(s: FormState, i: nat)
    requires i < 10
  {
    match i
    case 0 => LongerThan(s.productName, 10)
    case 1 => s.selectedCategory != ""
    case 2 => LongerThan(s.productDescription, 50)
    case 3 => SalesFieldSet(s, Price, s.price)
    case 4 => SalesFieldSet(s, Sku, s.sku)
    case 5 => SalesFieldSet(s, Stock, s.stock)
    case 6 => Filled(s.weight)
    case 7 => Filled(s.pkgLength) && Filled(s.pkgWidth) && Filled(s.pkgHeight)
    case _ => false
  }

  /** The ten suggestions, in display order. */
  function Suggestions(s: FormState): (r: seq<Suggestion>)
    ensures |r| == 10
    ensures forall i :: 0 <= i < 10 ==> r[i] == Suggestion(SuggestionIds[i], SuggestionTexts[i], Met(s, i))
  {
    seq(10, i requires 0 <= i < 10 => Suggestion(SuggestionIds[i], SuggestionTexts[i], Met(s, i)))
  }

  /** `suggestions.filter(s => s.isComplete).length`. */
  function CompletedCount(r: seq<Suggestion>): (n: nat)
    ensures n <= |r|
    ensures n == |r| <==> forall i :: 0 <= i < |r| ==> r[i].isComplete
    ensures n == 0 <==> forall i :: 0 <= i < |r| ==> !r[i].isComplete
  {
    if r == [] then 0
    else (if r[0].isComplete then 1 else 0) + CompletedCount(r[1..])
  }

  /**
   * `totalCount > 0 ? Math.round(completed / totalCount * 100) : 0`, with the
   * division carried out exactly: half-way values round up, as `Math.round` does.
   */
  function Score(r: seq<Suggestion>): (score: nat)
    ensures score <= 100
  {
    var n := |r|;
    if n > 0 then
      RoundedPercentBound(CompletedCount(r), n);
      (200 * CompletedCount(r) + n) / (2 * n)
    else 0
  }

  lemma RoundedPercentBound(c: nat, n: nat)
    requires 0 < n && c <= n
    ensures (200 * c + n) / (2 * n) <= 100
  {
    var x, d := 200 * c + n, 2 * n;
    var q := x / d;
    assert x == q * d + x % d && x % d >= 0;
    assert x < 101 * d;
    if q > 100 {
      MulMonotone(101, q, d);
    }
  }

  lemma MulMonotone(a: nat, b: nat, d: nat)
    requires a <= b
    ensures a * d <= b * d
  {
    assert b * d == a * d + (b - a) * d;
  }

  /** The panel's score for a form. */
  function FilingScore(s: FormState): (score: nat)
    ensures score <= 100
  {
    Score(Suggestions(s))
  }

  /** With ten suggestions the score is ten points per completed suggestion. */
  lemma ScoreIsTenPerItem(s: FormState)
    ensures FilingScore(s) == 10 * CompletedCount(Suggestions(s))
  {
    ScoreOfTen(Suggestions(s));
  }

  lemma ScoreOfTen(r: seq<Suggestion>)
    requires |r| == 10
    ensures Score(r) == 10 * CompletedCount(r)
  {
    var c := CompletedCount(r);
    assert 200 * c + 10 == 20 * (10 * c) + 10;
  }

  /** The image and video checks are never met, so the score never exceeds 80. */
  lemma ScoreAtMostEighty(s: FormState)
    ensures FilingScore(s) <= 80
  {
    var r := Suggestions(s);
    assert !Met(s, 8) && !Met(s, 9);
    CountWithTwoUnmet(r);
    ScoreIsTenPerItem(s);
  }

  /** Ten suggestions whose last two are unmet have at most eight met. */
  lemma CountWithTwoUnmet(r: seq<Suggestion>)
    requires |r| == 10 && !r[8].isComplete && !r[9].isComplete
    ensures CompletedCount(r) <= 8
  {
    CountOfAppend(r[..8], r[8..]);
    assert r[..8] + r[8..] == r;
    assert CompletedCount(r[8..]) == 0;
  }

  lemma {:induction false} CountOfAppend(a: seq<Suggestion>, b: seq<Suggestion>)
    ensures CompletedCount(a + b) == CompletedCount(a) + CompletedCount(b)
  {
    if a != [] {
      CountOfAppend(a[1..], b);
      assert (a + b)[0] == a[0];
      assert (a + b)[1..] == a[1..] + b;
    } else {
      assert a + b == b;
    }
  }

  /** Every check met in `a` is met in `b`, position by position. */
  predicate AtLeastAsComplete(a: seq<Suggestion>, b: seq<Suggestion>) {
    |a| == |b| && forall i :: 0 <= i < |a| ==> a[i].isComplete ==> b[i].isComplete
  }

  lemma {:induction false} CountMonotone(a: seq<Suggestion>, b: seq<Suggestion>)
    requires AtLeastAsComplete(a, b)
    ensures CompletedCount(a) <= CompletedCount(b)
  {
    if a != [] {
      CountMonotone(a[1..], b[1..]);
      assert a[0].isComplete ==> b[0].isComplete;
    }
  }

  /** Meeting more checks never lowers the score. */
  lemma ScoreMonotone(s: FormState, t: FormState)
    requires AtLeastAsComplete(Suggestions(s), Suggestions(t))
    ensures FilingScore(s) <= FilingScore(t)
  {
    CountMonotone(Suggestions(s), Suggestions(t));
    ScoreIsTenPerItem(s);
    ScoreIsTenPerItem(t);
  }

  /**
   * What the three sales checks mean: with variations on, the table has rows
   * and each row's field holds a non-whitespace character; otherwise the
   * base field does.
   */
  lemma SalesFieldMeaning(s: FormState, f: Field, base: string)
    ensures SalesFieldSet(s, f, base) <==>
            if s.hasVariations then
              |s.variationTableData| > 0 &&
              forall i :: 0 <= i < |s.variationTableData| ==> !AllSpace(FieldOf(s.variationTableData[i], f))
            else !AllSpace(base)
  {
    TrimEmptyIff(base);
    forall i | 0 <= i < |s.variationTableData| {
      TrimEmptyIff(FieldOf(s.variationTableData[i], f));
    }
  }

  /**
   * A freshly synthesised table (one group with options, no values typed yet
   * for them) never meets the price check while variations are on, whatever
   * base price was typed.
   */
  lemma FreshTableLeavesPriceUnset(s: FormState, groups: seq<Group>)
    requires s.hasVariations && |groups| == 1 && |groups[0].options| > 0
    requires s.variationTableData == Synthesize(true, groups, [])
    ensures !Suggestions(s)[3].isComplete
  {
    FreshFirstRowBlank(groups);
    PriceSuggestion(s);
    assert Trim("") == "";
    assert !Filled(FieldOf(s.variationTableData[0], Price));
  }

  lemma PriceSuggestion(s: FormState)
    ensures Suggestions(s)[3].isComplete == SalesFieldSet(s, Price, s.price)
  {
  }

  lemma FreshFirstRowBlank(groups: seq<Group>)
    requires |groups| == 1 && |groups[0].options| > 0
    ensures var t := Synthesize(true, groups, []); |t| > 0 && t[0].price == ""
  {
    assert FindRow([], groups[0].options[0]).None?;
  }
}
