/**
 * The live preview panel: which price and stock it shows, the category name
 * it looks up, and the texts it falls back to when a field is empty.
 */
module Preview {
  import opened Wrappers
  import opened Text
  import opened Variations
  import opened Search

  datatype Category = Category(id: int, name: string)

  /** Longest description shown before it is cut off. */
  const ExcerptLength := 150

  /** JavaScript's `s || fallback` on strings: the fallback replaces only the empty string. */
  function OrElse(s: string, fallback: string): (r: string)
    ensures s != "" ==> r == s
    ensures s == "" ==> r == fallback
  {
    if s != "" then s else fallback
  }

  /** The key categories are looked up by. */
  function CategoryId(c: Category): int {
    c.id
  }

  /** Position of the first category whose id is `id`. */
  function FindCategory(categories: seq<Category>, id: int): (r: Option<nat>)
    ensures r.None? <==> forall j :: 0 <= j < |categories| ==> categories[j].id != id
    ensures r.Some? ==> r.value < |categories| && categories[r.value].id == id
                        && forall j :: 0 <= j < r.value ==> categories[j].id != id
  {
    FirstIndex(categories, CategoryId, id)
  }

  /**
   * `getCategoryName(id)`: the name of the first category whose id equals
   * `parseInt(id)`, or "Unknown" when none does (NaN matches nothing).
   */
  function GetCategoryName(categories: seq<Category>, id: string): (name: string)
    ensures ParseInt(id).None? ==> name == "Unknown"
    ensures ParseInt(id).Some? && (forall j :: 0 <= j < |categories| ==> categories[j].id != ParseInt(id).value)
            ==> name == "Unknown"
    ensures ParseInt(id).Some? && FindCategory(categories, ParseInt(id).value).Some?
            ==> name == categories[FindCategory(categories, ParseInt(id).value).value].name
  {
    match ParseInt(id)
    case None => "Unknown"
    case Some(n) =>
      match FindCategory(categories, n)
      case Some(i) => categories[i].name
      case None => "Unknown"
  }

  /**
   * Picking category `k` in the dropdown (whose option value is the id
   * rendered as text) makes the preview show that category's name, provided
   * no earlier category has the same id.
   */
  lemma SelectedCategoryShown(categories: seq<Category>, k: nat)
    requires k < |categories|
    requires forall j :: 0 <= j < k ==> categories[j].id != categories[k].id
    ensures GetCategoryName(categories, IntToString(categories[k].id)) == categories[k].name
  {
    ParseIntOfIntToString(categories[k].id);
    var i := FindCategory(categories, categories[k].id).value;
    assert !(i < k);
  }

  /** The price, stock and variation note the preview shows, before the empty-text fallbacks. */
  datatype Display = Display(price: string, stock: string, variationInfo: Option<string>)

  /**
   * With variations on and at least one row, the first row supplies price and
   * stock ("N/A" for an empty one) and names its option; otherwise the base
   * price and stock are shown and there is no variation note.
   */
  function SelectDisplay(price: string, stock: string, hasVariations: bool, table: seq<Row>): (d: Display)
    ensures d.variationInfo.Some? <==> hasVariations && |table| > 0
    ensures d.variationInfo.Some? ==> d.variationInfo.value == "(Variation: " + table[0].optionName + ")"
    ensures d.variationInfo.Some? ==> d.price == OrElse(table[0].price, "N/A") && d.stock == OrElse(table[0].stock, "N/A")
    ensures d.variationInfo.Some? ==> d.price != "" && d.stock != ""
    ensures d.variationInfo.Some? ==> (d.price == "N/A" <==> table[0].price == "" || table[0].price == "N/A")
    ensures d.variationInfo.Some? ==> (d.stock == "N/A" <==> table[0].stock == "" || table[0].stock == "N/A")
    ensures d.variationInfo.None? ==> d.price == price && d.stock == stock
  {
    if hasVariations && |table| > 0 then
      var first := table[0];
      Display(OrElse(first.price, "N/A"), OrElse(first.stock, "N/A"), Some("(Variation: " + first.optionName + ")"))
    else
      Display(price, stock, None)
  }

  /** The product description as the preview shows it; `None` when it is empty and the block is hidden. */
  function DescriptionExcerpt(description: string): (r: Option<string>)
    ensures r.None? <==> description == ""
    ensures r.Some? && |description| <= ExcerptLength ==> r.value == description
    ensures r.Some? && |description| > ExcerptLength ==>
              |r.value| == ExcerptLength + 3 && r.value[..ExcerptLength] == description[..ExcerptLength]
              && r.value[ExcerptLength..] == "..."
  {
    if description == "" then None
    else if |description| > ExcerptLength then Some(description[..ExcerptLength] + "...")
    else Some(description)
  }

  /** Everything the preview panel renders from the form. */
  datatype PreviewView = PreviewView(
    title: string, priceText: string, stockText: string, variationInfo: Option<string>,
    categoryName: Option<string>, brand: Option<string>, description: Option<string>)

  /** The preview of a form state. */
  function RenderPreview(productName: string, price: string, stock: string, hasVariations: bool,
                         table: seq<Row>, productDescription: string, brand: string,
                         selectedCategory: string, categories: seq<Category>): (v: PreviewView)
    ensures v.title != "" && v.priceText != "" && v.stockText != ""
    ensures productName == "" ==> v.title == "[Product Title]"
    ensures productName != "" ==> v.title == productName
    ensures v.variationInfo.None? && price == "" ==> v.priceText == "0.00"
    ensures v.variationInfo.None? && stock == "" ==> v.stockText == "0"
    ensures var d := SelectDisplay(price, stock, hasVariations, table);
            v.priceText == OrElse(d.price, "0.00") && v.stockText == OrElse(d.stock, "0")
            && v.variationInfo == d.variationInfo
    ensures v.categoryName.Some? <==> selectedCategory != ""
    ensures v.categoryName.Some? ==> v.categoryName.value == GetCategoryName(categories, selectedCategory)
    ensures v.brand.Some? <==> brand != ""
    ensures v.brand.Some? ==> v.brand.value == brand
    ensures v.description == DescriptionExcerpt(productDescription)
  {
    var d := SelectDisplay(price, stock, hasVariations, table);
    PreviewView(
      OrElse(productName, "[Product Title]"),
      OrElse(d.price, "0.00"),
      OrElse(d.stock, "0"),
      d.variationInfo,
      if selectedCategory != "" then Some(GetCategoryName(categories, selectedCategory)) else None,
      if brand != "" then Some(brand) else None,
      DescriptionExcerpt(productDescription))
  }

  /**
   * With one group of options, the preview's variation note names the first
   * option, and its price is the first option's price carried over from the
   * earlier table ("N/A" while none was typed).
   */
  lemma PreviewShowsFirstOption(groups: seq<Group>, previous: seq<Row>, price: string, stock: string)
    requires |groups| == 1 && |groups[0].options| > 0
    ensures var table := Synthesize(true, groups, previous);
            var d := SelectDisplay(price, stock, true, table);
            d.variationInfo == Some("(Variation: " + groups[0].options[0] + ")")
            && (FindRow(previous, groups[0].options[0]).None? ==> d.price == "N/A" && d.stock == "N/A")
  {
    var table := Synthesize(true, groups, previous);
    assert table[0].optionName == groups[0].options[0];
  }
}
