/**
 * The values of the product-variation editor: variation groups, the rows of
 * the variation table, the property patches the handlers merge into a group,
 * and the synthesiser that rebuilds the table from the groups.
 */
module Variations {
  import opened Wrappers
  import opened Text
  import opened Search

  /** At most this many variation groups exist at once. */
  const MaxGroups := 2

  /** One axis of variation (Color, Size, a custom name) as the editor holds it. */
  datatype Group = Group(
    id: int,                    // creation timestamp, a stable key
    name: string,
    options: seq<string>,       // in insertion order; duplicates are accepted
    showCustom: bool,           // the "Custom..." name input is shown
    currentOptionInput: string, // the option being typed, not yet committed
    sizeFormat: string)         // International / EU / Custom, meaningful for "Size"

  /** A handle standing for an uploaded image object; `None` is `null`. */
  type ImageRef = nat

  /** One row of the variation table. `id` is the option text that produced the row. */
  datatype Row = Row(id: string, optionName: string, price: string, stock: string, sku: string, image: Option<ImageRef>)

  /** The row fields the table's inputs edit. */
  datatype Field = Price | Stock | Sku

  function FieldOf(row: Row, f: Field): string {
    match f
    case Price => row.price
    case Stock => row.stock
    case Sku => row.sku
  }

  /** The group added by enabling variations or by "+ Add Variation". */
  function EmptyGroup(id: int): (g: Group)
    ensures g.id == id && g.name == "" && g.options == [] && !g.showCustom
    ensures g.currentOptionInput == "" && g.sizeFormat == ""
  {
    Group(id, "", [], false, "", "")
  }

  // ---------------------------------------------------------------------------
  // Property patches: `{ ...group, ...updatedProperties }`

  /** A partial group record; absent properties keep the group's own value. */
  datatype GroupPatch = GroupPatch(
    name: Option<string>,
    options: Option<seq<string>>,
    showCustom: Option<bool>,
    currentOptionInput: Option<string>,
    sizeFormat: Option<string>)

  function Merge(g: Group, p: GroupPatch): (r: Group)
    ensures r.id == g.id
  {
    Group(g.id,
          p.name.GetOr(g.name),
          p.options.GetOr(g.options),
          p.showCustom.GetOr(g.showCustom),
          p.currentOptionInput.GetOr(g.currentOptionInput),
          p.sizeFormat.GetOr(g.sizeFormat))
  }

  /**
   * The patch of the variation-name dropdown. Choosing "custom" clears the name
   * and shows the custom input; any other choice (Color, Size, ...) becomes the
   * name and hides it. Either way the size format is reset, and options are kept.
   */
  function NameChangePatch(value: string): (p: GroupPatch)
    ensures forall g :: Merge(g, p).sizeFormat == "" && Merge(g, p).options == g.options
                        && Merge(g, p).currentOptionInput == g.currentOptionInput
    ensures value == "custom" ==> forall g :: Merge(g, p).name == "" && Merge(g, p).showCustom
    ensures value != "custom" ==> forall g :: Merge(g, p).name == value && !Merge(g, p).showCustom
  {
    if value == "custom" then GroupPatch(Some(""), None, Some(true), None, Some(""))
    else if value == "Size" then GroupPatch(Some(value), None, Some(false), None, Some(""))
    else GroupPatch(Some(value), None, Some(false), None, Some(""))
  }

  /** The patch of the size-format radio buttons: only the size format changes. */
  function SizeFormatPatch(value: string): (p: GroupPatch)
    ensures forall g :: Merge(g, p) == g.(sizeFormat := value)
  {
    GroupPatch(None, None, None, None, Some(value))
  }

  /** The patch of the custom-name input: only the name changes. */
  function CustomNamePatch(value: string): (p: GroupPatch)
    ensures forall g :: Merge(g, p) == g.(name := value)
  {
    GroupPatch(Some(value), None, None, None, None)
  }

  /** The patch of the "Add Option" input while typing: only the pending text changes. */
  function OptionInputPatch(value: string): (p: GroupPatch)
    ensures forall g :: Merge(g, p) == g.(currentOptionInput := value)
  {
    GroupPatch(None, None, None, Some(value), None)
  }

  /**
   * A key press in the "Add Option" input. On Enter with text that is not
   * blank, the trimmed text is appended to the options (even when it is
   * already there) and the input is cleared; otherwise there is nothing to merge.
   */
  function AddOptionPatch(g: Group, key: string): (p: Option<GroupPatch>)
    ensures p.Some? <==> key == "Enter" && !AllSpace(g.currentOptionInput)
    ensures p.Some? ==> Merge(g, p.value) == g.(options := g.options + [Trim(g.currentOptionInput)], currentOptionInput := "")
    ensures p.Some? ==> var o := Merge(g, p.value).options[|g.options|];
                        o != [] && !IsSpace(o[0]) && !IsSpace(o[|o| - 1])
  {
    var value := Trim(g.currentOptionInput);
    TrimEmptyIff(g.currentOptionInput);
    if key == "Enter" && value != "" then
      Some(GroupPatch(None, Some(g.options + [value]), None, Some(""), None))
    else
      None
  }

  // ---------------------------------------------------------------------------
  // Positional edits

  /** `Array.prototype.splice(i, 1)`: drop the element at `i`, or nothing when `i` is past the end. */
  function RemoveAt<T>(s: seq<T>, i: nat): (r: seq<T>)
    ensures i < |s| ==> |r| == |s| - 1
    ensures i < |s| ==> forall j :: 0 <= j < i ==> r[j] == s[j]
    ensures i < |s| ==> forall j :: i <= j < |r| ==> r[j] == s[j + 1]
    ensures i >= |s| ==> r == s
  {
    if i < |s| then s[..i] + s[i + 1..] else s
  }

  /** The group list after `handleRemoveOption(groupIndex, optionIndex)`. */
  function RemoveOption(groups: seq<Group>, groupIndex: nat, optionIndex: nat): (r: seq<Group>)
    ensures |r| == |groups|
    ensures forall j :: 0 <= j < |r| && j != groupIndex ==> r[j] == groups[j]
    ensures groupIndex < |r| ==> r[groupIndex] == groups[groupIndex].(options := RemoveAt(groups[groupIndex].options, optionIndex))
    ensures groupIndex >= |groups| || optionIndex >= |groups[groupIndex].options| ==> r == groups
  {
    if groupIndex < |groups| then
      var g := groups[groupIndex];
      groups[groupIndex := g.(options := RemoveAt(g.options, optionIndex))]
    else
      groups
  }

  /** The table after one input of row `i` changed: only that field of that row is replaced. */
  function SetRowField(table: seq<Row>, i: nat, f: Field, value: string): (r: seq<Row>)
    requires i < |table|
    ensures |r| == |table|
    ensures forall j :: 0 <= j < |r| && j != i ==> r[j] == table[j]
    ensures FieldOf(r[i], f) == value
    ensures forall g :: g != f ==> FieldOf(r[i], g) == FieldOf(table[i], g)
    ensures r[i].id == table[i].id && r[i].optionName == table[i].optionName && r[i].image == table[i].image
  {
    var row := table[i];
    var row' := match f
      case Price => row.(price := value)
      case Stock => row.(stock := value)
      case Sku => row.(sku := value);
    table[i := row']
  }

  // ---------------------------------------------------------------------------
  // The synthesiser

  /** No row of `t` has id `id`. */
  predicate IdAbsent(t: seq<Row>, id: string) {
    forall j :: 0 <= j < |t| ==> t[j].id != id
  }

  /** No row before position `n` of `t` has id `id`. */
  predicate IdAbsentBefore(t: seq<Row>, n: nat, id: string)
    requires n <= |t|
  {
    forall j :: 0 <= j < n ==> t[j].id != id
  }

  /** The key rows are looked up by. */
  function RowId(r: Row): string {
    r.id
  }

  /** Position of the first row with id `id`, if any. */
  function FindIndex(table: seq<Row>, id: string): (r: Option<nat>)
    ensures r.None? <==> IdAbsent(table, id)
    ensures r.Some? ==> r.value < |table| && table[r.value].id == id && IdAbsentBefore(table, r.value, id)
  {
    FirstIndex(table, RowId, id)
  }

  /** `table.find(row => row.id === id)`: the first row with that id. */
  function FindRow(table: seq<Row>, id: string): (r: Option<Row>)
    ensures r.None? <==> IdAbsent(table, id)
    ensures r.Some? ==> r.value.id == id
  {
    match FindIndex(table, id)
    case Some(i) => Some(table[i])
    case None => None
  }

  /** When row `k` is the first with its id, `find` returns it. */
  lemma FindRowFirst(table: seq<Row>, k: nat)
    requires k < |table| && IdAbsentBefore(table, k, table[k].id)
    ensures FindRow(table, table[k].id) == Some(table[k])
  {
    var r := FindIndex(table, table[k].id);
    assert !IdAbsent(table, table[k].id);
  }

  /** The values a row takes over from the earlier row with the same id. */
  predicate SameValues(r: Row, earlier: Row) {
    r.price == earlier.price && r.stock == earlier.stock && r.sku == earlier.sku && r.image == earlier.image
  }

  /** A row no earlier row supplied: empty strings and no image. */
  predicate Blank(r: Row) {
    r.price == "" && r.stock == "" && r.sku == "" && r.image == None
  }

  /** The row for one option: keyed by the option, its values taken from the first earlier row with that key. */
  function Carry(option: string, previous: seq<Row>): Row {
    match FindRow(previous, option)
    case Some(earlier) => Row(option, option, earlier.price, earlier.stock, earlier.sku, earlier.image)
    case None => Row(option, option, "", "", "", None)
  }

  /** `options.map(...)`: one row per option, in option order, with values preserved by id. */
  function RowsFor(options: seq<string>, previous: seq<Row>): (r: seq<Row>)
    ensures |r| == |options|
    ensures forall k :: 0 <= k < |r| ==> r[k].id == options[k] && r[k].optionName == options[k]
    ensures forall k :: 0 <= k < |r| ==> match FindRow(previous, options[k])
                                         case Some(earlier) => SameValues(r[k], earlier)
                                         case None => Blank(r[k])
  {
    if options == [] then []
    else [Carry(options[0], previous)] + RowsFor(options[1..], previous)
  }

  /** The row ids the table must have: the single group's options, or none at all. */
  function ExpectedKeys(hasVariations: bool, groups: seq<Group>): seq<string> {
    if hasVariations && |groups| == 1 then groups[0].options else []
  }

  /** Row `k` of `table` is the row of `keys[k]`, and there are no other rows. */
  predicate TableFollows(table: seq<Row>, keys: seq<string>) {
    |table| == |keys| && forall k :: 0 <= k < |table| ==> table[k].id == keys[k] && table[k].optionName == keys[k]
  }

  /**
   * The body of the sync effect. Off or no group: an empty table. One group:
   * its rows. Two groups: also an empty table, as no combination rows are built.
   */
  function Synthesize(hasVariations: bool, groups: seq<Group>, previous: seq<Row>): (table: seq<Row>)
    ensures TableFollows(table, ExpectedKeys(hasVariations, groups))
    ensures !hasVariations || |groups| != 1 ==> table == []
    ensures hasVariations && |groups| == 1 ==> table == RowsFor(groups[0].options, previous)
  {
    if !hasVariations || |groups| == 0 then []
    else if |groups| == 1 then RowsFor(groups[0].options, previous)
    else []
  }

  /**
   * The effect as React runs it: only when `hasVariations` or the (stringified)
   * group list differ from their values at the previous run.
   */
  function SyncEffect(prevHas: bool, prevGroups: seq<Group>, hasVariations: bool, groups: seq<Group>, table: seq<Row>): (r: seq<Row>)
    ensures hasVariations == prevHas && groups == prevGroups ==> r == table
    ensures hasVariations != prevHas || groups != prevGroups ==> r == Synthesize(hasVariations, groups, table)
  {
    if hasVariations == prevHas && groups == prevGroups then table else Synthesize(hasVariations, groups, table)
  }

  // ---------------------------------------------------------------------------
  // Laws of the synthesiser

  predicate Distinct(options: seq<string>) {
    forall i, j :: 0 <= i < j < |options| ==> options[i] != options[j]
  }

  /** Running the synthesiser on its own output changes nothing. */
  lemma SynthesizeIdempotent(hasVariations: bool, groups: seq<Group>, table: seq<Row>)
    ensures Synthesize(hasVariations, groups, Synthesize(hasVariations, groups, table)) == Synthesize(hasVariations, groups, table)
  {
    if hasVariations && |groups| == 1 {
      var options := groups[0].options;
      var once := RowsFor(options, table);
      var twice := RowsFor(options, once);
      forall k | 0 <= k < |options|
        ensures twice[k] == once[k]
      {
        var i := FindIndex(once, options[k]).value;
        assert options[i] == options[k];
      }
    }
  }

  /**
   * A table whose rows already follow distinct options is its own resync: the
   * edited values are all kept.
   */
  lemma ResyncKeepsTable(options: seq<string>, table: seq<Row>)
    requires TableFollows(table, options) && Distinct(options)
    ensures RowsFor(options, table) == table
  {
    var r := RowsFor(options, table);
    forall k | 0 <= k < |options|
      ensures r[k] == table[k]
    {
      assert IdAbsentBefore(table, k, table[k].id);
      FindRowFirst(table, k);
    }
  }

  /** An edit of one row field survives the resync that follows a later group change with the same options. */
  lemma EditSurvivesResync(options: seq<string>, table: seq<Row>, i: nat, f: Field, value: string)
    requires TableFollows(table, options) && Distinct(options) && i < |table|
    ensures RowsFor(options, SetRowField(table, i, f, value)) == SetRowField(table, i, f, value)
  {
    ResyncKeepsTable(options, SetRowField(table, i, f, value));
  }

  /**
   * Removing option `i` and resynthesising drops exactly row `i`: every other
   * row keeps its price, stock, SKU and image, in the same order, and no row
   * keyed by the removed option remains.
   */
  lemma RemoveOptionResync(options: seq<string>, table: seq<Row>, i: nat)
    requires TableFollows(table, options) && Distinct(options) && i < |options|
    ensures RowsFor(RemoveAt(options, i), table) == RemoveAt(table, i)
    ensures IdAbsent(RowsFor(RemoveAt(options, i), table), options[i])
  {
    var rest := RemoveAt(options, i);
    var r := RowsFor(rest, table);
    var kept := RemoveAt(table, i);
    forall k | 0 <= k < |rest|
      ensures r[k] == kept[k]
    {
      var src := if k < i then k else k + 1;
      assert rest[k] == options[src] && kept[k] == table[src];
      assert IdAbsentBefore(table, src, table[src].id) by {
        forall j | 0 <= j < src
          ensures table[j].id != table[src].id
        {
          assert options[j] != options[src];
        }
      }
      FindRowFirst(table, src);
      assert SameValues(r[k], table[src]);
    }
    assert |r| == |kept|;
    forall k | 0 <= k < |r|
      ensures r[k].id != options[i]
    {
      var src := if k < i then k else k + 1;
      assert r[k].id == options[src];
    }
  }

  /**
   * Preservation keyed by option text: for any option of the single group,
   * its row carries the values of the first earlier row with that id,
   * whatever other options were added or removed.
   */
  lemma PreservationLaw(groups: seq<Group>, previous: seq<Row>, k: nat, j: nat)
    requires |groups| == 1 && k < |groups[0].options|
    requires j < |previous| && previous[j].id == groups[0].options[k] && IdAbsentBefore(previous, j, previous[j].id)
    ensures SameValues(Synthesize(true, groups, previous)[k], previous[j])
  {
    FindRowFirst(previous, j);
  }

  /**
   * Two options with the same text share one row identity: after a resync
   * the second row shows the values of the first, so an edit made to the
   * second row alone is lost.
   */
  lemma DuplicateOptionEditIsLost()
    ensures var table := [Row("Red", "Red", "10", "", "", None), Row("Red", "Red", "12", "", "", None)];
            Synthesize(true, [Group(0, "Color", ["Red", "Red"], false, "", "")], table)[1].price == "10"
  {
    var table := [Row("Red", "Red", "10", "", "", None), Row("Red", "Red", "12", "", "", None)];
    FindRowFirst(table, 0);
  }
}
