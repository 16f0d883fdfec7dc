/**
 * The form component's variation state and its event handlers. Each handler
 * that edits the groups ends by running the table-sync effect, which rebuilds
 * the table only when `hasVariations` or the group list changed; editing a
 * table cell does not run it.
 */
module Editor {
  import opened Wrappers
  import opened Variations

  /** The package dimensions of the submitted product. */
  datatype Dimensions = Dimensions(length: string, width: string, height: string)

  /** The plain form fields that take part in the submission. */
  datatype BasicFields = BasicFields(
    productName: string, selectedCategory: string, productDescription: string, brand: string,
    price: string, sku: string, stock: string, weight: string,
    pkgLength: string, pkgWidth: string, pkgHeight: string)

  /** The product record `handleSubmit` assembles. */
  datatype Payload = Payload(
    productName: string, selectedCategory: string, productDescription: string, brand: string,
    price: string, sku: string, stock: string,
    hasVariations: bool,
    variationConfig: Option<seq<Group>>,
    variationDetails: Option<seq<Row>>,
    weight: string,
    packageDimensions: Dimensions)

  /**
   * The payload: the basic fields as typed, and the groups and table only
   * when variations are enabled (`null` otherwise).
   */
  function BuildPayload(f: BasicFields, hasVariations: bool, groups: seq<Group>, table: seq<Row>): (p: Payload)
    ensures p.hasVariations == hasVariations
    ensures p.variationConfig.Some? <==> hasVariations
    ensures p.variationDetails.Some? <==> hasVariations
    ensures hasVariations ==> p.variationConfig.value == groups && p.variationDetails.value == table
    ensures p.productName == f.productName && p.selectedCategory == f.selectedCategory
    ensures p.productDescription == f.productDescription && p.brand == f.brand
    ensures p.price == f.price && p.sku == f.sku && p.stock == f.stock && p.weight == f.weight
    ensures p.packageDimensions == Dimensions(f.pkgLength, f.pkgWidth, f.pkgHeight)
  {
    Payload(f.productName, f.selectedCategory, f.productDescription, f.brand,
            f.price, f.sku, f.stock,
            hasVariations,
            if hasVariations then Some(groups) else None,
            if hasVariations then Some(table) else None,
            f.weight,
            Dimensions(f.pkgLength, f.pkgWidth, f.pkgHeight))
  }

  class VariationEditor {
    var hasVariations: bool
    var variations: seq<Group>
    var variationTableData: seq<Row>

    /**
     * At most two groups, and the table always holds exactly one row per
     * option of the single group, in option order, keyed by the option;
     * it is empty when variations are off or there are zero or two groups.
     */
    ghost predicate Valid()
      reads this
    {
      |variations| <= MaxGroups && TableFollows(variationTableData, ExpectedKeys(hasVariations, variations))
    }

    constructor ()
      ensures Valid()
      ensures !hasVariations && variations == [] && variationTableData == []
    {
      hasVariations, variations, variationTableData := false, [], [];
    }

    /** The sync effect, run after a handler changed `hasVariations` or the groups. */
    method SyncTable(prevHas: bool, prevGroups: seq<Group>)
      requires |variations| <= MaxGroups
      requires hasVariations == prevHas && variations == prevGroups ==> Valid()
      modifies this`variationTableData
      ensures Valid()
      ensures variationTableData == SyncEffect(prevHas, prevGroups, hasVariations, variations, old(variationTableData))
    {
      variationTableData := SyncEffect(prevHas, prevGroups, hasVariations, variations, variationTableData);
    }

    /**
     * Turning variations on seeds exactly one empty group (with the given
     * id); turning them off clears the groups. Either way the table is then
     * empty.
     */
    method ToggleVariations(newId: int)
      requires Valid()
      modifies this
      ensures Valid()
      ensures hasVariations == !old(hasVariations)
      ensures hasVariations ==> variations == [EmptyGroup(newId)]
      ensures !hasVariations ==> variations == []
      ensures variationTableData == []
    {
      var prevHas, prevGroups := hasVariations, variations;
      if hasVariations {
        hasVariations := false;
        variations := [];
      } else {
        hasVariations := true;
        variations := [EmptyGroup(newId)];
      }
      SyncTable(prevHas, prevGroups);
    }

    /** Merge `patch` into the group at `index`; the other groups are untouched. */
    method UpdateVariationGroup(index: nat, patch: GroupPatch)
      requires Valid() && index < |variations|
      modifies this
      ensures Valid()
      ensures hasVariations == old(hasVariations)
      ensures variations == old(variations)[index := Merge(old(variations)[index], patch)]
      ensures variationTableData == SyncEffect(old(hasVariations), old(variations), hasVariations, variations, old(variationTableData))
    {
      var prevHas, prevGroups := hasVariations, variations;
      variations := variations[index := Merge(variations[index], patch)];
      SyncTable(prevHas, prevGroups);
    }

    /** The variation-name dropdown of group `index`. */
    method HandleGroupNameChange(value: string, index: nat)
      requires Valid() && index < |variations|
      modifies this
      ensures Valid()
      ensures hasVariations == old(hasVariations) && |variations| == |old(variations)|
      ensures forall j :: 0 <= j < |variations| && j != index ==> variations[j] == old(variations)[j]
      ensures variations[index].id == old(variations)[index].id
      ensures variations[index].options == old(variations)[index].options
      ensures variations[index].sizeFormat == ""
      ensures variations[index].currentOptionInput == old(variations)[index].currentOptionInput
      ensures variations == old(variations)[index := Merge(old(variations)[index], NameChangePatch(value))]
      ensures value == "custom" ==> variations[index].name == "" && variations[index].showCustom
      ensures value != "custom" ==> variations[index].name == value && !variations[index].showCustom
      ensures variationTableData == SyncEffect(old(hasVariations), old(variations), hasVariations, variations, old(variationTableData))
    {
      UpdateVariationGroup(index, NameChangePatch(value));
    }

    /** The size-format radio buttons of group `index`. */
    method HandleSizeFormatChange(value: string, index: nat)
      requires Valid() && index < |variations|
      modifies this
      ensures Valid()
      ensures hasVariations == old(hasVariations)
      ensures variations == old(variations)[index := old(variations)[index].(sizeFormat := value)]
      ensures variationTableData == SyncEffect(old(hasVariations), old(variations), hasVariations, variations, old(variationTableData))
    {
      UpdateVariationGroup(index, SizeFormatPatch(value));
    }

    /** The custom variation-name input of group `index`. */
    method HandleCustomGroupNameChange(value: string, index: nat)
      requires Valid() && index < |variations|
      modifies this
      ensures Valid()
      ensures hasVariations == old(hasVariations)
      ensures variations == old(variations)[index := old(variations)[index].(name := value)]
      ensures variationTableData == SyncEffect(old(hasVariations), old(variations), hasVariations, variations, old(variationTableData))
    {
      UpdateVariationGroup(index, CustomNamePatch(value));
    }

    /** Typing in the "Add Option" input of group `index`. */
    method HandleCurrentOptionChange(value: string, index: nat)
      requires Valid() && index < |variations|
      modifies this
      ensures Valid()
      ensures hasVariations == old(hasVariations)
      ensures variations == old(variations)[index := old(variations)[index].(currentOptionInput := value)]
      ensures variationTableData == SyncEffect(old(hasVariations), old(variations), hasVariations, variations, old(variationTableData))
    {
      UpdateVariationGroup(index, OptionInputPatch(value));
    }

    /**
     * A key press in the "Add Option" input of group `index`: on Enter with
     * non-blank text the trimmed text becomes the group's last option and the
     * input is cleared; any other key, or blank text, changes nothing.
     */
    method HandleAddOption(key: string, index: nat)
      requires Valid() && index < |variations|
      modifies this
      ensures Valid()
      ensures hasVariations == old(hasVariations)
      ensures var g := old(variations)[index];
              if key == "Enter" && Text.Trim(g.currentOptionInput) != "" then
                variations == old(variations)[index := g.(options := g.options + [Text.Trim(g.currentOptionInput)], currentOptionInput := "")]
              else
                variations == old(variations) && variationTableData == old(variationTableData)
      ensures variationTableData == SyncEffect(old(hasVariations), old(variations), hasVariations, variations, old(variationTableData))
    {
      var group := variations[index];
      var patch := AddOptionPatch(group, key);
      Text.TrimEmptyIff(group.currentOptionInput);
      if patch.Some? {
        UpdateVariationGroup(index, patch.value);
      }
    }

    /**
     * The "x" of option `optionIndex` in group `groupIndex`: that option is
     * removed and the others keep their order; an index out of range changes
     * nothing.
     */
    method HandleRemoveOption(groupIndex: nat, optionIndex: nat)
      requires Valid()
      modifies this
      ensures Valid()
      ensures hasVariations == old(hasVariations)
      ensures variations == RemoveOption(old(variations), groupIndex, optionIndex)
      ensures variationTableData == SyncEffect(old(hasVariations), old(variations), hasVariations, variations, old(variationTableData))
    {
      var prevHas, prevGroups := hasVariations, variations;
      variations := RemoveOption(variations, groupIndex, optionIndex);
      SyncTable(prevHas, prevGroups);
    }

    /** The "remove group" button: later groups move down one place; an index out of range changes nothing. */
    method HandleRemoveGroup(groupIndex: nat)
      requires Valid()
      modifies this
      ensures Valid()
      ensures hasVariations == old(hasVariations)
      ensures variations == RemoveAt(old(variations), groupIndex)
      ensures variationTableData == SyncEffect(old(hasVariations), old(variations), hasVariations, variations, old(variationTableData))
    {
      var prevHas, prevGroups := hasVariations, variations;
      variations := RemoveAt(variations, groupIndex);
      SyncTable(prevHas, prevGroups);
    }

    /** An input of the variation table: one field of one row changes, and the groups do not. */
    method HandleTableInputChange(value: string, rowIndex: nat, fieldName: Field)
      requires Valid() && rowIndex < |variationTableData|
      modifies this`variationTableData
      ensures Valid()
      ensures variationTableData == SetRowField(old(variationTableData), rowIndex, fieldName, value)
    {
      variationTableData := SetRowField(variationTableData, rowIndex, fieldName, value);
    }

    /** "+ Add Variation": a new empty group is appended only while there are fewer than two. */
    method AddVariationGroup(newId: int)
      requires Valid()
      modifies this
      ensures Valid()
      ensures hasVariations == old(hasVariations)
      ensures |old(variations)| < MaxGroups ==> variations == old(variations) + [EmptyGroup(newId)]
      ensures |old(variations)| >= MaxGroups ==> variations == old(variations) && variationTableData == old(variationTableData)
      ensures variationTableData == SyncEffect(old(hasVariations), old(variations), hasVariations, variations, old(variationTableData))
    {
      var prevHas, prevGroups := hasVariations, variations;
      if |variations| < MaxGroups {
        variations := variations + [EmptyGroup(newId)];
      }
      SyncTable(prevHas, prevGroups);
    }

    /** The product record `handleSubmit` assembles from the form. */
    method Submit(fields: BasicFields) returns (p: Payload)
      requires Valid()
      ensures p == BuildPayload(fields, hasVariations, variations, variationTableData)
      ensures p.variationConfig.Some? ==> |p.variationConfig.value| <= MaxGroups
      ensures p.variationDetails.Some? && |variations| != 1 ==> p.variationDetails.value == []
    {
      p := BuildPayload(fields, hasVariations, variations, variationTableData);
    }
  }
}
