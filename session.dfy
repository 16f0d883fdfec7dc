/**
 * A client of the editor: a short editing session, and what the handlers'
 * contracts let a caller conclude about the table along the way.
 */
module Session {
  import opened Variations
  import opened Editor
  import Text

  /** Type `text` into the option input of the only group and press Enter. */
  method AddOption(e: VariationEditor, text: string)
    requires e.Valid() && |e.variations| == 1 && e.variations[0].currentOptionInput == ""
    requires text != [] && !Text.IsSpace(text[0]) && !Text.IsSpace(text[|text| - 1])
    modifies e
    ensures e.Valid() && e.hasVariations == old(e.hasVariations)
    ensures e.variations == [old(e.variations[0]).(options := old(e.variations[0].options) + [text])]
  {
    var g := e.variations[0];
    e.HandleCurrentOptionChange(text, 0);
    assert e.variations == [g.(currentOptionInput := text)];
    assert Text.TrimStart(text) == text;
    assert Text.TrimEnd(text) == text;
    assert Text.Trim(text) == text;
    e.HandleAddOption("Enter", 0);
    assert e.variations == [g.(currentOptionInput := text)][0 := g.(currentOptionInput := text).(options := g.options + [text], currentOptionInput := "")];
  }

  /** Enable variations and give the first group the options "Red" and "Blue". */
  method StartRedBlue() returns (e: VariationEditor)
    ensures fresh(e) && e.Valid() && e.hasVariations
    ensures e.variations == [EmptyGroup(1).(options := ["Red", "Blue"])]
  {
    e := new VariationEditor();
    e.ToggleVariations(1);
    AddOption(e, "Red");
    assert EmptyGroup(1).options + ["Red"] == ["Red"];
    AddOption(e, "Blue");
    assert ["Red"] + ["Blue"] == ["Red", "Blue"];
  }

  /** Enable variations, add "Red" and "Blue", and price their rows 10 and 7. */
  method PriceRedBlue() returns (e: VariationEditor)
    ensures fresh(e) && e.Valid() && e.hasVariations
    ensures e.variations == [EmptyGroup(1).(options := ["Red", "Blue"])]
    ensures var t := e.variationTableData;
            |t| == 2 && t[0].id == "Red" && t[0].price == "10" && t[1].id == "Blue" && t[1].price == "7"
  {
    e := StartRedBlue();
    e.HandleTableInputChange("10", 0, Price);
    e.HandleTableInputChange("7", 1, Price);
  }

  /**
   * Enable variations, add "Red" and "Blue", price both rows, remove "Red"
   * (the "Blue" row keeps its price), then add a second group with option
   * "S": two groups get no combination rows, so the table is emptied.
   */
  method EditingSession() returns (priced: seq<Row>, afterRemove: seq<Row>, twoGroups: seq<Row>)
    ensures |priced| == 2 && priced[0].id == "Red" && priced[0].price == "10"
    ensures priced[1].id == "Blue" && priced[1].price == "7"
    ensures afterRemove == [priced[1]]
    ensures twoGroups == []
  {
    var e := PriceRedBlue();
    priced := e.variationTableData;
    e.HandleRemoveOption(0, 0);
    assert e.variations[0].options == RemoveAt(["Red", "Blue"], 0);
    RemoveOptionResync(["Red", "Blue"], priced, 0);
    afterRemove := e.variationTableData;
    assert afterRemove == RemoveAt(priced, 0);
    AddSecondGroup(e);
    twoGroups := e.variationTableData;
  }

  /** With one group in place, add a second group and give it the option "S". */
  method AddSecondGroup(e: VariationEditor)
    requires e.Valid() && e.hasVariations && |e.variations| == 1
    modifies e
    ensures e.Valid() && |e.variations| == 2 && e.variationTableData == []
  {
    e.AddVariationGroup(2);
    e.HandleCurrentOptionChange("S", 1);
    e.HandleAddOption("Enter", 1);
    assert |e.variationTableData| == |ExpectedKeys(e.hasVariations, e.variations)| == 0;
  }
}
