/** Rendering of drinks as chat text (display.go). */
module Display {
  import opened Types
  import opened Strings
  import opened Numbers
  import opened Wrappers

  /** Categories whose amount is in hundredths of an ounce. */
  predicate IsLiquid(category: string)
  {
    category in ["spirit", "liqueur", "aromatic", "sugar", "citrus", "mixer"]
  }

  /** The amount part of an ingredient line, chosen by category; empty for an unknown category. */
  function AmountText(i: DrinkIngredient): string
  {
    if IsLiquid(i.ingredient.category) then FormatHundredths(i.amount) + " oz"
    else if i.ingredient.category == "bitters" then IntToString(i.amount) + " dashes"
    else if i.ingredient.category == "garnish" then IntToString(i.amount)
    else ""
  }

  /** `DrinkIngredient.DisplayFull`: one ingredient line, a space, the amount, a space and the name. */
  function DisplayFull(i: DrinkIngredient): (r: string)
    ensures |r| >= |i.ingredient.name| + 2
    ensures r[0] == ' ' && r[|r| - |i.ingredient.name|..] == i.ingredient.name
  {
    " " + AmountText(i) + " " + i.ingredient.name
  }

  /** The ingredient lines, in list order. */
  function IngredientLines(ings: seq<DrinkIngredient>): (r: seq<string>)
  {
    seq(|ings|, k requires 0 <= k < |ings| => DisplayFull(ings[k]))
  }

  /** The ingredient block of the drink template: the lines joined with newlines. */
  function IngredientBlock(ings: seq<DrinkIngredient>): string
  {
    Join(IngredientLines(ings), "\n")
  }

  /** The labelled template of `DisplayDrinkFull`. */
  function DrinkText(d: Drink): string
  {
    "*Name*: " + d.name + "\n" + ("*Author*: @" + d.author) + "\n" + ("*Mixing*: " + d.mixing) + "\n" +
    ("*Glass*: " + d.glass) + "\n" + ("*Serving*: " + d.serving) + "\n" + "*Ingredients*" + "\n" +
    IngredientBlock(d.ingredients) + "\n" + "*Notes*" + "\n" + (" " + d.notes)
  }

  /** `DisplayDrinkFull`: collects the ingredient lines, then fills the template. */
  method DisplayDrinkFull(drink: Drink) returns (r: string)
    ensures r == DrinkText(drink)
  {
    var ingredients: seq<string> := [];
    for k := 0 to |drink.ingredients|
      invariant ingredients == IngredientLines(drink.ingredients[..k])
    {
      ingredients := ingredients + [DisplayFull(drink.ingredients[k])];
    }
    assert drink.ingredients[..|drink.ingredients|] == drink.ingredients;
    r := "*Name*: " + drink.name + "\n" + ("*Author*: @" + drink.author) + "\n" + ("*Mixing*: " + drink.mixing) + "\n" +
      ("*Glass*: " + drink.glass) + "\n" + ("*Serving*: " + drink.serving) + "\n" + "*Ingredients*" + "\n" +
      Join(ingredients, "\n") + "\n" + "*Notes*" + "\n" + (" " + drink.notes);
  }

  /** The names of a list of drinks, in order. */
  function NameList(drinks: seq<Drink>): seq<string>
  {
    seq(|drinks|, k requires 0 <= k < |drinks| => drinks[k].name)
  }

  /** `DrinkNames`: the names of the drinks, one per drink, in the same order. */
  method DrinkNames(drinks: seq<Drink>) returns (res: seq<string>)
    ensures |res| == |drinks|
    ensures forall k :: 0 <= k < |drinks| ==> res[k] == drinks[k].name
  {
    res := [];
    for k := 0 to |drinks|
      invariant |res| == k
      invariant forall j :: 0 <= j < k ==> res[j] == drinks[j].name
    {
      res := res + [drinks[k].name];
    }
  }

  /** A list holding each drink's name at the drink's position is the list of names. */
  lemma NamesInOrder(drinks: seq<Drink>, names: seq<string>)
    requires |names| == |drinks|
    requires forall k :: 0 <= k < |drinks| ==> names[k] == drinks[k].name
    ensures names == NameList(drinks)
  {
  }

  /** A liquid amount is written as ounces with exactly two decimals that read back as the hundredths. */
  lemma LiquidAmount(i: DrinkIngredient)
    requires IsLiquid(i.ingredient.category)
    ensures var a := AmountText(i); var n := |a| - 3;
      n >= 4 && a[n..] == " oz" && a[n - 3] == '.' &&
      ParseDecimal(a[..n - 3] + a[n - 2..n]) == Some(i.amount)
    ensures var a := AmountText(i); var n := |a| - 3;
      n >= 4 && (a[0] == '-' <==> i.amount < 0) &&
      Canonical(if i.amount < 0 then a[1..n - 3] else a[..n - 3])
  {
    var f := FormatHundredths(i.amount);
    FormatHundredthsDenotes(i.amount);
    var a := AmountText(i);
    assert a == f + " oz";
    assert a[..|a| - 6] == f[..|f| - 3];
    assert a[|a| - 5..|a| - 3] == f[|f| - 2..];
  }

  /** Bitters are counted in dashes, whatever the count (also "1 dashes"). */
  lemma BittersAmount(i: DrinkIngredient)
    requires i.ingredient.category == "bitters"
    ensures AmountText(i) == IntToString(i.amount) + " dashes"
  {
  }

  /** The amount is empty exactly for a category that is neither liquid, bitters nor garnish. */
  lemma AmountEmptyIffUnknownCategory(i: DrinkIngredient)
    ensures AmountText(i) == "" <==>
      !IsLiquid(i.ingredient.category) && i.ingredient.category != "bitters" && i.ingredient.category != "garnish"
    ensures AmountText(i) == "" ==> DisplayFull(i) == "  " + i.ingredient.name
  {
  }

  /** 200 hundredths of bourbon. */
  lemma BourbonLine(i: DrinkIngredient)
    requires i.ingredient.name == "bourbon" && i.ingredient.category == "spirit" && i.amount == 200
    ensures DisplayFull(i) == " 2.00 oz bourbon"
  {
    assert NatToString(2) == "2";
    assert Hundredths(200) == "2.00";
    assert AmountText(i) == "2.00 oz";
  }

  /** Three dashes of bitters. */
  lemma BittersLine(i: DrinkIngredient)
    requires i.ingredient.name == "angostura" && i.ingredient.category == "bitters" && i.amount == 3
    ensures DisplayFull(i) == " 3 dashes angostura"
  {
    assert NatToString(3) == "3";
    assert AmountText(i) == "3 dashes";
  }

  /** One garnish, counted without a unit. */
  lemma GarnishLine(i: DrinkIngredient)
    requires i.ingredient.name == "cherry" && i.ingredient.category == "garnish" && i.amount == 1
    ensures DisplayFull(i) == " 1 cherry"
  {
    assert NatToString(1) == "1";
    assert AmountText(i) == "1";
  }

  /** No ingredient line contains a newline when no ingredient name does. */
  lemma LinesHaveNoNewline(ings: seq<DrinkIngredient>)
    requires forall k :: 0 <= k < |ings| ==> '\n' !in ings[k].ingredient.name
    ensures forall k :: 0 <= k < |ings| ==> '\n' !in IngredientLines(ings)[k]
  {
    forall k | 0 <= k < |ings|
      ensures '\n' !in IngredientLines(ings)[k]
    {
      var i := ings[k];
      assert '\n' !in AmountText(i) by {
        var n := i.amount;
        var m: nat := if n < 0 then -n else n;
        assert '\n' !in NatToString(m);
        assert '\n' !in NatToString(m / 100);
      }
    }
  }

  /**
   * The drink text is the fixed labelled template, line by line: six header lines,
   * then the ingredient lines (one empty line for no ingredients), then the notes,
   * prefixed by a space.
   */
  lemma {:induction false} DrinkTextLines(d: Drink)
    requires '\n' !in d.name && '\n' !in d.author && '\n' !in d.mixing
    requires '\n' !in d.glass && '\n' !in d.serving && '\n' !in d.notes
    requires forall k :: 0 <= k < |d.ingredients| ==> '\n' !in d.ingredients[k].ingredient.name
    ensures Split(DrinkText(d), '\n') ==
      ["*Name*: " + d.name, "*Author*: @" + d.author, "*Mixing*: " + d.mixing,
       "*Glass*: " + d.glass, "*Serving*: " + d.serving, "*Ingredients*"] +
      (if d.ingredients == [] then [""] else IngredientLines(d.ingredients)) +
      ["*Notes*", " " + d.notes]
  {
    var lines := IngredientLines(d.ingredients);
    var block := IngredientBlock(d.ingredients);
    LinesHaveNoNewline(d.ingredients);
    var blockLines := if d.ingredients == [] then [""] else lines;
    assert Split(block, '\n') == blockLines by {
      if d.ingredients != [] { SplitJoin(lines, '\n'); }
    }
    HeaderSplit(d);
    TextOfHeader(d);
    TailLines(Join(HeaderLines(d), "\n"), block, d.notes);
  }

  /** Splitting the header text followed by the ingredient block and the notes section. */
  lemma TailLines(p: string, block: string, notes: string)
    requires '\n' !in notes
    ensures Split(p + "\n" + block + "\n" + "*Notes*" + "\n" + (" " + notes), '\n') ==
      Split(p, '\n') + Split(block, '\n') + ["*Notes*", " " + notes]
  {
    var p7 := p + "\n" + block;
    var p8 := p7 + "\n" + "*Notes*";
    SplitAt(p, '\n', block);
    SplitLine(p7, '\n', "*Notes*", Split(p, '\n') + Split(block, '\n'));
    SplitLine(p8, '\n', " " + notes, Split(p, '\n') + Split(block, '\n') + ["*Notes*"]);
  }

  /** The six header lines of the drink template. */
  function HeaderLines(d: Drink): seq<string>
  {
    ["*Name*: " + d.name, "*Author*: @" + d.author, "*Mixing*: " + d.mixing,
     "*Glass*: " + d.glass, "*Serving*: " + d.serving, "*Ingredients*"]
  }

  lemma TextOfHeader(d: Drink)
    ensures DrinkText(d) ==
      Join(HeaderLines(d), "\n") + "\n" + IngredientBlock(d.ingredients) + "\n" + "*Notes*" + "\n" + (" " + d.notes)
  {
    var h := HeaderLines(d);
    assert Join(h[..2], "\n") == h[0] + "\n" + h[1];
    assert Join(h[..3], "\n") == Join(h[..2], "\n") + "\n" + h[2] by { assert h[..3][..2] == h[..2]; }
    assert Join(h[..4], "\n") == Join(h[..3], "\n") + "\n" + h[3] by { assert h[..4][..3] == h[..3]; }
    assert Join(h[..5], "\n") == Join(h[..4], "\n") + "\n" + h[4] by { assert h[..5][..4] == h[..4]; }
    assert Join(h, "\n") == Join(h[..5], "\n") + "\n" + h[5];
  }

  lemma HeaderSplit(d: Drink)
    requires '\n' !in d.name && '\n' !in d.author && '\n' !in d.mixing
    requires '\n' !in d.glass && '\n' !in d.serving
    ensures Split(Join(HeaderLines(d), "\n"), '\n') == HeaderLines(d)
  {
    SplitJoin(HeaderLines(d), '\n');
  }

  lemma SplitLine(p: string, c: char, line: string, pieces: seq<string>)
    requires Split(p, c) == pieces && c !in line
    ensures Split(p + [c] + line, c) == pieces + [line]
  {
    SplitAt(p, c, line);
    SplitNoSeparator(line, c);
  }
}
