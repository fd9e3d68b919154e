/** The bot's describe command over the read model of the store (bottender.go on top of db.go). */
module Wiring {
  import opened Types
  import opened Store
  import opened Bot
  import opened Display

  /** The store answer as `handleDesc` sees it: `errDrinkNotFound` for a drink that is not found. */
  function AsOutcome(l: Lookup): Outcome<Drink>
  {
    match l
    case Found(d) => Ok(d)
    case NotFound => Err(StoreError.NotFound)
  }

  /**
   * With the describe call answered by the read model and unique drink ids,
   * asking for a drink by the name of its first row makes the one store call
   * and sends exactly one reply: "no drinks found" exactly when that row has no
   * mixing, and otherwise the template of that row's drink.
   */
  lemma DescribeExistingDrink(o: Oracles, t: Tables, q: string, conv: string, k: int)
    requires o.describe(q) == AsOutcome(DescribeSpec(t, q))
    requires UniqueDrinkIds(t)
    requires 0 <= k < |t.drinks| && t.drinks[k].name == q
    requires forall j :: 0 <= j < k ==> t.drinks[j].name != q
    ensures var e := DescEffect(o, DescribePrefix + " " + q, conv);
      e.calls == [DescribeCall(q)] &&
      (t.drinks[k].mixing == "" <==> e.sends == [Conv(conv, NoDrinksText)])
    ensures var e, row := DescEffect(o, DescribePrefix + " " + q, conv), t.drinks[k];
      row.mixing != "" ==>
        e.sends == [Conv(conv, DrinkText(Drink(0, ToDrinkIngredients(SortRows(JoinedRows(t, row.id))),
                                               row.mixing, row.serving, row.glass, row.notes, q, "")))]
  {
    DescribeCommandEffect(o, q, conv);
    DescribeFirstRow(t, q, k);
    var row := t.drinks[k];
    if row.mixing != "" {
      var d := Drink(0, ToDrinkIngredients(SortRows(JoinedRows(t, row.id))), row.mixing, row.serving,
                     row.glass, row.notes, row.name, "");
      assert DrinkText(d)[0] == '*';
      assert NoDrinksText[0] == 'n';
    }
  }
}
