/**
 * The recipe read model (db.go) over the three tables held in memory. Each
 * query is a function over the rows; the methods of `DrinkDB` walk the row
 * cursors as the Go code does and are proved equal to the specification
 * functions `Hydrate`, `DescribeSpec` and `HydrateAll`.
 */
module Store {
  import opened Types
  import opened SqlLike

  datatype DrinkRow = DrinkRow(id: int, name: string, mixing: string, glass: string, serving: string, notes: string, author: string)
  datatype IngredientRow = IngredientRow(id: int, name: string, category: string, desc: string)
  datatype DrinkIngredientRow = DrinkIngredientRow(drinkId: int, ingredientId: int, amount: int)

  /** The `drinks`, `drink_ingredients` and `ingredient` tables, rows in table order. */
  datatype Tables = Tables(drinks: seq<DrinkRow>, drinkIngredients: seq<DrinkIngredientRow>, ingredients: seq<IngredientRow>)

  /** The outcome of hydrating a drink; `NotFound` is `errDrinkNotFound`. */
  datatype Lookup = Found(drink: Drink) | NotFound

  /** A row of the ingredient query, with the drink name it is ordered by first. */
  datatype JoinedRow = JoinedRow(drinkName: string, name: string, category: string, desc: string, amount: int)

  // ---------------------------------------------------------------------------
  // The base query: the drink rows whose id is the given one, in table order

  function BaseRows(drinks: seq<DrinkRow>, id: int): (r: seq<DrinkRow>)
    ensures forall k :: 0 <= k < |r| ==> r[k].id == id
  {
    if drinks == [] then []
    else (if drinks[0].id == id then [drinks[0]] else []) + BaseRows(drinks[1..], id)
  }

  /** The base query yields a row exactly when some row has the id, and its first row is the first such row. */
  lemma {:induction false} BaseRowsFirst(drinks: seq<DrinkRow>, id: int)
    ensures var r := BaseRows(drinks, id);
      (r != [] <==> exists k :: 0 <= k < |drinks| && drinks[k].id == id) &&
      (r != [] ==> exists k :: IsFirstWithId(drinks, id, k) && drinks[k] == r[0])
  {
    if drinks != [] {
      BaseRowsFirst(drinks[1..], id);
      if drinks[0].id == id {
        assert IsFirstWithId(drinks, id, 0);
      } else {
        assert forall k :: 1 <= k < |drinks| ==> drinks[k] == drinks[1..][k - 1];
        var rest := BaseRows(drinks[1..], id);
        if rest != [] {
          var j :| IsFirstWithId(drinks[1..], id, j) && drinks[1..][j] == rest[0];
          assert IsFirstWithId(drinks, id, j + 1);
        }
      }
    }
  }

  /** Row `k` is the first row of the table with this id. */
  predicate IsFirstWithId(drinks: seq<DrinkRow>, id: int, k: int)
  {
    0 <= k < |drinks| && drinks[k].id == id && forall j :: 0 <= j < k ==> drinks[j].id != id
  }

  // ---------------------------------------------------------------------------
  // The ingredient query:
  //   every (drink row, association, ingredient row) triple of the drink whose
  //   ids agree, ordered by drink name and then by amount, largest first

  /** The joined row of one drink row, one association row and one ingredient row. */
  function Joined(d: DrinkRow, di: DrinkIngredientRow, e: IngredientRow): JoinedRow
  {
    JoinedRow(d.name, e.name, e.category, e.desc, di.amount)
  }

  function JoinIngredients(d: DrinkRow, di: DrinkIngredientRow, ings: seq<IngredientRow>): seq<JoinedRow>
  {
    if ings == [] then []
    else (if ings[0].id == di.ingredientId then [Joined(d, di, ings[0])] else []) + JoinIngredients(d, di, ings[1..])
  }

  function JoinAssociations(d: DrinkRow, dis: seq<DrinkIngredientRow>, ings: seq<IngredientRow>): seq<JoinedRow>
  {
    if dis == [] then []
    else (if dis[0].drinkId == d.id then JoinIngredients(d, dis[0], ings) else []) + JoinAssociations(d, dis[1..], ings)
  }

  function JoinDrinks(drinks: seq<DrinkRow>, id: int, t: Tables): seq<JoinedRow>
  {
    if drinks == [] then []
    else (if drinks[0].id == id then JoinAssociations(drinks[0], t.drinkIngredients, t.ingredients) else []) + JoinDrinks(drinks[1..], id, t)
  }

  /** The rows of the three-way join for one drink id, before ordering. */
  function JoinedRows(t: Tables, id: int): seq<JoinedRow>
  {
    JoinDrinks(t.drinks, id, t)
  }

  /** Binary (code point) lexicographic order on strings. */
  predicate StringLe(a: string, b: string)
  {
    if a == [] then true
    else if b == [] then false
    else if a[0] != b[0] then a[0] < b[0]
    else StringLe(a[1..], b[1..])
  }

  /** The ingredient query's order, drink name ascending and then amount descending: `x` may come before `y`. */
  predicate RowLe(x: JoinedRow, y: JoinedRow)
  {
    if x.drinkName != y.drinkName then StringLe(x.drinkName, y.drinkName) else x.amount >= y.amount
  }

  predicate Ordered(rows: seq<JoinedRow>)
  {
    forall k :: 0 < k < |rows| ==> RowLe(rows[k - 1], rows[k])
  }

  lemma {:induction false} StringLeTotal(a: string, b: string)
    ensures StringLe(a, b) || StringLe(b, a)
  {
    if a != [] && b != [] && a[0] == b[0] {
      StringLeTotal(a[1..], b[1..]);
    }
  }

  function InsertRow(x: JoinedRow, rows: seq<JoinedRow>): (r: seq<JoinedRow>)
    requires Ordered(rows)
    ensures Ordered(r)
    ensures multiset(r) == multiset(rows) + multiset{x}
    ensures r != [] && (r[0] == x || (rows != [] && r[0] == rows[0]))
  {
    if rows == [] || RowLe(x, rows[0]) then [x] + rows
    else
      StringLeTotal(x.drinkName, rows[0].drinkName);
      var r := [rows[0]] + InsertRow(x, rows[1..]);
      assert rows == [rows[0]] + rows[1..];
      r
  }

  /**
   * The order the engine returns: by drink name, then by amount descending;
   * rows equal in both keep their join order (SQL itself leaves that open).
   */
  function SortRows(rows: seq<JoinedRow>): (r: seq<JoinedRow>)
    ensures Ordered(r)
    ensures multiset(r) == multiset(rows)
  {
    if rows == [] then []
    else
      assert rows == [rows[0]] + rows[1..];
      InsertRow(rows[0], SortRows(rows[1..]))
  }

  /** A scanned ingredient row; the ingredient id is not selected and stays 0. */
  function ToDrinkIngredient(row: JoinedRow): DrinkIngredient
  {
    DrinkIngredient(Ingredient(0, row.name, row.category, row.desc), row.amount)
  }

  function ToDrinkIngredients(rows: seq<JoinedRow>): seq<DrinkIngredient>
  {
    seq(|rows|, k requires 0 <= k < |rows| => ToDrinkIngredient(rows[k]))
  }

  // ---------------------------------------------------------------------------
  // Hydration and the two public reads

  /** The base fields of a row scanned into a zero `Drink`; id and author are not selected. */
  function BaseDrink(row: DrinkRow): Drink
  {
    ZeroDrink.(name := row.name, mixing := row.mixing, glass := row.glass, serving := row.serving, notes := row.notes)
  }

  /** `describeDrinkByID`: the first base row, not found when there is none or its mixing is empty. */
  function Hydrate(t: Tables, id: int): Lookup
  {
    var base := BaseRows(t.drinks, id);
    if base == [] || |base[0].mixing| == 0 then NotFound
    else Found(BaseDrink(base[0]).(ingredients := ToDrinkIngredients(SortRows(JoinedRows(t, id)))))
  }

  /** The id of the first drink row with the given name, or Go's zero value 0 when there is none. */
  function FirstIdByName(drinks: seq<DrinkRow>, name: string): int
  {
    if drinks == [] then 0 else if drinks[0].name == name then drinks[0].id else FirstIdByName(drinks[1..], name)
  }

  /** `Describe`. */
  function DescribeSpec(t: Tables, query: string): Lookup
  {
    Hydrate(t, FirstIdByName(t.drinks, query))
  }

  /** The drinks among the lookups, in order; the misses are skipped. */
  function Founds(ls: seq<Lookup>): (r: seq<Drink>)
    ensures |r| <= |ls|
  {
    if ls == [] then []
    else
      Founds(ls[..|ls| - 1]) +
        match ls[|ls| - 1]
        case Found(d) => [d]
        case NotFound => []
  }

  /** The hydration of each id, in order. */
  function Lookups(t: Tables, ids: seq<int>): (r: seq<Lookup>)
    ensures |r| == |ids|
  {
    if ids == [] then [] else Lookups(t, ids[..|ids| - 1]) + [Hydrate(t, ids[|ids| - 1])]
  }

  /** The drinks of `ids` that hydrate, in the order of `ids`; the others are skipped. */
  function HydrateAll(t: Tables, ids: seq<int>): (r: seq<Drink>)
    ensures |r| <= |ids|
  {
    Founds(Lookups(t, ids))
  }

  /** The pattern of the Random query: the query with a `%` wildcard on each side. */
  function RandomPattern(query: string): string
  {
    "%" + query + "%"
  }

  function MatchCount(ings: seq<IngredientRow>, ingredientId: int, pattern: string): nat
  {
    if ings == [] then 0
    else (if ings[0].id == ingredientId && Like(ings[0].name, pattern) then 1 else 0) + MatchCount(ings[1..], ingredientId, pattern)
  }

  function Copies(x: int, n: nat): seq<int>
  {
    if n == 0 then [] else [x] + Copies(x, n - 1)
  }

  function CandidatesFrom(dis: seq<DrinkIngredientRow>, ings: seq<IngredientRow>, pattern: string): seq<int>
  {
    if dis == [] then []
    else Copies(dis[0].drinkId, MatchCount(ings, dis[0].ingredientId, pattern)) + CandidatesFrom(dis[1..], ings, pattern)
  }

  /**
   * The drink ids the Random query draws from, before the random order and the
   * limit are applied: one drink id per (association, ingredient row) pair whose
   * ingredient name matches the pattern, duplicates kept.
   */
  function CandidateIds(t: Tables, query: string): seq<int>
  {
    CandidatesFrom(t.drinkIngredients, t.ingredients, RandomPattern(query))
  }

  function Min(a: int, b: int): int
  {
    if a <= b then a else b
  }

  /**
   * What the random order cut to `num` rows may return: `num` of the candidate rows
   * (all of them when there are fewer), in any order.
   */
  predicate IsRandomPick(t: Tables, query: string, num: nat, picked: seq<int>)
  {
    var candidates := CandidateIds(t, query);
    |picked| == Min(num, |candidates|) && multiset(picked) <= multiset(candidates)
  }

  // ---------------------------------------------------------------------------
  // Properties of the read model

  /** Primary-key uniqueness of `drinks.id`, which the schema guarantees and the code does not rely on. */
  predicate UniqueDrinkIds(t: Tables)
  {
    forall i, j :: 0 <= i < j < |t.drinks| ==> t.drinks[i].id != t.drinks[j].id
  }

  /** Without any row for the id the drink is not found, and the ingredient query is never needed. */
  lemma HydrateNoRow(t: Tables, id: int)
    requires forall k :: 0 <= k < |t.drinks| ==> t.drinks[k].id != id
    ensures Hydrate(t, id) == NotFound
  {
    BaseRowsFirst(t.drinks, id);
  }

  /**
   * Only the first row with the id is used: the drink is not found when its
   * mixing is empty, and otherwise has that row's name, mixing, glass, serving
   * and notes, id 0 and an empty author (neither is selected), and the ordered
   * ingredient rows.
   */
  lemma HydrateFirstRow(t: Tables, id: int, k: int)
    requires IsFirstWithId(t.drinks, id, k)
    ensures var row := t.drinks[k];
      Hydrate(t, id) ==
        if row.mixing == "" then NotFound
        else Found(Drink(0, ToDrinkIngredients(SortRows(JoinedRows(t, id))), row.mixing, row.serving,
                         row.glass, row.notes, row.name, ""))
  {
    BaseRowsFirst(t.drinks, id);
    var j :| IsFirstWithId(t.drinks, id, j) && t.drinks[j] == BaseRows(t.drinks, id)[0];
    assert j == k;
  }

  lemma {:induction false} JoinIngredientsMembers(d: DrinkRow, di: DrinkIngredientRow, ings: seq<IngredientRow>, row: JoinedRow)
    ensures row in JoinIngredients(d, di, ings) <==>
      exists e :: 0 <= e < |ings| && ings[e].id == di.ingredientId && row == Joined(d, di, ings[e])
  {
    if ings != [] {
      JoinIngredientsMembers(d, di, ings[1..], row);
      assert forall e :: 1 <= e < |ings| ==> ings[e] == ings[1..][e - 1];
      if exists e :: 0 <= e < |ings| && ings[e].id == di.ingredientId && row == Joined(d, di, ings[e]) {
        var e :| 0 <= e < |ings| && ings[e].id == di.ingredientId && row == Joined(d, di, ings[e]);
        if e > 0 {
          assert ings[1..][e - 1] == ings[e];
        }
      }
    }
  }

  lemma {:induction false} JoinAssociationsMembers(d: DrinkRow, dis: seq<DrinkIngredientRow>, ings: seq<IngredientRow>, row: JoinedRow)
    ensures row in JoinAssociations(d, dis, ings) <==>
      exists b, e :: 0 <= b < |dis| && 0 <= e < |ings| && dis[b].drinkId == d.id &&
        ings[e].id == dis[b].ingredientId && row == Joined(d, dis[b], ings[e])
  {
    if dis != [] {
      JoinAssociationsMembers(d, dis[1..], ings, row);
      JoinIngredientsMembers(d, dis[0], ings, row);
      assert forall b :: 1 <= b < |dis| ==> dis[b] == dis[1..][b - 1];
      if exists b, e :: 0 <= b < |dis| && 0 <= e < |ings| && dis[b].drinkId == d.id &&
          ings[e].id == dis[b].ingredientId && row == Joined(d, dis[b], ings[e]) {
        var b, e :| 0 <= b < |dis| && 0 <= e < |ings| && dis[b].drinkId == d.id &&
          ings[e].id == dis[b].ingredientId && row == Joined(d, dis[b], ings[e]);
        if b > 0 {
          assert dis[1..][b - 1] == dis[b];
        }
      }
    }
  }

  lemma {:induction false} JoinDrinksMembers(drinks: seq<DrinkRow>, id: int, t: Tables, row: JoinedRow)
    ensures row in JoinDrinks(drinks, id, t) <==>
      exists a :: 0 <= a < |drinks| && drinks[a].id == id &&
        row in JoinAssociations(drinks[a], t.drinkIngredients, t.ingredients)
  {
    if drinks != [] {
      JoinDrinksMembers(drinks[1..], id, t, row);
      assert forall a :: 1 <= a < |drinks| ==> drinks[a] == drinks[1..][a - 1];
    }
  }

  /**
   * The ingredient query returns exactly the joins of a drink row with that id,
   * an association row of that drink and the ingredient row it names.
   */
  lemma JoinedRowsMembers(t: Tables, id: int, row: JoinedRow)
    ensures row in JoinedRows(t, id) <==>
      exists a, b, e :: 0 <= a < |t.drinks| && 0 <= b < |t.drinkIngredients| && 0 <= e < |t.ingredients| &&
        t.drinks[a].id == id && t.drinkIngredients[b].drinkId == id &&
        t.ingredients[e].id == t.drinkIngredients[b].ingredientId &&
        row == Joined(t.drinks[a], t.drinkIngredients[b], t.ingredients[e])
  {
    var dis, ings := t.drinkIngredients, t.ingredients;
    JoinDrinksMembers(t.drinks, id, t, row);
    if row in JoinedRows(t, id) {
      var a :| 0 <= a < |t.drinks| && t.drinks[a].id == id && row in JoinAssociations(t.drinks[a], dis, ings);
      JoinAssociationsMembers(t.drinks[a], dis, ings, row);
      var b, e :| 0 <= b < |dis| && 0 <= e < |ings| && dis[b].drinkId == t.drinks[a].id &&
        ings[e].id == dis[b].ingredientId && row == Joined(t.drinks[a], dis[b], ings[e]);
      assert t.drinkIngredients[b].drinkId == id;
    }
    if exists a, b, e :: 0 <= a < |t.drinks| && 0 <= b < |dis| && 0 <= e < |ings| &&
        t.drinks[a].id == id && dis[b].drinkId == id && ings[e].id == dis[b].ingredientId &&
        row == Joined(t.drinks[a], dis[b], ings[e]) {
      var a, b, e :| 0 <= a < |t.drinks| && 0 <= b < |dis| && 0 <= e < |ings| &&
        t.drinks[a].id == id && dis[b].drinkId == id && ings[e].id == dis[b].ingredientId &&
        row == Joined(t.drinks[a], dis[b], ings[e]);
      JoinAssociationsMembers(t.drinks[a], dis, ings, row);
    }
  }

  lemma ToDrinkIngredientsAppend(a: seq<JoinedRow>, b: seq<JoinedRow>)
    ensures ToDrinkIngredients(a + b) == ToDrinkIngredients(a) + ToDrinkIngredients(b)
  {
  }

  lemma OrderedTail(rows: seq<JoinedRow>)
    requires Ordered(rows) && rows != []
    ensures Ordered(rows[1..])
  {
    assert forall k :: 0 < k < |rows| - 1 ==> rows[1..][k - 1] == rows[k] && rows[1..][k] == rows[k + 1];
  }

  lemma {:induction false} InsertRowIngredients(x: JoinedRow, rows: seq<JoinedRow>)
    requires Ordered(rows)
    ensures multiset(ToDrinkIngredients(InsertRow(x, rows))) ==
      multiset(ToDrinkIngredients(rows)) + multiset{ToDrinkIngredient(x)}
  {
    if rows != [] && !RowLe(x, rows[0]) {
      OrderedTail(rows);
      var tail := InsertRow(x, rows[1..]);
      assert InsertRow(x, rows) == [rows[0]] + tail;
      InsertRowIngredients(x, rows[1..]);
      ToDrinkIngredientsAppend([rows[0]], tail);
      ToDrinkIngredientsAppend([rows[0]], rows[1..]);
      assert [rows[0]] + rows[1..] == rows;
    } else {
      assert InsertRow(x, rows) == [x] + rows;
      ToDrinkIngredientsAppend([x], rows);
    }
  }

  lemma {:induction false} SortRowsIngredients(rows: seq<JoinedRow>)
    ensures multiset(ToDrinkIngredients(SortRows(rows))) == multiset(ToDrinkIngredients(rows))
  {
    if rows != [] {
      SortRowsIngredients(rows[1..]);
      InsertRowIngredients(rows[0], SortRows(rows[1..]));
      assert ToDrinkIngredients(rows) == [ToDrinkIngredient(rows[0])] + ToDrinkIngredients(rows[1..]);
    }
  }

  /** Adjacent order of amounts gives the order of all pairs. */
  lemma {:induction false} AmountsDescending(rows: seq<JoinedRow>, name: string)
    requires Ordered(rows)
    requires forall k :: 0 <= k < |rows| ==> rows[k].drinkName == name
    ensures forall i, j :: 0 <= i < j < |rows| ==> rows[i].amount >= rows[j].amount
  {
    if |rows| > 1 {
      AmountsDescending(rows[1..], name);
      assert forall j :: 1 <= j < |rows| ==> rows[j] == rows[1..][j - 1];
      assert RowLe(rows[0], rows[1]);
    }
  }

  /** With unique ids, every joined row of an id carries the name of its one drink row. */
  lemma JoinedRowName(t: Tables, id: int, a: int, row: JoinedRow)
    requires UniqueDrinkIds(t) && IsFirstWithId(t.drinks, id, a)
    requires row in JoinedRows(t, id)
    ensures row.drinkName == t.drinks[a].name
  {
    JoinedRowsMembers(t, id, row);
    var a', b, e :| 0 <= a' < |t.drinks| && 0 <= b < |t.drinkIngredients| && 0 <= e < |t.ingredients| &&
      t.drinks[a'].id == id && t.drinkIngredients[b].drinkId == id &&
      t.ingredients[e].id == t.drinkIngredients[b].ingredientId &&
      row == Joined(t.drinks[a'], t.drinkIngredients[b], t.ingredients[e]);
    assert a' == a;
  }

  /**
   * A hydrated drink holds exactly the joined ingredient rows of its id (as a
   * multiset), and, when drink ids are unique, in descending order of amount.
   */
  lemma HydratedIngredients(t: Tables, id: int)
    requires Hydrate(t, id).Found?
    ensures var d := Hydrate(t, id).drink;
      multiset(d.ingredients) == multiset(ToDrinkIngredients(JoinedRows(t, id))) &&
      (UniqueDrinkIds(t) ==>
        forall i, j :: 0 <= i < j < |d.ingredients| ==> d.ingredients[i].amount >= d.ingredients[j].amount)
  {
    var rows := JoinedRows(t, id);
    var sorted := SortRows(rows);
    SortRowsIngredients(rows);
    if UniqueDrinkIds(t) {
      BaseRowsFirst(t.drinks, id);
      var a :| IsFirstWithId(t.drinks, id, a) && t.drinks[a] == BaseRows(t.drinks, id)[0];
      forall k | 0 <= k < |sorted|
        ensures sorted[k].drinkName == t.drinks[a].name
      {
        assert sorted[k] in multiset(sorted);
        JoinedRowName(t, id, a, sorted[k]);
      }
      AmountsDescending(sorted, t.drinks[a].name);
    }
  }

  /** Without a drink of that name, Describe hydrates id 0, Go's zero value. */
  lemma DescribeNoMatch(t: Tables, query: string)
    requires forall k :: 0 <= k < |t.drinks| ==> t.drinks[k].name != query
    ensures DescribeSpec(t, query) == Hydrate(t, 0)
  {
    FirstIdByNameMissing(t.drinks, query);
  }

  /** Without a row of that name the id stays Go's zero value. */
  lemma {:induction false} FirstIdByNameMissing(drinks: seq<DrinkRow>, name: string)
    requires forall k :: 0 <= k < |drinks| ==> drinks[k].name != name
    ensures FirstIdByName(drinks, name) == 0
  {
    if drinks != [] {
      assert drinks[0].name != name;
      assert forall k :: 0 <= k < |drinks| - 1 ==> drinks[1..][k] == drinks[k + 1];
      FirstIdByNameMissing(drinks[1..], name);
    }
  }

  /** With unique ids, a drink Describe finds under a matching name carries that name. */
  lemma DescribeFindsName(t: Tables, query: string, k: int)
    requires UniqueDrinkIds(t)
    requires 0 <= k < |t.drinks| && t.drinks[k].name == query
    requires DescribeSpec(t, query).Found?
    ensures DescribeSpec(t, query).drink.name == query
  {
    var i := FirstNameIndex(t.drinks, query, k);
    var id := t.drinks[i].id;
    assert IsFirstWithId(t.drinks, id, i);
    HydrateFirstRow(t, id, i);
  }

  /**
   * With unique ids, `Describe` answers from the first row with the name: not
   * found for an empty mixing, and otherwise that row's drink.
   */
  lemma DescribeFirstRow(t: Tables, query: string, k: int)
    requires UniqueDrinkIds(t)
    requires 0 <= k < |t.drinks| && t.drinks[k].name == query
    requires forall j :: 0 <= j < k ==> t.drinks[j].name != query
    ensures var row := t.drinks[k];
      DescribeSpec(t, query) ==
        if row.mixing == "" then NotFound
        else Found(Drink(0, ToDrinkIngredients(SortRows(JoinedRows(t, row.id))), row.mixing, row.serving,
                         row.glass, row.notes, row.name, ""))
  {
    var i := FirstNameIndex(t.drinks, query, k);
    assert i == k;
    assert IsFirstWithId(t.drinks, t.drinks[k].id, k);
    HydrateFirstRow(t, t.drinks[k].id, k);
  }

  /** The index of the first row with this name; `FirstIdByName` returns its id. */
  lemma {:induction false} FirstNameIndex(drinks: seq<DrinkRow>, name: string, k: int) returns (i: int)
    requires 0 <= k < |drinks| && drinks[k].name == name
    ensures 0 <= i <= k && drinks[i].name == name && FirstIdByName(drinks, name) == drinks[i].id
  {
    if drinks[0].name == name {
      i := 0;
    } else {
      var j := FirstNameIndex(drinks[1..], name, k - 1);
      i := j + 1;
    }
  }

  lemma {:induction false} LookupsAt(t: Tables, ids: seq<int>, k: nat)
    requires k < |ids|
    ensures Lookups(t, ids)[k] == Hydrate(t, ids[k])
  {
    if k < |ids| - 1 {
      LookupsAt(t, ids[..|ids| - 1], k);
    }
  }

  /** One more lookup adds its drink, if any, at the end. */
  lemma FoundsPrefix(ls: seq<Lookup>, k: nat)
    requires k < |ls|
    ensures Founds(ls[..k + 1]) == Founds(ls[..k]) + match ls[k] case Found(d) => [d] case NotFound => []
  {
    assert ls[..k + 1][..k] == ls[..k];
  }

  /** A drink is among the founds exactly when one of the lookups found it. */
  lemma {:induction false} FoundsMembers(ls: seq<Lookup>, d: Drink)
    ensures d in Founds(ls) <==> exists k :: 0 <= k < |ls| && ls[k] == Found(d)
  {
    if ls != [] {
      var init := ls[..|ls| - 1];
      FoundsMembers(init, d);
      assert forall k :: 0 <= k < |init| ==> init[k] == ls[k];
    }
  }

  /** A drink is returned exactly when one of the ids hydrates to it. */
  lemma HydrateAllMembers(t: Tables, ids: seq<int>, d: Drink)
    ensures d in HydrateAll(t, ids) <==> exists k :: 0 <= k < |ids| && Hydrate(t, ids[k]) == Found(d)
  {
    var ls := Lookups(t, ids);
    FoundsMembers(ls, d);
    forall k | 0 <= k < |ids|
      ensures ls[k] == Hydrate(t, ids[k])
    {
      LookupsAt(t, ids, k);
    }
  }

  lemma {:induction false} MatchCountPositive(ings: seq<IngredientRow>, ingredientId: int, pattern: string)
    ensures MatchCount(ings, ingredientId, pattern) > 0 <==>
      exists e :: 0 <= e < |ings| && ings[e].id == ingredientId && Like(ings[e].name, pattern)
  {
    if ings != [] {
      MatchCountPositive(ings[1..], ingredientId, pattern);
      assert forall e :: 1 <= e < |ings| ==> ings[e] == ings[1..][e - 1];
    }
  }

  lemma {:induction false} CopiesMembers(x: int, n: nat, y: int)
    ensures y in Copies(x, n) <==> n > 0 && y == x
  {
    if n > 0 {
      CopiesMembers(x, n - 1, y);
    }
  }

  lemma {:induction false} CandidatesFromMembers(dis: seq<DrinkIngredientRow>, ings: seq<IngredientRow>, pattern: string, id: int)
    ensures id in CandidatesFrom(dis, ings, pattern) <==>
      exists b, e :: 0 <= b < |dis| && 0 <= e < |ings| && dis[b].drinkId == id &&
        ings[e].id == dis[b].ingredientId && Like(ings[e].name, pattern)
  {
    if dis != [] {
      CandidatesFromMembers(dis[1..], ings, pattern, id);
      CopiesMembers(dis[0].drinkId, MatchCount(ings, dis[0].ingredientId, pattern), id);
      MatchCountPositive(ings, dis[0].ingredientId, pattern);
      assert forall b :: 1 <= b < |dis| ==> dis[b] == dis[1..][b - 1];
      if exists b, e :: 0 <= b < |dis| && 0 <= e < |ings| && dis[b].drinkId == id &&
          ings[e].id == dis[b].ingredientId && Like(ings[e].name, pattern) {
        var b, e :| 0 <= b < |dis| && 0 <= e < |ings| && dis[b].drinkId == id &&
          ings[e].id == dis[b].ingredientId && Like(ings[e].name, pattern);
        if b > 0 {
          assert dis[1..][b - 1] == dis[b];
        }
      }
    }
  }

  /**
   * Every id the Random query considers has an association row joining an
   * ingredient whose name matches the pattern; a wildcard-free query matches
   * by substring.
   */
  lemma CandidateIdsMatch(t: Tables, query: string, id: int)
    requires NoWildcards(query)
    ensures id in CandidateIds(t, query) <==>
      exists b, e :: 0 <= b < |t.drinkIngredients| && 0 <= e < |t.ingredients| &&
        t.drinkIngredients[b].drinkId == id && t.ingredients[e].id == t.drinkIngredients[b].ingredientId &&
        Contains(t.ingredients[e].name, query)
  {
    CandidatesFromMembers(t.drinkIngredients, t.ingredients, RandomPattern(query), id);
    forall e | 0 <= e < |t.ingredients|
      ensures Like(t.ingredients[e].name, RandomPattern(query)) <==> Contains(t.ingredients[e].name, query)
    {
      LikeContains(t.ingredients[e].name, query);
    }
  }

  /**
   * Random returns at most `num` drinks, each with a mixing, each the hydration
   * of one of the picked ids, and every picked id is a candidate of the query.
   */
  lemma RandomDrinks(t: Tables, query: string, num: nat, picked: seq<int>)
    requires IsRandomPick(t, query, num, picked)
    ensures |HydrateAll(t, picked)| <= num
    ensures forall k :: 0 <= k < |picked| ==> picked[k] in CandidateIds(t, query)
    ensures forall d :: d in HydrateAll(t, picked) ==>
      d.mixing != "" && exists k :: 0 <= k < |picked| && Hydrate(t, picked[k]) == Found(d)
  {
    forall k | 0 <= k < |picked|
      ensures picked[k] in CandidateIds(t, query)
    {
      assert picked[k] in multiset(picked);
    }
    forall d | d in HydrateAll(t, picked)
      ensures d.mixing != "" && exists k :: 0 <= k < |picked| && Hydrate(t, picked[k]) == Found(d)
    {
      HydrateAllMembers(t, picked, d);
      var k :| 0 <= k < |picked| && Hydrate(t, picked[k]) == Found(d);
    }
  }

  /** `DrinkDB`: the store's read operations over one database. */
  class DrinkDB {
    const db: Tables

    constructor(db: Tables)
      ensures this.db == db
    {
      this.db := db;
    }

    /** `describeDrinkByID`. */
    method DescribeDrinkById(drinkId: int) returns (res: Lookup)
      ensures res == Hydrate(db, drinkId)
    {
      var rows := BaseRows(db.drinks, drinkId);
      var drink := ZeroDrink;
      // the cursor loop scans its first row and breaks
      if rows != [] {
        drink := BaseDrink(rows[0]);
      }
      if |drink.mixing| == 0 {
        return NotFound;
      }
      var ingredients := ScanIngredients(SortRows(JoinedRows(db, drinkId)));
      res := Found(drink.(ingredients := ingredients));
    }

    /** The cursor loop over the ingredient rows, appending one scanned ingredient per row. */
    method ScanIngredients(rows: seq<JoinedRow>) returns (ingredients: seq<DrinkIngredient>)
      ensures ingredients == ToDrinkIngredients(rows)
    {
      ingredients := [];
      for k := 0 to |rows|
        invariant ingredients == ToDrinkIngredients(rows[..k])
      {
        ingredients := ingredients + [ToDrinkIngredient(rows[k])];
      }
      assert rows[..|rows|] == rows;
    }

    /** `Describe`: the id of the first drink with exactly this name, then hydration. */
    method Describe(query: string) returns (res: Lookup)
      ensures res == DescribeSpec(db, query)
    {
      var drinkId := 0;
      var rows := db.drinks;
      var i := 0;
      while i < |rows|
        invariant 0 <= i <= |rows|
        invariant drinkId == 0
        invariant FirstIdByName(rows, query) == FirstIdByName(rows[i..], query)
      {
        if rows[i].name == query {
          drinkId := rows[i].id;
          break;
        }
        assert rows[i..][1..] == rows[i + 1..];
        i := i + 1;
      }
      res := DescribeDrinkById(drinkId);
    }

    /**
     * `Random`: the picked ids are read off the cursor, then hydrated one by one;
     * an id that does not hydrate is skipped, and the call never fails.
     */
    method Random(query: string, num: nat, picked: seq<int>) returns (res: seq<Drink>)
      requires IsRandomPick(db, query, num, picked)
      ensures res == HydrateAll(db, picked)
      ensures |res| <= num
    {
      var drinkIds: seq<int> := [];
      for k := 0 to |picked|
        invariant drinkIds == picked[..k]
      {
        drinkIds := drinkIds + [picked[k]];
      }
      assert drinkIds == picked;
      ghost var lookups := Lookups(db, drinkIds);
      res := [];
      for k := 0 to |drinkIds|
        invariant res == Founds(lookups[..k])
      {
        var drink := DescribeDrinkById(drinkIds[k]);
        LookupsAt(db, drinkIds, k);
        FoundsPrefix(lookups, k);
        if drink.NotFound? {
          continue;
        }
        res := res + [drink.drink];
      }
      assert lookups[..|drinkIds|] == lookups;
    }
  }
}
