/**
 * The record types of the bot (types.go). They carry no behaviour; `DrinkID` and
 * `IngredientID` are plain integers in the Go code and are plain `int`s here.
 */
module Types {
  /** An ingredient row: identity, unique name, category (spirit, bitters, garnish, ...) and description. */
  datatype Ingredient = Ingredient(id: int, name: string, category: string, desc: string)

  /** One ingredient of a drink with its amount, whose unit depends on the category. */
  datatype DrinkIngredient = DrinkIngredient(ingredient: Ingredient, amount: int)

  /** A drink: base attributes and its ordered ingredient list. */
  datatype Drink = Drink(
    id: int,
    ingredients: seq<DrinkIngredient>,
    mixing: string,
    serving: string,
    glass: string,
    notes: string,
    name: string,
    author: string)

  /** Go's zero value of `Drink`: every string empty, no ingredients, id 0. */
  const ZeroDrink := Drink(0, [], "", "", "", "", "", "")
}
