# bottender — a Dafny model of the recipe bot's core

bottender is a Keybase chat bot that keeps cocktail recipes in a MySQL
database. This project models three parts of it:

- the command handlers (`bottender.go`): `!bottender describe <drink>`,
  `!bottender random [<ingredient>]` and `!bottender addrecipe --ingredient name,amount … --mixing … --glass … --serving … [--notes …] <name>`,
  with the dispatch in `handleCommand`;
- the read side of the store (`db.go`): `describeDrinkByID`, `Describe` and
  `Random`, over the three tables held in memory;
- the text rendering (`display.go`): an ingredient line, the full drink
  template, and the list of names.

The modules are:

- `Types` (types.dfy): the records `Ingredient`, `DrinkIngredient` and `Drink`.
- `Strings` (strings.dfy): Go's single-character `strings.Split`, `strings.Join`
  and `strings.Trim(s, " ")`, with their round trips.
- `Numbers` (numbers.dfy): `%d`; `strconv.ParseInt(s, 0, 0)` for a 64-bit `int`,
  with base prefixes, signs and underscores; and `%.2f` of `n/100`, in exact
  integer arithmetic.
- `Display` (display.dfy): `DisplayFull`, the drink template, and
  `DisplayDrinkFull` and `DrinkNames` as loops proved against it.
- `SqlLike` (like.dfy): the `LIKE` patterns the store builds.
- `Store` (store.dfy): the tables, each SELECT as a function over the rows, and
  the class `DrinkDB`. Its methods walk the row cursors as the Go code does and
  are proved equal to the specification functions `Hydrate`, `DescribeSpec`
  and `HydrateAll`.
- `Bot` (bot.dfy): the class `BotServer`. Its fields are an outbox of send
  attempts and the log of store calls. Its handlers are proved to append
  exactly the sends and calls of the `Effect` functions `DescEffect`,
  `RandomEffect`, `AddRecipeEffect` and `CommandEffect`. The store, the
  shell-style tokenizer and the flag parser are `Oracles`: total functions
  from a call's arguments to its answer.
- `Wiring` (wiring.dfy): the describe command answered by the `Store` model.

Every operation that loops or changes state appears twice: as the method
that does it (`HandleDesc`, `DisplayDrinkFull`, `DrinkDB.Describe`,
`DrinkDB.Random`, …) and as the function that specifies its result
(`DescEffect`, `DrinkText`, `DescribeSpec`, `HydrateAll`, …). Each method is
proved equal to its function. The properties are proved about the function,
because lemmas cannot call methods. In `BotServer.ReadFlags`, the loop of
`IngredientFlags.Set` calls stands in for the flag package feeding each
`--ingredient` value to the flag. The values it gathers are the ones the flag
parser reports.

Go's `strings.Split`, `strings.Join`, `strings.Trim`, `strings.HasPrefix`,
`strconv.ParseInt` and `fmt` verbs are modelled as defined in the Go
standard library.

## Model

| member | source | states |
|---|---|---|
| Bot.Classify | bottender.go:268-277 | each command is chosen exactly when its prefix starts the text; no text starts with two of the prefixes |
| Bot.Dispatch | bottender.go:263-278 | a message without text, or with no known prefix, does nothing; otherwise the describe, random or addrecipe handler runs, in that order of precedence |
| Bot.BotServer.HandleCommand | bottender.go:263-278 | appends exactly the sends and store calls of `CommandEffect` for the message |
| Bot.BotServer.constructor | bottender.go:31-36 | the server starts with the given collaborators, no sends and no store calls |
| Bot.BotServer.SendMessage | bottender.go:140-142 | one send to the conversation is appended; its result is ignored, as every handler ignores it |
| Bot.BotServer.SendBroadcast | bottender.go:255-260 | one broadcast is appended; its result is ignored |
| Bot.BotServer.Describe | bottender.go:114 | returns the store's answer for the query and logs the one call |
| Bot.BotServer.Random | bottender.go:136 | returns the store's answer for the filter and count and logs the one call |
| Bot.BotServer.DescribeIngredient | bottender.go:229 | returns the store's answer for the name and logs the one call |
| Bot.BotServer.AddRecipe | bottender.go:242 | returns the store's error, if any, for the recipe and logs the one call |
| Bot.BotServer.HandleDesc | bottender.go:105-127 | appends exactly the sends and calls of `DescEffect`: the split on spaces, the three-term check, the rejoined query and the three outcomes of the store |
| Bot.DescQueryNeedsTwoSpaces | bottender.go:106-112 | the describe command has a query exactly when the text holds at least two spaces |
| Bot.TermsAfterTwoWords | bottender.go:106-113 | after two space-free words and one space each, the query is the rest of the text, unchanged |
| Bot.CommandWords | bottender.go:106 | a text of two space-free words splits into exactly those two terms |
| Bot.DescribeCommandEffect | bottender.go:105-127 | the bare command asks for a query and calls nothing; otherwise one describe call with the rest of the text, and one reply each for found and not found, none for another error |
| Bot.DescribeDoubleSpace | bottender.go:106-113 | a double space after the command puts a leading space into the query |
| Bot.BotServer.HandleRandom | bottender.go:129-155 | appends exactly the sends and calls of `RandomEffect`: the trimmed split, the optional filter, ten drinks asked for and the replies |
| Bot.BotServer.SendPicks | bottender.go:139-151 | appends "no drinks found" for no drinks; otherwise the introduction and then the coin flip over the names |
| Bot.RandomFilterNeedsTwoSpaces | bottender.go:130-135 | there is a filter exactly when the text, trimmed of spaces, holds at least two spaces |
| Bot.RandomCommandFilter | bottender.go:130-135 | trailing spaces never reach the filter: the padded bare command has none, and after the command and one space the filter is the rest of the text up to the padding |
| Bot.RandomOutcomes | bottender.go:136-154 | always one random call with the filter and 10; no reply on a store error, one for no drinks, and two otherwise, the coin flip last |
| Bot.JoinCommaSpace | bottender.go:147 | joining with ", " is joining with "," the names that carry a leading space after the first |
| Bot.FlipListsNames | bottender.go:147 | the coin-flip text starts with "/flip " and, split at commas, lists every drink's name in order |
| Bot.IngredientFlags.constructor | bottender.go:182 | the collected values start empty |
| Bot.IngredientFlags.Set | bottender.go:163-166 | appends the value to the collected values and never fails |
| Bot.BotServer.ReadFlags | bottender.go:169-210 | calls nothing; on any of the five early failures sends exactly its one message; otherwise sends nothing and returns the parsed flags with every `--ingredient` value in order |
| Bot.AddRecipeChecks | bottender.go:169-210 | the five checks in their order (split, at least three tokens, flag parse, one positional name, mixing, serving and glass present); each failure sends its one message and calls nothing |
| Bot.Checks | bottender.go:213-241 | one check per ingredient value, in order |
| Bot.ChecksAt | bottender.go:213-241 | check k is the check of value k |
| Bot.TokenShape | bottender.go:214-220 | a value without exactly one comma is rejected as "invalid ingredient" and nothing is looked up |
| Bot.TokenParts | bottender.go:214-240 | for `name,amount`: a bad amount is rejected with nothing looked up; a good one looks up the name once, and the lookup decides between "failed to describe ingredient" and the ingredient at that amount |
| Bot.GoodTokenExample | bottender.go:214-240 | "bourbon,200" gives bourbon at 200 when bourbon is known |
| Bot.AmountNotTrimmed | bottender.go:221-228 | an amount starting with a space or a letter is rejected as written, and nothing is looked up |
| Bot.TokenCallsAreLookups | bottender.go:214-236 | every store call made while checking a value is an ingredient lookup |
| Bot.CollectPrefix | bottender.go:213-241 | the loop over the values is a left fold: one more value is one more step |
| Bot.CollectStops | bottender.go:215-236 | after the first failing value, later values change nothing |
| Bot.CollectSucceeds | bottender.go:213-241 | the loop succeeds exactly when every value is good |
| Bot.CollectIngredients | bottender.go:237-240 | on success, there is one ingredient per value, in order |
| Bot.CollectFails | bottender.go:215-236 | on failure, the message is that of the first failing value, and every value before it is good |
| Bot.CollectCalls | bottender.go:229 | every call the loop makes was made while checking one of the values |
| Bot.ChecksOfValues | bottender.go:213-241 | each check is the check of its own value |
| Bot.CollectOnlyLooksUp | bottender.go:229 | the ingredient loop makes only ingredient lookups |
| Bot.CollectValues | bottender.go:213-241 | over the values themselves: the loop succeeds exactly when each value is good, and then holds one ingredient per value in order; otherwise it fails with the message of the first bad value; it only looks up ingredients |
| Bot.BotServer.CheckIngredient | bottender.go:214-240 | checks one value: makes its lookups and sends nothing when it is good, or sends its one message when it is bad |
| Bot.BotServer.ReadIngredients | bottender.go:212-241 | runs the loop: returns the ingredients and appends the lookups of `Collect`; on a failure sends its one message |
| Bot.BotServer.Submit | bottender.go:212-260 | appends exactly the sends and calls of the ingredient loop, `AddRecipe` and the replies |
| Bot.BotServer.HandleAddRecipe | bottender.go:168-261 | appends exactly the sends and calls of `AddRecipeEffect` |
| Bot.AddRecipeSubmits | bottender.go:212-248 | `AddRecipe` is called exactly when every check passes and every value is good; it is then the last call, with the positional name, the mixing, glass, serving and notes, the ingredients in order, and the sender as author |
| Bot.AddRecipeSends | bottender.go:169-260 | the whole reply table: a successful `AddRecipe` sends exactly the four announcements in order, each naming the submitted recipe; a failed one sends only "failed to add recipe"; a failed check before the loop sends only its message, and so does the first bad ingredient value |
| Store.BaseRows | db.go:26-30 | the base query yields only rows with the id |
| Store.BaseRowsFirst | db.go:26-42 | the base query yields a row exactly when some row has the id, and the row scanned is the first such row |
| Store.HydrateNoRow | db.go:37-47 | without a row for the id the drink is not found |
| Store.HydrateFirstRow | db.go:25-71 | the first row decides: not found for an empty mixing, and otherwise its name, mixing, glass, serving and notes, an id of 0 and no author, with the sorted ingredient rows |
| Store.JoinIngredientsMembers | db.go:50-57 | the rows joined to one association are exactly its joins with the ingredient rows of its ingredient id |
| Store.JoinAssociationsMembers | db.go:50-57 | the rows joined to one drink row are exactly the joins of its associations with their ingredient rows |
| Store.JoinDrinksMembers | db.go:50-57 | a row is joined exactly when it is joined to some drink row with the id |
| Store.JoinedRowsMembers | db.go:50-57 | a row is in the ingredient query for the id exactly when a drink row with the id, one of its associations and that association's ingredient produce it |
| Store.StringLeTotal | db.go:56 | the ordering by drink name is total |
| Store.InsertRow | db.go:56 | insertion keeps the rows ordered by drink name and then by amount, largest first, and adds exactly the one row |
| Store.SortRows | db.go:50-57 | the sorted rows are ordered and are a permutation of the query's rows |
| Store.ToDrinkIngredientsAppend | db.go:62-69 | scanning one more row appends its ingredient |
| Store.OrderedTail | db.go:56 | the rows after the first are ordered too |
| Store.InsertRowIngredients | db.go:56-69 | inserting a row adds exactly that row's ingredient to the scanned ingredients, as a multiset |
| Store.SortRowsIngredients | db.go:50-69 | the scanned ingredients are a permutation of the query's rows |
| Store.AmountsDescending | db.go:56 | rows of one drink name come with amounts in descending order |
| Store.JoinedRowName | db.go:50-57 | every row of the ingredient query for the id carries the name of a drink row with that id |
| Store.HydratedIngredients | db.go:50-69 | a found drink's ingredients are a permutation of the ingredient query's rows; with unique drink ids they come in descending amount |
| Store.DrinkDB.constructor | db.go:11-19 | the store holds the given tables |
| Store.DrinkDB.DescribeDrinkById | db.go:25-71 | returns `Hydrate` of the tables and the id |
| Store.DrinkDB.ScanIngredients | db.go:62-69 | the scan loop builds one ingredient per row, in row order |
| Store.DescribeNoMatch | db.go:73-86 | without a drink of that name, `Describe` hydrates id 0, the zero value of the id it scans into |
| Store.FirstIdByNameMissing | db.go:78-84 | without a row of that name the scanned id keeps its zero value |
| Store.DescribeFindsName | db.go:73-87 | with unique ids, a drink found by name carries that name |
| Store.FirstNameIndex | db.go:79-84 | the id `Describe` hydrates is that of the first row with the name |
| Store.DescribeFirstRow | db.go:73-87 | with unique ids, `Describe` answers from the first row with the name: not found for an empty mixing, and otherwise that row's name, mixing, glass, serving and notes with the sorted ingredient rows |
| Store.DrinkDB.Describe | db.go:73-87 | returns `DescribeSpec`: the first row with the name, hydrated |
| Store.Founds | db.go:113-121 | skipping the not-found lookups keeps at most one drink per lookup |
| Store.Lookups | db.go:113-121 | one hydration per id, in order |
| Store.HydrateAll | db.go:113-121 | at most one drink per id |
| Store.LookupsAt | db.go:113-121 | the lookup of id k is the hydration of that id |
| Store.FoundsPrefix | db.go:113-121 | the skip loop is a left fold over the lookups |
| Store.FoundsMembers | db.go:113-121 | a drink is kept exactly when some lookup found it |
| Store.HydrateAllMembers | db.go:113-121 | a drink is returned exactly when it is the hydration of one of the ids |
| Store.MatchCountPositive | db.go:90-98 | an association has a match exactly when its ingredient's name matches the pattern |
| Store.CopiesMembers | db.go:90-98 | the copies of an id hold exactly that id, when there is at least one |
| Store.CandidatesFromMembers | db.go:90-98 | an id is a candidate exactly when one of its associations joins an ingredient whose name matches |
| Store.CandidateIdsMatch | db.go:90-98 | for a query without wildcards, the candidates are exactly the drinks with an ingredient whose name contains the query |
| Store.RandomDrinks | db.go:89-122 | at most `num` drinks, each with a mixing and each the hydration of a picked id; every picked id is a candidate |
| Store.DrinkDB.Random | db.go:89-122 | returns `HydrateAll` of the picked ids, collected by the id loop in row order, and at most `num` drinks |
| SqlLike.LikeAll | db.go:90-98 | "%" matches every string |
| SqlLike.LikePrefix | db.go:90-98 | a wildcard-free query followed by "%" matches exactly the strings it begins |
| SqlLike.LikeSuffix | db.go:90-98 | a leading "%" lets the rest match any suffix |
| SqlLike.LikeContains | db.go:90-98 | the pattern `%query%` is substring search when the query has no wildcards |
| Display.DisplayFull | display.go:10-21 | the line starts with a space and ends with the ingredient's name |
| Display.LiquidAmount | display.go:13-14 | for the six liquid categories, the amount is a minus sign exactly for a negative value, a whole part without leading zeros, a point and two decimals, then " oz"; without the point it reads back as the hundredths value |
| Display.BittersAmount | display.go:15-16 | bitters show the amount in decimal and " dashes" |
| Display.AmountEmptyIffUnknownCategory | display.go:12-20 | the amount is empty exactly for a category outside the eight; the line is then two spaces and the name |
| Display.BourbonLine | display.go:13-14 | 200 hundredths of spirit bourbon shows as " 2.00 oz bourbon" |
| Display.BittersLine | display.go:15-16 | 3 of bitters angostura shows as " 3 dashes angostura" |
| Display.GarnishLine | display.go:17-18 | 1 of garnish cherry shows as " 1 cherry" |
| Display.DisplayDrinkFull | display.go:23-38 | returns the drink template with one `DisplayFull` line per ingredient |
| Display.LinesHaveNoNewline | display.go:25-27 | ingredient lines hold no line break when the names hold none |
| Display.DrinkTextLines | display.go:28-37 | when no field holds a line break, the template's lines are the five labelled fields, "*Ingredients*", one line per ingredient, "*Notes*" and the notes behind one space |
| Display.TailLines | display.go:33-36 | the lines after the header: the ingredient block, "*Notes*" and the notes |
| Display.TextOfHeader | display.go:28-36 | the template is the six header lines, the ingredient block and the notes, joined by line breaks |
| Display.HeaderSplit | display.go:28-33 | the header splits back into its six lines: the five labelled fields and "*Ingredients*" |
| Display.SplitLine | display.go:28-37 | appending a line break and a line without one adds exactly that line |
| Display.DrinkNames | display.go:40-45 | one name per drink, in order |
| Display.NamesInOrder | display.go:40-45 | the loop's result is the drinks' names in order |
| Numbers.DigitChar | display.go:16 | a digit value is shown as a decimal digit |
| Numbers.NatToString | display.go:16 | `%d` of a natural number is decimal digits without a leading zero |
| Numbers.DigitValue | bottender.go:221 | a character's digit value is at most 36 |
| Numbers.WithoutUnderscores | bottender.go:221 | removing the underscores leaves none |
| Numbers.ParseInt | bottender.go:221 | a parsed amount fits in 64 bits |
| Numbers.ReadDigitsOfNat | bottender.go:221 | decimal digits read back as the number they show |
| Numbers.NoUnderscoresUnchanged | bottender.go:221 | digits have no underscores to remove |
| Numbers.ParseUnsignedOfNatToString | bottender.go:221 | `ParseInt` reads back any number as `%d` shows it (unsigned part) |
| Numbers.ParseIntOfIntToString | bottender.go:221 | `ParseInt` reads back any 64-bit number as `%d` shows it |
| Numbers.ParseIntExample | bottender.go:221 | "200" parses to 200 |
| Numbers.ReadDigitsRejects | bottender.go:221-228 | a digit outside the base makes the amount invalid |
| Numbers.ParseIntLeadingNonDigit | bottender.go:221-228 | an amount starting with neither a sign nor a digit is invalid |
| Numbers.DecimalPlaces | display.go:14 | a number is its hundreds, its tens digit and its units digit |
| Numbers.ReadDigitsAppend | display.go:14 | one more digit is the value times the base plus the digit |
| Numbers.HundredthsDigits | display.go:14 | the integer part and two decimals read back as the hundredths value |
| Numbers.HundredthsShape | display.go:14 | the `%.2f` text of a natural hundredths value is a whole part without leading zeros, a point and two decimals, and without the point it reads back as the value |
| Numbers.FormatHundredthsDenotes | display.go:14 | the `%.2f` text of `n/100` starts with a minus sign exactly when `n` is negative, its whole part has no leading zeros, exactly two digits follow the point, and without the point it reads back as `n` |
| Strings.Split | bottender.go:106 | a split has at least one piece |
| Strings.SplitSnoc | bottender.go:106 | one more character either starts a new piece or extends the last one |
| Strings.JoinSplit | bottender.go:113 | joining a split with its separator gives back the text |
| Strings.SplitPiecesFree | bottender.go:106 | no piece holds the separator |
| Strings.SplitNoSeparator | bottender.go:106 | a text without the separator is one piece |
| Strings.SplitAt | bottender.go:106 | splitting around a separator splits each side |
| Strings.SplitLength | bottender.go:106 | there is one more piece than separators |
| Strings.SplitJoin | bottender.go:147 | joining pieces without the separator splits back into those pieces |
| Strings.TrimLeftSpacesShape | bottender.go:130 | trimming on the left removes a run of spaces and leaves no leading space |
| Strings.TrimRightSpacesShape | bottender.go:130 | trimming on the right removes a run of spaces and leaves no trailing space |
| Strings.TrimLeftPadded | bottender.go:130 | leading spaces before a text not starting with a space are removed exactly |
| Strings.TrimRightPadded | bottender.go:130 | trailing spaces after a text not ending in a space are removed exactly |
| Strings.TrimPadded | bottender.go:130 | trimming a padded text gives back the text |
| Strings.TrimAllSpaces | bottender.go:130 | a text of spaces trims to nothing |
| Wiring.DescribeExistingDrink | bottender.go:105-127 | over the store model, describing a drink by the name of its first row makes one call and sends one reply: "no drinks found" exactly when that row has no mixing, and otherwise the template of that row's drink |

## Left out

- Chat transport: the Keybase API, its subscription loop and the results of sends are not modelled. Sends are appended to the outbox, and their errors only reach the debug log (`debug`).
- `Start`, `main`, `mainInner`, `makeAdvertisement`, `sendAnnouncement`, `handleGet`, `getCommand` and `getCommandBang`: process start-up, flag handling, HTTP health check and advertisement setup, outside the command core.
- `shellquote.Split` and `flag.FlagSet.Parse` are oracles (`shellSplit`, `parseFlags`). The model states what the handler does with their results, not how they tokenize or parse. `IngredientFlags.Set` is the one part of the flag set modelled.
- `DescribeIngredient` and `AddRecipe` of the store are oracles. db.go's write path and `DescribeIngredient` are not part of this model.
- The bot's store oracles are not tied to the `Store` model, except in `Wiring.DescribeExistingDrink`.
- `handleRandom` passes a `*string` to `DrinkDB.Random`, which takes a `string`. The oracle takes `Option<string>`, and the `Store` model takes the query string.
- SQL: driver and scan errors, NULL columns, and the "misc error" paths of the store are not modelled. The read model never fails except with not found.
- `LIKE` compares characters exactly. MySQL's collation, which folds case, is not modelled.
- `ORDER BY RAND() LIMIT ?` is modelled by the `IsRandomPick` predicate. The Random method takes the picked ids as a parameter instead of drawing them.
- The ingredient query orders by drink name and then amount descending, and leaves the order of ties to the database. The model picks a stable insertion order. When several drink rows share an id, the model uses the first, as the scan does.
- `%.2f` is exact decimal arithmetic on the hundredths. Go's float64 rounding agrees for amounts below 2^52.
- `ParseInt` models `strconv.ParseInt(s, 0, 0)` for a 64-bit `int`.
- `ingredientFlags.String` always returns the empty string. It is used only by the flag package's help output and is not modelled.
- `describeDrinkByID` does not select `id` or `author`. The drink it builds has id 0 and an empty author, and `DisplayDrinkFull` prints that empty author.
- `FirstIdByName` and `Store.DrinkDB.Describe`: the name is compared exactly. Under MySQL's default case-insensitive collation, the name comparison also matches names that differ only in case. That is not modelled.
- `FirstIdByName`, `Store.BaseRows` and `Store.DrinkDB.Describe`: the id and name queries have no ORDER BY, so the database does not guarantee which matching row comes first. The model takes the first row in table order.
