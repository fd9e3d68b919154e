/**
 * The chat front end of the bot (bottender.go): command dispatch, query
 * extraction, the addrecipe validation pipeline and the messages each step sends.
 *
 * The chat transport is an outbox of `Send` entries whose delivery result is
 * ignored, as the handlers ignore it; the store, the shell-style tokenizer and
 * the flag parser are the `Oracles` of the server.
 */
module Bot {
  import opened Wrappers
  import opened Types
  import opened Strings
  import opened Numbers
  import opened Display

  // ---------------------------------------------------------------------------
  // Collaborators

  /** The error of a store call: the store's `errDrinkNotFound`, or any other error. */
  datatype StoreError = NotFound | Other

  datatype Outcome<T> = Ok(value: T) | Err(error: StoreError)

  /** The arguments of `DrinkDB.AddRecipe`, in its parameter order, the sender last. */
  datatype Recipe = Recipe(name: string, mixing: string, glass: string, serving: string, notes: string,
                           ingredients: seq<DrinkIngredient>, author: string)

  /** A call made to the store, recorded in order. */
  datatype StoreCall =
    | DescribeCall(query: string)
    | RandomCall(filter: Option<string>, num: int)
    | DescribeIngredientCall(name: string)
    | AddRecipeCall(recipe: Recipe)

  /** A send attempt: to a conversation, or a broadcast. */
  datatype Send = Conv(conv: string, text: string) | Broadcast(text: string)

  /** An incoming chat message; `text` is `None` for a message without text content. */
  datatype Message = Message(conv: string, sender: string, text: Option<string>)

  /**
   * What the flag parser delivers: every `--ingredient` value in order, the
   * `--mixing`, `--serving`, `--glass` and `--notes` values (empty when
   * absent) and the positional arguments.
   */
  datatype FlagValues = FlagValues(ingredients: seq<string>, mixing: string, serving: string,
                                   glass: string, notes: string, args: seq<string>)

  /**
   * The answers of the collaborators the handlers call, as total functions of
   * the call's arguments: the store's four queries (`addRecipe` gives the error,
   * if any), the shell-style tokenizer (`None` when it fails) and the flag
   * parser over the tokens after the command words (`None` on a parse error).
   */
  datatype Oracles = Oracles(
    describe: string -> Outcome<Drink>,
    random: (Option<string>, int) -> Outcome<seq<Drink>>,
    describeIngredient: string -> Outcome<Ingredient>,
    addRecipe: Recipe -> Option<StoreError>,
    shellSplit: string -> Option<seq<string>>,
    parseFlags: seq<string> -> Option<FlagValues>)

  /** What handling a message does: the sends in order and the store calls in order. */
  datatype Effect = Effect(sends: seq<Send>, calls: seq<StoreCall>)

  // ---------------------------------------------------------------------------
  // Fixed texts

  const DescribePrefix := "!bottender describe"
  const RandomPrefix := "!bottender random"
  const AddRecipePrefix := "!bottender addrecipe"

  /** `handleRandom` always asks the store for ten drinks. */
  const RandomCount := 10

  const NoQueryText := "must specify a drink query"
  const NoDrinksText := "no drinks found"
  const IntroText := "I've selected a few of my favorites, but let's let chance decide which one to make"
  const SplitFailedText := "failed to split command"
  const NoIngredientsText := "must specify drink ingredients"
  const ParseFailedText := "failed to parse command"
  const NoNameText := "must specify a drink name"
  const MissingAspectText := "must specify all aspects of drink"
  const AddFailedText := "failed to add recipe"
  const SuccessText := "Success!"

  function InvalidIngredientText(tok: string): string { "invalid ingredient: " + tok }
  function InvalidAmountText(part: string): string { "invalid ingredient amount: " + part }
  function UnknownIngredientText(name: string): string { "failed to describe ingredient: " + name }
  function DescribeCommandText(name: string): string { DescribePrefix + " " + name }
  function AnnounceText(sender: string, name: string): string { "New recipe added by @" + sender + ": " + name + "!" }

  /** The coin-flip command listing the drinks' names separated by ", ". */
  function FlipText(drinks: seq<Drink>): string
  {
    "/flip " + Join(NameList(drinks), ", ")
  }

  // ---------------------------------------------------------------------------
  // handleCommand: classification

  datatype Command = DescribeCommand | RandomCommand | AddRecipeCommand | UnknownCommand

  /**
   * The prefix tests of `handleCommand`, in their order. No two prefixes can
   * both start a text, so each command is chosen exactly when its prefix
   * starts the text.
   */
  function Classify(body: string): (c: Command)
    ensures c == DescribeCommand <==> DescribePrefix <= body
    ensures c == RandomCommand <==> RandomPrefix <= body
    ensures c == AddRecipeCommand <==> AddRecipePrefix <= body
  {
    assert DescribePrefix[11] == 'd' && RandomPrefix[11] == 'r' && AddRecipePrefix[11] == 'a';
    if DescribePrefix <= body then DescribeCommand
    else if RandomPrefix <= body then RandomCommand
    else if AddRecipePrefix <= body then AddRecipeCommand
    else UnknownCommand
  }

  // ---------------------------------------------------------------------------
  // handleDesc

  /** The drink query of a describe command: the terms after the first two, rejoined; `None` below three terms. */
  function DescQuery(cmd: string): Option<string>
  {
    var terms := Split(cmd, ' ');
    if |terms| < 3 then None else Some(Join(terms[2..], " "))
  }

  /** The replies to the store's answer to a describe query. */
  function DescReplies(conv: string, r: Outcome<Drink>): seq<Send>
  {
    match r
    case Ok(d) => [Conv(conv, DrinkText(d))]
    case Err(NotFound) => [Conv(conv, NoDrinksText)]
    case Err(Other) => []
  }

  function DescEffect(o: Oracles, cmd: string, conv: string): Effect
  {
    match DescQuery(cmd)
    case None => Effect([Conv(conv, NoQueryText)], [])
    case Some(q) => Effect(DescReplies(conv, o.describe(q)), [DescribeCall(q)])
  }

  // ---------------------------------------------------------------------------
  // handleRandom

  /** The ingredient filter of a random command: as for describe, but after trimming spaces at both ends. */
  function RandomFilter(cmd: string): Option<string>
  {
    var terms := Split(TrimSpaces(cmd), ' ');
    if |terms| >= 3 then Some(Join(terms[2..], " ")) else None
  }

  function RandomReplies(conv: string, r: Outcome<seq<Drink>>): seq<Send>
  {
    match r
    case Err(_) => []
    case Ok(drinks) =>
      if drinks == [] then [Conv(conv, NoDrinksText)]
      else [Conv(conv, IntroText), Conv(conv, FlipText(drinks))]
  }

  function RandomEffect(o: Oracles, cmd: string, conv: string): Effect
  {
    var filter := RandomFilter(cmd);
    Effect(RandomReplies(conv, o.random(filter, RandomCount)), [RandomCall(filter, RandomCount)])
  }

  // ---------------------------------------------------------------------------
  // handleAddRecipe

  /** The outcome of the checks before any ingredient is looked at. */
  datatype Validation = Proceed(flags: FlagValues) | Reject(text: string)

  /** The five checks of `handleAddRecipe`, in order, each with its own message. */
  function Validate(o: Oracles, cmd: string): Validation
  {
    match o.shellSplit(cmd)
    case None => Reject(SplitFailedText)
    case Some(toks) =>
      if |toks| < 3 then Reject(NoIngredientsText)
      else
        match o.parseFlags(toks[2..])
        case None => Reject(ParseFailedText)
        case Some(f) =>
          if |f.args| != 1 then Reject(NoNameText)
          else if |f.mixing| == 0 || |f.serving| == 0 || |f.glass| == 0 then Reject(MissingAspectText)
          else Proceed(f)
  }

  datatype TokenResult = Good(ingredient: DrinkIngredient) | Bad(text: string)

  /** What checking one value gives: its result and the store calls it made. */
  datatype TokenCheck = TokenCheck(result: TokenResult, calls: seq<StoreCall>)

  /**
   * One `--ingredient` value: exactly two comma-separated parts, an amount that
   * `strconv.ParseInt(_, 0, 0)` accepts, then a store lookup of the name, the
   * only call made.
   */
  function CheckToken(o: Oracles, tok: string): TokenCheck
  {
    var parts := Split(tok, ',');
    if |parts| != 2 then TokenCheck(Bad(InvalidIngredientText(tok)), [])
    else
      match ParseInt(parts[1])
      case None => TokenCheck(Bad(InvalidAmountText(parts[1])), [])
      case Some(amount) =>
        var lookup := [DescribeIngredientCall(parts[0])];
        match o.describeIngredient(parts[0])
        case Err(_) => TokenCheck(Bad(UnknownIngredientText(parts[0])), lookup)
        case Ok(ingredient) => TokenCheck(Good(DrinkIngredient(ingredient, amount)), lookup)
  }

  /** The checks of the values, in order. */
  function Checks(o: Oracles, toks: seq<string>): (r: seq<TokenCheck>)
    ensures |r| == |toks|
  {
    if toks == [] then [] else Checks(o, toks[..|toks| - 1]) + [CheckToken(o, toks[|toks| - 1])]
  }

  lemma {:induction false} ChecksAt(o: Oracles, toks: seq<string>, k: nat)
    requires k < |toks|
    ensures Checks(o, toks)[k] == CheckToken(o, toks[k])
  {
    if k < |toks| - 1 {
      ChecksAt(o, toks[..|toks| - 1], k);
    }
  }

  /** The state of the ingredient loop: the ingredients so far, the calls made, and the message that stopped it. */
  datatype Collected = Collected(ingredients: seq<DrinkIngredient>, calls: seq<StoreCall>, failure: Option<string>)

  /** One more value: the loop stops at an earlier failure, and otherwise records this value's check. */
  function Step(c: Collected, check: TokenCheck): Collected
  {
    if c.failure.Some? then c
    else
      match check.result
      case Good(i) => Collected(c.ingredients + [i], c.calls + check.calls, None)
      case Bad(text) => Collected(c.ingredients, c.calls + check.calls, Some(text))
  }

  /** The ingredient loop over the checked values in order, stopping at the first bad one. */
  function Collect(checks: seq<TokenCheck>): Collected
  {
    if checks == [] then Collected([], [], None)
    else Step(Collect(checks[..|checks| - 1]), checks[|checks| - 1])
  }

  /** The loop succeeds exactly when every value is good. */
  lemma {:induction false} CollectSucceeds(checks: seq<TokenCheck>)
    ensures Collect(checks).failure == None <==> forall k :: 0 <= k < |checks| ==> checks[k].result.Good?
  {
    if checks != [] {
      var init := checks[..|checks| - 1];
      CollectSucceeds(init);
      assert forall k :: 0 <= k < |init| ==> init[k] == checks[k];
    }
  }

  /** A successful loop holds one ingredient per value, in order. */
  lemma {:induction false} CollectIngredients(checks: seq<TokenCheck>)
    requires Collect(checks).failure == None
    ensures |Collect(checks).ingredients| == |checks|
    ensures forall k :: 0 <= k < |checks| ==> checks[k].result == Good(Collect(checks).ingredients[k])
  {
    if checks != [] {
      var init := checks[..|checks| - 1];
      CollectIngredients(init);
      assert forall k :: 0 <= k < |init| ==> init[k] == checks[k];
    }
  }

  /** A failing loop reports the message of the first bad value. */
  lemma {:induction false} CollectFails(checks: seq<TokenCheck>)
    requires Collect(checks).failure.Some?
    ensures exists k ::
      0 <= k < |checks| && checks[k].result == Bad(Collect(checks).failure.value) &&
      (forall j :: 0 <= j < k ==> checks[j].result.Good?)
  {
    var init := checks[..|checks| - 1];
    assert forall k :: 0 <= k < |init| ==> init[k] == checks[k];
    if Collect(init).failure.Some? {
      CollectFails(init);
    } else {
      CollectSucceeds(init);
    }
  }

  /** Every call the loop made was made by checking one of the values. */
  lemma {:induction false} CollectCalls(checks: seq<TokenCheck>)
    ensures forall call :: call in Collect(checks).calls ==>
      exists k :: 0 <= k < |checks| && call in checks[k].calls
  {
    if checks != [] {
      var init := checks[..|checks| - 1];
      CollectCalls(init);
      assert forall k :: 0 <= k < |init| ==> init[k] == checks[k];
    }
  }

  /** The loop over one more value is one more step. */
  lemma CollectPrefix(checks: seq<TokenCheck>, k: nat)
    requires k < |checks|
    ensures Collect(checks[..k + 1]) == Step(Collect(checks[..k]), checks[k])
  {
    assert checks[..k + 1][..k] == checks[..k];
  }

  /** Once a prefix of the values has failed, the rest of the values change nothing. */
  lemma {:induction false} CollectStops(checks: seq<TokenCheck>, k: nat)
    requires k <= |checks| && Collect(checks[..k]).failure.Some?
    ensures Collect(checks) == Collect(checks[..k])
  {
    if k < |checks| {
      var init := checks[..|checks| - 1];
      assert init[..k] == checks[..k];
      CollectStops(init, k);
    } else {
      assert checks[..k] == checks;
    }
  }

  /** Checking a value makes at most its lookup call. */
  lemma TokenCallsAreLookups(o: Oracles, tok: string)
    ensures forall call :: call in CheckToken(o, tok).calls ==> call.DescribeIngredientCall?
  {
  }

  /** The checks of the values are the checks of each value. */
  lemma ChecksOfValues(o: Oracles, toks: seq<string>)
    ensures forall k :: 0 <= k < |toks| ==> Checks(o, toks)[k] == CheckToken(o, toks[k])
  {
    forall k | 0 <= k < |toks|
      ensures Checks(o, toks)[k] == CheckToken(o, toks[k])
    {
      ChecksAt(o, toks, k);
    }
  }

  /**
   * In terms of the values themselves: the loop succeeds exactly when each is
   * good and then holds each one's ingredient; it fails with the message of the
   * first bad one; and it calls the store only to look up ingredients.
   */
  lemma CollectValues(o: Oracles, toks: seq<string>)
    ensures var c := Collect(Checks(o, toks));
      (c.failure == None <==> forall k :: 0 <= k < |toks| ==> CheckToken(o, toks[k]).result.Good?) &&
      (c.failure == None ==>
        |c.ingredients| == |toks| &&
        forall k :: 0 <= k < |toks| ==> CheckToken(o, toks[k]).result == Good(c.ingredients[k])) &&
      (c.failure.Some? ==> exists k ::
        0 <= k < |toks| && CheckToken(o, toks[k]).result == Bad(c.failure.value) &&
        (forall j :: 0 <= j < k ==> CheckToken(o, toks[j]).result.Good?)) &&
      (forall call :: call in c.calls ==> call.DescribeIngredientCall?)
  {
    var checks := Checks(o, toks);
    ChecksOfValues(o, toks);
    CollectSucceeds(checks);
    if Collect(checks).failure == None {
      CollectIngredients(checks);
    } else {
      CollectFails(checks);
      var k :| 0 <= k < |checks| && checks[k].result == Bad(Collect(checks).failure.value) &&
        (forall j :: 0 <= j < k ==> checks[j].result.Good?);
      assert CheckToken(o, toks[k]).result == Bad(Collect(checks).failure.value);
    }
    CollectOnlyLooksUp(o, toks);
  }

  /** The ingredient loop calls the store only to look up ingredients. */
  lemma CollectOnlyLooksUp(o: Oracles, toks: seq<string>)
    ensures forall call :: call in Collect(Checks(o, toks)).calls ==> call.DescribeIngredientCall?
  {
    var checks := Checks(o, toks);
    CollectCalls(checks);
    forall k | 0 <= k < |toks|
      ensures forall call :: call in checks[k].calls ==> call.DescribeIngredientCall?
    {
      ChecksAt(o, toks, k);
      TokenCallsAreLookups(o, toks[k]);
    }
  }

  /** The recipe submitted after all checks pass. */
  function RecipeOf(f: FlagValues, ingredients: seq<DrinkIngredient>, sender: string): Recipe
    requires |f.args| == 1
  {
    Recipe(f.args[0], f.mixing, f.glass, f.serving, f.notes, ingredients, sender)
  }

  /** The replies to `AddRecipe`: one failure message, or the four announcements. */
  function AddReplies(conv: string, sender: string, name: string, err: Option<StoreError>): seq<Send>
  {
    match err
    case Some(_) => [Conv(conv, AddFailedText)]
    case None =>
      [Conv(conv, SuccessText), Conv(conv, DescribeCommandText(name)),
       Broadcast(AnnounceText(sender, name)), Broadcast(DescribeCommandText(name))]
  }

  /** What `handleAddRecipe` does once the flags are accepted: the ingredient loop, then the submission. */
  function SubmitEffect(o: Oracles, f: FlagValues, sender: string, conv: string): Effect
    requires |f.args| == 1
  {
    var c := Collect(Checks(o, f.ingredients));
    match c.failure
    case Some(text) => Effect([Conv(conv, text)], c.calls)
    case None =>
      var r := RecipeOf(f, c.ingredients, sender);
      Effect(AddReplies(conv, sender, r.name, o.addRecipe(r)), c.calls + [AddRecipeCall(r)])
  }

  function AddRecipeEffect(o: Oracles, cmd: string, sender: string, conv: string): Effect
  {
    match Validate(o, cmd)
    case Reject(text) => Effect([Conv(conv, text)], [])
    case Proceed(f) => SubmitEffect(o, f, sender, conv)
  }

  // ---------------------------------------------------------------------------
  // handleCommand

  function CommandEffect(o: Oracles, m: Message): Effect
  {
    match m.text
    case None => Effect([], [])
    case Some(body) =>
      match Classify(body)
      case DescribeCommand => DescEffect(o, body, m.conv)
      case RandomCommand => RandomEffect(o, body, m.conv)
      case AddRecipeCommand => AddRecipeEffect(o, body, m.sender, m.conv)
      case UnknownCommand => Effect([], [])
  }

  // ---------------------------------------------------------------------------
  // Properties of message handling

  /**
   * Dispatch: a message without text and a text with none of the three
   * prefixes do nothing; otherwise the first matching prefix, in the order
   * describe, random, addrecipe, picks the handler.
   */
  lemma Dispatch(o: Oracles, m: Message)
    ensures m.text == None ==> CommandEffect(o, m) == Effect([], [])
    ensures m.text.Some? && DescribePrefix <= m.text.value ==>
      CommandEffect(o, m) == DescEffect(o, m.text.value, m.conv)
    ensures m.text.Some? && RandomPrefix <= m.text.value ==>
      CommandEffect(o, m) == RandomEffect(o, m.text.value, m.conv)
    ensures m.text.Some? && AddRecipePrefix <= m.text.value ==>
      CommandEffect(o, m) == AddRecipeEffect(o, m.text.value, m.sender, m.conv)
    ensures (m.text.Some? && !(DescribePrefix <= m.text.value || RandomPrefix <= m.text.value ||
      AddRecipePrefix <= m.text.value)) ==> CommandEffect(o, m) == Effect([], [])
  {
  }

  /** A describe command has a query exactly when it holds at least two spaces. */
  lemma DescQueryNeedsTwoSpaces(cmd: string)
    ensures DescQuery(cmd) == None <==> Count(cmd, ' ') < 2
  {
    SplitLength(cmd, ' ');
  }

  /** Two space-free words and the space after each, then the query, which comes back verbatim. */
  lemma TermsAfterTwoWords(w1: string, w2: string, q: string)
    requires ' ' !in w1 && ' ' !in w2
    ensures Split(w1 + " " + w2 + " " + q, ' ') == [w1, w2] + Split(q, ' ')
    ensures Join(Split(q, ' '), " ") == q
  {
    var rest := w2 + [' '] + q;
    calc {
      Split(w1 + " " + w2 + " " + q, ' ');
      { assert w1 + " " + w2 + " " + q == w1 + [' '] + rest; }
      Split(w1 + [' '] + rest, ' ');
      { SplitAt(w1, ' ', rest); }
      Split(w1, ' ') + Split(rest, ' ');
      { SplitAt(w2, ' ', q); }
      Split(w1, ' ') + (Split(w2, ' ') + Split(q, ' '));
      { SplitNoSeparator(w1, ' '); SplitNoSeparator(w2, ' '); }
      [w1] + ([w2] + Split(q, ' '));
    }
    JoinSplit(q, ' ');
  }

  /**
   * `handleDesc` on the bare command asks for a query and calls nothing; after
   * the command and one space the rest of the text is the query, a leading
   * space included, and the store's answer picks the one reply.
   */
  lemma DescribeCommandEffect(o: Oracles, q: string, conv: string)
    ensures DescEffect(o, DescribePrefix, conv) == Effect([Conv(conv, NoQueryText)], [])
    ensures var e := DescEffect(o, DescribePrefix + " " + q, conv);
      e.calls == [DescribeCall(q)] &&
      match o.describe(q)
      case Ok(d) => e.sends == [Conv(conv, DrinkText(d))]
      case Err(NotFound) => e.sends == [Conv(conv, NoDrinksText)]
      case Err(Other) => e.sends == []
  {
    assert DescribePrefix == "!bottender" + " " + "describe";
    CommandWords("!bottender", "describe");
    TermsAfterTwoWords("!bottender", "describe", q);
    assert DescribePrefix + " " + q == "!bottender" + " " + "describe" + " " + q;
  }

  /** A command of two space-free words splits into exactly those two terms. */
  lemma CommandWords(w1: string, w2: string)
    requires ' ' !in w1 && ' ' !in w2
    ensures Split(w1 + " " + w2, ' ') == [w1, w2]
  {
    assert w1 + " " + w2 == w1 + [' '] + w2;
    SplitAt(w1, ' ', w2);
    SplitNoSeparator(w1, ' ');
    SplitNoSeparator(w2, ' ');
  }

  /** A double space after the command makes the query start with a space. */
  lemma DescribeDoubleSpace(q: string)
    ensures DescQuery(DescribePrefix + "  " + q) == Some(" " + q)
  {
    TermsAfterTwoWords("!bottender", "describe", " " + q);
    assert DescribePrefix + "  " + q == "!bottender" + " " + "describe" + " " + (" " + q);
  }

  /** A random command has a filter exactly when its trimmed text holds at least two spaces. */
  lemma RandomFilterNeedsTwoSpaces(cmd: string)
    ensures RandomFilter(cmd) == None <==> Count(TrimSpaces(cmd), ' ') < 2
  {
    SplitLength(TrimSpaces(cmd), ' ');
  }

  /**
   * Trailing spaces do not reach the filter: the bare command, however padded,
   * has none, and after the command and a space the rest up to the padding is
   * the filter.
   */
  lemma RandomCommandFilter(q: string, post: string)
    requires AllSpaces(post)
    ensures RandomFilter(RandomPrefix + post) == None
    ensures q != [] && q[|q| - 1] != ' ' ==> RandomFilter(RandomPrefix + " " + q + post) == Some(q)
  {
    TrimPadded("", RandomPrefix, post);
    assert "" + RandomPrefix + post == RandomPrefix + post;
    assert RandomPrefix == "!bottender" + " " + "random";
    CommandWords("!bottender", "random");
    if q != [] && q[|q| - 1] != ' ' {
      var s := RandomPrefix + " " + q;
      TrimPadded("", s, post);
      assert "" + s + post == s + post;
      TermsAfterTwoWords("!bottender", "random", q);
      assert s == "!bottender" + " " + "random" + " " + q;
    }
  }

  /**
   * `handleRandom` always asks for ten drinks with the command's filter, says
   * nothing on a store error, "no drinks found" for none, and otherwise the
   * introduction and then the coin flip over the names.
   */
  lemma RandomOutcomes(o: Oracles, cmd: string, conv: string)
    ensures var e := RandomEffect(o, cmd, conv);
      e.calls == [RandomCall(RandomFilter(cmd), 10)] &&
      match o.random(RandomFilter(cmd), 10)
      case Err(_) => e.sends == []
      case Ok(drinks) =>
        (drinks == [] ==> e.sends == [Conv(conv, NoDrinksText)]) &&
        (drinks != [] ==> e.sends == [Conv(conv, IntroText), Conv(conv, FlipText(drinks))])
  {
  }

  /** The names with a space in front of every one but the first: the pieces of a ", "-joined list split at ','. */
  function Spaced(names: seq<string>): seq<string>
  {
    seq(|names|, k requires 0 <= k < |names| => if k == 0 then names[0] else " " + names[k])
  }

  lemma {:induction false} JoinCommaSpace(names: seq<string>)
    ensures Join(names, ", ") == Join(Spaced(names), ",")
  {
    var n := |names|;
    if n > 1 {
      JoinCommaSpace(names[..n - 1]);
      assert Spaced(names)[..n - 1] == Spaced(names[..n - 1]);
      assert Join(names, ", ") == Join(names[..n - 1], ", ") + "," + (" " + names[n - 1]);
    }
  }

  /**
   * The coin flip lists every drink's name in order: after "/flip " and split
   * at the commas it gives the names, each but the first behind one space.
   */
  lemma FlipListsNames(drinks: seq<Drink>)
    requires drinks != []
    requires forall k :: 0 <= k < |drinks| ==> ',' !in drinks[k].name
    ensures FlipText(drinks)[..6] == "/flip "
    ensures Split(FlipText(drinks)[6..], ',') == Spaced(NameList(drinks))
  {
    var names := NameList(drinks);
    JoinCommaSpace(names);
    assert FlipText(drinks)[6..] == Join(Spaced(names), [',']);
    forall k | 0 <= k < |Spaced(names)|
      ensures ',' !in Spaced(names)[k]
    {
      assert names[k] == drinks[k].name;
    }
    SplitJoin(Spaced(names), ',');
  }

  /** A value with no comma or more than one is a bad shape, and nothing is looked up. */
  lemma TokenShape(o: Oracles, tok: string)
    requires Count(tok, ',') != 1
    ensures CheckToken(o, tok).result == Bad(InvalidIngredientText(tok))
    ensures CheckToken(o, tok).calls == []
  {
    SplitLength(tok, ',');
  }

  /**
   * A value `name,amount` with one comma: the amount is parsed as written,
   * spaces and all, and only a good amount leads to the lookup of the name.
   */
  lemma TokenParts(o: Oracles, name: string, amount: string)
    requires ',' !in name && ',' !in amount
    ensures var tok := name + "," + amount;
      match ParseInt(amount)
      case None => CheckToken(o, tok).result == Bad(InvalidAmountText(amount)) && CheckToken(o, tok).calls == []
      case Some(n) =>
        CheckToken(o, tok).calls == [DescribeIngredientCall(name)] &&
        match o.describeIngredient(name)
        case Err(_) => CheckToken(o, tok).result == Bad(UnknownIngredientText(name))
        case Ok(i) => CheckToken(o, tok).result == Good(DrinkIngredient(i, n))
  {
    SplitAt(name, ',', amount);
    SplitNoSeparator(name, ',');
    SplitNoSeparator(amount, ',');
    assert name + "," + amount == name + [','] + amount;
  }

  /** "bourbon,200" asks for bourbon at 200 hundredths. */
  lemma GoodTokenExample(o: Oracles)
    requires o.describeIngredient("bourbon").Ok?
    ensures CheckToken(o, "bourbon,200").result == Good(DrinkIngredient(o.describeIngredient("bourbon").value, 200))
  {
    ParseIntExample();
    TokenParts(o, "bourbon", "200");
    assert "bourbon,200" == "bourbon" + "," + "200";
  }

  /**
   * The amount is not trimmed: one starting with a space (as in "bourbon, 200")
   * or a letter is invalid, reported as written, and nothing is looked up.
   */
  lemma AmountNotTrimmed(o: Oracles, name: string, amount: string)
    requires ',' !in name && ',' !in amount
    requires amount != [] && (amount[0] == ' ' || 'a' <= amount[0] <= 'z' || 'A' <= amount[0] <= 'Z')
    ensures CheckToken(o, name + "," + amount).result == Bad(InvalidAmountText(amount))
    ensures CheckToken(o, name + "," + amount).calls == []
  {
    ParseIntLeadingNonDigit(amount);
    TokenParts(o, name, amount);
  }

  /**
   * The five checks before the ingredients, in their order; each failure sends
   * exactly its one message and calls nothing.
   */
  lemma AddRecipeChecks(o: Oracles, cmd: string, sender: string, conv: string)
    ensures var e := AddRecipeEffect(o, cmd, sender, conv);
      match o.shellSplit(cmd)
      case None => e == Effect([Conv(conv, SplitFailedText)], [])
      case Some(toks) =>
        if |toks| < 3 then e == Effect([Conv(conv, NoIngredientsText)], [])
        else
          match o.parseFlags(toks[2..])
          case None => e == Effect([Conv(conv, ParseFailedText)], [])
          case Some(f) =>
            (|f.args| != 1 ==> e == Effect([Conv(conv, NoNameText)], [])) &&
            (|f.args| == 1 && (f.mixing == "" || f.serving == "" || f.glass == "") ==>
              e == Effect([Conv(conv, MissingAspectText)], []))
  {
  }

  /**
   * `AddRecipe` is called exactly when all checks pass and every ingredient
   * value is good; it is then the last call, after one lookup per value, and
   * it submits the positional name, the mixing, glass, serving and notes, one
   * ingredient per value in order, and the sender as author.
   */
  lemma AddRecipeSubmits(o: Oracles, cmd: string, sender: string, conv: string)
    ensures var e := AddRecipeEffect(o, cmd, sender, conv);
      (exists k :: 0 <= k < |e.calls| && e.calls[k].AddRecipeCall?) <==>
        (Validate(o, cmd).Proceed? &&
         forall k :: 0 <= k < |Validate(o, cmd).flags.ingredients| ==>
           CheckToken(o, Validate(o, cmd).flags.ingredients[k]).result.Good?)
    ensures var e := AddRecipeEffect(o, cmd, sender, conv);
      forall k :: 0 <= k < |e.calls| && e.calls[k].AddRecipeCall? ==>
        k == |e.calls| - 1 && Validate(o, cmd).Proceed? &&
        var f, r := Validate(o, cmd).flags, e.calls[k].recipe;
        |f.args| == 1 && r.name == f.args[0] && r.mixing == f.mixing && r.glass == f.glass &&
        r.serving == f.serving && r.notes == f.notes && r.author == sender &&
        |r.ingredients| == |f.ingredients| &&
        forall j :: 0 <= j < |f.ingredients| ==> CheckToken(o, f.ingredients[j]).result == Good(r.ingredients[j])
  {
    var e := AddRecipeEffect(o, cmd, sender, conv);
    match Validate(o, cmd)
    case Reject(_) =>
    case Proceed(f) =>
      var c := Collect(Checks(o, f.ingredients));
      CollectValues(o, f.ingredients);
      if c.failure == None {
        assert e.calls == c.calls + [AddRecipeCall(RecipeOf(f, c.ingredients, sender))];
        assert e.calls[|e.calls| - 1].AddRecipeCall?;
        forall k | 0 <= k < |e.calls| - 1
          ensures !e.calls[k].AddRecipeCall?
        {
          assert e.calls[k] in c.calls;
        }
      } else {
        forall k | 0 <= k < |e.calls|
          ensures !e.calls[k].AddRecipeCall?
        {
          assert e.calls[k] in c.calls;
        }
      }
  }

  /**
   * Every way through `handleAddRecipe` sends one message, except a successful
   * `AddRecipe`, which sends exactly the four announcements in order.
   */
  lemma AddRecipeSends(o: Oracles, cmd: string, sender: string, conv: string)
    ensures var e := AddRecipeEffect(o, cmd, sender, conv);
      forall r :: AddRecipeCall(r) in e.calls && o.addRecipe(r) == None ==>
        e.sends == [Conv(conv, SuccessText), Conv(conv, DescribeCommandText(r.name)),
          Broadcast(AnnounceText(sender, r.name)), Broadcast(DescribeCommandText(r.name))]
    ensures var e := AddRecipeEffect(o, cmd, sender, conv);
      !(exists r :: AddRecipeCall(r) in e.calls && o.addRecipe(r) == None) ==> |e.sends| == 1
    ensures var e := AddRecipeEffect(o, cmd, sender, conv);
      forall r :: AddRecipeCall(r) in e.calls && o.addRecipe(r).Some? ==> e.sends == [Conv(conv, AddFailedText)]
    ensures var e := AddRecipeEffect(o, cmd, sender, conv);
      Validate(o, cmd).Reject? ==> e.sends == [Conv(conv, Validate(o, cmd).text)]
    ensures var e := AddRecipeEffect(o, cmd, sender, conv);
      Validate(o, cmd).Proceed? ==>
        var c := Collect(Checks(o, Validate(o, cmd).flags.ingredients));
        c.failure.Some? ==> e.sends == [Conv(conv, c.failure.value)]
  {
    var e := AddRecipeEffect(o, cmd, sender, conv);
    match Validate(o, cmd)
    case Reject(_) =>
    case Proceed(f) =>
      var c := Collect(Checks(o, f.ingredients));
      CollectValues(o, f.ingredients);
      if c.failure == None {
        var r := RecipeOf(f, c.ingredients, sender);
        assert e.calls == c.calls + [AddRecipeCall(r)];
        assert forall r' :: AddRecipeCall(r') in e.calls ==> r' == r;
      } else {
        assert forall r' :: AddRecipeCall(r') !in e.calls;
      }
  }

  // ---------------------------------------------------------------------------
  // The server

  /** `ingredientFlags`: the flag value that collects every `--ingredient` value in order. */
  class IngredientFlags {
    var values: seq<string>

    constructor()
      ensures values == []
    {
      values := [];
    }

    /** `Set`: appends the value and never fails. */
    method Set(value: string) returns (err: Option<string>)
      modifies this
      ensures values == old(values) + [value]
      ensures err == None
    {
      values := values + [value];
      err := None;
    }
  }

  /**
   * `BotServer`: its collaborators, the sends it has attempted and the store
   * calls it has made. Every handler appends exactly the sends and calls of its
   * `Effect` function.
   */
  class BotServer {
    const oracles: Oracles
    var outbox: seq<Send>
    var calls: seq<StoreCall>

    constructor(oracles: Oracles)
      ensures this.oracles == oracles
      ensures outbox == [] && calls == []
    {
      this.oracles := oracles;
      outbox := [];
      calls := [];
    }

    /** `SendMessageByConvID`; its result only ever reaches the debug log. */
    method SendMessage(conv: string, text: string)
      modifies this
      ensures outbox == old(outbox) + [Conv(conv, text)] && calls == old(calls)
    {
      outbox := outbox + [Conv(conv, text)];
    }

    /** `Broadcast`; its result only ever reaches the debug log. */
    method SendBroadcast(text: string)
      modifies this
      ensures outbox == old(outbox) + [Broadcast(text)] && calls == old(calls)
    {
      outbox := outbox + [Broadcast(text)];
    }

    method Describe(query: string) returns (r: Outcome<Drink>)
      modifies this
      ensures r == oracles.describe(query)
      ensures calls == old(calls) + [DescribeCall(query)] && outbox == old(outbox)
    {
      calls := calls + [DescribeCall(query)];
      r := oracles.describe(query);
    }

    method Random(filter: Option<string>, num: int) returns (r: Outcome<seq<Drink>>)
      modifies this
      ensures r == oracles.random(filter, num)
      ensures calls == old(calls) + [RandomCall(filter, num)] && outbox == old(outbox)
    {
      calls := calls + [RandomCall(filter, num)];
      r := oracles.random(filter, num);
    }

    method DescribeIngredient(name: string) returns (r: Outcome<Ingredient>)
      modifies this
      ensures r == oracles.describeIngredient(name)
      ensures calls == old(calls) + [DescribeIngredientCall(name)] && outbox == old(outbox)
    {
      calls := calls + [DescribeIngredientCall(name)];
      r := oracles.describeIngredient(name);
    }

    method AddRecipe(recipe: Recipe) returns (err: Option<StoreError>)
      modifies this
      ensures err == oracles.addRecipe(recipe)
      ensures calls == old(calls) + [AddRecipeCall(recipe)] && outbox == old(outbox)
    {
      calls := calls + [AddRecipeCall(recipe)];
      err := oracles.addRecipe(recipe);
    }

    /** `handleDesc`. */
    method HandleDesc(cmd: string, conv: string)
      modifies this
      ensures outbox == old(outbox) + DescEffect(oracles, cmd, conv).sends
      ensures calls == old(calls) + DescEffect(oracles, cmd, conv).calls
    {
      var terms := Split(cmd, ' ');
      if |terms| < 3 {
        SendMessage(conv, NoQueryText);
        return;
      }
      var query := Join(terms[2..], " ");
      var r := Describe(query);
      match r
      case Ok(drink) =>
        var text := DisplayDrinkFull(drink);
        SendMessage(conv, text);
      case Err(NotFound) =>
        SendMessage(conv, NoDrinksText);
      case Err(Other) =>
    }

    /** `handleRandom`. */
    method HandleRandom(cmd: string, conv: string)
      modifies this
      ensures outbox == old(outbox) + RandomEffect(oracles, cmd, conv).sends
      ensures calls == old(calls) + RandomEffect(oracles, cmd, conv).calls
    {
      var query := RandomFilter(cmd);
      var r := Random(query, RandomCount);
      if r.Ok? {
        SendPicks(r.value, conv);
      }
    }

    /** The replies of `handleRandom` to the drinks the store picked. */
    method SendPicks(drinks: seq<Drink>, conv: string)
      modifies this
      ensures outbox == old(outbox) + RandomReplies(conv, Ok(drinks))
      ensures calls == old(calls)
    {
      if |drinks| == 0 {
        SendMessage(conv, NoDrinksText);
      } else {
        SendMessage(conv, IntroText);
        var names := DrinkNames(drinks);
        NamesInOrder(drinks, names);
        SendMessage(conv, "/flip " + Join(names, ", "));
      }
    }

    /**
     * One pass of the ingredient loop of `handleAddRecipe`: the value split at
     * ',', its amount parsed and its name looked up; a bad value sends its one
     * message.
     */
    method CheckIngredient(values: seq<string>, k: nat, conv: string) returns (r: TokenResult)
      requires k < |values|
      modifies this
      ensures Checks(oracles, values)[k].result == r
      ensures calls == old(calls) + Checks(oracles, values)[k].calls
      ensures r.Good? ==> outbox == old(outbox)
      ensures r.Bad? ==> outbox == old(outbox) + [Conv(conv, r.text)]
    {
      ChecksAt(oracles, values, k);
      var ing := values[k];
      var parts := Split(ing, ',');
      if |parts| != 2 {
        r := Bad(InvalidIngredientText(ing));
        SendMessage(conv, r.text);
        return;
      }
      var amount := ParseInt(parts[1]);
      if amount.None? {
        r := Bad(InvalidAmountText(parts[1]));
        SendMessage(conv, r.text);
        return;
      }
      var ingredient := DescribeIngredient(parts[0]);
      if ingredient.Err? {
        r := Bad(UnknownIngredientText(parts[0]));
        SendMessage(conv, r.text);
        return;
      }
      r := Good(DrinkIngredient(ingredient.value, amount.value));
    }

    /** The ingredient loop of `handleAddRecipe`, stopping at the first bad value. */
    method ReadIngredients(values: seq<string>, conv: string) returns (ok: bool, ingredients: seq<DrinkIngredient>)
      modifies this
      ensures var c := Collect(Checks(oracles, values));
        calls == old(calls) + c.calls &&
        (ok <==> c.failure == None) &&
        (ok ==> ingredients == c.ingredients && outbox == old(outbox)) &&
        (!ok ==> outbox == old(outbox) + [Conv(conv, c.failure.value)])
    {
      ghost var checks := Checks(oracles, values);
      ghost var done := Collected([], [], None);
      ingredients := [];
      for k := 0 to |values|
        invariant done == Collect(checks[..k]) && done.failure == None
        invariant ingredients == done.ingredients
        invariant calls == old(calls) + done.calls
        invariant outbox == old(outbox)
      {
        var r := CheckIngredient(values, k, conv);
        CollectPrefix(checks, k);
        done := Step(done, checks[k]);
        if r.Bad? {
          CollectStops(checks, k + 1);
          return false, ingredients;
        }
        ingredients := ingredients + [r.ingredient];
      }
      assert checks[..|values|] == checks;
      ok := true;
    }

    /**
     * The checks of `handleAddRecipe` before the ingredients: the command line
     * split and its flags parsed, each `--ingredient` value handed to the
     * flag's `Set`, then the name and the three aspects required.
     */
    method ReadFlags(cmd: string, conv: string) returns (flags: Option<FlagValues>)
      modifies this
      ensures calls == old(calls)
      ensures match Validate(oracles, cmd)
        case Reject(text) => flags == None && outbox == old(outbox) + [Conv(conv, text)]
        case Proceed(f) => flags == Some(f) && outbox == old(outbox)
    {
      var split := oracles.shellSplit(cmd);
      if split.None? {
        SendMessage(conv, SplitFailedText);
        return None;
      }
      var toks := split.value;
      if |toks| < 3 {
        SendMessage(conv, NoIngredientsText);
        return None;
      }
      var parsed := oracles.parseFlags(toks[2..]);
      if parsed.None? {
        SendMessage(conv, ParseFailedText);
        return None;
      }
      var f := parsed.value;
      // The flag parser hands every --ingredient value to the flag's Set, in order.
      var ings := new IngredientFlags();
      for k := 0 to |f.ingredients|
        invariant ings.values == f.ingredients[..k]
        invariant outbox == old(outbox) && calls == old(calls)
      {
        var _ := ings.Set(f.ingredients[k]);
      }
      assert f.ingredients[..|f.ingredients|] == f.ingredients;
      if |f.args| != 1 {
        SendMessage(conv, NoNameText);
        return None;
      }
      if |f.mixing| == 0 || |f.serving| == 0 || |f.glass| == 0 {
        SendMessage(conv, MissingAspectText);
        return None;
      }
      return Some(f.(ingredients := ings.values));
    }

    /** The rest of `handleAddRecipe`: the ingredient loop, `AddRecipe`, then the replies. */
    method Submit(f: FlagValues, sender: string, conv: string)
      requires |f.args| == 1
      modifies this
      ensures outbox == old(outbox) + SubmitEffect(oracles, f, sender, conv).sends
      ensures calls == old(calls) + SubmitEffect(oracles, f, sender, conv).calls
    {
      var ok, ingredients := ReadIngredients(f.ingredients, conv);
      if !ok {
        return;
      }
      var name := f.args[0];
      var err := AddRecipe(Recipe(name, f.mixing, f.glass, f.serving, f.notes, ingredients, sender));
      if err.Some? {
        SendMessage(conv, AddFailedText);
        return;
      }
      SendMessage(conv, SuccessText);
      SendMessage(conv, DescribeCommandText(name));
      SendBroadcast(AnnounceText(sender, name));
      SendBroadcast(DescribeCommandText(name));
    }

    /** `handleAddRecipe`. */
    method HandleAddRecipe(cmd: string, sender: string, conv: string)
      modifies this
      ensures outbox == old(outbox) + AddRecipeEffect(oracles, cmd, sender, conv).sends
      ensures calls == old(calls) + AddRecipeEffect(oracles, cmd, sender, conv).calls
    {
      var flags := ReadFlags(cmd, conv);
      if flags.Some? {
        Submit(flags.value, sender, conv);
      }
    }

    /** `handleCommand`. */
    method HandleCommand(m: Message)
      modifies this
      ensures outbox == old(outbox) + CommandEffect(oracles, m).sends
      ensures calls == old(calls) + CommandEffect(oracles, m).calls
    {
      match m.text
      case None =>
        // a message without text is skipped
      case Some(body) =>
        if DescribePrefix <= body {
          HandleDesc(body, m.conv);
        } else if RandomPrefix <= body {
          HandleRandom(body, m.conv);
        } else if AddRecipePrefix <= body {
          HandleAddRecipe(body, m.sender, m.conv);
        }
    }
  }
}
