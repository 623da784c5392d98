/**
 * The shared data model of the meal planner: the interface language, the
 * screens, and the shape of a generated shopping-and-cooking plan and of a
 * bookmarked plan.
 */
module Types {

  /** An optional value; `None` stands for JavaScript's `undefined`/`null`. */
  datatype Option<+T> = None | Some(value: T) {
    predicate IsFailure() {
      None?
    }

    function PropagateFailure<U>(): Option<U>
      requires None?
    {
      None
    }

    function Extract(): T
      requires Some?
    {
      value
    }
  }

  /** The three interface languages. */
  datatype Language = En | ZhHK | ZhCN

  /** The four top-level screens. */
  datatype ViewState = Home | Explore | Bookmarks | Result

  /** The two advisory prices of one ingredient: wet market and supermarket. */
  datatype PriceInfo = PriceInfo(market: int, supermarket: int)

  datatype Ingredient = Ingredient(
    name: string,
    marketQuantity: string,
    supermarketQuantity: string,
    prices: PriceInfo,
    notes: string)

  /** A dish: its ingredients and its cooking steps, both in order. */
  datatype Dish = Dish(name: string, ingredients: seq<Ingredient>, cookingSteps: seq<string>)

  /**
   * A generated plan. `createdAt` is only filled in when the plan is
   * bookmarked; a plan without it is still a plan.
   */
  datatype RecipeResponse = RecipeResponse(
    dishes: seq<Dish>,
    commonIngredients: seq<Ingredient>,
    portionSize: int,
    shoppingTips: seq<string>,
    wastePreventionTip: string,
    createdAt: Option<int>)

  /** A bookmarked plan: the plan itself plus an identity and the dish text that produced it. */
  datatype SavedRecipe = SavedRecipe(plan: RecipeResponse, id: string, originalQuery: string)

  /** The tag a language carries in the program's string union. */
  function LanguageCode(l: Language): string
  {
    match l
    case En => "en"
    case ZhHK => "zh-HK"
    case ZhCN => "zh-CN"
  }

  /** The language a tag names, if it names one. */
  function LanguageOf(code: string): (r: Option<Language>)
    ensures r.Some? <==> code == "en" || code == "zh-HK" || code == "zh-CN"
    ensures r.Some? ==> LanguageCode(r.value) == code
  {
    if code == "en" then Some(En)
    else if code == "zh-HK" then Some(ZhHK)
    else if code == "zh-CN" then Some(ZhCN)
    else None
  }

  /** Every language has its own tag, and the tag names it back. */
  lemma LanguageCodeRoundTrip(l: Language)
    ensures LanguageOf(LanguageCode(l)) == Some(l)
    ensures forall l' :: LanguageCode(l') == LanguageCode(l) ==> l' == l
  {
  }

  /** The tag a screen carries in the program's string union. */
  function ViewCode(v: ViewState): string
  {
    match v
    case Home => "home"
    case Explore => "explore"
    case Bookmarks => "bookmarks"
    case Result => "result"
  }

  /** The screen a tag names, if it names one. */
  function ViewOf(code: string): (r: Option<ViewState>)
    ensures r.Some? <==> code in {"home", "explore", "bookmarks", "result"}
    ensures r.Some? ==> ViewCode(r.value) == code
  {
    if code == "home" then Some(Home)
    else if code == "explore" then Some(Explore)
    else if code == "bookmarks" then Some(Bookmarks)
    else if code == "result" then Some(Result)
    else None
  }

  /** Every screen has its own tag, and the tag names it back. */
  lemma ViewCodeRoundTrip(v: ViewState)
    ensures ViewOf(ViewCode(v)) == Some(v)
    ensures forall v' :: ViewCode(v') == ViewCode(v) ==> v' == v
  {
  }

  /**
   * The name of a plan's first dish, read with optional chaining: absent
   * when the plan has no dishes.
   */
  function FirstDishName(p: RecipeResponse): (r: Option<string>)
    ensures r.None? <==> |p.dishes| == 0
    ensures r.Some? ==> r.value == p.dishes[0].name
  {
    if |p.dishes| == 0 then None else Some(p.dishes[0].name)
  }

  /**
   * The weak bookmark identity: two plans are "the same" when their first
   * dishes have the same name and they were computed for the same household
   * size. Nothing else of the plan takes part.
   */
  predicate SameKey(a: RecipeResponse, b: RecipeResponse)
  {
    FirstDishName(a) == FirstDishName(b) && a.portionSize == b.portionSize
  }

  /** The key ignores everything but the first dish name and the portion size. */
  lemma SameKeyIsEquivalence(a: RecipeResponse, b: RecipeResponse, c: RecipeResponse)
    ensures SameKey(a, a)
    ensures SameKey(a, b) ==> SameKey(b, a)
    ensures SameKey(a, b) && SameKey(b, c) ==> SameKey(a, c)
    ensures SameKey(a, a.(createdAt := c.createdAt, commonIngredients := c.commonIngredients,
                           shoppingTips := c.shoppingTips, wastePreventionTip := c.wastePreventionTip))
    ensures |a.dishes| > 0 && |c.dishes| > 0 && c.dishes[0].name == a.dishes[0].name ==>
              SameKey(a, c.(portionSize := a.portionSize))
    ensures |a.dishes| == 0 && |c.dishes| == 0 ==> SameKey(a, c.(portionSize := a.portionSize))
  {
  }
}
