/**
 * How the bookmark list is written to and read from its storage slot: each
 * plan becomes a JSON object whose keys are the field names of the data
 * model, the list becomes a JSON array, and the array is written as text.
 * Reading accepts the keys in any order (the last of a repeated key wins)
 * and rejects a text whose value does not have the bookmark shape.
 */
module BookmarkCodec {
  import opened Types
  import opened Json

  // ---------------------------------------------------------------------
  // Lists
  // ---------------------------------------------------------------------

  function EncodeList<T>(xs: seq<T>, enc: T -> Json): seq<Json>
  {
    seq(|xs|, i requires 0 <= i < |xs| => enc(xs[i]))
  }

  /** Decodes every item of an array, failing if any item fails. */
  function DecodeList<T>(items: seq<Json>, dec: Json -> Option<T>): (r: Option<seq<T>>)
    ensures r.Some? ==> |r.value| == |items|
  {
    if |items| == 0 then Some([])
    else
      var x :- dec(items[0]);
      var xs :- DecodeList(items[1..], dec);
      Some([x] + xs)
  }

  lemma {:induction false} ListRoundTrip<T>(xs: seq<T>, enc: T -> Json, dec: Json -> Option<T>)
    requires forall x :: x in xs ==> dec(enc(x)) == Some(x)
    ensures DecodeList(EncodeList(xs, enc), dec) == Some(xs)
  {
    if |xs| > 0 {
      assert EncodeList(xs, enc)[1..] == EncodeList(xs[1..], enc);
      ListRoundTrip(xs[1..], enc, dec);
      assert [xs[0]] + xs[1..] == xs;
    }
  }

  // ---------------------------------------------------------------------
  // Fields
  // ---------------------------------------------------------------------

  function NumberField(ms: seq<Member>, key: string): Option<int>
  {
    match Field(ms, key)
    case Some(JNumber(n)) => Some(n)
    case _ => None
  }

  function StringField(ms: seq<Member>, key: string): Option<string>
  {
    match Field(ms, key)
    case Some(JString(s)) => Some(s)
    case _ => None
  }

  function ArrayField(ms: seq<Member>, key: string): Option<seq<Json>>
  {
    match Field(ms, key)
    case Some(JArray(items)) => Some(items)
    case _ => None
  }

  /** An optional number: a missing key is `undefined`, a present one must hold a number. */
  function OptionalNumberField(ms: seq<Member>, key: string): Option<Option<int>>
  {
    match Field(ms, key)
    case None => Some(None)
    case Some(JNumber(n)) => Some(Some(n))
    case _ => None
  }

  predicate DistinctKeys(ms: seq<Member>)
  {
    forall i, k :: 0 <= i < k < |ms| ==> ms[i].key != ms[k].key
  }

  /** In an object whose keys are distinct, every key is looked up to its own value. */
  lemma FieldOfDistinct(ms: seq<Member>)
    requires DistinctKeys(ms)
    ensures forall i :: 0 <= i < |ms| ==> Field(ms, ms[i].key) == Some(ms[i].value)
  {
    forall i | 0 <= i < |ms|
      ensures Field(ms, ms[i].key) == Some(ms[i].value)
    {
      FieldOfUnique(ms, i);
    }
  }

  // ---------------------------------------------------------------------
  // Prices and ingredients
  // ---------------------------------------------------------------------

  function StringToJson(s: string): Json
  {
    JString(s)
  }

  function StringFromJson(j: Json): Option<string>
  {
    match j
    case JString(s) => Some(s)
    case _ => None
  }

  function PriceMembers(p: PriceInfo): seq<Member>
  {
    [Member("market", JNumber(p.market)), Member("supermarket", JNumber(p.supermarket))]
  }

  function PriceFromJson(j: Json): Option<PriceInfo>
  {
    match j
    case JObject(ms) =>
      var market :- NumberField(ms, "market");
      var supermarket :- NumberField(ms, "supermarket");
      Some(PriceInfo(market, supermarket))
    case _ => None
  }

  lemma PriceRoundTrip(p: PriceInfo)
    ensures PriceFromJson(JObject(PriceMembers(p))) == Some(p)
  {
    var ms := PriceMembers(p);
    assert ms[0].key == "market" && ms[1].key == "supermarket";
    FieldOfDistinct(ms);
  }

  function IngredientToJson(g: Ingredient): Json
  {
    JObject([
      Member("name", JString(g.name)),
      Member("marketQuantity", JString(g.marketQuantity)),
      Member("supermarketQuantity", JString(g.supermarketQuantity)),
      Member("prices", JObject(PriceMembers(g.prices))),
      Member("notes", JString(g.notes))])
  }

  function IngredientFromJson(j: Json): Option<Ingredient>
  {
    match j
    case JObject(ms) =>
      var name :- StringField(ms, "name");
      var marketQuantity :- StringField(ms, "marketQuantity");
      var supermarketQuantity :- StringField(ms, "supermarketQuantity");
      var prices :- (match Field(ms, "prices") case Some(pj) => PriceFromJson(pj) case None => None);
      var notes :- StringField(ms, "notes");
      Some(Ingredient(name, marketQuantity, supermarketQuantity, prices, notes))
    case _ => None
  }

  lemma IngredientRoundTrip(g: Ingredient)
    ensures IngredientFromJson(IngredientToJson(g)) == Some(g)
  {
    var ms := IngredientToJson(g).members;
    assert ms[0].key == "name";
    assert ms[1].key == "marketQuantity";
    assert ms[2].key == "supermarketQuantity";
    assert ms[3].key == "prices";
    assert ms[4].key == "notes";
    FieldOfDistinct(ms);
    PriceRoundTrip(g.prices);
  }

  lemma IngredientsRoundTrip(gs: seq<Ingredient>)
    ensures DecodeList(EncodeList(gs, IngredientToJson), IngredientFromJson) == Some(gs)
  {
    forall g | g in gs
      ensures IngredientFromJson(IngredientToJson(g)) == Some(g)
    {
      IngredientRoundTrip(g);
    }
    ListRoundTrip(gs, IngredientToJson, IngredientFromJson);
  }

  lemma StringsRoundTrip(ss: seq<string>)
    ensures DecodeList(EncodeList(ss, StringToJson), StringFromJson) == Some(ss)
  {
    ListRoundTrip(ss, StringToJson, StringFromJson);
  }

  // ---------------------------------------------------------------------
  // Dishes and plans
  // ---------------------------------------------------------------------

  function DishToJson(d: Dish): Json
  {
    JObject([
      Member("name", JString(d.name)),
      Member("ingredients", JArray(EncodeList(d.ingredients, IngredientToJson))),
      Member("cookingSteps", JArray(EncodeList(d.cookingSteps, StringToJson)))])
  }

  function DishFromJson(j: Json): Option<Dish>
  {
    match j
    case JObject(ms) =>
      var name :- StringField(ms, "name");
      var ingredients :- ArrayField(ms, "ingredients");
      var ingredients' :- DecodeList(ingredients, IngredientFromJson);
      var steps :- ArrayField(ms, "cookingSteps");
      var steps' :- DecodeList(steps, StringFromJson);
      Some(Dish(name, ingredients', steps'))
    case _ => None
  }

  lemma DishRoundTrip(d: Dish)
    ensures DishFromJson(DishToJson(d)) == Some(d)
  {
    var ms := DishToJson(d).members;
    assert ms[0].key == "name";
    assert ms[1].key == "ingredients";
    assert ms[2].key == "cookingSteps";
    FieldOfDistinct(ms);
    IngredientsRoundTrip(d.ingredients);
    StringsRoundTrip(d.cookingSteps);
  }

  lemma DishesRoundTrip(ds: seq<Dish>)
    ensures DecodeList(EncodeList(ds, DishToJson), DishFromJson) == Some(ds)
  {
    forall d | d in ds
      ensures DishFromJson(DishToJson(d)) == Some(d)
    {
      DishRoundTrip(d);
    }
    ListRoundTrip(ds, DishToJson, DishFromJson);
  }

  /**
   * The members a bookmark is written with, in a fixed order: the plan's
   * fields in the order the plan type declares them, then the identity, the
   * query and the creation time. `JSON.stringify` leaves out a `createdAt`
   * that is `undefined`. The key order of the source's object may differ;
   * reading by key makes the order irrelevant to what is read back.
   */
  function SavedMembers(r: SavedRecipe): seq<Member>
  {
    var p := r.plan;
    [ Member("dishes", JArray(EncodeList(p.dishes, DishToJson))),
      Member("commonIngredients", JArray(EncodeList(p.commonIngredients, IngredientToJson))),
      Member("portionSize", JNumber(p.portionSize)),
      Member("shoppingTips", JArray(EncodeList(p.shoppingTips, StringToJson))),
      Member("wastePreventionTip", JString(p.wastePreventionTip)),
      Member("id", JString(r.id)),
      Member("originalQuery", JString(r.originalQuery)) ]
    + (match p.createdAt case Some(t) => [Member("createdAt", JNumber(t))] case None => [])
  }

  function SavedToJson(r: SavedRecipe): Json
  {
    JObject(SavedMembers(r))
  }

  /** Reads the plan fields of a bookmark object. */
  function PlanFromMembers(ms: seq<Member>): Option<RecipeResponse>
  {
    var dishes :- ArrayField(ms, "dishes");
    var dishes' :- DecodeList(dishes, DishFromJson);
    var common :- ArrayField(ms, "commonIngredients");
    var common' :- DecodeList(common, IngredientFromJson);
    var portionSize :- NumberField(ms, "portionSize");
    var tips :- ArrayField(ms, "shoppingTips");
    var tips' :- DecodeList(tips, StringFromJson);
    var waste :- StringField(ms, "wastePreventionTip");
    var createdAt :- OptionalNumberField(ms, "createdAt");
    Some(RecipeResponse(dishes', common', portionSize, tips', waste, createdAt))
  }

  function SavedFromJson(j: Json): Option<SavedRecipe>
  {
    match j
    case JObject(ms) =>
      var plan :- PlanFromMembers(ms);
      var id :- StringField(ms, "id");
      var query :- StringField(ms, "originalQuery");
      Some(SavedRecipe(plan, id, query))
    case _ => None
  }

  lemma SavedKeysDistinct(r: SavedRecipe)
    ensures DistinctKeys(SavedMembers(r))
  {
    var ms := SavedMembers(r);
    var keys := ["dishes", "commonIngredients", "portionSize", "shoppingTips", "wastePreventionTip",
                 "id", "originalQuery", "createdAt"];
    assert forall i, k :: 0 <= i < k < |keys| ==> keys[i] != keys[k];
    assert forall i :: 0 <= i < |ms| ==> ms[i].key == keys[i];
  }

  /** What each key of a written bookmark looks up to. */
  lemma SavedFields(r: SavedRecipe)
    ensures ArrayField(SavedMembers(r), "dishes") == Some(EncodeList(r.plan.dishes, DishToJson))
    ensures ArrayField(SavedMembers(r), "commonIngredients")
            == Some(EncodeList(r.plan.commonIngredients, IngredientToJson))
    ensures NumberField(SavedMembers(r), "portionSize") == Some(r.plan.portionSize)
    ensures ArrayField(SavedMembers(r), "shoppingTips") == Some(EncodeList(r.plan.shoppingTips, StringToJson))
    ensures StringField(SavedMembers(r), "wastePreventionTip") == Some(r.plan.wastePreventionTip)
    ensures StringField(SavedMembers(r), "id") == Some(r.id)
    ensures StringField(SavedMembers(r), "originalQuery") == Some(r.originalQuery)
    ensures OptionalNumberField(SavedMembers(r), "createdAt") == Some(r.plan.createdAt)
  {
    var ms := SavedMembers(r);
    SavedKeysDistinct(r);
    FieldOfDistinct(ms);
    assert ms[0].key == "dishes";
    assert ms[1].key == "commonIngredients";
    assert ms[2].key == "portionSize";
    assert ms[3].key == "shoppingTips";
    assert ms[4].key == "wastePreventionTip";
    assert ms[5].key == "id";
    assert ms[6].key == "originalQuery";
    if r.plan.createdAt.Some? {
      assert ms[7].key == "createdAt";
    } else {
      assert forall i :: 0 <= i < |ms| ==> ms[i].key != "createdAt";
    }
  }

  /** Every bookmark reads back as itself. */
  lemma SavedRoundTrip(r: SavedRecipe)
    ensures SavedFromJson(SavedToJson(r)) == Some(r)
  {
    SavedFields(r);
    DishesRoundTrip(r.plan.dishes);
    IngredientsRoundTrip(r.plan.commonIngredients);
    StringsRoundTrip(r.plan.shoppingTips);
    assert PlanFromMembers(SavedMembers(r)) == Some(r.plan);
  }

  // ---------------------------------------------------------------------
  // The stored text
  // ---------------------------------------------------------------------

  /** The stored text of the whole bookmark list, written as `JSON.stringify` writes it, with keys in a fixed order. */
  function Serialize(bs: seq<SavedRecipe>): string
  {
    Stringify(JArray(EncodeList(bs, SavedToJson)))
  }

  /**
   * `JSON.parse` of a stored text, read as a bookmark list; `None` when the
   * text is not JSON or its value is not a list of bookmarks.
   */
  function Deserialize(text: string): Option<seq<SavedRecipe>>
  {
    match Parse(text)
    case Some(JArray(items)) => DecodeList(items, SavedFromJson)
    case _ => None
  }

  /** Parsing the stored text back yields exactly the list that was stored. */
  lemma DeserializeSerialize(bs: seq<SavedRecipe>)
    ensures Deserialize(Serialize(bs)) == Some(bs)
  {
    ParseStringify(JArray(EncodeList(bs, SavedToJson)));
    forall r | r in bs
      ensures SavedFromJson(SavedToJson(r)) == Some(r)
    {
      SavedRoundTrip(r);
    }
    ListRoundTrip(bs, SavedToJson, SavedFromJson);
  }

  /** Different lists are stored as different texts. */
  lemma SerializeInjective(a: seq<SavedRecipe>, b: seq<SavedRecipe>)
    ensures Serialize(a) == Serialize(b) ==> a == b
  {
    DeserializeSerialize(a);
    DeserializeSerialize(b);
  }
}
