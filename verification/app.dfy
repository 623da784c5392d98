/**
 * The app component's state and its handlers: generating a plan (split into
 * the call going out and its outcome coming back), rescaling, resetting,
 * opening a bookmark, and the bookmark toggle and delete with their
 * write-through to storage.
 */
module App {
  import opened Types
  import opened Bookmarks
  import ResultView

  /**
   * What the generation service returned. The service is not modelled: its
   * outcome is an input, and nothing about the plan is assumed.
   */
  datatype Outcome = Generated(plan: RecipeResponse) | Failed

  /** A call to the generation service: household size, dish text, language. */
  datatype Request = Request(familySize: int, dish: string, language: Language)

  /** The app component's state. */
  datatype AppState = AppState(
    language: Language,
    view: ViewState,
    isLoading: bool,
    result: Option<RecipeResponse>,
    error: Option<string>,
    currentDish: string,
    store: Store)

  /** A handler's effect: the new state and the generation call it starts, if any. */
  datatype Step = Step(state: AppState, call: Option<Request>)

  /** The storage slot holds exactly the in-memory bookmark list. */
  predicate Valid(s: AppState)
  {
    Consistent(s.store)
  }

  /**
   * The app as it mounts: Traditional Chinese (Hong Kong), the home screen,
   * nothing loading, no plan, no error, no dish, and the stored bookmarks.
   * `None` when the stored text cannot be parsed.
   */
  function Start(slot: Option<string>): (r: Option<AppState>)
    ensures r.Some? <==> Load(slot).Some?
    ensures r.Some? ==> Valid(r.value) && r.value.store.bookmarks == Load(slot).value
    ensures r.Some? ==> r.value.language == ZhHK && r.value.view == Home && !r.value.isLoading
                        && r.value.result == None && r.value.error == None && r.value.currentDish == ""
  {
    match Mount(slot)
    case None => None
    case Some(st) => Some(AppState(ZhHK, Home, false, None, None, "", st))
  }

  /** `handleGenerate` up to the call: loading, no error, the dish recorded, the call made. */
  function BeginGenerate(s: AppState, familySize: int, dish: string): (r: Step)
    ensures r.state.isLoading && r.state.error == None && r.state.currentDish == dish
    ensures r.call == Some(Request(familySize, dish, s.language))
    ensures r.state == s.(isLoading := r.state.isLoading, error := r.state.error, currentDish := r.state.currentDish)
  {
    Step(s.(isLoading := true, error := None, currentDish := dish), Some(Request(familySize, dish, s.language)))
  }

  /**
   * `handleGenerate` after the call returns: a plan becomes the result and
   * the plan screen is shown; a failure sets the error message and leaves
   * the result and the screen as they were. Loading ends either way.
   */
  function CompleteGenerate(s: AppState, outcome: Outcome, errorMessage: string): (r: AppState)
    ensures !r.isLoading
    ensures outcome.Generated? ==> r.result == Some(outcome.plan) && r.view == Result && r.error == s.error
    ensures outcome.Failed? ==> r.result == s.result && r.view == s.view && r.error == Some(errorMessage)
    ensures r.currentDish == s.currentDish && r.store == s.store && r.language == s.language
  {
    match outcome
    case Generated(plan) => s.(result := Some(plan), view := Result, isLoading := false)
    case Failed => s.(error := Some(errorMessage), isLoading := false)
  }

  /** `handleUpdatePortion`: regenerate for the new size with the retained dish, if there is one. */
  function UpdatePortion(s: AppState, newSize: int): (r: Step)
    ensures r.call.Some? <==> s.currentDish != ""
    ensures r.call.Some? ==> r.call.value == Request(newSize, s.currentDish, s.language) && r.state.isLoading
    ensures r.call.Some? ==> r == BeginGenerate(s, newSize, s.currentDish)
    ensures r.call.Some? ==> r.state.error == None && r.state == s.(isLoading := true, error := None)
    ensures r.call.None? ==> r.state == s
  {
    if s.currentDish != "" then BeginGenerate(s, newSize, s.currentDish) else Step(s, None)
  }

  /** `handleReset`: back to the home screen with no plan, no error and no dish. */
  function Reset(s: AppState): (r: AppState)
    ensures r.result == None && r.error == None && r.currentDish == "" && r.view == Home
    ensures r == s.(result := r.result, error := r.error, currentDish := r.currentDish, view := r.view)
  {
    s.(result := None, error := None, currentDish := "", view := Home)
  }

  /** `handleSelectBookmark`: the saved plan becomes the result, with its query as the dish. */
  function SelectBookmark(s: AppState, recipe: SavedRecipe): (r: AppState)
    ensures r.result == Some(recipe.plan) && r.currentDish == recipe.originalQuery && r.view == Result
    ensures r == s.(result := r.result, currentDish := r.currentDish, view := r.view)
  {
    s.(result := Some(recipe.plan), currentDish := recipe.originalQuery, view := Result)
  }

  /** `isCurrentBookmarked`: there is a result and some bookmark has its key. */
  function IsCurrentBookmarked(s: AppState): (r: bool)
    ensures s.result.None? ==> !r
    ensures s.result.Some? ==> (r <==> exists i :: 0 <= i < |s.store.bookmarks| &&
                                                   SameKey(s.store.bookmarks[i].plan, s.result.value))
  {
    match s.result
    case None => false
    case Some(p) => AnySameKey(s.store.bookmarks, p)
  }

  /**
   * `handleToggleBookmark`: nothing happens without a current dish;
   * otherwise the list is toggled for the plan and written through.
   */
  function ToggleBookmark(s: AppState, data: RecipeResponse, idTime: int, createdTime: int): (r: AppState)
    requires s.currentDish != "" ==> ScanSafe(s.store.bookmarks, data)
    ensures s.currentDish == "" ==> r == s
    ensures s.currentDish != "" ==>
      r.store == Persist(Toggle(s.store.bookmarks, data, s.currentDish, idTime, createdTime))
    ensures s.currentDish != "" ==> Valid(r)
    ensures r == s.(store := r.store)
  {
    if s.currentDish == "" then s
    else s.(store := Persist(Toggle(s.store.bookmarks, data, s.currentDish, idTime, createdTime)))
  }

  /** `handleDeleteBookmark`: every bookmark with the identity goes, and the list is written through. */
  function DeleteBookmark(s: AppState, id: string): (r: AppState)
    ensures r.store.bookmarks == Delete(s.store.bookmarks, id) && Valid(r)
    ensures forall b :: b in r.store.bookmarks ==> b.id != id
    ensures r == s.(store := r.store)
  {
    s.(store := Persist(Delete(s.store.bookmarks, id)))
  }

  // ---------------------------------------------------------------------
  // Properties across handlers
  // ---------------------------------------------------------------------

  /**
   * Every handler keeps the storage slot in step with the in-memory list;
   * the two that write through restore it even when it was out of step.
   */
  lemma HandlersKeepValid(s: AppState, familySize: int, dish: string, outcome: Outcome, message: string,
                          newSize: int, recipe: SavedRecipe, data: RecipeResponse, t1: int, t2: int, id: string)
    ensures Valid(s) ==> Valid(BeginGenerate(s, familySize, dish).state)
    ensures Valid(s) ==> Valid(CompleteGenerate(s, outcome, message))
    ensures Valid(s) ==> Valid(UpdatePortion(s, newSize).state)
    ensures Valid(s) ==> Valid(Reset(s))
    ensures Valid(s) ==> Valid(SelectBookmark(s, recipe))
    ensures Valid(s) && s.currentDish == "" ==> Valid(ToggleBookmark(s, data, t1, t2))
    ensures s.currentDish != "" && ScanSafe(s.store.bookmarks, data) ==> Valid(ToggleBookmark(s, data, t1, t2))
    ensures Valid(DeleteBookmark(s, id))
  {
  }

  /** A successful generation shows the new plan for the dish that was asked for, with no error. */
  lemma GenerateThenSucceed(s: AppState, familySize: int, dish: string, plan: RecipeResponse, message: string)
    ensures var r := CompleteGenerate(BeginGenerate(s, familySize, dish).state, Generated(plan), message);
            r.result == Some(plan) && r.view == Result && r.error == None && !r.isLoading && r.currentDish == dish
  {
  }

  /**
   * A failed generation reports the error and keeps the previous plan and
   * screen; submitting again starts a fresh call with a cleared error.
   */
  lemma GenerateThenFailThenRetry(s: AppState, familySize: int, dish: string, message: string)
    ensures var r := CompleteGenerate(BeginGenerate(s, familySize, dish).state, Failed, message);
            && r.result == s.result && r.view == s.view && r.error == Some(message) && !r.isLoading
            && var again := BeginGenerate(r, familySize, dish);
               again.call == Some(Request(familySize, dish, s.language)) && again.state.error == None
  {
  }

  /** Pressing the bookmark button on a plan flips whether that plan shows as saved, when keys are unique. */
  lemma ToggleFlipsSaved(s: AppState, t1: int, t2: int)
    requires s.result.Some? && s.currentDish != ""
    requires ScanSafe(s.store.bookmarks, s.result.value)
    requires UniqueKeys(s.store.bookmarks)
    ensures IsCurrentBookmarked(ToggleBookmark(s, s.result.value, t1, t2)) == !IsCurrentBookmarked(s)
  {
    ToggleFlipsKey(s.store.bookmarks, s.result.value, s.currentDish, t1, t2);
  }

  /**
   * The plan screen's bookmark button on the current plan, with the app's
   * toggle handler attached, flips the saved indicator when keys are unique.
   */
  lemma BookmarkButtonFlipsSaved(s: AppState, t1: int, t2: int)
    requires s.result.Some? && s.currentDish != ""
    requires ScanSafe(s.store.bookmarks, s.result.value)
    requires UniqueKeys(s.store.bookmarks)
    ensures var clicked := ResultView.BookmarkClick(s.result.value, true);
            && clicked.Some?
            && IsCurrentBookmarked(ToggleBookmark(s, clicked.value, t1, t2)) == !IsCurrentBookmarked(s)
  {
    ToggleFlipsSaved(s, t1, t2);
  }

  /** Opening a bookmark from the list shows it as saved. */
  lemma SelectedBookmarkIsSaved(s: AppState, recipe: SavedRecipe)
    requires recipe in s.store.bookmarks
    ensures IsCurrentBookmarked(SelectBookmark(s, recipe))
  {
    var i :| 0 <= i < |s.store.bookmarks| && s.store.bookmarks[i] == recipe;
    assert SameKey(s.store.bookmarks[i].plan, recipe.plan);
  }

  /**
   * Starting from an empty store, bookmarking a plan and then a different
   * plan with the same first dish and size leaves the store empty.
   */
  lemma SameKeyPlansCancel(s: AppState, a: RecipeResponse, b: RecipeResponse, t1: int, t2: int, t3: int, t4: int)
    requires s.store.bookmarks == [] && s.currentDish != ""
    requires |a.dishes| > 0 && SameKey(a, b)
    ensures var once := ToggleBookmark(s, a, t1, t2);
            ScanSafe(once.store.bookmarks, b) && ToggleBookmark(once, b, t3, t4).store.bookmarks == []
  {
    ToggleTwiceRestores([], a, b, s.currentDish, s.currentDish, t1, t2, t3, t4);
  }

  /** After a restart, the app reloads exactly the bookmarks it had. */
  lemma RestartReloads(s: AppState)
    requires Valid(s)
    ensures Start(s.store.slot).Some?
    ensures Start(s.store.slot).value.store.bookmarks == s.store.bookmarks
  {
  }
}
