/**
 * The request form on the home screen: a household-size stepper starting at
 * 2 and a free-text dish field. Submitting passes both to the generate
 * handler, but only when the dish text has some non-whitespace character.
 */
module InputForm {
  import opened Types
  import opened Stepper

  const InitialFamilySize: int := 2

  /** The form's local state. */
  datatype Form = Form(familySize: int, dish: string)

  /**
   * The characters `String.prototype.trim` removes: the ECMAScript white
   * space characters and line terminators.
   */
  predicate IsJsSpace(c: char)
  {
    || c == '\t' || c == '\n' || c == '\r' || c == ' '
    || c as int == 0x0B || c as int == 0x0C || c as int == 0xA0 || c as int == 0x1680
    || (0x2000 <= c as int <= 0x200A)
    || c as int == 0x2028 || c as int == 0x2029 || c as int == 0x202F || c as int == 0x205F
    || c as int == 0x3000 || c as int == 0xFEFF
  }

  /** The text has a character that is not white space. */
  predicate HasContent(s: string)
  {
    exists i :: 0 <= i < |s| && !IsJsSpace(s[i])
  }

  function TrimStart(s: string): (r: string)
    ensures |r| <= |s| && r == s[|s| - |r|..]
    ensures forall i :: 0 <= i < |s| - |r| ==> IsJsSpace(s[i])
    ensures |r| == 0 || !IsJsSpace(r[0])
  {
    if |s| == 0 || !IsJsSpace(s[0]) then s else TrimStart(s[1..])
  }

  function TrimEnd(s: string): (r: string)
    ensures |r| <= |s| && r == s[..|r|]
    ensures forall i :: |r| <= i < |s| ==> IsJsSpace(s[i])
    ensures |r| == 0 || !IsJsSpace(r[|r| - 1])
  {
    if |s| == 0 || !IsJsSpace(s[|s| - 1]) then s else TrimEnd(s[..|s| - 1])
  }

  /** `String.prototype.trim`: white space removed from both ends. */
  function Trim(s: string): string
  {
    TrimEnd(TrimStart(s))
  }

  /** The trimmed text is non-empty exactly when the text has a non-white-space character. */
  lemma TrimNonEmptyIff(s: string)
    ensures Trim(s) != "" <==> HasContent(s)
  {
    var a := TrimStart(s);
    var b := TrimEnd(a);
    if HasContent(s) {
      var i :| 0 <= i < |s| && !IsJsSpace(s[i]);
      assert |a| > 0 && !IsJsSpace(a[0]);
      assert |b| > 0;
    }
  }

  /** The form as it mounts: size 2, and the dish taken from `initialDish || ''`. */
  function Init(initialDish: Option<string>): (f: Form)
    ensures f.familySize == InitialFamilySize && InRange(f.familySize)
    ensures initialDish.Some? ==> f.dish == initialDish.value
    ensures initialDish.None? ==> f.dish == ""
  {
    Form(InitialFamilySize, match initialDish case Some(d) => d case None => "")
  }

  /** The effect on a new `initialDish`: it overwrites the field only when it is non-empty. */
  function SyncInitialDish(f: Form, initialDish: Option<string>): (r: Form)
    ensures r.familySize == f.familySize
    ensures r.dish == f.dish || (initialDish == Some(r.dish) && r.dish != "")
    ensures initialDish.Some? && initialDish.value != "" ==> r.dish == initialDish.value
    ensures initialDish == None || initialDish == Some("") ==> r == f
  {
    match initialDish
    case Some(d) => if d != "" then f.(dish := d) else f
    case None => f
  }

  /**
   * The effect also runs once on mount, with the value the form was just
   * initialised from; that run changes nothing. Running it again with the
   * same value changes nothing either.
   */
  lemma SyncAfterInitIsNoOp(initialDish: Option<string>, f: Form)
    ensures SyncInitialDish(Init(initialDish), initialDish) == Init(initialDish)
    ensures SyncInitialDish(SyncInitialDish(f, initialDish), initialDish) == SyncInitialDish(f, initialDish)
  {
  }

  function DecreaseSize(f: Form): (r: Form)
    ensures r.dish == f.dish && r.familySize >= MinSize && r.familySize >= f.familySize - 1
    ensures r.familySize == MinSize || r.familySize == f.familySize - 1
    ensures InRange(f.familySize) ==> InRange(r.familySize)
  {
    f.(familySize := Decrement(f.familySize))
  }

  function IncreaseSize(f: Form): (r: Form)
    ensures r.dish == f.dish && r.familySize <= MaxSize && r.familySize <= f.familySize + 1
    ensures r.familySize == MaxSize || r.familySize == f.familySize + 1
    ensures InRange(f.familySize) ==> InRange(r.familySize)
  {
    f.(familySize := Increment(f.familySize))
  }

  /**
   * `handleSubmit`: the size and the untrimmed dish text go to the generate
   * handler when the trimmed text is non-empty; otherwise nothing happens.
   */
  function Submit(f: Form): (r: Option<(int, string)>)
    ensures r.Some? <==> HasContent(f.dish)
    ensures r.Some? ==> r.value == (f.familySize, f.dish)
  {
    TrimNonEmptyIff(f.dish);
    if Trim(f.dish) != "" then Some((f.familySize, f.dish)) else None
  }

  /** Whatever the stepper presses since mount, a submitted size is between 1 and 20. */
  lemma SubmittedSizeInRange(presses: seq<Press>, text: string)
    ensures var f := Form(Presses(InitialFamilySize, presses), text);
            Submit(f).Some? ==> InRange(Submit(f).value.0)
  {
    PressesStayInRange(InitialFamilySize, presses);
  }
}
