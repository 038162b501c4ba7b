/** Properties of the helpers that relate several calls or characterise a
    helper by an independent definition. */
module Properties {
  import opened Values
  import opened Descriptor
  import opened JsText
  import opened Questionnaire

  // ---------------------------------------------------------------------------
  // trueOrFalse

  /** `reply`, ignoring white space around it and the case of Basic Latin
      letters, is the word `token`. */
  ghost predicate Spells(reply: string, token: string) {
    exists i: nat, j: nat | i <= j <= |reply| :: WhiteOutside(reply, i, j) && Lower(reply[i..j]) == token
  }

  /** A word with no white space in it. */
  predicate Word(token: string) {
    token != [] && forall k :: 0 <= k < |token| ==> !IsWhite(token[k])
  }

  /** The trimmed reply is a witness for `Spells`. */
  lemma SpellsFromTrimmed(reply: string, token: string)
    requires Lower(Trim(reply)) == token
    ensures Spells(reply, token)
  {
    var i := SkipWhite(reply, 0);
    var j := i + |Trim(reply)|;
    assert WhiteOutside(reply, i, j) && Lower(reply[i..j]) == token;
  }

  /** Any way of spelling a word is what `trim` finds. */
  lemma TrimmedFromSpells(reply: string, token: string)
    requires Word(token) && Spells(reply, token)
    ensures Lower(Trim(reply)) == token
  {
    var i: nat, j: nat :| i <= j <= |reply| && WhiteOutside(reply, i, j) && Lower(reply[i..j]) == token;
    assert i < j;
    assert Lower(reply[i..j])[0] == LowerChar(reply[i]);
    assert Lower(reply[i..j])[j - i - 1] == LowerChar(reply[j - 1]);
    TrimUnique(reply, i, j);
  }

  lemma SpellsIffTrimmed(reply: string, token: string)
    requires Word(token)
    ensures Spells(reply, token) <==> Lower(Trim(reply)) == token
  {
    if Lower(Trim(reply)) == token {
      SpellsFromTrimmed(reply, token);
    }
    if Spells(reply, token) {
      TrimmedFromSpells(reply, token);
    }
  }

  /** `trueOrFalse` on a non-empty string reply is true exactly when the reply,
      ignoring surrounding white space and letter case, is `true` or `t`, or,
      when yes/no answers are allowed, `yes` or `y`. */
  lemma TrueOrFalseMeaning(reply: string, def: bool, allowYesOrNo: bool)
    requires reply != ""
    ensures ReadTrueOrFalse(Str(reply), def, allowYesOrNo)
      == Returned(Spells(reply, "true") || Spells(reply, "t")
                  || (allowYesOrNo && (Spells(reply, "yes") || Spells(reply, "y"))))
  {
    SpellsIffTrimmed(reply, "true");
    SpellsIffTrimmed(reply, "t");
    SpellsIffTrimmed(reply, "yes");
    SpellsIffTrimmed(reply, "y");
  }

  /** A reply of white space only is not empty, so it reads as false rather
      than as the default. */
  lemma WhiteReplyIsFalse(reply: string, def: bool, allowYesOrNo: bool)
    requires reply != "" && AllWhite(reply)
    ensures ReadTrueOrFalse(Str(reply), def, allowYesOrNo) == Returned(false)
  {
    TrimUnique(reply, 0, 0);
  }

  /** Turning yes/no answers off makes `yes` and `y`, in any case, read as
      false while they read as true with the flag on. */
  lemma YesNeedsTheFlag(reply: string, def: bool)
    requires Spells(reply, "yes") || Spells(reply, "y")
    ensures ReadTrueOrFalse(Str(reply), def, false) == Returned(false)
    ensures ReadTrueOrFalse(Str(reply), def, true) == Returned(true)
  {
    SpellsIffTrimmed(reply, "yes");
    SpellsIffTrimmed(reply, "y");
    assert reply != "";
  }

  /** An empty or missing reply gives the default, whatever the flag. */
  lemma EmptyReplyGivesDefault(def: bool, allowYesOrNo: bool)
    ensures ReadTrueOrFalse(Str(""), def, allowYesOrNo) == Returned(def)
    ensures ReadTrueOrFalse(Undefined, def, allowYesOrNo) == Returned(def)
  {
  }

  /** `YES` reads as true when yes/no answers are allowed. */
  lemma UpperYesAllowed(def: bool)
    ensures ReadTrueOrFalse(Str("YES"), def, true) == Returned(true)
  {
    TrimUnique("YES", 0, 3);
    assert Lower("YES") == "yes";
  }

  /** `yes` reads as false when yes/no answers are not allowed. */
  lemma YesDisallowed(def: bool)
    ensures ReadTrueOrFalse(Str("yes"), def, false) == Returned(false)
  {
    TrimUnique("yes", 0, 3);
    assert Lower("yes") == "yes";
  }

  /** ` T ` reads as true, with or without yes/no answers. */
  lemma PaddedUpperT(def: bool, allowYesOrNo: bool)
    ensures ReadTrueOrFalse(Str(" T "), def, allowYesOrNo) == Returned(true)
  {
    TrimUnique(" T ", 1, 2);
    assert Lower("T") == "t";
  }

  // ---------------------------------------------------------------------------
  // Index-returning helpers

  predicate Distinct(list: seq<string>) {
    forall a, b :: 0 <= a < b < |list| ==> list[a] != list[b]
  }

  /** With distinct labels, the label at `i` is found at `i`. */
  lemma IndexOfDistinct(list: seq<string>, i: nat)
    requires Distinct(list) && i < |list|
    ensures IndexOf(list, list[i]) == i
  {
    assert list[i] in list;
  }

  /** Picking the label at `i` from distinct labels makes both index helpers
      return `i`. */
  lemma PickedIndexRoundTrip(message: string, list: seq<string>, extend: Record,
                             name: string, i: nat, answers: Record)
    requires Distinct(list) && i < |list|
    requires !Overrides(extend, "choices")
    requires name in answers && answers[name] == Str(list[i])
    ensures AskWithOptionsAndReturnIndex(message, list, extend, name, answers).answer == i
    ensures SelectOneIndex(message, list, extend, name, answers).answer == i
  {
    IndexOfDistinct(list, i);
  }

  /** With a repeated label the first occurrence wins: when `i` is the first
      position of the label at `k`, the label at `k` is found at `i`. */
  lemma RepeatedLabelGivesFirst(list: seq<string>, i: nat, k: nat)
    requires i < k < |list| && list[i] == list[k]
    requires forall j :: 0 <= j < i ==> list[j] != list[i]
    ensures IndexOf(list, list[k]) == i
  {
  }

  // ---------------------------------------------------------------------------
  // choose

  /** When the first choice is a string and the caller does not override
      `choices`, the checkbox question lists `{name: c}` for each choice `c`,
      in order; otherwise it lists the choices as given (an empty list
      included). */
  lemma ChooseSubmitsNameRecords(message: string, choices: seq<Value>, extend: Record,
                                 name: string, answers: Record)
    requires !Overrides(extend, "choices")
    ensures var d := Checkbox(message, Normalised(choices), extend, name, answers).descriptor;
      && d["choices"].List?
      && (IsShorthand(choices) ==>
            |d["choices"].items| == |choices|
            && forall i :: 0 <= i < |choices| ==> d["choices"].items[i] == Obj(map["name" := choices[i]]))
      && (!IsShorthand(choices) ==> d["choices"].items == choices)
  {
  }

  // ---------------------------------------------------------------------------
  // askForNumber

  /** The submitted `number` question always carries the guard around the
      validator the caller had supplied, whatever `validate` the caller set. */
  lemma NumberQuestionIsGuarded(question: string, fields: Record, isNumber: string -> bool,
                                name: string, answers: Record, x: string)
    ensures var d := Prompt("number", name, question, None, WithNumberGuard(fields, isNumber), answers).descriptor;
      && "validate" in d && d["validate"].Validate?
      && (!isNumber(x) ==> Run(d["validate"].validator, x) == Message(NotANumber))
      && (isNumber(x) && CallerValidator(fields).None? ==> Run(d["validate"].validator, x) == Flag(true))
      && (isNumber(x) && CallerValidator(fields).Some? ==>
            Run(d["validate"].validator, x) == Run(CallerValidator(fields).value, x))
  {
    var g := WithNumberGuard(fields, isNumber);
    assert Overrides(g, "validate");
  }

  /** The guard answers a non-number without consulting the caller's
      validator: any two callers' validators give the same verdict. */
  lemma GuardIgnoresCallerOnNonNumber(isNumber: string -> bool, a: Option<Validator>,
                                      b: Option<Validator>, x: string)
    requires !isNumber(x)
    ensures Run(NumberGuard(isNumber, a), x) == Run(NumberGuard(isNumber, b), x) == Message(NotANumber)
  {
  }

  /** Asking twice with the same options object wraps the guard in a second
      guard; every input gets the verdict it got after the first call. */
  lemma NumberGuardTwice(fields: Record, isNumber: string -> bool, x: string)
    ensures Run(WithNumberGuard(WithNumberGuard(fields, isNumber), isNumber)["validate"].validator, x)
         == Run(WithNumberGuard(fields, isNumber)["validate"].validator, x)
  {
  }

  // ---------------------------------------------------------------------------
  // askForPassword

  /** The submitted `password` question masks with `*` when asked to hide and
      the caller gave no mask, and otherwise carries the caller's mask. */
  lemma PasswordMaskSubmitted(message: string, fields: Record, hideInput: bool,
                              name: string, answers: Record)
    ensures var d := Prompt("password", name, message, None, MaskDefaulted(fields, hideInput), answers).descriptor;
      && (hideInput && !Truthy(Get(fields, "mask")) ==> d["mask"] == Str("*"))
      && (!(hideInput && !Truthy(Get(fields, "mask"))) ==> Get(d, "mask") == Get(fields, "mask"))
  {
    var f := MaskDefaulted(fields, hideInput);
    if hideInput && !Truthy(Get(fields, "mask")) {
      assert Overrides(f, "mask");
    } else {
      assert "mask" in fields ==> "mask" in f;
    }
  }

  /** Defaulting the mask a second time changes nothing. */
  lemma MaskDefaultedIdempotent(fields: Record, hideInput: bool)
    ensures MaskDefaulted(MaskDefaulted(fields, hideInput), hideInput) == MaskDefaulted(fields, hideInput)
  {
  }
}
