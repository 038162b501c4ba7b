/** The static helpers of the `Questionnaire` class. Each generated answer key
    (`makeName()`) is the parameter `name`, and each engine reply (what
    `await prompt(...)` resolves to) is the parameter `answers`; every helper
    returns the descriptor it submitted together with the value it returns. */
module Questionnaire {
  import opened Values
  import opened Descriptor
  import opened JsText

  /** The outcome of a helper whose body can throw. */
  datatype Outcome<T> = Returned(value: T) | Threw(error: string)

  // ---------------------------------------------------------------------------
  // Descriptor-building helpers

  /** `yesOrNo`: a `confirm` question with the caller's default and no overrides. */
  function YesOrNo(question: string, def: bool, name: string, answers: Record): (c: Call<Value>)
    ensures c.descriptor.Keys == {"name", "type", "message", "default"}
    ensures c.descriptor["type"] == Str("confirm") && c.descriptor["name"] == Str(name)
    ensures c.descriptor["message"] == Str(question) && c.descriptor["default"] == Bool(def)
    ensures c.answer == Get(answers, name)
  {
    Call(map["name" := Str(name), "type" := Str("confirm"), "message" := Str(question), "default" := Bool(def)],
         Get(answers, name))
  }

  /** `ask`: an `input` question merged with `extend`. */
  function Ask(question: string, extend: Record, name: string, answers: Record): (c: Call<Value>)
    ensures Describes(c.descriptor, "input", name, question, None, extend)
    ensures c.answer == Get(answers, name)
  {
    Prompt("input", name, question, None, extend, answers)
  }

  /** The option labels as the array of strings the engine receives. */
  function Labels(options: seq<string>): (r: seq<Value>)
    ensures |r| == |options|
    ensures forall i :: 0 <= i < |options| ==> r[i] == Str(options[i])
    ensures forall v :: v in r ==> v.Str? && v.s in options
    ensures forall x :: x in options ==> Str(x) in r
  {
    seq(|options|, i requires 0 <= i < |options| => Str(options[i]))
  }

  /** `askWithOptions`: a `rawlist` question over the labels. */
  function AskWithOptions(question: string, options: seq<string>, extend: Record,
                          name: string, answers: Record): (c: Call<Value>)
    ensures Describes(c.descriptor, "rawlist", name, question, Some(List(Labels(options))), extend)
    ensures c.answer == Get(answers, name)
  {
    Prompt("rawlist", name, question, Some(List(Labels(options))), extend, answers)
  }

  /** `selectOne`: a `list` question over the labels. */
  function SelectOne(message: string, list: seq<string>, extend: Record,
                     name: string, answers: Record): (c: Call<Value>)
    ensures Describes(c.descriptor, "list", name, message, Some(List(Labels(list))), extend)
    ensures c.answer == Get(answers, name)
  {
    Prompt("list", name, message, Some(List(Labels(list))), extend, answers)
  }

  /** `askWithDetailedOptions`: an `expand` question; `options` is optional, and
      when absent the descriptor carries `choices: undefined`. */
  function AskWithDetailedOptions(question: string, options: Value, extend: Record,
                                  name: string, answers: Record): (c: Call<Value>)
    ensures Describes(c.descriptor, "expand", name, question, Some(options), extend)
    ensures c.answer == Get(answers, name)
  {
    Prompt("expand", name, question, Some(options), extend, answers)
  }

  /** `checkbox`: a `checkbox` question over the given choice objects. */
  function Checkbox(question: string, choices: seq<Value>, extend: Record,
                    name: string, answers: Record): (c: Call<Value>)
    ensures Describes(c.descriptor, "checkbox", name, question, Some(List(choices)), extend)
    ensures c.answer == Get(answers, name)
  {
    Prompt("checkbox", name, question, Some(List(choices)), extend, answers)
  }

  /** `editor`: an `editor` question merged with `extend`. */
  function Editor(message: string, extend: Record, name: string, answers: Record): (c: Call<Value>)
    ensures Describes(c.descriptor, "editor", name, message, None, extend)
    ensures c.answer == Get(answers, name)
  {
    Prompt("editor", name, message, None, extend, answers)
  }

  // ---------------------------------------------------------------------------
  // trueOrFalse

  /** The replies `trueOrFalse` reads as true. */
  function AcceptedTokens(allowYesOrNo: bool): (r: seq<string>)
    ensures "true" in r && "t" in r
    ensures ("yes" in r) == allowYesOrNo && ("y" in r) == allowYesOrNo
    ensures forall w :: w in r <==> (w == "true" || w == "t" || (allowYesOrNo && (w == "yes" || w == "y")))
  {
    ["true", "t"] + (if allowYesOrNo then ["yes", "y"] else [])
  }

  /** The text `trueOrFalse` asks. */
  function TrueOrFalseText(question: string): (t: string) {
    question + " (true/false)"
  }

  /** What `trueOrFalse` makes of the reply to its `input` question. A falsy
      reply gives the default; a string is trimmed, lower-cased and looked up;
      any other value has no `trim` to call. */
  function ReadTrueOrFalse(reply: Value, def: bool, allowYesOrNo: bool): (r: Outcome<bool>)
    ensures !Truthy(reply) ==> r == Returned(def)
    ensures reply.Str? && reply.s != "" ==>
      r == Returned(Lower(Trim(reply.s)) in AcceptedTokens(allowYesOrNo))
    ensures Truthy(reply) && !reply.Str? ==> r.Threw?
  {
    if !Truthy(reply) then Returned(def)
    else if reply.Str? then Returned(Lower(Trim(reply.s)) in AcceptedTokens(allowYesOrNo))
    else Threw("TypeError: ask.trim is not a function")
  }

  /** `trueOrFalse`: asks `question (true/false)` with no overrides and reads
      the reply as a boolean. */
  function TrueOrFalse(question: string, def: bool, allowYesOrNo: bool,
                       name: string, answers: Record): (c: Call<Outcome<bool>>)
    ensures c.descriptor == map["type" := Str("input"), "name" := Str(name),
                                "message" := Str(question + " (true/false)")]
    ensures c.answer == ReadTrueOrFalse(Get(answers, name), def, allowYesOrNo)
  {
    var asked := Ask(TrueOrFalseText(question), map[], name, answers);
    MergeNothing(Base("input", name, TrueOrFalseText(question), None));
    Call(asked.descriptor, ReadTrueOrFalse(asked.answer, def, allowYesOrNo))
  }

  // ---------------------------------------------------------------------------
  // Index-returning helpers

  /** `Array.prototype.indexOf`: the first position holding `x`, or -1. */
  function IndexOf(list: seq<string>, x: string): (r: int)
    ensures -1 <= r < |list|
    ensures r == -1 <==> x !in list
    ensures r >= 0 ==> list[r] == x && forall j :: 0 <= j < r ==> list[j] != x
  {
    if list == [] then -1
    else if list[0] == x then 0
    else
      var k := IndexOf(list[1..], x);
      if k < 0 then -1 else k + 1
  }

  /** `list.indexOf(answer)` where the answer is any value: only a string can
      be strictly equal to a label. */
  function IndexOfAnswer(list: seq<string>, answer: Value): (r: int)
    ensures -1 <= r < |list|
    ensures r == -1 <==> !(answer.Str? && answer.s in list)
    ensures r >= 0 ==> list[r] == answer.s && forall j :: 0 <= j < r ==> list[j] != answer.s
  {
    if answer.Str? then IndexOf(list, answer.s) else -1
  }

  /** `askWithOptionsAndReturnIndex`: the `rawlist` question of `askWithOptions`,
      then the position of the chosen label. */
  function AskWithOptionsAndReturnIndex(message: string, list: seq<string>, extend: Record,
                                        name: string, answers: Record): (c: Call<int>)
    ensures Describes(c.descriptor, "rawlist", name, message, Some(List(Labels(list))), extend)
    ensures -1 <= c.answer < |list|
    ensures c.answer == -1 <==> !(Get(answers, name).Str? && Get(answers, name).s in list)
    ensures c.answer >= 0 ==> list[c.answer] == Get(answers, name).s
    ensures forall j :: 0 <= j < c.answer ==> Get(answers, name) != Str(list[j])
  {
    var asked := AskWithOptions(message, list, extend, name, answers);
    Call(asked.descriptor, IndexOfAnswer(list, asked.answer))
  }

  /** `selectOneIndex`: the `list` question of `selectOne`, then the position
      of the chosen label. */
  function SelectOneIndex(message: string, list: seq<string>, extend: Record,
                          name: string, answers: Record): (c: Call<int>)
    ensures Describes(c.descriptor, "list", name, message, Some(List(Labels(list))), extend)
    ensures -1 <= c.answer < |list|
    ensures c.answer == -1 <==> !(Get(answers, name).Str? && Get(answers, name).s in list)
    ensures c.answer >= 0 ==> list[c.answer] == Get(answers, name).s
    ensures forall j :: 0 <= j < c.answer ==> Get(answers, name) != Str(list[j])
  {
    var asked := SelectOne(message, list, extend, name, answers);
    Call(asked.descriptor, IndexOfAnswer(list, asked.answer))
  }

  // ---------------------------------------------------------------------------
  // choose

  /** `choices[0]` is a string. */
  predicate IsShorthand(choices: seq<Value>) {
    |choices| > 0 && choices[0].Str?
  }

  /** The object `{name: choice}`. */
  function NameRecord(choice: Value): (r: Value) {
    Obj(map["name" := choice])
  }

  /** The list `choose` hands to `checkbox`. */
  ghost function Normalised(choices: seq<Value>): (r: seq<Value>) {
    if IsShorthand(choices) then seq(|choices|, i requires 0 <= i < |choices| => NameRecord(choices[i]))
    else choices
  }

  /** The loop of `choose`: when the first choice is a string, each choice in
      turn becomes `{name: choice}`; otherwise the list is left as it is. */
  method NormaliseChoices(choices: seq<Value>) returns (given: seq<Value>)
    ensures IsShorthand(choices) ==>
      |given| == |choices| && forall i :: 0 <= i < |choices| ==> given[i] == NameRecord(choices[i])
    ensures !IsShorthand(choices) ==> given == choices
  {
    if !IsShorthand(choices) {
      return choices;
    }
    given := [];
    for i := 0 to |choices|
      invariant |given| == i
      invariant forall j :: 0 <= j < i ==> given[j] == NameRecord(choices[j])
    {
      given := given + [NameRecord(choices[i])];
    }
  }

  /** `choose`: a `checkbox` question over the normalised choices. */
  method Choose(message: string, choices: seq<Value>, extend: Record,
                name: string, answers: Record) returns (c: Call<Value>)
    ensures c == Checkbox(message, Normalised(choices), extend, name, answers)
  {
    var given := NormaliseChoices(choices);
    assert given == Normalised(choices);
    c := Checkbox(message, given, extend, name, answers);
  }

  // ---------------------------------------------------------------------------
  // askForNumber

  /** The validator the caller had put under `validate`, if any. */
  function CallerValidator(fields: Record): (r: Option<Validator>)
    ensures r.Some? <==> "validate" in fields && fields["validate"].Validate?
    ensures r.Some? ==> fields["validate"] == Validate(r.value)
  {
    if "validate" in fields && fields["validate"].Validate? then Some(fields["validate"].validator)
    else None
  }

  /** The caller's options once `askForNumber` has replaced `validate` by the
      numeric guard around the caller's own validator. */
  function WithNumberGuard(fields: Record, isNumber: string -> bool): (r: Record)
    ensures r.Keys == fields.Keys + {"validate"}
    ensures forall k :: k in fields && k != "validate" ==> r[k] == fields[k]
    ensures r["validate"].Validate?
    ensures forall x :: !isNumber(x) ==> Run(r["validate"].validator, x) == Message(NotANumber)
    ensures forall x :: isNumber(x) && CallerValidator(fields).None? ==>
      Run(r["validate"].validator, x) == Flag(true)
    ensures forall x :: isNumber(x) && CallerValidator(fields).Some? ==>
      Run(r["validate"].validator, x) == Run(CallerValidator(fields).value, x)
  {
    fields["validate" := Validate(NumberGuard(isNumber, CallerValidator(fields)))]
  }

  /** `askForNumber`: installs the numeric guard in the caller's options
      object, then asks a `number` question merged with it. */
  method AskForNumber(question: string, extend: Options, isNumber: string -> bool,
                      name: string, answers: Record) returns (c: Call<Value>)
    modifies extend
    ensures extend.fields == WithNumberGuard(old(extend.fields), isNumber)
    ensures c == Prompt("number", name, question, None, extend.fields, answers)
  {
    var definedValidator := CallerValidator(extend.fields);
    extend.fields := extend.fields["validate" := Validate(NumberGuard(isNumber, definedValidator))];
    c := Prompt("number", name, question, None, extend.fields, answers);
  }

  // ---------------------------------------------------------------------------
  // askForPassword

  /** The caller's options once `askForPassword` has defaulted the mask: `*`
      when `hideInput` is set and the mask is falsy; nothing else changes. */
  function MaskDefaulted(fields: Record, hideInput: bool): (r: Record)
    ensures Get(r, "mask") == if hideInput && !Truthy(Get(fields, "mask")) then Str("*") else Get(fields, "mask")
    ensures forall k :: k in fields && k != "mask" ==> k in r && r[k] == fields[k]
    ensures r.Keys == fields.Keys + (if hideInput && !Truthy(Get(fields, "mask")) then {"mask"} else {})
  {
    if hideInput && !Truthy(Get(fields, "mask")) then fields["mask" := Str("*")] else fields
  }

  /** `askForPassword`: defaults the mask in the caller's options object, then
      asks a `password` question merged with it. */
  method AskForPassword(message: string, extend: Options, hideInput: bool,
                        name: string, answers: Record) returns (c: Call<Value>)
    modifies extend
    ensures extend.fields == MaskDefaulted(old(extend.fields), hideInput)
    ensures c == Prompt("password", name, message, None, extend.fields, answers)
  {
    if hideInput && !Truthy(Get(extend.fields, "mask")) {
      extend.fields := extend.fields["mask" := Str("*")];
    }
    c := Prompt("password", name, message, None, extend.fields, answers);
  }

  /** `askForPasswordHidden`: `askForPassword` with `hideInput` set. */
  method AskForPasswordHidden(message: string, extend: Options,
                              name: string, answers: Record) returns (c: Call<Value>)
    modifies extend
    ensures extend.fields == MaskDefaulted(old(extend.fields), true)
    ensures c == Prompt("password", name, message, None, extend.fields, answers)
  {
    c := AskForPassword(message, extend, true, name, answers);
  }
}
