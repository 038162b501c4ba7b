/** Building the question descriptor handed to the prompt engine and reading
    the answer back: the `_.merge({type, name, message[, choices]}, extend)`
    then `answer[name]` shape shared by the helpers of Questionnaire.ts. */
module Descriptor {
  import opened Values

  /** What one helper call did: the descriptor it submitted and what it returned. */
  datatype Call<T> = Call(descriptor: Record, answer: T)

  /** `extend` sets `key`: lodash's `merge` skips a source value that is
      `undefined` when the destination already has the key. */
  predicate Overrides(extend: Record, key: string) {
    key in extend && !extend[key].Undefined?
  }

  /** `_.merge(base, extend)` on flat records: every key of either appears,
      an override wins, and an `undefined` override leaves a base value alone. */
  function Merge(base: Record, extend: Record): (d: Record)
    ensures d.Keys == base.Keys + extend.Keys
    ensures forall k :: Overrides(extend, k) ==> d[k] == extend[k]
    ensures forall k :: k in base && !Overrides(extend, k) ==> d[k] == base[k]
    ensures forall k :: k in extend && k !in base ==> d[k] == extend[k]
  {
    map k | k in base.Keys + extend.Keys ::
      if k in extend && (k !in base || !extend[k].Undefined?) then extend[k] else base[k]
  }

  /** The literal object each helper starts from. */
  function Base(kind: string, name: string, message: string, choices: Option<Value>): (b: Record)
    ensures b.Keys == {"type", "name", "message"} + (if choices.Some? then {"choices"} else {})
    ensures b["type"] == Str(kind) && b["name"] == Str(name) && b["message"] == Str(message)
    ensures choices.Some? ==> b["choices"] == choices.value
  {
    var fixed := map["type" := Str(kind), "name" := Str(name), "message" := Str(message)];
    if choices.Some? then fixed["choices" := choices.value] else fixed
  }

  /** Merging an empty override record changes nothing. */
  lemma MergeNothing(base: Record)
    ensures Merge(base, map[]) == base
  {
  }

  /** `d[key]` is `v` unless `extend` overrides it, in which case it is the override. */
  ghost predicate Keeps(d: Record, extend: Record, key: string, v: Value) {
    key in d && d[key] == (if Overrides(extend, key) then extend[key] else v)
  }

  /** `d` is the merge of the base descriptor of this kind with `extend`, key by key. */
  ghost predicate Describes(d: Record, kind: string, name: string, message: string,
                            choices: Option<Value>, extend: Record)
  {
    && d.Keys == {"type", "name", "message"} + (if choices.Some? then {"choices"} else {}) + extend.Keys
    && Keeps(d, extend, "type", Str(kind))
    && Keeps(d, extend, "name", Str(name))
    && Keeps(d, extend, "message", Str(message))
    && (choices.Some? ==> Keeps(d, extend, "choices", choices.value))
    && (forall k :: k in extend && k !in {"type", "name", "message", "choices"} ==> d[k] == extend[k])
    && (choices.None? && "choices" in extend ==> d["choices"] == extend["choices"])
  }

  /** One prompt: merge the overrides onto the base descriptor, submit it, and
      read the engine's answer map `answers` under the generated `name`. */
  function Prompt(kind: string, name: string, message: string, choices: Option<Value>,
                  extend: Record, answers: Record): (c: Call<Value>)
    ensures Describes(c.descriptor, kind, name, message, choices, extend)
    ensures name in answers ==> c.answer == answers[name]
    ensures name !in answers ==> c.answer == Undefined
  {
    var base := Base(kind, name, message, choices);
    var d := Merge(base, extend);
    assert Keeps(d, extend, "type", Str(kind));
    assert Keeps(d, extend, "name", Str(name));
    assert Keeps(d, extend, "message", Str(message));
    Call(d, Get(answers, name))
  }

  /** The engine keys its answer map by the descriptor's `name`; unless the
      caller overrides `name`, that is the key the answer is read back under. */
  lemma AnswerReadUnderSubmittedName(kind: string, name: string, message: string,
                                     choices: Option<Value>, extend: Record, answers: Record)
    requires !Overrides(extend, "name")
    ensures var c := Prompt(kind, name, message, choices, extend, answers);
      c.descriptor["name"] == Str(name) && c.answer == Get(answers, c.descriptor["name"].s)
  {
  }

  /** If the caller does override `name`, an engine that answers under the
      submitted name leaves the helper reading `undefined`. */
  lemma OverriddenNameLosesAnswer(kind: string, name: string, other: string, message: string,
                                  choices: Option<Value>, extend: Record, v: Value)
    requires "name" in extend && extend["name"] == Str(other) && other != name
    ensures var c := Prompt(kind, name, message, choices, extend, map[other := v]);
      c.descriptor["name"] == Str(other) && c.answer == Undefined
  {
  }
}
