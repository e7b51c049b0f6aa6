/** The question catalog that drives the walkthrough: one record per
    question, and the per-question tests the loop applies to it. */
module Questions {
  import opened Wrappers
  import opened JsValues

  /** One catalog entry. Optional text fields hold "" when absent: the loop
      only ever tests them for truthiness, and "" is falsy. `prefix` and
      `validation` are the two fields the loop writes back. */
  datatype Question = Question(
    key: string,
    learnMore: string,           // help text offered for a "learn more" answer
    iteratorKey: string,         // update-context array that selected items are spliced into
    iteratorValidation: Value,
    validation: Value,
    addAnotherLoop: string,      // label of the "add another?" confirmation
    updateGroups: Option<seq<string>>,
    prefix: string)

  /** `updateFlow.type` on a defined value: only an object can carry it. */
  function TypeOf(updateFlow: Value): Value {
    if updateFlow.Obj? then Field(updateFlow.fields, "type") else Undef
  }

  /** `filterInput`: true when the question names update groups and neither
      'manual' nor the active update type is among them. */
  predicate FilterInput(q: Question, updateFlow: Value)
    requires updateFlow != Undef  // `updateFlow.type` throws on undefined
  {
    q.updateGroups.Some?
    && !GroupsInclude(q.updateGroups.value, Str("manual"))
    && !GroupsInclude(q.updateGroups.value, TypeOf(updateFlow))
  }

  /** `groups.includes(x)` on an array of strings. */
  predicate GroupsInclude(gs: seq<string>, x: Value) {
    gs != [] && (StrictEquals(Str(gs[0]), x) || GroupsInclude(gs[1..], x))
  }

  lemma {:induction false} IncludesStrs(gs: seq<string>, x: Value)
    ensures GroupsInclude(gs, x) <==> exists g :: g in gs && StrictEquals(Str(g), x)
  {
    if gs != [] {
      IncludesStrs(gs[1..], x);
      assert forall g :: g in gs <==> g == gs[0] || g in gs[1..];
    }
  }

  /** `filterInput` is exactly "has update groups, and they name neither
      'manual' nor the update type". */
  lemma {:induction false} FilterInputMeaning(q: Question, updateFlow: Value)
    requires updateFlow != Undef
    ensures FilterInput(q, updateFlow) <==>
      q.updateGroups.Some?
      && "manual" !in q.updateGroups.value
      && forall g :: g in q.updateGroups.value ==> !StrictEquals(Str(g), TypeOf(updateFlow))
  {
    if q.updateGroups.Some? {
      IncludesStrs(q.updateGroups.value, Str("manual"));
      IncludesStrs(q.updateGroups.value, TypeOf(updateFlow));
    }
  }

  /** `/learn/i.test(answer)`, on the answer coerced to text. */
  predicate IsLearnRequest(answer: Value) {
    ContainsText(Lower(ToText(answer)), "learn")
  }

  /** `learnMore.replace(/\n/g, '\n\n')`. */
  function DoubleNewlines(s: string): string {
    if s == [] then ""
    else (if s[0] == '\n' then "\n\n" else [s[0]]) + DoubleNewlines(s[1..])
  }

  /** The prefix shown when a question is re-asked with its help text
      (terminal colouring left out). */
  function HelpText(learnMore: string): string {
    "\n" + DoubleNewlines(learnMore) + "\n\n"
  }
}
