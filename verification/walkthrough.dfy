/** The question-interpretation loop of `serviceWalkthrough`. The prompt is
    modelled as a script: the sequence of answer records the user gives, one
    per prompt, in order. A confirmation prompt reads the `repeater` field of
    its record and a replacement prompt reads `updated`. Running out of script
    stands for the prompt failing, which aborts the walkthrough. */
module Walkthrough {
  import opened Wrappers
  import opened JsValues
  import opened Questions

  type Script = seq<Answers>

  /** The loop's state: the catalog (whose entries the loop writes back
      to), the cursor `j`, `coreAnswers`, `context.updatingAuth`, the catalog
      indices asked so far, and how much of the script is used. */
  datatype Session = Session(
    catalog: seq<Question>,
    cursor: nat,
    answers: Answers,
    updating: Option<Answers>,
    asked: seq<nat>,
    consumed: nat)

  function Start(catalog: seq<Question>, answers: Answers, updating: Option<Answers>): Session {
    Session(catalog, 0, answers, updating, [], 0)
  }

  /** The update-mode test of lines 29-31 on the question the cursor reads. */
  predicate SkipsNext(s: Session)
    requires s.cursor < |s.catalog|
  {
    && s.updating.Some?
    && Truthy(Get(s.answers, "updateFlow"))
    && FilterInput(s.catalog[s.cursor], Get(s.answers, "updateFlow"))
  }

  /** The branch a question and its answer take; the first that applies wins. */
  datatype Branch = LearnMore | Iterate | AddAnother | UpdateFlow | FreshDefault | Plain

  function BranchOf(q: Question, answer: Answers, creating: bool): Branch {
    var v := Get(answer, q.key);
    if IsLearnRequest(v) && q.learnMore != "" then LearnMore
    else if q.iteratorKey != "" && Truthy(v) && |Indexed(v)| > 0 then Iterate
    else if q.addAnotherLoop != "" && |answer| > 0 then AddAnother
    else if q.key == "updateFlow" then UpdateFlow
    else if creating && IsDefaultChoice(Get(answer, "useDefault")) then FreshDefault
    else Plain
  }

  predicate IsDefaultChoice(v: Value) {
    IsText(v, "default") || IsText(v, "defaultSocial")
  }

  /** Replacing each selected item of the update-context array: each item
      costs one prompt, then `splice(indexOf(item), 1, updated)`. A target
      that is not an array throws once the first replacement is entered. */
  function ReplaceEach(target: Value, selected: seq<Value>, script: Script, pos: nat): (r: Result<(Value, nat)>)
    requires pos <= |script|
    ensures r.Ok? ==> r.value.1 == pos + |selected| <= |script|
    ensures r.Ok? && selected != [] ==> r.value.0.List?
    ensures r.Ok? && target.List? && |target.items| > 0 ==> r.value.0.List? && |r.value.0.items| == |target.items|
    ensures r.Ok? && target.List? && |target.items| == 0 && selected != [] ==> r.value.0.List? && |r.value.0.items| == 1
    decreases |selected|
  {
    if selected == [] then Ok((target, pos))
    else if pos == |script| then Err(PromptFailed)
    else if !target.List? then Err(TypeError)
    else
      var updated := Get(script[pos], "updated");
      ReplaceEach(List(SpliceOver(target.items, selected[0], updated)), selected[1..], script, pos + 1)
  }

  /** Recording an add-another answer: the first one is wrapped in a
      one-element array and merged with the rest of the answer, later ones
      are pushed onto that array. */
  function Accumulate(answers: Answers, answer: Answers, key: string): Result<Answers> {
    var current := Get(answers, key);
    if !Truthy(current) then Ok(answers + answer[key := List([Get(answer, key)])])
    else if current.List? then Ok(answers[key := List(current.items + [Get(answer, key)])])
    else Err(TypeError)  // `push` on a non-array
  }

  /** The `updateFlow` question: a manual/default choice becomes `useDefault`
      and leaves `updateFlow` out of the merge. */
  function UpdateFlowMerge(answers: Answers, answer: Answers): Answers {
    var flow := Get(answer, "updateFlow");
    if IsText(flow, "manual") || IsText(flow, "defaultSocial") || IsText(flow, "default") then
      var base := if IsText(flow, "defaultSocial") then answers["hostedUI" := Bool(true)] else answers;
      base + (answer["useDefault" := flow] - {"updateFlow"})
    else answers + answer
  }

  /** A default choice outside update mode: both pools are selected, and the
      hosted UI is switched on for the social default. */
  function DefaultMerge(answers: Answers, answer: Answers): Answers {
    var merged := (answers + answer)["authSelections" := Str("identityPoolAndUserPool")];
    if IsText(Get(merged, "useDefault"), "defaultSocial") then merged["hostedUI" := Bool(true)] else merged
  }

  /** One iteration of the question loop: the prompt, then the branch its
      answer selects. */
  function Step(s: Session, script: Script): (r: Result<Session>)
    requires s.cursor < |s.catalog| && s.consumed <= |script|
    ensures r.Ok? ==> s.consumed < r.value.consumed <= |script| && |r.value.catalog| == |s.catalog|
    ensures r.Ok? ==> r.value.updating.Some? == s.updating.Some?
  {
    if s.consumed == |script| then Err(PromptFailed)
    else
      var answer := script[s.consumed];
      match BranchOf(s.catalog[s.cursor], answer, s.updating.None?)
      case LearnMore => Ok(LearnMoreTurn(s))
      case Iterate => IterateTurn(s, script)
      case AddAnother => AddAnotherTurn(s, script)
      case UpdateFlow => Ok(Moved(s, UpdateFlowMerge(s.answers, answer)))
      case FreshDefault => Ok(Moved(s, DefaultMerge(s.answers, answer)))
      case Plain => Ok(Moved(s, s.answers + answer))
  }

  /** The session once one answer is merged and the cursor has moved past
      the question (and past the skipped entry, if any). */
  function Moved(s: Session, answers: Answers): Session
    requires s.cursor < |s.catalog|
  {
    s.(cursor := AfterSkip(s) + 1, answers := answers, asked := s.asked + [s.cursor], consumed := s.consumed + 1)
  }

  /** Lines 50-52: the question gets its help text as prefix and is asked
      again (unless the skip moved the cursor). */
  function LearnMoreTurn(s: Session): Session
    requires s.cursor < |s.catalog|
  {
    var q := s.catalog[s.cursor];
    s.(catalog := s.catalog[s.cursor := q.(prefix := HelpText(q.learnMore))], cursor := AfterSkip(s),
       asked := s.asked + [s.cursor], consumed := s.consumed + 1)
  }

  /** Lines 59-77: the update context's array is rewritten; without an
      update context the array lookup throws. */
  function IterateTurn(s: Session, script: Script): (r: Result<Session>)
    requires s.cursor < |s.catalog| && s.consumed < |script|
  {
    if s.updating.None? then Err(TypeError)
    else
      var q := s.catalog[s.cursor];
      var done :- Replacements(s, script);
      Ok(s.(catalog := s.catalog[s.cursor := q.(validation := q.iteratorValidation)],
            cursor := AfterSkip(s) + 1,
            updating := Some(s.updating.value[q.iteratorKey := done.0]),
            asked := s.asked + [s.cursor], consumed := done.1))
  }

  /** Lines 79-101: the answer is accumulated, then the confirmation decides
      whether the question is asked again. */
  function AddAnotherTurn(s: Session, script: Script): Result<Session>
    requires s.cursor < |s.catalog| && s.consumed < |script|
  {
    var answers :- Accumulate(s.answers, script[s.consumed], s.catalog[s.cursor].key);
    if s.consumed + 1 == |script| then Err(PromptFailed)
    else
      var again := Truthy(Get(script[s.consumed + 1], "repeater"));
      Ok(s.(cursor := if again then AfterSkip(s) else AfterSkip(s) + 1, answers := answers,
            asked := s.asked + [s.cursor], consumed := s.consumed + 2))
  }

  /** The whole loop: iterate until the cursor reaches the end of the catalog. */
  function Run(s: Session, script: Script): (r: Result<Session>)
    requires s.consumed <= |script|
    ensures r.Ok? ==> |r.value.catalog| == |s.catalog| <= r.value.cursor
    ensures r.Ok? ==> s.consumed <= r.value.consumed <= |script|
    ensures r.Ok? ==> r.value.updating.Some? == s.updating.Some?
    decreases |script| - s.consumed, 1
  {
    if s.cursor >= |s.catalog| then Ok(s) else RunFrom(s, script)
  }

  /** One iteration, then the rest of the loop. */
  function RunFrom(s: Session, script: Script): (r: Result<Session>)
    requires s.consumed <= |script| && s.cursor < |s.catalog|
    ensures r.Ok? ==> |r.value.catalog| == |s.catalog| <= r.value.cursor
    ensures r.Ok? ==> s.consumed <= r.value.consumed <= |script|
    ensures r.Ok? ==> r.value.updating.Some? == s.updating.Some?
    decreases |script| - s.consumed, 0
  {
    var next :- Step(s, script);
    Run(next, script)
  }

  /** The cursor once the update-mode skip of lines 29-34 has applied. */
  function AfterSkip(s: Session): nat
    requires s.cursor < |s.catalog|
  {
    if SkipsNext(s) then s.cursor + 1 else s.cursor
  }

  // How `Step` ends in each branch, once an answer is available.

  lemma StepNoAnswer(s: Session, script: Script)
    requires s.cursor < |s.catalog| && s.consumed == |script|
    ensures Step(s, script) == Err(PromptFailed)
  {
  }

  lemma StepLearnMore(s: Session, script: Script)
    requires s.cursor < |s.catalog| && s.consumed < |script|
    requires BranchOf(s.catalog[s.cursor], script[s.consumed], s.updating.None?) == LearnMore
    ensures var q := s.catalog[s.cursor];
      Step(s, script) == Ok(Session(s.catalog[s.cursor := q.(prefix := HelpText(q.learnMore))], AfterSkip(s),
                                    s.answers, s.updating, s.asked + [s.cursor], s.consumed + 1))
  {
  }

  lemma StepIterateUnset(s: Session, script: Script)
    requires s.cursor < |s.catalog| && s.consumed < |script| && s.updating.None?
    requires BranchOf(s.catalog[s.cursor], script[s.consumed], s.updating.None?) == Iterate
    ensures Step(s, script) == Err(TypeError)
  {
  }

  /** The replacements the iterator branch performs. */
  function Replacements(s: Session, script: Script): Result<(Value, nat)>
    requires s.cursor < |s.catalog| && s.consumed < |script| && s.updating.Some?
  {
    var q := s.catalog[s.cursor];
    ReplaceEach(Get(s.updating.value, q.iteratorKey), Indexed(Get(script[s.consumed], q.key)), script, s.consumed + 1)
  }

  lemma StepIterate(s: Session, script: Script)
    requires s.cursor < |s.catalog| && s.consumed < |script| && s.updating.Some?
    requires BranchOf(s.catalog[s.cursor], script[s.consumed], s.updating.None?) == Iterate
    ensures var done := Replacements(s, script);
      var q := s.catalog[s.cursor];
      Step(s, script) ==
        if done.Err? then Err(done.error)
        else Ok(Session(s.catalog[s.cursor := q.(validation := q.iteratorValidation)], AfterSkip(s) + 1, s.answers,
                        Some(s.updating.value[q.iteratorKey := done.value.0]), s.asked + [s.cursor], done.value.1))
  {
  }

  lemma StepAddAnother(s: Session, script: Script)
    requires s.cursor < |s.catalog| && s.consumed < |script|
    requires BranchOf(s.catalog[s.cursor], script[s.consumed], s.updating.None?) == AddAnother
    ensures var acc := Accumulate(s.answers, script[s.consumed], s.catalog[s.cursor].key);
      && (acc.Err? ==> Step(s, script) == Err(acc.error))
      && (acc.Ok? && s.consumed + 1 == |script| ==> Step(s, script) == Err(PromptFailed))
      && (acc.Ok? && s.consumed + 1 < |script| ==>
            var again := Truthy(Get(script[s.consumed + 1], "repeater"));
            Step(s, script) == Ok(Session(s.catalog, if again then AfterSkip(s) else AfterSkip(s) + 1, acc.value,
                                          s.updating, s.asked + [s.cursor], s.consumed + 2)))
  {
    assert Step(s, script) == AddAnotherTurn(s, script);
    AddAnotherTurnEnds(s, script);
  }

  lemma AddAnotherTurnEnds(s: Session, script: Script)
    requires s.cursor < |s.catalog| && s.consumed < |script|
    ensures var acc := Accumulate(s.answers, script[s.consumed], s.catalog[s.cursor].key);
      && (acc.Err? ==> AddAnotherTurn(s, script) == Err(acc.error))
      && (acc.Ok? && s.consumed + 1 == |script| ==> AddAnotherTurn(s, script) == Err(PromptFailed))
      && (acc.Ok? && s.consumed + 1 < |script| ==>
            var again := Truthy(Get(script[s.consumed + 1], "repeater"));
            AddAnotherTurn(s, script) == Ok(Session(s.catalog, if again then AfterSkip(s) else AfterSkip(s) + 1, acc.value,
                                                    s.updating, s.asked + [s.cursor], s.consumed + 2)))
  {
  }

  lemma StepUpdateFlow(s: Session, script: Script)
    requires s.cursor < |s.catalog| && s.consumed < |script|
    requires BranchOf(s.catalog[s.cursor], script[s.consumed], s.updating.None?) == UpdateFlow
    ensures Step(s, script) == Ok(Session(s.catalog, AfterSkip(s) + 1, UpdateFlowMerge(s.answers, script[s.consumed]),
                                          s.updating, s.asked + [s.cursor], s.consumed + 1))
  {
  }

  lemma StepFreshDefault(s: Session, script: Script)
    requires s.cursor < |s.catalog| && s.consumed < |script|
    requires BranchOf(s.catalog[s.cursor], script[s.consumed], s.updating.None?) == FreshDefault
    ensures Step(s, script) == Ok(Session(s.catalog, AfterSkip(s) + 1, DefaultMerge(s.answers, script[s.consumed]),
                                          s.updating, s.asked + [s.cursor], s.consumed + 1))
  {
  }

  lemma StepPlain(s: Session, script: Script)
    requires s.cursor < |s.catalog| && s.consumed < |script|
    requires BranchOf(s.catalog[s.cursor], script[s.consumed], s.updating.None?) == Plain
    ensures Step(s, script) == Ok(Session(s.catalog, AfterSkip(s) + 1, s.answers + script[s.consumed],
                                          s.updating, s.asked + [s.cursor], s.consumed + 1))
  {
  }

  /** The question loop of lines 25-128, run against a script of answers. */
  method QuestionLoop(catalog: seq<Question>, coreAnswers: Answers, updatingAuth: Option<Answers>, script: Script)
    returns (r: Result<Session>)
    ensures r == Run(Start(catalog, coreAnswers, updatingAuth), script)
  {
    var session := Start(catalog, coreAnswers, updatingAuth);
    while session.cursor < |session.catalog|
      invariant session.consumed <= |script|
      invariant Run(session, script) == Run(Start(catalog, coreAnswers, updatingAuth), script)
      decreases |script| - session.consumed
    {
      var next := AskNext(session, script);
      if next.Err? {
        return Err(next.error);
      }
      session := next.value;
    }
    r := Ok(session);
  }

  /** One pass of the loop body, lines 26-127: the update-mode skip, one
      prompt, and the branch its answer selects. */
  method AskNext(s: Session, script: Script) returns (r: Result<Session>)
    requires s.cursor < |s.catalog| && s.consumed <= |script|
    ensures r == Step(s, script)
  {
    var j := s.cursor;
    var questionObj := s.catalog[j];
    if s.updating.Some? && Truthy(Get(s.answers, "updateFlow")) && FilterInput(questionObj, Get(s.answers, "updateFlow")) {
      j := j + 1;
    }
    if s.consumed == |script| {
      StepNoAnswer(s, script);
      return Err(PromptFailed);
    }
    var answer := script[s.consumed];
    match BranchOf(questionObj, answer, s.updating.None?)
    case LearnMore =>
      // re-ask the same question with its help text as prefix
      StepLearnMore(s, script);
      var inputs := s.catalog[s.cursor := questionObj.(prefix := HelpText(questionObj.learnMore))];
      r := Ok(Session(inputs, j, s.answers, s.updating, s.asked + [s.cursor], s.consumed + 1));
    case Iterate =>
      r := AnswerIterator(s, script, j);
    case AddAnother =>
      r := AnswerAddAnother(s, script, j);
    case UpdateFlow =>
      r := AnswerUpdateFlow(s, script, j);
    case FreshDefault =>
      r := AnswerDefault(s, script, j);
    case Plain =>
      StepPlain(s, script);
      r := Ok(Session(s.catalog, j + 1, s.answers + answer, s.updating, s.asked + [s.cursor], s.consumed + 1));
  }

  /** Lines 59-78: each selected item is replaced in the update context's
      array, and the question's validation switches to the iterator's. */
  method AnswerIterator(s: Session, script: Script, j: nat) returns (r: Result<Session>)
    requires s.cursor < |s.catalog| && s.consumed < |script| && j == AfterSkip(s)
    requires BranchOf(s.catalog[s.cursor], script[s.consumed], s.updating.None?) == Iterate
    ensures r == Step(s, script)
  {
    var questionObj := s.catalog[s.cursor];
    if s.updating.None? {
      StepIterateUnset(s, script);
      return Err(TypeError);
    }
    StepIterate(s, script);
    var context := s.updating.value;
    var inputs := s.catalog[s.cursor := questionObj.(validation := questionObj.iteratorValidation)];
    var replaced := ReplaceSelected(Get(context, questionObj.iteratorKey), Indexed(Get(script[s.consumed], questionObj.key)), script, s.consumed + 1);
    if replaced.Err? {
      return Err(replaced.error);
    }
    var replacementArray := replaced.value.0;
    context := context[questionObj.iteratorKey := replacementArray];
    r := Ok(Session(inputs, j + 1, s.answers, Some(context), s.asked + [s.cursor], replaced.value.1));
  }

  /** Lines 79-101: the answer is accumulated into an array, and the cursor
      only moves on once the user declines to add another. */
  method AnswerAddAnother(s: Session, script: Script, j: nat) returns (r: Result<Session>)
    requires s.cursor < |s.catalog| && s.consumed < |script| && j == AfterSkip(s)
    requires BranchOf(s.catalog[s.cursor], script[s.consumed], s.updating.None?) == AddAnother
    ensures r == Step(s, script)
  {
    StepAddAnother(s, script);
    var key := s.catalog[s.cursor].key;
    var answer := script[s.consumed];
    var answers := s.answers;
    var current := Get(answers, key);
    if !Truthy(current) {
      answers := answers + answer[key := List([Get(answer, key)])];
    } else if current.List? {
      answers := answers[key := List(current.items + [Get(answer, key)])];
    } else {
      return Err(TypeError);
    }
    var pos := s.consumed + 1;
    if pos == |script| {
      return Err(PromptFailed);
    }
    var addAnother := script[pos];
    var next := j;
    if !Truthy(Get(addAnother, "repeater")) {
      next := j + 1;
    }
    r := Ok(Session(s.catalog, next, answers, s.updating, s.asked + [s.cursor], pos + 1));
  }

  /** Lines 102-115: a manual or default choice is recorded as `useDefault`
      and `updateFlow` itself is not merged. */
  method AnswerUpdateFlow(s: Session, script: Script, j: nat) returns (r: Result<Session>)
    requires s.cursor < |s.catalog| && s.consumed < |script| && j == AfterSkip(s)
    requires BranchOf(s.catalog[s.cursor], script[s.consumed], s.updating.None?) == UpdateFlow
    ensures r == Step(s, script)
  {
    StepUpdateFlow(s, script);
    var answer := script[s.consumed];
    var answers := s.answers;
    var flow := Get(answer, "updateFlow");
    if IsText(flow, "manual") || IsText(flow, "defaultSocial") || IsText(flow, "default") {
      answer := answer["useDefault" := flow];
      if IsText(flow, "defaultSocial") {
        answers := answers["hostedUI" := Bool(true)];
      }
      answer := answer - {"updateFlow"};
    }
    answers := answers + answer;
    r := Ok(Session(s.catalog, j + 1, answers, s.updating, s.asked + [s.cursor], s.consumed + 1));
  }

  /** Lines 116-125: outside update mode a default choice selects both pools. */
  method AnswerDefault(s: Session, script: Script, j: nat) returns (r: Result<Session>)
    requires s.cursor < |s.catalog| && s.consumed < |script| && j == AfterSkip(s)
    requires BranchOf(s.catalog[s.cursor], script[s.consumed], s.updating.None?) == FreshDefault
    ensures r == Step(s, script)
  {
    StepFreshDefault(s, script);
    var answers := s.answers + script[s.consumed];
    answers := answers["authSelections" := Str("identityPoolAndUserPool")];
    if IsText(Get(answers, "useDefault"), "defaultSocial") {
      answers := answers["hostedUI" := Bool(true)];
    }
    r := Ok(Session(s.catalog, j + 1, answers, s.updating, s.asked + [s.cursor], s.consumed + 1));
  }

  /** The inner loop of lines 63-76: one prompt and one splice per selected item. */
  method ReplaceSelected(target: Value, selected: seq<Value>, script: Script, start: nat) returns (r: Result<(Value, nat)>)
    requires start <= |script|
    ensures r == ReplaceEach(target, selected, script, start)
  {
    var replacementArray := target;
    var pos := start;
    var t := 0;
    while t < |selected|
      invariant 0 <= t <= |selected| && start + t == pos <= |script|
      invariant ReplaceEach(replacementArray, selected[t..], script, pos) == ReplaceEach(target, selected, script, start)
    {
      if pos == |script| {
        return Err(PromptFailed);
      }
      var newValue := script[pos];
      pos := pos + 1;
      if !replacementArray.List? {
        return Err(TypeError);
      }
      replacementArray := List(SpliceOver(replacementArray.items, selected[t], Get(newValue, "updated")));
      assert selected[t..][1..] == selected[t + 1..];
      t := t + 1;
    }
    return Ok((replacementArray, pos));
  }

  // ---------------------------------------------------------------------------
  // Properties of the loop
  // ---------------------------------------------------------------------------

  /** `n` iterations of the loop, stopping early at the end of the catalog. */
  function Steps(s: Session, script: Script, n: nat): (r: Result<Session>)
    requires s.consumed <= |script|
    ensures r.Ok? ==> s.consumed <= r.value.consumed <= |script|
    decreases n, 1
  {
    if n == 0 || s.cursor >= |s.catalog| then Ok(s) else StepsFrom(s, script, n)
  }

  /** One iteration, then `n - 1` more. */
  function StepsFrom(s: Session, script: Script, n: nat): (r: Result<Session>)
    requires s.consumed <= |script| && s.cursor < |s.catalog| && n > 0
    ensures r.Ok? ==> s.consumed <= r.value.consumed <= |script|
    decreases n, 0
  {
    var next :- Step(s, script);
    Steps(next, script, n - 1)
  }

  /** Running the loop is running some iterations and then the rest. */
  lemma {:induction false} RunSteps(s: Session, script: Script, n: nat)
    requires s.consumed <= |script| && Steps(s, script, n).Ok?
    ensures Run(s, script) == Run(Steps(s, script, n).value, script)
    decreases n
  {
    if n > 0 && s.cursor < |s.catalog| {
      RunSteps(Step(s, script).value, script, n - 1);
    }
  }

  /** Skip rule (lines 27-34): in update mode, when `filterInput` holds for
      the question at the cursor, that question is still the one asked; the
      extra increment jumps over the entry after it, so a branch that
      advances lands two entries further on. */
  lemma SkipStillAsks(s: Session, script: Script)
    requires s.cursor < |s.catalog| && s.consumed < |script| && SkipsNext(s)
    requires Step(s, script).Ok?
    ensures Step(s, script).value.asked == s.asked + [s.cursor]
    ensures Step(s, script).value.cursor >= s.cursor + 1
    ensures BranchOf(s.catalog[s.cursor], script[s.consumed], s.updating.None?) in {Iterate, UpdateFlow, FreshDefault, Plain}
      ==> Step(s, script).value.cursor == s.cursor + 2
  {
    match BranchOf(s.catalog[s.cursor], script[s.consumed], s.updating.None?)
    case LearnMore => StepLearnMore(s, script);
    case Iterate => StepIterate(s, script);
    case AddAnother => StepAddAnother(s, script);
    case UpdateFlow => StepUpdateFlow(s, script);
    case FreshDefault => StepFreshDefault(s, script);
    case Plain => StepPlain(s, script);
  }

  /** Without the skip, a step that advances moves to the very next entry. */
  lemma NoSkipAdvancesByOne(s: Session, script: Script)
    requires s.cursor < |s.catalog| && s.consumed < |script| && !SkipsNext(s)
    requires Step(s, script).Ok?
    requires BranchOf(s.catalog[s.cursor], script[s.consumed], s.updating.None?) in {Iterate, UpdateFlow, FreshDefault, Plain}
    ensures Step(s, script).value.cursor == s.cursor + 1
    ensures Step(s, script).value.asked == s.asked + [s.cursor]
  {
    match BranchOf(s.catalog[s.cursor], script[s.consumed], s.updating.None?)
    case Iterate => StepIterate(s, script);
    case UpdateFlow => StepUpdateFlow(s, script);
    case FreshDefault => StepFreshDefault(s, script);
    case Plain => StepPlain(s, script);
  }

  /** Learn more (lines 50-52): the same question comes back, now prefixed
      with its help text; nothing is recorded and no other entry changes. */
  lemma LearnMoreRepeats(s: Session, script: Script)
    requires s.cursor < |s.catalog| && s.consumed < |script| && !SkipsNext(s)
    requires BranchOf(s.catalog[s.cursor], script[s.consumed], s.updating.None?) == LearnMore
    ensures Step(s, script).Ok?
    ensures var t := Step(s, script).value;
      && t.cursor == s.cursor
      && t.answers == s.answers && t.updating == s.updating
      && |t.catalog| == |s.catalog|
      && t.catalog[s.cursor].prefix == HelpText(s.catalog[s.cursor].learnMore)
      && t.catalog[s.cursor].key == s.catalog[s.cursor].key
      && (forall i :: 0 <= i < |s.catalog| && i != s.cursor ==> t.catalog[i] == s.catalog[i])
  {
    StepLearnMore(s, script);
  }

  /** A script segment of `n` accepted add-another rounds followed by one
      declined round: each round is a non-empty answer and a confirmation. */
  predicate AddsThenStops(script: Script, from: nat, n: nat)
    decreases n
  {
    && from + 1 < |script|
    && |script[from]| > 0
    && if n == 0 then !Truthy(Get(script[from + 1], "repeater"))
       else Truthy(Get(script[from + 1], "repeater")) && AddsThenStops(script, from + 2, n - 1)
  }

  /** The values those rounds submit for `key`, in order. */
  function Submitted(script: Script, from: nat, n: nat, key: string): (r: seq<Value>)
    requires AddsThenStops(script, from, n)
    ensures |r| == n + 1 && r[0] == Get(script[from], key)
    decreases n
  {
    [Get(script[from], key)] + if n == 0 then [] else Submitted(script, from + 2, n - 1, key)
  }

  /** A question that can only take the add-another branch. */
  predicate AddAnotherQuestion(q: Question) {
    q.addAnotherLoop != "" && q.learnMore == "" && q.iteratorKey == "" && q.key != "updateFlow"
  }

  /** One add-another round on an array answer: push, then confirm. */
  lemma AddAnotherRound(s: Session, script: Script, xs: seq<Value>)
    requires s.cursor < |s.catalog| && s.consumed + 1 < |script| && !SkipsNext(s)
    requires AddAnotherQuestion(s.catalog[s.cursor]) && |script[s.consumed]| > 0
    requires Get(s.answers, s.catalog[s.cursor].key) == List(xs)
    ensures var key := s.catalog[s.cursor].key;
      var again := Truthy(Get(script[s.consumed + 1], "repeater"));
      Step(s, script) == Ok(Session(s.catalog, if again then s.cursor else s.cursor + 1,
                                    s.answers[key := List(xs + [Get(script[s.consumed], key)])],
                                    s.updating, s.asked + [s.cursor], s.consumed + 2))
  {
    StepAddAnother(s, script);
  }

  /** Add another (lines 79-101), once the answer is an array: `n` accepted
      rounds and a declined one push the `n + 1` submitted values in order,
      touch no other answer, and then move to the next question. */
  lemma {:induction false} AddAnotherExtends(s: Session, script: Script, n: nat, xs: seq<Value>)
    requires s.cursor < |s.catalog| && s.consumed <= |script| && !SkipsNext(s)
    requires AddAnotherQuestion(s.catalog[s.cursor])
    requires Get(s.answers, s.catalog[s.cursor].key) == List(xs)
    requires AddsThenStops(script, s.consumed, n)
    ensures Steps(s, script, n + 1).Ok?
    ensures var t := Steps(s, script, n + 1).value;
      var key := s.catalog[s.cursor].key;
      && t.catalog == s.catalog && t.updating == s.updating
      && t.cursor == s.cursor + 1
      && t.consumed == s.consumed + 2 * n + 2
      && t.answers == s.answers[key := List(xs + Submitted(script, s.consumed, n, key))]
    decreases n
  {
    var key := s.catalog[s.cursor].key;
    var v := Get(script[s.consumed], key);
    var answers := s.answers[key := List(xs + [v])];
    AddAnotherRound(s, script, xs);
    var again := Truthy(Get(script[s.consumed + 1], "repeater"));
    var next := Session(s.catalog, if again then s.cursor else s.cursor + 1, answers, s.updating, s.asked + [s.cursor], s.consumed + 2);
    StepsFirst(s, script, n, next);
    if n == 0 {
      assert Submitted(script, s.consumed, 0, key) == [v];
    } else {
      assert Get(answers, "updateFlow") == Get(s.answers, "updateFlow");
      assert !SkipsNext(next);
      AddAnotherExtends(next, script, n - 1, xs + [v]);
      assert Submitted(script, s.consumed, n, key) == [v] + Submitted(script, s.consumed + 2, n - 1, key);
      assert xs + [v] + Submitted(script, s.consumed + 2, n - 1, key) == xs + Submitted(script, s.consumed, n, key);
    }
  }

  /** A first iteration that moves on leaves the remaining ones. */
  lemma StepsFirst(s: Session, script: Script, n: nat, next: Session)
    requires s.consumed <= |script| && s.cursor < |s.catalog| && Step(s, script) == Ok(next)
    ensures Steps(s, script, n + 1) == Steps(next, script, n)
  {
    assert Steps(s, script, n + 1) == StepsFrom(s, script, n + 1);
  }

  /** A first iteration that moves on leaves the rest of the loop. */
  lemma RunFirst(s: Session, script: Script, next: Session)
    requires s.consumed <= |script| && s.cursor < |s.catalog| && Step(s, script) == Ok(next)
    ensures Run(s, script) == Run(next, script)
  {
    assert Run(s, script) == RunFrom(s, script);
  }

  /** A first iteration that fails ends the loop with its error. */
  lemma RunFirstFails(s: Session, script: Script)
    requires s.consumed <= |script| && s.cursor < |s.catalog| && Step(s, script).Err?
    ensures Run(s, script) == Err(Step(s, script).error)
  {
    assert Run(s, script) == RunFrom(s, script);
  }

  /** The cursor positions `lo`, `lo + 1`, ..., `hi - 1`. */
  function Range(lo: nat, hi: nat): (r: seq<nat>)
    requires lo <= hi
    ensures |r| == hi - lo && forall i :: 0 <= i < |r| ==> r[i] == lo + i
    decreases hi - lo
  {
    if lo == hi then [] else [lo] + Range(lo + 1, hi)
  }

  /** A question that none of the special branches of the loop applies to. */
  predicate PlainQuestion(q: Question) {
    q.learnMore == "" && q.iteratorKey == "" && q.addAnotherLoop == "" && q.key != "updateFlow"
  }

  /** A catalog of plain questions only. */
  predicate AllPlain(catalog: seq<Question>) {
    forall i :: 0 <= i < |catalog| ==> PlainQuestion(catalog[i])
  }

  /** Outside update mode, a plain question takes one prompt, records
      itself as asked and moves to the next entry. */
  lemma PlainStep(s: Session, script: Script)
    requires s.updating.None? && s.cursor < |s.catalog| && s.consumed < |script|
    requires PlainQuestion(s.catalog[s.cursor])
    ensures Step(s, script).Ok?
    ensures var t := Step(s, script).value;
      && t.catalog == s.catalog && t.updating == s.updating
      && t.cursor == s.cursor + 1 && t.asked == s.asked + [s.cursor] && t.consumed == s.consumed + 1
  {
    var branch := BranchOf(s.catalog[s.cursor], script[s.consumed], true);
    assert branch == FreshDefault || branch == Plain;
    assert AfterSkip(s) == s.cursor;
    if branch == FreshDefault {
      StepFreshDefault(s, script);
    } else {
      StepPlain(s, script);
    }
  }

  /** A loop that gets past a plain question outside update mode took one
      prompt for it and went on from the next entry. */
  lemma PlainRun(s: Session, script: Script) returns (next: Session)
    requires s.updating.None? && s.cursor < |s.catalog| && s.consumed <= |script|
    requires PlainQuestion(s.catalog[s.cursor]) && Run(s, script).Ok?
    ensures s.consumed < |script|
    ensures next.catalog == s.catalog && next.updating == s.updating
    ensures next.cursor == s.cursor + 1 && next.asked == s.asked + [s.cursor] && next.consumed == s.consumed + 1
    ensures Run(s, script) == Run(next, script)
  {
    if s.consumed == |script| {
      StepNoAnswer(s, script);
      RunFirstFails(s, script);
      assert false;
    }
    PlainStep(s, script);
    next := Step(s, script).value;
    RunFirst(s, script, next);
  }

  /** One plain question more at the front of the visited range. */
  lemma VisitedPrefix(s: Session, next: Session, t: Session, n: nat)
    requires s.cursor < n && next.cursor == s.cursor + 1
    requires next.asked == s.asked + [s.cursor] && next.consumed == s.consumed + 1
    requires t.asked == next.asked + Range(next.cursor, n)
    requires t.consumed == next.consumed + n - next.cursor
    ensures t.asked == s.asked + Range(s.cursor, n)
    ensures t.consumed == s.consumed + n - s.cursor
  {
    assert Range(s.cursor, n) == [s.cursor] + Range(s.cursor + 1, n);
  }

  /** On a catalog of plain questions outside update mode, the loop asks
      every remaining question exactly once, in catalog order, one prompt
      each. */
  lemma {:induction false} VisitsInOrder(s: Session, script: Script, t: Session)
    requires s.updating.None? && s.cursor <= |s.catalog| && s.consumed <= |script|
    requires AllPlain(s.catalog)
    requires Run(s, script) == Ok(t)
    ensures t.asked == s.asked + Range(s.cursor, |s.catalog|)
    ensures t.consumed == s.consumed + |s.catalog| - s.cursor
    decreases |s.catalog| - s.cursor
  {
    if s.cursor < |s.catalog| {
      var next := PlainRun(s, script);
      VisitsInOrder(next, script, t);
      VisitedPrefix(s, next, t, |s.catalog|);
    } else {
      assert t == s;
    }
  }

  /** Add another from the start: the first value is wrapped in a
      one-element array (merged together with the rest of its answer record),
      so `n` accepts and a decline leave exactly the `n + 1` submitted values,
      in submission order. */
  lemma AddAnotherCollects(s: Session, script: Script, n: nat)
    requires s.cursor < |s.catalog| && s.consumed <= |script| && !SkipsNext(s)
    requires AddAnotherQuestion(s.catalog[s.cursor])
    requires !Truthy(Get(s.answers, s.catalog[s.cursor].key))
    requires AddsThenStops(script, s.consumed, n)
    requires s.updating.None? || "updateFlow" !in script[s.consumed]  // the first record keeps the skip test as it was
    ensures Steps(s, script, n + 1).Ok?
    ensures var t := Steps(s, script, n + 1).value;
      var key := s.catalog[s.cursor].key;
      && t.cursor == s.cursor + 1
      && Get(t.answers, key) == List(Submitted(script, s.consumed, n, key))
      && |Submitted(script, s.consumed, n, key)| == n + 1
  {
    var key := s.catalog[s.cursor].key;
    StepAddAnother(s, script);
    var v := Get(script[s.consumed], key);
    var next := Step(s, script).value;
    StepsFirst(s, script, n, next);
    if n > 0 {
      assert Get(next.answers, key) == List([v]);
      assert s.updating.Some? ==> Get(next.answers, "updateFlow") == Get(s.answers, "updateFlow");
      AddAnotherExtends(next, script, n - 1, [v]);
    }
  }

  /** The values the replacement prompts supply, in order. */
  function UpdatedValues(script: Script, pos: nat, n: nat): (r: seq<Value>)
    requires pos + n <= |script|
    ensures |r| == n && forall i :: 0 <= i < n ==> r[i] == Get(script[pos + i], "updated")
  {
    seq(n, i requires 0 <= i < n => Get(script[pos + i], "updated"))
  }

  /** The iterator's replacements (lines 63-76) work on an array, keep its
      length when it is non-empty, and leave every element either as it was
      or holding one of the replacement values. */
  lemma {:induction false} ReplaceEachKeeps(target: Value, selected: seq<Value>, script: Script, pos: nat)
    requires pos <= |script| && ReplaceEach(target, selected, script, pos).Ok? && selected != []
    ensures target.List?
    ensures var now := ReplaceEach(target, selected, script, pos).value.0;
      && now.List?
      && pos + |selected| <= |script|
      && (|target.items| > 0 ==> |now.items| == |target.items|)
      && forall i :: 0 <= i < |now.items| ==>
           (i < |target.items| && now.items[i] == target.items[i]) || now.items[i] in UpdatedValues(script, pos, |selected|)
    decreases |selected|
  {
    var v := Get(script[pos], "updated");
    var next := List(SpliceOver(target.items, selected[0], v));
    assert UpdatedValues(script, pos, |selected|)[0] == v;
    if |selected| > 1 {
      ReplaceEachKeeps(next, selected[1..], script, pos + 1);
      var now := ReplaceEach(target, selected, script, pos).value.0;
      forall i | 0 <= i < |now.items|
        ensures (i < |target.items| && now.items[i] == target.items[i]) || now.items[i] in UpdatedValues(script, pos, |selected|)
      {
        if now.items[i] in UpdatedValues(script, pos + 1, |selected| - 1) {
          var k :| 0 <= k < |selected| - 1 && UpdatedValues(script, pos + 1, |selected| - 1)[k] == now.items[i];
          assert UpdatedValues(script, pos, |selected|)[k + 1] == now.items[i];
        }
      }
    }
  }

  /** Iterator (lines 59-77): the update context's array is rewritten in
      place, one prompt per selected item; its length is kept when it is
      non-empty, nothing else in the update context or the answers changes,
      the question switches to the iterator's validation, and the cursor
      moves on by exactly one. */
  lemma IteratorReplaces(s: Session, script: Script)
    requires s.cursor < |s.catalog| && s.consumed < |script| && s.updating.Some?
    requires BranchOf(s.catalog[s.cursor], script[s.consumed], s.updating.None?) == Iterate
    requires Step(s, script).Ok?
    ensures var q := s.catalog[s.cursor];
      var t := Step(s, script).value;
      var selected := Indexed(Get(script[s.consumed], q.key));
      var before := Get(s.updating.value, q.iteratorKey);
      && t.cursor == AfterSkip(s) + 1
      && t.answers == s.answers
      && t.consumed == s.consumed + 1 + |selected|
      && t.catalog[s.cursor].validation == q.iteratorValidation
      && t.updating.Some?
      && (forall k :: k != q.iteratorKey ==> Get(t.updating.value, k) == Get(s.updating.value, k))
      && before.List?
      && var now := Get(t.updating.value, q.iteratorKey);
         && now.List?
         && (|before.items| > 0 ==> |now.items| == |before.items|)
         && forall i :: 0 <= i < |now.items| ==>
              (i < |before.items| && now.items[i] == before.items[i]) || now.items[i] in UpdatedValues(script, s.consumed + 1, |selected|)
  {
    StepIterate(s, script);
    var q := s.catalog[s.cursor];
    ReplaceEachKeeps(Get(s.updating.value, q.iteratorKey), Indexed(Get(script[s.consumed], q.key)), script, s.consumed + 1);
  }

  /** Update flow (lines 102-115): a manual or default choice is recorded as
      `useDefault`, the choice itself is not merged (so `updateFlow` keeps its
      earlier value), and the social default switches the hosted UI on unless
      the answer sets it; any other choice is merged as it is. */
  lemma UpdateFlowRemap(answers: Answers, answer: Answers)
    ensures var flow := Get(answer, "updateFlow");
      var r := UpdateFlowMerge(answers, answer);
      if IsText(flow, "manual") || IsText(flow, "defaultSocial") || IsText(flow, "default") then
        && Get(r, "useDefault") == flow
        && Get(r, "updateFlow") == Get(answers, "updateFlow")
        && Get(r, "hostedUI") == (if "hostedUI" in answer then answer["hostedUI"]
                                  else if IsText(flow, "defaultSocial") then Bool(true)
                                  else Get(answers, "hostedUI"))
        && forall k :: k != "useDefault" && k != "updateFlow" && k != "hostedUI" ==> Get(r, k) == Get(answers + answer, k)
      else r == answers + answer
  {
  }

  /** Fresh default (lines 116-123): outside update mode a default choice
      selects both pools, and the social default switches the hosted UI on;
      every other answer is merged as given. */
  lemma DefaultRemap(answers: Answers, answer: Answers)
    requires IsDefaultChoice(Get(answer, "useDefault"))
    ensures var r := DefaultMerge(answers, answer);
      && Get(r, "authSelections") == Str("identityPoolAndUserPool")
      && Get(r, "useDefault") == Get(answer, "useDefault")
      && Get(r, "hostedUI") == (if IsText(Get(answer, "useDefault"), "defaultSocial") then Bool(true)
                                else Get(answers + answer, "hostedUI"))
      && forall k :: k != "authSelections" && k != "hostedUI" ==> Get(r, k) == Get(answers + answer, k)
  {
  }
}
