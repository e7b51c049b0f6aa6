/** The Cognito trigger handling of `serviceWalkthrough` (lines 151-207):
    trigger answers are grouped by event, merged with the previous
    configuration's triggers in a manual update, turned into Lambda functions
    by the trigger collaborators, and recorded as dependencies. */
module Triggers {
  import opened Wrappers
  import opened JsValues

  // ---------------------------------------------------------------------------
  // Grouping (lines 152-165)
  // ---------------------------------------------------------------------------

  /** `Object.keys(t)[0]` used as a property name: an object without
      properties gives the key "undefined". */
  function FirstKey(t: Value): string {
    var es := OwnEntries(t);
    if |es| > 0 then es[0].0 else "undefined"
  }

  /** `Object.values(t)[0]`. */
  function FirstValue(t: Value): Value {
    var es := OwnEntries(t);
    if |es| > 0 then es[0].1 else Undef
  }

  /** A trigger answer as the loop reads it: a string is parsed first, and
      `Object.keys` of undefined throws. */
  function Decoded(t: Value): Result<Value> {
    if AsText(t).Some? then Parse(t)
    else if t == Undef then Err(TypeError)
    else Ok(t)
  }

  /** One trigger answer added to the groups: a new event starts with a copy
      of its functions, a known one gets them appended. Group values are
      always arrays, so the `concat` of a non-array is never reached. */
  function GroupOne(groups: Entries, t: Value): Result<Entries> {
    var trigger :- Decoded(t);
    var key := FirstKey(trigger);
    if !Truthy(Field(groups, key)) then
      var copy :- Iterate(FirstValue(trigger));
      Ok(SetField(groups, key, List(copy)))
    else
      var current := Field(groups, key);
      if current.List? then Ok(SetField(groups, key, List(ConcatArg(current.items, FirstValue(trigger)))))
      else Err(TypeError)
  }

  /** The groups after every trigger answer, in order. */
  function Grouped(triggers: seq<Value>): Result<Entries>
    decreases |triggers|
  {
    if triggers == [] then Ok([])
    else
      var groups :- Grouped(triggers[..|triggers| - 1]);
      GroupOne(groups, triggers[|triggers| - 1])
  }

  /** A failure part-way fails the whole grouping. */
  lemma {:induction false} GroupedFailure(triggers: seq<Value>, n: nat)
    requires n <= |triggers| && Grouped(triggers[..n]).Err?
    ensures Grouped(triggers) == Grouped(triggers[..n])
    decreases |triggers| - n
  {
    if n < |triggers| {
      assert triggers[..n + 1][..n] == triggers[..n];
      GroupedFailure(triggers, n + 1);
    } else {
      assert triggers[..n] == triggers;
    }
  }

  /** The loop of lines 154-164. */
  method GroupTriggers(triggers: seq<Value>) returns (r: Result<Entries>)
    ensures r == Grouped(triggers)
  {
    var triggerObj: Entries := [];
    var i := 0;
    while i < |triggers|
      invariant 0 <= i <= |triggers|
      invariant Grouped(triggers[..i]) == Ok(triggerObj)
    {
      assert triggers[..i + 1][..i] == triggers[..i];
      var next := GroupOne(triggerObj, triggers[i]);
      if next.Err? {
        GroupedFailure(triggers, i + 1);
        return Err(next.error);
      }
      triggerObj := next.value;
      i := i + 1;
    }
    assert triggers[..i] == triggers;
    return Ok(triggerObj);
  }

  /** A trigger answer in its usual form: an object with one event, mapped
      to a list of function names. */
  predicate SingleEvent(t: Value) {
    t.Obj? && |t.fields| == 1 && t.fields[0].1.List?
  }

  function EventOf(t: Value): string
    requires SingleEvent(t)
  {
    t.fields[0].0
  }

  function FunctionsOf(t: Value): seq<Value>
    requires SingleEvent(t)
  {
    t.fields[0].1.items
  }

  /** The functions the answers name for `key`, in answer order. */
  function Collected(triggers: seq<Value>, key: string): seq<Value>
    requires forall i :: 0 <= i < |triggers| ==> SingleEvent(triggers[i])
    decreases |triggers|
  {
    if triggers == [] then []
    else
      var last := triggers[|triggers| - 1];
      assert SingleEvent(last);
      Collected(triggers[..|triggers| - 1], key) + if EventOf(last) == key then FunctionsOf(last) else []
  }

  /** The events the answers name, in answer order. */
  function Events(triggers: seq<Value>): (r: seq<string>)
    requires forall i :: 0 <= i < |triggers| ==> SingleEvent(triggers[i])
    ensures |r| == |triggers| && forall i :: 0 <= i < |triggers| ==> r[i] == EventOf(triggers[i])
    decreases |triggers|
  {
    if triggers == [] then []
    else Events(triggers[..|triggers| - 1]) + [EventOf(triggers[|triggers| - 1])]
  }

  /** Grouping collects, for each event, the functions of every answer
      naming it, in order and without removing repeats; the events are
      exactly those named. */
  lemma {:induction false} GroupedCollects(triggers: seq<Value>, key: string)
    requires forall i :: 0 <= i < |triggers| ==> SingleEvent(triggers[i])
    ensures Grouped(triggers).Ok?
    ensures key in Keys(Grouped(triggers).value) <==> key in Events(triggers)
    ensures key in Keys(Grouped(triggers).value) ==> Field(Grouped(triggers).value, key) == List(Collected(triggers, key))
    ensures key !in Keys(Grouped(triggers).value) ==> Collected(triggers, key) == []
    decreases |triggers|
  {
    if triggers != [] {
      var init := triggers[..|triggers| - 1];
      var last := triggers[|triggers| - 1];
      GroupedCollects(init, key);
      GroupedCollects(init, EventOf(last));
      var groups := Grouped(init).value;
      var name := EventOf(last);
      GroupOneEvent(groups, last);
      var merged := if name in Keys(groups) then Field(groups, name).items + FunctionsOf(last) else FunctionsOf(last);
      assert merged == Collected(init, name) + FunctionsOf(last);
      var result := SetField(groups, name, List(merged));
      assert Grouped(triggers) == Ok(result);
      assert Events(triggers) == Events(init) + [name];
      if key == name {
        assert Collected(triggers, key) == Collected(init, key) + FunctionsOf(last);
        assert Field(result, key) == List(Collected(triggers, key));
      } else {
        assert Collected(triggers, key) == Collected(init, key);
        assert Field(result, key) == Field(groups, key);
      }
    }
  }

  /** One answer naming one event, added to groups whose values are arrays:
      its functions are appended to the event's, or start a new group. */
  lemma GroupOneEvent(groups: Entries, t: Value)
    requires SingleEvent(t)
    requires EventOf(t) in Keys(groups) ==> Field(groups, EventOf(t)).List?
    ensures GroupOne(groups, t) == Ok(SetField(groups, EventOf(t), List(
      if EventOf(t) in Keys(groups) then Field(groups, EventOf(t)).items + FunctionsOf(t) else FunctionsOf(t))))
  {
    assert OwnEntries(t) == t.fields;
    assert Decoded(t) == Ok(t);
    assert FirstKey(t) == EventOf(t) && FirstValue(t) == List(FunctionsOf(t));
    if EventOf(t) !in Keys(groups) {
      FieldAbsent(groups, EventOf(t));
    }
    assert Iterate(List(FunctionsOf(t))) == Ok(FunctionsOf(t));
  }

  // ---------------------------------------------------------------------------
  // Merging with the previous triggers (lines 169-181)
  // ---------------------------------------------------------------------------

  /** One previous event merged in: an event the new answers also name gets
      the new functions followed by the previous ones, each kept once; an
      event only the previous configuration names is copied over. */
  function MergeOne(groups: Entries, key: string, previous: Value): Result<Entries> {
    var current := Field(groups, key);
    if !Truthy(current) then Ok(SetField(groups, key, previous))
    else if current.List? then Ok(SetField(groups, key, List(Uniq(ConcatArg(current.items, previous)))))
    else Err(TypeError)
  }

  /** The groups after merging each previous event, in its order. */
  function MergedWith(groups: Entries, previous: Entries): Result<Entries>
    decreases |previous|
  {
    if previous == [] then Ok(groups)
    else
      var merged :- MergedWith(groups, previous[..|previous| - 1]);
      MergeOne(merged, previous[|previous| - 1].0, previous[|previous| - 1].1)
  }

  lemma {:induction false} MergedFailure(groups: Entries, previous: Entries, n: nat)
    requires n <= |previous| && MergedWith(groups, previous[..n]).Err?
    ensures MergedWith(groups, previous) == MergedWith(groups, previous[..n])
    decreases |previous| - n
  {
    if n < |previous| {
      assert previous[..n + 1][..n] == previous[..n];
      MergedFailure(groups, previous, n + 1);
    } else {
      assert previous[..n] == previous;
    }
  }

  /** The `forEach` of lines 173-180. */
  method MergePrevious(groups: Entries, previous: Entries) returns (r: Result<Entries>)
    ensures r == MergedWith(groups, previous)
  {
    var triggerCapabilities := groups;
    var index := 0;
    while index < |previous|
      invariant 0 <= index <= |previous|
      invariant MergedWith(groups, previous[..index]) == Ok(triggerCapabilities)
    {
      assert previous[..index + 1][..index] == previous[..index];
      var next := MergeOne(triggerCapabilities, previous[index].0, previous[index].1);
      if next.Err? {
        MergedFailure(groups, previous, index + 1);
        return Err(next.error);
      }
      triggerCapabilities := next.value;
      index := index + 1;
    }
    assert previous[..index] == previous;
    return Ok(triggerCapabilities);
  }

  /** What merging gives one event. */
  function MergedEvent(current: Value, previous: Value): Value
    requires !Truthy(current) || current.List?
  {
    if !Truthy(current) then previous else List(Uniq(ConcatArg(current.items, previous)))
  }

  /** Merging with previous events under distinct names: an event named by
      both becomes uniq(new ++ previous), an event only the previous
      configuration names is copied, and an event only the new answers name
      is kept as it was. */
  lemma {:induction false} MergedEvents(groups: Entries, previous: Entries, key: string)
    requires forall i, j :: 0 <= i < j < |previous| ==> previous[i].0 != previous[j].0
    requires forall k :: !Truthy(Field(groups, k)) || Field(groups, k).List?
    requires MergedWith(groups, previous).Ok?
    ensures key !in Keys(previous) ==> Field(MergedWith(groups, previous).value, key) == Field(groups, key)
    ensures key in Keys(previous) ==>
      Field(MergedWith(groups, previous).value, key) == MergedEvent(Field(groups, key), Field(previous, key))
    decreases |previous|
  {
    if previous != [] {
      var init := previous[..|previous| - 1];
      var last := previous[|previous| - 1];
      assert previous == init + [last];
      KeysSnoc(init, last);
      LastKeyNew(previous);
      MergedEvents(groups, init, key);
      MergedEvents(groups, init, last.0);
      FieldSnoc(init, last, key);
      MergeOneField(MergedWith(groups, init).value, last.0, last.1, key);
    }
  }

  /** One previous event merged in changes that event only. */
  lemma MergeOneField(groups: Entries, name: string, previous: Value, key: string)
    requires !Truthy(Field(groups, name)) || Field(groups, name).List?
    ensures MergeOne(groups, name, previous).Ok?
    ensures Field(MergeOne(groups, name, previous).value, key) ==
      if key == name then MergedEvent(Field(groups, name), previous) else Field(groups, key)
  {
  }

  // ---------------------------------------------------------------------------
  // Dependencies (lines 197-204)
  // ---------------------------------------------------------------------------

  /** The dependency on one created Lambda function. */
  function Dependency(lambda: Value): Value {
    Obj([("category", Str("function")), ("resourceName", lambda), ("attributes", List([Str("Arn"), Str("Name")]))])
  }

  /** The `forEach` of lines 198-204: one dependency per created function,
      in the order `Object.values` lists them. */
  method DependsOn(lambdas: seq<Value>) returns (deps: seq<Value>)
    ensures deps == Dependencies(lambdas)
  {
    deps := [];
    var i := 0;
    while i < |lambdas|
      invariant 0 <= i <= |lambdas| && |deps| == i
      invariant forall k :: 0 <= k < i ==> deps[k] == Dependency(lambdas[k])
    {
      deps := deps + [Dependency(lambdas[i])];
      i := i + 1;
    }
    assert deps == Dependencies(lambdas);
  }

  function Dependencies(lambdas: seq<Value>): (r: seq<Value>)
    ensures |r| == |lambdas| && forall i :: 0 <= i < |lambdas| ==> r[i] == Dependency(lambdas[i])
  {
    seq(|lambdas|, i requires 0 <= i < |lambdas| => Dependency(lambdas[i]))
  }

  // ---------------------------------------------------------------------------
  // The whole trigger step (lines 151-207)
  // ---------------------------------------------------------------------------

  /** The trigger collaborators: `triggerFlow` (behind `lambdaFlow`) lets the
      user edit the grouped triggers, `createTrigger` creates the functions
      and returns them keyed by name. */
  datatype TriggerServices = TriggerServices(
    triggerFlow: Value -> Result<Value>,
    createTrigger: Answers -> Result<Value>)

  /** Whether the step runs at all: some trigger answer was given. */
  predicate HasTriggers(core: Answers) {
    Truthy(Get(core, "triggerCapabilities")) && |Indexed(Get(core, "triggerCapabilities"))| > 0
  }

  /** The manual flow's triggers (lines 168-187), before the collaborators
      create anything. */
  function ManualTriggers(groups: Entries, updating: Option<Answers>, services: TriggerServices): Result<Value> {
    var merged :-
      if updating.Some? && Truthy(Get(updating.value, "triggerCapabilities")) then
        var previous :- Parse(Get(updating.value, "triggerCapabilities"));
        MergedWith(groups, OwnEntries(previous))
      else Ok(groups);
    var edited :- services.triggerFlow(Obj(merged));
    Ok(if Truthy(edited) then edited else Obj(merged))
  }

  /** The triggers handed to the collaborators: the grouped answers, or in a
      manual flow the merged and edited ones. */
  function WithTriggersChosen(core: Answers, updating: Option<Answers>, services: TriggerServices): Result<Value>
    requires HasTriggers(core)
  {
    var groups :- Grouped(Indexed(Get(core, "triggerCapabilities")));
    if !IsText(Get(core, "authSelections"), "identityPoolOnly") && IsText(Get(core, "useDefault"), "manual")
    then ManualTriggers(groups, updating, services)
    else Ok(Obj(groups))
  }

  /** The answers and update context once the chosen triggers are recorded
      in `core`: the collaborators create the functions, which are merged
      into the answers and become dependencies, and the triggers are stored
      as JSON text. */
  function Created(core: Answers, updating: Option<Answers>, services: TriggerServices): Result<(Answers, Option<Answers>)> {
    // `Object.assign(context.updatingAuth, coreAnswers)` is what the collaborator gets
    var parameters := if updating.Some? then updating.value + core else core;
    var lambdas :- services.createTrigger(parameters);
    var withLambdas := Assign(core, lambdas);
    if lambdas == Undef then Err(TypeError)  // `Object.values(undefined)`
    else
      var withDeps := withLambdas["dependsOn" := List(Dependencies(Values(OwnEntries(lambdas))))];
      Ok((withDeps["triggerCapabilities" := Stringify(Get(withDeps, "triggerCapabilities"))],
          if updating.Some? then Some(parameters) else None))
  }

  /** The answers and update context after the trigger step. */
  function WithTriggers(core: Answers, updating: Option<Answers>, services: TriggerServices): (r: Result<(Answers, Option<Answers>)>)
    ensures r.Ok? ==> r.value.1.Some? == updating.Some?
  {
    if !HasTriggers(core) then Ok((core, updating))
    else
      var triggers :- WithTriggersChosen(core, updating, services);
      Created(core["triggerCapabilities" := triggers], updating, services)
  }

  /** Lines 168-187: in a manual flow the previous triggers are merged in
      and the user may edit the result. */
  method ManualFlow(groups: Entries, updating: Option<Answers>, services: TriggerServices) returns (r: Result<Value>)
    ensures r == ManualTriggers(groups, updating, services)
  {
    var triggerObj := groups;
    if updating.Some? && Truthy(Get(updating.value, "triggerCapabilities")) {
      var previousTriggers := Parse(Get(updating.value, "triggerCapabilities"));
      if previousTriggers.Err? {
        return Err(previousTriggers.error);
      }
      var merged := MergePrevious(triggerObj, OwnEntries(previousTriggers.value));
      if merged.Err? {
        return Err(merged.error);
      }
      triggerObj := merged.value;
    }
    var manualTriggers := services.triggerFlow(Obj(triggerObj));
    if manualTriggers.Err? {
      return Err(manualTriggers.error);
    }
    if Truthy(manualTriggers.value) {
      return Ok(manualTriggers.value);
    }
    return Ok(Obj(triggerObj));
  }

  /** Lines 152-187: the triggers to hand to the collaborators. */
  method ChooseTriggers(core: Answers, updating: Option<Answers>, services: TriggerServices) returns (r: Result<Value>)
    requires HasTriggers(core)
    ensures r == WithTriggersChosen(core, updating, services)
  {
    var grouped := GroupTriggers(Indexed(Get(core, "triggerCapabilities")));
    if grouped.Err? {
      return Err(grouped.error);
    }
    if !IsText(Get(core, "authSelections"), "identityPoolOnly") && IsText(Get(core, "useDefault"), "manual") {
      r := ManualFlow(grouped.value, updating, services);
    } else {
      r := Ok(Obj(grouped.value));
    }
  }

  /** Lines 189-206. */
  method CreateTriggers(core: Answers, updating: Option<Answers>, services: TriggerServices)
    returns (r: Result<(Answers, Option<Answers>)>)
    ensures r == Created(core, updating, services)
  {
    var coreAnswers := core;
    var context := updating;
    var parameters := coreAnswers;
    if context.Some? {
      context := Some(context.value + coreAnswers);
      parameters := context.value;
    }
    var lambdas := services.createTrigger(parameters);
    if lambdas.Err? {
      return Err(lambdas.error);
    }
    coreAnswers := Assign(coreAnswers, lambdas.value);
    if lambdas.value == Undef {
      return Err(TypeError);
    }
    var deps := DependsOn(Values(OwnEntries(lambdas.value)));
    assert deps == Dependencies(Values(OwnEntries(lambdas.value)));
    coreAnswers := coreAnswers["dependsOn" := List(deps)];
    coreAnswers := coreAnswers["triggerCapabilities" := Stringify(Get(coreAnswers, "triggerCapabilities"))];
    return Ok((coreAnswers, context));
  }

  /** Lines 151-207. */
  method ConfigureTriggers(core: Answers, updating: Option<Answers>, services: TriggerServices)
    returns (r: Result<(Answers, Option<Answers>)>)
    ensures r == WithTriggers(core, updating, services)
  {
    if !HasTriggers(core) {
      return Ok((core, updating));
    }
    var triggers := ChooseTriggers(core, updating, services);
    if triggers.Err? {
      return Err(triggers.error);
    }
    r := CreateTriggers(core["triggerCapabilities" := triggers.value], updating, services);
  }
}
