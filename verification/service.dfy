/** `serviceWalkthrough` (lines 8-230) as a whole: the update-mode
    preparation, the question loop, and the post-loop steps, in the order
    the function runs them. The project, the category tables and the
    prompts it consults are collaborators passed in. */
module Service {
  import opened Wrappers
  import opened JsValues
  import opened Questions
  import opened Walkthrough
  import Updates
  import IdentityPool
  import Triggers
  import HostedUI
  import OAuth

  /** What the walkthrough consults besides the answers: the project's
      frontend, the identity pool provider table (`authProviders`), the
      attribute table (`attributeProviderMap`), the category defaults for the
      project, the environment parameters of an auth resource, and the
      trigger collaborators. */
  datatype Collaborators = Collaborators(
    projectType: string,
    table: seq<IdentityPool.ThirdParty>,
    attributeProviderMap: HostedUI.AttributeProviderMap,
    defaults: Answers,
    loadEnv: Value -> Answers,
    triggers: Triggers.TriggerServices)

  /** The identity pool options of a previous configuration (lines 135-143). */
  const IdentityPoolKeys: set<string> := {
    "identityPoolName", "allowUnauthenticatedIdentities", "thirdPartyAuth", "authProviders",
    "facebookAppId", "googleClientId", "googleIos", "googleAndroid", "amazonAppId"}

  /** Lines 133-144: choosing a user pool only drops the identity pool
      options of the configuration being updated. */
  function WithoutIdentityPool(core: Answers, updating: Option<Answers>): (r: Option<Answers>)
    ensures r.Some? == updating.Some?
    ensures r.Some? ==> forall k :: k in r.value <==>
      k in updating.value && (k !in IdentityPoolKeys || !IsText(Get(core, "authSelections"), "userPoolOnly"))
    ensures r.Some? ==> forall k :: k in r.value ==> r.value[k] == updating.value[k]
  {
    if IsText(Get(core, "authSelections"), "userPoolOnly") && updating.Some? then Some(updating.value - IdentityPoolKeys)
    else updating
  }

  /** Lines 219-225: a single username attribute given as text becomes a
      one-element list, and `username` itself means none. */
  function WithUsernameAttributes(core: Answers): (r: Result<Answers>)
    ensures r.Ok? ==> forall k :: k != "usernameAttributes" ==> Get(r.value, k) == Get(core, k)
    ensures r.Ok? ==> !Truthy(Get(r.value, "usernameAttributes")) || Get(r.value, "usernameAttributes").List?
    ensures r.Ok? && Truthy(Get(core, "usernameAttributes")) && AsText(Get(core, "usernameAttributes")).Some? ==>
      if IsText(Get(core, "usernameAttributes"), "username") then "usernameAttributes" !in r.value
      else Get(r.value, "usernameAttributes") == List([Str(AsText(Get(core, "usernameAttributes")).value)])
    ensures r.Err? <==>
      Truthy(Get(core, "usernameAttributes")) && !Get(core, "usernameAttributes").List? && AsText(Get(core, "usernameAttributes")).None?
  {
    var v := Get(core, "usernameAttributes");
    if Truthy(v) && !v.List? then
      if IsText(v, "username") then Ok(core - {"usernameAttributes"})
      else if AsText(v).Some? then Ok(core["usernameAttributes" := List([Str(AsText(v).value)])])  // `split()` with no separator
      else Err(TypeError)
    else Ok(core)
  }

  /** The identity pool providers step runs when third-party sign-in was
      chosen (lines 146-149). */
  function WithThirdParties(core: Answers, c: Collaborators): Result<Answers> {
    if Truthy(Get(core, "thirdPartyAuth")) then IdentityPool.WithIdentityPoolProviders(core, c.projectType, c.table)
    else Ok(core)
  }

  /** What the walkthrough returns, with the update context it leaves. */
  function Walk(catalog: seq<Question>, core: Answers, updating: Option<Answers>, script: Script, c: Collaborators)
    : Result<(Answers, Option<Answers>)>
  {
    var prepared :- Updates.Prepared(core, updating, c.loadEnv);
    var session :- Run(Start(catalog, prepared.0, prepared.1), script);
    AfterLoop(session, c)
  }

  /** The steps after the question loop (lines 133-225). */
  function AfterLoop(session: Session, c: Collaborators): (r: Result<(Answers, Option<Answers>)>)
    ensures r.Ok? ==> !Truthy(Get(r.value.0, "usernameAttributes")) || Get(r.value.0, "usernameAttributes").List?
    ensures r.Ok? ==> r.value.1.Some? == session.updating.Some?
  {
    var context := WithoutIdentityPool(session.answers, session.updating);
    var withParties :- WithThirdParties(session.answers, c);
    var withTriggers :- Triggers.WithTriggers(withParties, context, c.triggers);
    var withHostedUI :- HostedUI.WithUserPoolProviders(withTriggers.0, withTriggers.1, c.attributeProviderMap);
    var withOAuth :- OAuth.WithOAuthMetadata(withHostedUI.0, withHostedUI.1, c.defaults);
    var answers :- WithUsernameAttributes(withOAuth.0);
    Ok((answers, withOAuth.1))
  }

  /** `serviceWalkthrough`. */
  method ServiceWalkthrough(catalog: seq<Question>, core: Answers, updating: Option<Answers>, script: Script, c: Collaborators)
    returns (r: Result<(Answers, Option<Answers>)>)
    ensures r == Walk(catalog, core, updating, script, c)
  {
    var prepared := Updates.HandleUpdates(core, updating, c.loadEnv);
    if prepared.Err? {
      return Err(prepared.error);
    }
    var session := QuestionLoop(catalog, prepared.value.0, prepared.value.1, script);
    if session.Err? {
      return Err(session.error);
    }
    r := FinishWalkthrough(session.value, c);
  }

  /** The steps after the question loop, in the order lines 133-225 run them. */
  method FinishWalkthrough(session: Session, c: Collaborators) returns (r: Result<(Answers, Option<Answers>)>)
    ensures r == AfterLoop(session, c)
  {
    var coreAnswers := session.answers;
    var context := WithoutIdentityPool(coreAnswers, session.updating);
    if Truthy(Get(coreAnswers, "thirdPartyAuth")) {
      var withParties := IdentityPool.IdentityPoolProviders(coreAnswers, c.projectType, c.table);
      if withParties.Err? {
        return Err(withParties.error);
      }
      coreAnswers := withParties.value;
    }
    var withTriggers := Triggers.ConfigureTriggers(coreAnswers, context, c.triggers);
    if withTriggers.Err? {
      return Err(withTriggers.error);
    }
    var withHostedUI := HostedUI.UserPoolProviders(withTriggers.value.0, withTriggers.value.1, c.attributeProviderMap);
    if withHostedUI.Err? {
      return Err(withHostedUI.error);
    }
    var withOAuth := OAuth.WithOAuthMetadata(withHostedUI.value.0, withHostedUI.value.1, c.defaults);
    if withOAuth.Err? {
      return Err(withOAuth.error);
    }
    var answers := WithUsernameAttributes(withOAuth.value.0);
    if answers.Err? {
      return Err(answers.error);
    }
    return Ok((answers.value, withOAuth.value.1));
  }

  /** The walkthrough never returns a lone username attribute: a truthy
      `usernameAttributes` in its result is a list. */
  lemma WalkUsernameAttributes(catalog: seq<Question>, core: Answers, updating: Option<Answers>, script: Script, c: Collaborators)
    requires Walk(catalog, core, updating, script, c).Ok?
    ensures var answers := Walk(catalog, core, updating, script, c).value.0;
      !Truthy(Get(answers, "usernameAttributes")) || Get(answers, "usernameAttributes").List?
  {
    var session := Run(Start(catalog, Updates.Prepared(core, updating, c.loadEnv).value.0,
                             Updates.Prepared(core, updating, c.loadEnv).value.1), script).value;
    var after := AfterLoop(session, c).value;
    assert Walk(catalog, core, updating, script, c).value.0 == after.0;
  }

  /** Outside update mode there is no update context before or after. */
  lemma WalkWithoutUpdate(catalog: seq<Question>, core: Answers, script: Script, c: Collaborators)
    requires Walk(catalog, core, None, script, c).Ok?
    ensures Walk(catalog, core, None, script, c).value.1.None?
  {
    Updates.PreparedEffects(core, None, c.loadEnv);
    var prepared := Updates.Prepared(core, None, c.loadEnv).value;
    var session := Run(Start(catalog, prepared.0, prepared.1), script).value;
    assert Walk(catalog, core, None, script, c) == AfterLoop(session, c);
  }
}
