/** `structureoAuthMetaData` (lines 314-363): the OAuth settings of the hosted
    UI (flows, scopes, callback and sign-out URLs) are gathered from the
    answers, the previous configuration and the defaults, and serialised
    into `oAuthMetadata` once all four are present. */
module OAuth {
  import opened Wrappers
  import opened JsValues
  import Updates

  /** The four settings, in the order they are serialised. */
  datatype OAuthSettings = OAuthSettings(flows: Value, scopes: Value, callbacks: Value, logouts: Value)

  /** `a.concat(b)` on a URL setting: an array spreads an array argument, a
      string appends the argument's text, and nothing else has `concat`. */
  function ConcatUrls(a: Value, b: Value): Result<Value> {
    if a.List? then Ok(List(ConcatArg(a.items, b)))
    else if AsText(a).Some? then Ok(Str(AsText(a).value + ToText(b)))
    else Err(TypeError)
  }

  /** Newly entered URLs are appended to the known ones, or replace them
      when there are none. */
  function MergedUrls(known: Value, added: Value): (r: Result<Value>)
    ensures !Truthy(added) ==> r == Ok(known)
    ensures Truthy(added) && !Truthy(known) ==> r == Ok(added)
    ensures known.List? && added.List? ==> r == Ok(List(known.items + added.items))
    ensures r.Err? <==> Truthy(added) && Truthy(known) && !known.List? && AsText(known).None?
  {
    if Truthy(known) && Truthy(added) then ConcatUrls(known, added)
    else if Truthy(added) then Ok(added)
    else Ok(known)
  }

  /** The settings (lines 321-352): the URLs are merged with the new ones;
      once both kinds of URL are known, missing scopes and flows come from
      the defaults and a single flow becomes a list. */
  function Settings(answers: Answers, core: Answers, defaults: Answers): Result<OAuthSettings> {
    var callbacks :- MergedUrls(Get(answers, "CallbackURLs"), Get(core, "newCallbackURLs"));
    var logouts :- MergedUrls(Get(answers, "LogoutURLs"), Get(core, "newLogoutURLs"));
    var flows := Get(answers, "AllowedOAuthFlows");
    var scopes := Get(answers, "AllowedOAuthScopes");
    if Truthy(callbacks) && Truthy(logouts) then
      var scopes' := if !Truthy(scopes) then Get(defaults, "AllowedOAuthScopes") else scopes;
      var flows' := if !Truthy(flows) then Get(defaults, "AllowedOAuthFlows")
        else if flows.List? then flows else List([flows]);
      Ok(OAuthSettings(flows', scopes', callbacks, logouts))
    else Ok(OAuthSettings(flows, scopes, callbacks, logouts))
  }

  predicate Complete(s: OAuthSettings) {
    Truthy(s.flows) && Truthy(s.scopes) && Truthy(s.callbacks) && Truthy(s.logouts)
  }

  /** `JSON.stringify({AllowedOAuthFlows, AllowedOAuthScopes, CallbackURLs, LogoutURLs})`. */
  function Metadata(s: OAuthSettings): Value {
    Json(Obj([("AllowedOAuthFlows", s.flows), ("AllowedOAuthScopes", s.scopes),
              ("CallbackURLs", s.callbacks), ("LogoutURLs", s.logouts)]))
  }

  /** What the previous configuration and the answers together say; the
      update context absorbs the answers. */
  function Merged(core: Answers, updating: Option<Answers>): Answers {
    if updating.Some? then updating.value + core else core
  }

  /** The answers and update context after the step. `defaults` stands for
      the category defaults computed from the project details. */
  function WithOAuthMetadata(core: Answers, updating: Option<Answers>, defaults: Answers)
    : (r: Result<(Answers, Option<Answers>)>)
    ensures IsText(Get(core, "useDefault"), "default") && updating.Some? ==>
      r == Ok((core, Some(updating.value - {"oAuthMetadata"})))
    ensures r.Ok? ==> forall k :: k != "oAuthMetadata" ==> Get(r.value.0, k) == Get(core, k)
    ensures r.Ok? ==> r.value.1.Some? == updating.Some?
    ensures !(IsText(Get(core, "useDefault"), "default") && updating.Some?) ==>
      (r.Ok? <==> Settings(Merged(core, updating), core, defaults).Ok?)
    ensures r.Ok? && !(IsText(Get(core, "useDefault"), "default") && updating.Some?) ==>
      Settings(Merged(core, updating), core, defaults).Ok? &&
      var s := Settings(Merged(core, updating), core, defaults).value;
      && r.value.1 == (if updating.Some? then Some(Merged(core, updating)) else None)
      && (Complete(s) ==> Get(r.value.0, "oAuthMetadata") == Metadata(s))
      && (!Complete(s) ==> r.value.0 == core)
  {
    if IsText(Get(core, "useDefault"), "default") && updating.Some? then
      Ok((core, Some(updating.value - {"oAuthMetadata"})))
    else
      var answers := Merged(core, updating);
      var s :- Settings(answers, core, defaults);
      Ok((if Complete(s) then core["oAuthMetadata" := Metadata(s)] else core,
          if updating.Some? then Some(answers) else None))
  }

  // ---------------------------------------------------------------------------
  // Properties
  // ---------------------------------------------------------------------------

  /** Once both kinds of URL are known, the flows are a list: an explicit
      single flow is wrapped, a missing one is taken from the defaults. */
  lemma FlowsAsList(answers: Answers, core: Answers, defaults: Answers)
    requires Settings(answers, core, defaults).Ok?
    requires Truthy(Settings(answers, core, defaults).value.callbacks) && Truthy(Settings(answers, core, defaults).value.logouts)
    ensures var s := Settings(answers, core, defaults).value;
      var flows := Get(answers, "AllowedOAuthFlows");
      && (Truthy(flows) && flows.List? ==> s.flows == flows)
      && (Truthy(flows) && !flows.List? ==> s.flows == List([flows]))
      && (!Truthy(flows) ==> s.flows == Get(defaults, "AllowedOAuthFlows"))
      && (Truthy(Get(answers, "AllowedOAuthScopes")) ==> s.scopes == Get(answers, "AllowedOAuthScopes"))
      && (!Truthy(Get(answers, "AllowedOAuthScopes")) ==> s.scopes == Get(defaults, "AllowedOAuthScopes"))
  {
  }

  /** Without both kinds of URL nothing is filled in from the defaults, and
      no metadata can be written unless the answers already hold flows and
      scopes. */
  lemma NoUrlsNoDefaults(answers: Answers, core: Answers, defaults: Answers)
    requires Settings(answers, core, defaults).Ok?
    requires !Truthy(Settings(answers, core, defaults).value.callbacks) || !Truthy(Settings(answers, core, defaults).value.logouts)
    ensures var s := Settings(answers, core, defaults).value;
      s.flows == Get(answers, "AllowedOAuthFlows") && s.scopes == Get(answers, "AllowedOAuthScopes") && !Complete(s)
  {
  }

  /** The metadata written here is what a later update expands back into
      the four settings (`parseOAuthMetaData`, lines 368-373). */
  lemma MetadataRoundTrip(core: Answers, updating: Option<Answers>, defaults: Answers, previous: Answers)
    requires !(IsText(Get(core, "useDefault"), "default") && updating.Some?)
    requires Settings(Merged(core, updating), core, defaults).Ok?
    requires Complete(Settings(Merged(core, updating), core, defaults).value)
    requires Get(previous, "oAuthMetadata") == Get(WithOAuthMetadata(core, updating, defaults).value.0, "oAuthMetadata")
    ensures var s := Settings(Merged(core, updating), core, defaults).value;
      var expanded := Updates.ExpandOAuthMetaData(previous);
      && expanded.Ok?
      && Get(expanded.value, "AllowedOAuthFlows") == s.flows
      && Get(expanded.value, "AllowedOAuthScopes") == s.scopes
      && Get(expanded.value, "CallbackURLs") == s.callbacks
      && Get(expanded.value, "LogoutURLs") == s.logouts
      && "oAuthMetadata" !in expanded.value
  {
    var s := Settings(Merged(core, updating), core, defaults).value;
    var es := [("AllowedOAuthFlows", s.flows), ("AllowedOAuthScopes", s.scopes),
               ("CallbackURLs", s.callbacks), ("LogoutURLs", s.logouts)];
    assert Get(WithOAuthMetadata(core, updating, defaults).value.0, "oAuthMetadata") == Metadata(s);
    assert Get(previous, "oAuthMetadata") == Json(Obj(es));
    assert Keys(es) == ["AllowedOAuthFlows", "AllowedOAuthScopes", "CallbackURLs", "LogoutURLs"];
    FieldAt(es, 0);
    FieldAt(es, 1);
    FieldAt(es, 2);
    FieldAt(es, 3);
    Updates.ExpandOAuthMetaDataFields(previous, es, "AllowedOAuthFlows");
    Updates.ExpandOAuthMetaDataFields(previous, es, "AllowedOAuthScopes");
    Updates.ExpandOAuthMetaDataFields(previous, es, "CallbackURLs");
    Updates.ExpandOAuthMetaDataFields(previous, es, "LogoutURLs");
  }
}
