/** The hosted UI provider step of `serviceWalkthrough` (lines 210-214) and
    `userPoolProviders` (lines 272-309): for every social provider of the
    user pool, the OAuth scopes to request and the mapping of user pool
    attributes to provider attributes, plus the provider credentials, each
    serialised as JSON. */
module HostedUI {
  import opened Wrappers
  import opened JsValues
  import Updates

  /** What `attributeProviderMap[a][provider]` holds; an empty text stands for
      a missing `scope` or `attr`. */
  datatype AttrInfo = AttrInfo(scope: string, attr: string)

  /** `attributeProviderMap`: user pool attribute, then lower-cased provider
      name. It is a table of the category's string maps, given here as a
      parameter. */
  type AttributeProviderMap = map<string, map<string, AttrInfo>>

  /** The scopes and attribute mapping built for one provider. */
  datatype Mapping = Mapping(scopes: seq<string>, maps: Entries)

  // ---------------------------------------------------------------------------
  // One provider (lines 282-302)
  // ---------------------------------------------------------------------------

  /** The table entry for attribute `a` and the provider lower-cased to `name`. */
  function Lookup(pmap: AttributeProviderMap, a: Value, name: string): Option<AttrInfo> {
    if ToText(a) in pmap && name in pmap[ToText(a)] then Some(pmap[ToText(a)][name]) else None
  }

  /** What an attribute's turn reads from the table: the provider name is
      lower-cased only once the attribute has an entry, and only strings can
      be lower-cased. */
  function Info(pmap: AttributeProviderMap, a: Value, el: Value): Result<Option<AttrInfo>> {
    if ToText(a) !in pmap then Ok(None)
    else
      var name :- LowerText(el);
      Ok(Lookup(pmap, a, name))
  }

  /** The scope an attribute asks of a provider, empty when none. */
  function ScopeOf(pmap: AttributeProviderMap, a: Value, name: string): string {
    if Lookup(pmap, a, name).Some? then Lookup(pmap, a, name).value.scope else ""
  }

  /** The provider attribute an attribute maps to, empty when none. */
  function AttrOf(pmap: AttributeProviderMap, a: Value, name: string): string {
    if Lookup(pmap, a, name).Some? then Lookup(pmap, a, name).value.attr else ""
  }

  /** One attribute's turn (lines 287-301): its scope is added when new,
      Google always gets `openid` in front, and a mapped attribute is
      recorded under its name. */
  function MapOne(m: Mapping, a: Value, info: Option<AttrInfo>, google: bool): Mapping {
    var scopes := if info.Some? && info.value.scope != "" && info.value.scope !in m.scopes
      then m.scopes + [info.value.scope] else m.scopes;
    var scopes' := if google && "openid" !in scopes then ["openid"] + scopes else scopes;
    var maps := if info.Some? && info.value.attr != "" then SetField(m.maps, ToText(a), Str(info.value.attr)) else m.maps;
    Mapping(scopes', maps)
  }

  /** The turns of the attributes, in order. */
  function Mapped(attrs: seq<Value>, el: Value, pmap: AttributeProviderMap): Result<Mapping>
    decreases |attrs|
  {
    if attrs == [] then Ok(Mapping([], []))
    else
      var m :- Mapped(attrs[..|attrs| - 1], el, pmap);
      var info :- Info(pmap, attrs[|attrs| - 1], el);
      Ok(MapOne(m, attrs[|attrs| - 1], info, IsText(el, "Google")))
  }

  lemma {:induction false} MappedFailure(attrs: seq<Value>, el: Value, pmap: AttributeProviderMap, n: nat)
    requires n <= |attrs| && Mapped(attrs[..n], el, pmap).Err?
    ensures Mapped(attrs, el, pmap) == Mapped(attrs[..n], el, pmap)
    decreases |attrs| - n
  {
    if n < |attrs| {
      assert attrs[..n + 1][..n] == attrs[..n];
      MappedFailure(attrs, el, pmap, n + 1);
    } else {
      assert attrs[..n] == attrs;
    }
  }

  lemma MappedSnoc(attrs: seq<Value>, el: Value, pmap: AttributeProviderMap, i: nat)
    requires i < |attrs|
    ensures Mapped(attrs[..i + 1], el, pmap) ==
      var m :- Mapped(attrs[..i], el, pmap);
      var info :- Info(pmap, attrs[i], el);
      Ok(MapOne(m, attrs[i], info, IsText(el, "Google")))
  {
    assert attrs[..i + 1][..i] == attrs[..i];
  }

  /** The `forEach` of lines 287-301. */
  method MapAttributes(attrs: seq<Value>, el: Value, pmap: AttributeProviderMap) returns (r: Result<Mapping>)
    ensures r == Mapped(attrs, el, pmap)
  {
    var scopes: seq<string> := [];
    var maps: Entries := [];
    var i := 0;
    while i < |attrs|
      invariant 0 <= i <= |attrs|
      invariant Mapped(attrs[..i], el, pmap) == Ok(Mapping(scopes, maps))
    {
      MappedSnoc(attrs, el, pmap, i);
      var info := Info(pmap, attrs[i], el);
      if info.Err? {
        MappedFailure(attrs, el, pmap, i + 1);
        return Err(info.error);
      }
      if info.value.Some? && info.value.value.scope != "" && info.value.value.scope !in scopes {
        scopes := scopes + [info.value.value.scope];
      }
      if IsText(el, "Google") && "openid" !in scopes {
        scopes := ["openid"] + scopes;
      }
      if info.value.Some? && info.value.value.attr != "" {
        maps := SetField(maps, ToText(attrs[i]), Str(info.value.value.attr));
      }
      i := i + 1;
    }
    assert attrs[..i] == attrs;
    return Ok(Mapping(scopes, maps));
  }

  /** The scope separator: Facebook takes a comma, the others a space. */
  function Delimiter(el: Value): string {
    if IsText(el, "Facebook") then "," else " "
  }

  /** The metadata entry of one provider (lines 284-306); the attributes must
      be an array to be walked. */
  function ProviderMeta(el: Value, attributes: Value, pmap: AttributeProviderMap): Result<Value> {
    if !attributes.List? then Err(TypeError)
    else
      var m :- Mapped(attributes.items, el, pmap);
      Ok(Obj([("ProviderName", el), ("authorize_scopes", Str(Join(m.scopes, Delimiter(el)))), ("AttributeMapping", Obj(m.maps))]))
  }

  /** The credentials entry of one provider (line 308), read from the
      current answers. */
  function ProviderCreds(el: Value, core: Answers): Result<Value> {
    var name :- LowerText(el);
    Ok(Obj([("ProviderName", el),
            ("client_id", Get(core, name + Updates.AppIdSuffix)),
            ("client_secret", Get(core, name + Updates.AppSecretSuffix))]))
  }

  // ---------------------------------------------------------------------------
  // All providers (lines 283-309)
  // ---------------------------------------------------------------------------

  /** The metadata entries, one per provider in order. */
  function Metas(providers: seq<Value>, attributes: Value, pmap: AttributeProviderMap): (r: Result<seq<Value>>)
    ensures r.Ok? <==> forall i :: 0 <= i < |providers| ==> ProviderMeta(providers[i], attributes, pmap).Ok?
    ensures r.Ok? ==> |r.value| == |providers|
    ensures r.Ok? ==> forall i :: 0 <= i < |providers| ==> ProviderMeta(providers[i], attributes, pmap) == Ok(r.value[i])
    decreases |providers|
  {
    if providers == [] then Ok([])
    else
      var init := providers[..|providers| - 1];
      assert forall i :: 0 <= i < |init| ==> init[i] == providers[i];
      var ms :- Metas(init, attributes, pmap);
      var m :- ProviderMeta(providers[|providers| - 1], attributes, pmap);
      Ok(ms + [m])
  }

  /** The credentials entries, one per provider in order. */
  function Creds(providers: seq<Value>, core: Answers): (r: Result<seq<Value>>)
    ensures r.Ok? <==> forall i :: 0 <= i < |providers| ==> LowerText(providers[i]).Ok?
    ensures r.Ok? ==> |r.value| == |providers|
    ensures r.Ok? ==> forall i :: 0 <= i < |providers| ==> ProviderCreds(providers[i], core) == Ok(r.value[i])
    decreases |providers|
  {
    if providers == [] then Ok([])
    else
      var init := providers[..|providers| - 1];
      assert forall i :: 0 <= i < |init| ==> init[i] == providers[i];
      var cs :- Creds(init, core);
      var c :- ProviderCreds(providers[|providers| - 1], core);
      Ok(cs + [c])
  }

  /** `JSON.parse(JSON.stringify(requiredAttributes)).concat('username')`:
      undefined does not survive the round trip, a string gets the text
      appended, and only arrays and strings have `concat`. */
  function AttributesForMapping(required: Value): (r: Result<Value>)
    ensures required == Undef ==> r == Err(SyntaxError)
    ensures required.List? ==> r == Ok(List(required.items + [Str("username")]))
  {
    var copy :- Parse(Stringify(required));
    if copy.List? then Ok(List(copy.items + [Str("username")]))
    else if AsText(copy).Some? then Ok(Str(AsText(copy).value + "username"))
    else Err(TypeError)
  }

  /** The answers and update context after the hosted UI step. The step runs
      when user pool providers were chosen; the default configuration leaves
      everything as it is. The update context absorbs the answers. */
  function WithUserPoolProviders(core: Answers, updating: Option<Answers>, pmap: AttributeProviderMap)
    : (r: Result<(Answers, Option<Answers>)>)
    ensures IsText(Get(core, "useDefault"), "default") ==> r == Ok((core, updating))
    ensures r.Ok? ==> r.value.1.Some? == updating.Some?
    ensures r.Ok? ==> forall k :: k != "hostedUIProviderMeta" && k != "hostedUIProviderCreds" ==> Get(r.value.0, k) == Get(core, k)
  {
    if !Truthy(Get(core, "authProvidersUserPool")) || IsText(Get(core, "useDefault"), "default") then Ok((core, updating))
    else
      var answers := if updating.Some? then updating.value + core else core;
      var attributes :- AttributesForMapping(Get(answers, "requiredAttributes"));
      var providers := Get(core, "authProvidersUserPool");
      if !providers.List? then Err(TypeError)  // `map` is an array method
      else
        var metas :- Metas(providers.items, attributes, pmap);
        var creds :- Creds(providers.items, core);
        Ok((core["hostedUIProviderMeta" := Json(List(metas))]["hostedUIProviderCreds" := Json(List(creds))],
            if updating.Some? then Some(answers) else None))
  }

  lemma {:induction false} MetasFailure(providers: seq<Value>, attributes: Value, pmap: AttributeProviderMap, n: nat)
    requires n <= |providers| && Metas(providers[..n], attributes, pmap).Err?
    ensures Metas(providers, attributes, pmap) == Metas(providers[..n], attributes, pmap)
    decreases |providers| - n
  {
    if n < |providers| {
      assert providers[..n + 1][..n] == providers[..n];
      MetasFailure(providers, attributes, pmap, n + 1);
    } else {
      assert providers[..n] == providers;
    }
  }

  lemma MetasSnoc(providers: seq<Value>, attributes: Value, pmap: AttributeProviderMap, i: nat)
    requires i < |providers|
    ensures Metas(providers[..i + 1], attributes, pmap) ==
      var ms :- Metas(providers[..i], attributes, pmap);
      var m :- ProviderMeta(providers[i], attributes, pmap);
      Ok(ms + [m])
  {
    assert providers[..i + 1][..i] == providers[..i];
  }

  /** The `map` of lines 283-306. */
  method ProviderMetas(providers: seq<Value>, attributes: Value, pmap: AttributeProviderMap) returns (r: Result<seq<Value>>)
    ensures r == Metas(providers, attributes, pmap)
  {
    var metas: seq<Value> := [];
    var i := 0;
    while i < |providers|
      invariant 0 <= i <= |providers|
      invariant Metas(providers[..i], attributes, pmap) == Ok(metas)
    {
      MetasSnoc(providers, attributes, pmap, i);
      var el := providers[i];
      if !attributes.List? {
        MetasFailure(providers, attributes, pmap, i + 1);
        return Err(TypeError);
      }
      var m := MapAttributes(attributes.items, el, pmap);
      if m.Err? {
        MetasFailure(providers, attributes, pmap, i + 1);
        return Err(m.error);
      }
      metas := metas + [Obj([("ProviderName", el),
                             ("authorize_scopes", Str(Join(m.value.scopes, Delimiter(el)))),
                             ("AttributeMapping", Obj(m.value.maps))])];
      i := i + 1;
    }
    assert providers[..i] == providers;
    return Ok(metas);
  }

  lemma {:induction false} CredsFailure(providers: seq<Value>, core: Answers, n: nat)
    requires n <= |providers| && Creds(providers[..n], core).Err?
    ensures Creds(providers, core) == Creds(providers[..n], core)
    decreases |providers| - n
  {
    if n < |providers| {
      assert providers[..n + 1][..n] == providers[..n];
      CredsFailure(providers, core, n + 1);
    } else {
      assert providers[..n] == providers;
    }
  }

  lemma CredsSnoc(providers: seq<Value>, core: Answers, i: nat)
    requires i < |providers|
    ensures Creds(providers[..i + 1], core) ==
      var cs :- Creds(providers[..i], core);
      var c :- ProviderCreds(providers[i], core);
      Ok(cs + [c])
  {
    assert providers[..i + 1][..i] == providers[..i];
  }

  /** The `map` of line 308. */
  method ProviderCredentials(providers: seq<Value>, core: Answers) returns (r: Result<seq<Value>>)
    ensures r == Creds(providers, core)
  {
    var creds: seq<Value> := [];
    var i := 0;
    while i < |providers|
      invariant 0 <= i <= |providers|
      invariant Creds(providers[..i], core) == Ok(creds)
    {
      CredsSnoc(providers, core, i);
      var el := providers[i];
      var name := LowerText(el);
      if name.Err? {
        CredsFailure(providers, core, i + 1);
        return Err(name.error);
      }
      creds := creds + [Obj([("ProviderName", el),
                             ("client_id", Get(core, name.value + Updates.AppIdSuffix)),
                             ("client_secret", Get(core, name.value + Updates.AppSecretSuffix))])];
      i := i + 1;
    }
    assert providers[..i] == providers;
    return Ok(creds);
  }

  /** Lines 210-214 with `userPoolProviders` (lines 272-309). */
  method UserPoolProviders(core: Answers, updating: Option<Answers>, pmap: AttributeProviderMap)
    returns (r: Result<(Answers, Option<Answers>)>)
    ensures r == WithUserPoolProviders(core, updating, pmap)
  {
    if !Truthy(Get(core, "authProvidersUserPool")) || IsText(Get(core, "useDefault"), "default") {
      return Ok((core, updating));
    }
    var context := updating;
    var answers := core;
    if context.Some? {
      context := Some(context.value + core);
      answers := context.value;
    }
    var attributes := AttributesForMapping(Get(answers, "requiredAttributes"));
    if attributes.Err? {
      return Err(attributes.error);
    }
    var providers := Get(core, "authProvidersUserPool");
    if !providers.List? {
      return Err(TypeError);
    }
    var metas := ProviderMetas(providers.items, attributes.value, pmap);
    if metas.Err? {
      return Err(metas.error);
    }
    var creds := ProviderCredentials(providers.items, core);
    if creds.Err? {
      return Err(creds.error);
    }
    var coreAnswers := core["hostedUIProviderMeta" := Json(List(metas.value))];
    coreAnswers := coreAnswers["hostedUIProviderCreds" := Json(List(creds.value))];
    return Ok((coreAnswers, context));
  }

  // ---------------------------------------------------------------------------
  // Properties
  // ---------------------------------------------------------------------------

  /** With a provider that is a string, every attribute's turn succeeds. */
  lemma {:induction false} MappedTotal(attrs: seq<Value>, el: Value, pmap: AttributeProviderMap, name: string)
    requires LowerText(el) == Ok(name)
    ensures Mapped(attrs, el, pmap).Ok?
    ensures |attrs| > 0 ==>
      Mapped(attrs, el, pmap).value ==
        MapOne(Mapped(attrs[..|attrs| - 1], el, pmap).value, attrs[|attrs| - 1],
               Lookup(pmap, attrs[|attrs| - 1], name), IsText(el, "Google"))
    decreases |attrs|
  {
    if |attrs| > 0 {
      MappedTotal(attrs[..|attrs| - 1], el, pmap, name);
      assert Info(pmap, attrs[|attrs| - 1], el) == Ok(Lookup(pmap, attrs[|attrs| - 1], name));
    }
  }

  /** No scope is requested twice. */
  lemma {:induction false} ScopesDistinct(attrs: seq<Value>, el: Value, pmap: AttributeProviderMap, name: string)
    requires LowerText(el) == Ok(name)
    ensures Mapped(attrs, el, pmap).Ok?
    ensures var scopes := Mapped(attrs, el, pmap).value.scopes;
      forall i, j :: 0 <= i < j < |scopes| ==> scopes[i] != scopes[j]
    decreases |attrs|
  {
    MappedTotal(attrs, el, pmap, name);
    if |attrs| > 0 {
      ScopesDistinct(attrs[..|attrs| - 1], el, pmap, name);
    }
  }

  /** Google's scopes always start with `openid` (every attribute list holds
      at least `username`). */
  lemma {:induction false} GoogleOpenIdFirst(attrs: seq<Value>, el: Value, pmap: AttributeProviderMap, name: string)
    requires LowerText(el) == Ok(name) && IsText(el, "Google") && |attrs| > 0
    ensures Mapped(attrs, el, pmap).Ok?
    ensures var scopes := Mapped(attrs, el, pmap).value.scopes;
      |scopes| > 0 && scopes[0] == "openid"
    decreases |attrs|
  {
    MappedTotal(attrs, el, pmap, name);
    if |attrs| > 1 {
      GoogleOpenIdFirst(attrs[..|attrs| - 1], el, pmap, name);
    } else {
      MappedTotal(attrs[..0], el, pmap, name);
    }
  }

  /** The scopes are exactly those the attributes ask of the provider, plus
      `openid` for Google. */
  lemma {:induction false} ScopesRequested(attrs: seq<Value>, el: Value, pmap: AttributeProviderMap, name: string, x: string)
    requires LowerText(el) == Ok(name)
    ensures Mapped(attrs, el, pmap).Ok?
    ensures x in Mapped(attrs, el, pmap).value.scopes <==>
      (IsText(el, "Google") && |attrs| > 0 && x == "openid") ||
      (x != "" && exists i :: 0 <= i < |attrs| && ScopeOf(pmap, attrs[i], name) == x)
    decreases |attrs|
  {
    MappedTotal(attrs, el, pmap, name);
    if |attrs| > 0 {
      var init := attrs[..|attrs| - 1];
      var last := attrs[|attrs| - 1];
      ScopesRequested(init, el, pmap, name, x);
      if x != "" && exists i :: 0 <= i < |init| && ScopeOf(pmap, init[i], name) == x {
        var i :| 0 <= i < |init| && ScopeOf(pmap, init[i], name) == x;
        assert attrs[i] == init[i];
      }
      if x != "" && exists i :: 0 <= i < |attrs| && ScopeOf(pmap, attrs[i], name) == x {
        var i :| 0 <= i < |attrs| && ScopeOf(pmap, attrs[i], name) == x;
        if i < |attrs| - 1 {
          assert init[i] == attrs[i];
        }
      }
    }
  }

  /** The provider attribute the last attribute named `k` maps to. */
  function LastMapping(attrs: seq<Value>, k: string, pmap: AttributeProviderMap, name: string): Value
    decreases |attrs|
  {
    if attrs == [] then Undef
    else
      var last := attrs[|attrs| - 1];
      if ToText(last) == k && AttrOf(pmap, last, name) != "" then Str(AttrOf(pmap, last, name))
      else LastMapping(attrs[..|attrs| - 1], k, pmap, name)
  }

  /** Each attribute is mapped to what its last mention maps it to, and an
      attribute nothing maps stays out of the mapping. */
  lemma {:induction false} MappingLastWins(attrs: seq<Value>, el: Value, pmap: AttributeProviderMap, name: string, k: string)
    requires LowerText(el) == Ok(name)
    ensures Mapped(attrs, el, pmap).Ok?
    ensures Field(Mapped(attrs, el, pmap).value.maps, k) == LastMapping(attrs, k, pmap, name)
    decreases |attrs|
  {
    MappedTotal(attrs, el, pmap, name);
    if |attrs| > 0 {
      MappingLastWins(attrs[..|attrs| - 1], el, pmap, name, k);
    }
  }

  /** `JSON.parse` finds in serialised entries the first one naming the
      provider, which with distinct provider names is its own. */
  lemma {:induction false} FindNamed(xs: seq<Value>, names: seq<Value>, k: nat)
    requires |xs| == |names| && k < |names|
    requires forall i :: 0 <= i < |xs| ==> xs[i].Obj? && |xs[i].fields| > 0 && xs[i].fields[0] == ("ProviderName", names[i])
    requires forall i :: 0 <= i < |names| ==> LowerText(names[i]).Ok?
    requires Updates.DistinctNames(names)
    ensures Updates.FindProvider(xs, names[k]) == Ok(xs[k])
    decreases k
  {
    assert Prop(xs[0], "ProviderName") == Ok(names[0]);
    if k > 0 {
      assert LowerText(names[0]) != LowerText(names[k]);
      assert !Updates.Names(xs[0], names[k]);
      assert Updates.DistinctNames(names[1..]) by {
        forall i, j | 0 <= i < j < |names[1..]| ensures LowerText(names[1..][i]) != LowerText(names[1..][j]) {
          assert names[1..][i] == names[i + 1] && names[1..][j] == names[j + 1];
        }
      }
      FindNamed(xs[1..], names[1..], k - 1);
    }
  }

  /** The entries a provider gets, as the update flow finds them. */
  lemma {:induction false} EntriesFound(providers: seq<Value>, attrs: seq<Value>, core: Answers, pmap: AttributeProviderMap,
                                        metas: seq<Value>, creds: seq<Value>, k: nat, name: string, m: Mapping)
    requires Metas(providers, List(attrs), pmap) == Ok(metas) && Creds(providers, core) == Ok(creds)
    requires k < |providers| && Updates.DistinctNames(providers)
    requires LowerText(providers[k]) == Ok(name) && Mapped(attrs, providers[k], pmap) == Ok(m)
    ensures Updates.FindProvider(metas, providers[k]) ==
      Ok(Obj([("ProviderName", providers[k]), ("authorize_scopes", Str(Join(m.scopes, Delimiter(providers[k])))),
              ("AttributeMapping", Obj(m.maps))]))
    ensures Updates.FindProvider(creds, providers[k]) ==
      Ok(Obj([("ProviderName", providers[k]),
              ("client_id", Get(core, name + Updates.AppIdSuffix)),
              ("client_secret", Get(core, name + Updates.AppSecretSuffix))]))
  {
    forall i | 0 <= i < |providers| ensures LowerText(providers[i]).Ok? {
      assert ProviderCreds(providers[i], core).Ok?;
    }
    forall i | 0 <= i < |metas|
      ensures metas[i].Obj? && |metas[i].fields| > 0 && metas[i].fields[0] == ("ProviderName", providers[i])
    {
      assert ProviderMeta(providers[i], List(attrs), pmap) == Ok(metas[i]);
    }
    forall i | 0 <= i < |creds|
      ensures creds[i].Obj? && |creds[i].fields| > 0 && creds[i].fields[0] == ("ProviderName", providers[i])
    {
      assert ProviderCreds(providers[i], core) == Ok(creds[i]);
    }
    FindNamed(metas, providers, k);
    FindNamed(creds, providers, k);
    assert ProviderMeta(providers[k], List(attrs), pmap) == Ok(metas[k]);
    assert ProviderCreds(providers[k], core) == Ok(creds[k]);
  }

  /** The update flow reads, for a provider whose entries it finds, the
      credentials and the split scopes. */
  lemma ReadBack(providers: seq<Value>, metas: seq<Value>, creds: seq<Value>, core: Answers, k: nat, name: string, m: Mapping)
    requires k < |providers| && Updates.DistinctNames(providers) && LowerText(providers[k]) == Ok(name)
    requires Updates.FindProvider(metas, providers[k]) ==
      Ok(Obj([("ProviderName", providers[k]), ("authorize_scopes", Str(Join(m.scopes, Delimiter(providers[k])))),
              ("AttributeMapping", Obj(m.maps))]))
    requires Updates.FindProvider(creds, providers[k]) ==
      Ok(Obj([("ProviderName", providers[k]),
              ("client_id", Get(core, name + Updates.AppIdSuffix)),
              ("client_secret", Get(core, name + Updates.AppSecretSuffix))]))
    ensures var keys := Updates.CollectKeys(List(metas), List(creds), providers);
      && Field(keys, name + Updates.AppIdSuffix) == Get(core, name + Updates.AppIdSuffix)
      && Field(keys, name + Updates.AppSecretSuffix) == Get(core, name + Updates.AppSecretSuffix)
      && Field(keys, name + Updates.ScopesSuffix) == List(Strs(Split(Join(m.scopes, Delimiter(providers[k])), ',')))
  {
    var el := providers[k];
    var joined := Join(m.scopes, Delimiter(el));
    var meta := Obj([("ProviderName", el), ("authorize_scopes", Str(joined)), ("AttributeMapping", Obj(m.maps))]);
    var cred := Obj([("ProviderName", el),
                     ("client_id", Get(core, name + Updates.AppIdSuffix)),
                     ("client_secret", Get(core, name + Updates.AppSecretSuffix))]);
    FieldOfThree(meta.fields[0], meta.fields[1], meta.fields[2], "authorize_scopes");
    FieldOfThree(cred.fields[0], cred.fields[1], cred.fields[2], "client_id");
    FieldOfThree(cred.fields[0], cred.fields[1], cred.fields[2], "client_secret");
    assert Prop(meta, "authorize_scopes") == Ok(Str(joined));
    assert Prop(cred, "client_id") == Ok(Get(core, name + Updates.AppIdSuffix));
    assert Prop(cred, "client_secret") == Ok(Get(core, name + Updates.AppSecretSuffix));
    assert Updates.Resolves(List(metas), List(creds), el);
    assert el in providers;
    Updates.CollectKeysResolve(List(metas), List(creds), providers, el);
  }

  /** What an update reads back from the hosted UI output: the credentials
      of every provider, and its scopes split at commas. */
  lemma HostedUIRoundTrip(core: Answers, updating: Option<Answers>, pmap: AttributeProviderMap,
                          attrs: seq<Value>, k: nat, name: string, m: Mapping)
    requires WithUserPoolProviders(core, updating, pmap).Ok?
    requires Truthy(Get(core, "authProvidersUserPool")) && !IsText(Get(core, "useDefault"), "default")
    requires AttributesForMapping(Get(if updating.Some? then updating.value + core else core, "requiredAttributes")) == Ok(List(attrs))
    requires Get(core, "authProvidersUserPool").List? && k < |Get(core, "authProvidersUserPool").items|
    requires Updates.DistinctNames(Get(core, "authProvidersUserPool").items)
    requires LowerText(Get(core, "authProvidersUserPool").items[k]) == Ok(name)
    requires Mapped(attrs, Get(core, "authProvidersUserPool").items[k], pmap) == Ok(m)
    ensures var out := WithUserPoolProviders(core, updating, pmap).value.0;
      var back := Updates.OAuthCreds(Get(core, "authProvidersUserPool"), Get(out, "hostedUIProviderMeta"), Get(out, "hostedUIProviderCreds"));
      && back.Obj?
      && Field(back.fields, name + Updates.AppIdSuffix) == Get(core, name + Updates.AppIdSuffix)
      && Field(back.fields, name + Updates.AppSecretSuffix) == Get(core, name + Updates.AppSecretSuffix)
      && Field(back.fields, name + Updates.ScopesSuffix) ==
           List(Strs(Split(Join(m.scopes, Delimiter(Get(core, "authProvidersUserPool").items[k])), ',')))
  {
    var providers := Get(core, "authProvidersUserPool").items;
    var metas := Metas(providers, List(attrs), pmap).value;
    var creds := Creds(providers, core).value;
    var out := WithUserPoolProviders(core, updating, pmap).value.0;
    assert out == core["hostedUIProviderMeta" := Json(List(metas))]["hostedUIProviderCreds" := Json(List(creds))];
    assert Get(out, "hostedUIProviderMeta") == Json(List(metas));
    assert Get(out, "hostedUIProviderCreds") == Json(List(creds));
    assert Updates.OAuthCreds(Get(core, "authProvidersUserPool"), Json(List(metas)), Json(List(creds))) ==
      Obj(Updates.CollectKeys(List(metas), List(creds), providers));
    EntriesFound(providers, attrs, core, pmap, metas, creds, k, name, m);
    ReadBack(providers, metas, creds, core, k, name, m);
  }

  /** Facebook's comma-joined scopes come back as they were; any other
      provider's space-joined scopes come back as one text. */
  lemma ScopesComeBack(el: Value, m: Mapping)
    requires |m.scopes| > 0 && forall i :: 0 <= i < |m.scopes| ==> ',' !in m.scopes[i]
    ensures IsText(el, "Facebook") ==> Split(Join(m.scopes, Delimiter(el)), ',') == m.scopes
    ensures !IsText(el, "Facebook") ==> Split(Join(m.scopes, Delimiter(el)), ',') == [Join(m.scopes, " ")]
  {
    if IsText(el, "Facebook") {
      SplitJoin(m.scopes, ',');
    } else {
      JoinWithout(m.scopes, ' ', ',');
    }
  }

  /** A join on one character contains another only if some part does. */
  lemma {:induction false} JoinWithout(parts: seq<string>, sep: char, c: char)
    requires sep != c && forall i :: 0 <= i < |parts| ==> c !in parts[i]
    ensures c !in Join(parts, [sep])
    decreases |parts|
  {
    if |parts| > 1 {
      JoinWithout(parts[1..], sep, c);
      assert Join(parts, [sep]) == parts[0] + [sep] + Join(parts[1..], [sep]);
    }
  }

  /** The scopes the attributes ask of a provider, in attribute order, with
      repeats. */
  function Requested(attrs: seq<Value>, pmap: AttributeProviderMap, name: string): seq<string>
    decreases |attrs|
  {
    if attrs == [] then []
    else
      var s := ScopeOf(pmap, attrs[|attrs| - 1], name);
      Requested(attrs[..|attrs| - 1], pmap, name) + if s != "" then [s] else []
  }

  /** The first occurrence of every text, in order. */
  function Dedup(xs: seq<string>): (r: seq<string>)
    ensures forall x :: x in r <==> x in xs
    decreases |xs|
  {
    if xs == [] then []
    else
      var p := Dedup(xs[..|xs| - 1]);
      assert xs == xs[..|xs| - 1] + [xs[|xs| - 1]];
      if xs[|xs| - 1] in p then p else p + [xs[|xs| - 1]]
  }

  /** The texts other than `x`, in order. */
  function Without(xs: seq<string>, x: string): (r: seq<string>)
    ensures forall y :: y in r <==> y in xs && y != x
    decreases |xs|
  {
    if xs == [] then []
    else
      assert xs == xs[..|xs| - 1] + [xs[|xs| - 1]];
      Without(xs[..|xs| - 1], x) + if xs[|xs| - 1] != x then [xs[|xs| - 1]] else []
  }

  lemma DedupSnoc(xs: seq<string>, x: string)
    ensures Dedup(xs + [x]) == if x in Dedup(xs) then Dedup(xs) else Dedup(xs) + [x]
  {
    assert (xs + [x])[..|xs + [x]| - 1] == xs;
  }

  /** A text array includes a text exactly when the text is one of its
      elements. */
  lemma IncludesText(d: seq<string>, x: string)
    ensures Includes(Strs(d), Str(x)) <==> x in d
  {
    if x in d {
      var j :| 0 <= j < |d| && d[j] == x;
      assert StrictEquals(Strs(d)[j], Str(x));
    }
  }

  /** On texts, `Dedup` is lodash `uniq`: the same values, in the same order. */
  lemma {:induction false} DedupIsUniq(xs: seq<string>)
    ensures Uniq(Strs(xs)) == Strs(Dedup(xs))
    decreases |xs|
  {
    if xs != [] {
      var init := xs[..|xs| - 1];
      var x := xs[|xs| - 1];
      var d := Dedup(init);
      DedupIsUniq(init);
      assert init + [x] == xs;
      assert Strs(xs) == Strs(init) + [Str(x)];
      UniqSnoc(Strs(init), Str(x));
      DedupSnoc(init, x);
      IncludesText(d, x);
      assert Strs(d + [x]) == Strs(d) + [Str(x)];
    }
  }

  lemma WithoutSnoc(xs: seq<string>, y: string, x: string)
    ensures Without(xs + [y], x) == Without(xs, x) + if y != x then [y] else []
  {
    assert (xs + [y])[..|xs + [y]| - 1] == xs;
  }

  /** Outside Google the scopes are the requested ones in order of first
      request. */
  lemma {:induction false} ScopesInOrder(attrs: seq<Value>, el: Value, pmap: AttributeProviderMap, name: string)
    requires LowerText(el) == Ok(name)
    requires !IsText(el, "Google")
    ensures Mapped(attrs, el, pmap).Ok?
    ensures Mapped(attrs, el, pmap).value.scopes == Dedup(Requested(attrs, pmap, name))
    decreases |attrs|
  {
    MappedTotal(attrs, el, pmap, name);
    if |attrs| > 0 {
      var init := attrs[..|attrs| - 1];
      var s := ScopeOf(pmap, attrs[|attrs| - 1], name);
      ScopesInOrder(init, el, pmap, name);
      var r := Requested(init, pmap, name);
      assert Requested(attrs, pmap, name) == r + if s != "" then [s] else [];
      if s != "" {
        DedupSnoc(r, s);
      } else {
        assert r + [] == r;
      }
    }
  }

  lemma SnocAfter(xs: seq<string>, ys: seq<string>, y: string)
    ensures xs + ys + [y] == xs + (ys + [y])
  {
  }

  /** A Google turn once `openid` is present only pushes a new scope. */
  lemma GoogleTurn(m: Mapping, a: Value, info: Option<AttrInfo>)
    requires "openid" in m.scopes
    ensures MapOne(m, a, info, true).scopes ==
      if info.Some? && info.value.scope != "" && info.value.scope !in m.scopes then m.scopes + [info.value.scope] else m.scopes
  {
  }

  /** For Google the scopes are `openid` and then the other requested
      scopes in order of first request. */
  lemma {:induction false} GoogleScopesInOrder(attrs: seq<Value>, el: Value, pmap: AttributeProviderMap, name: string)
    requires LowerText(el) == Ok(name)
    requires IsText(el, "Google")
    requires |attrs| > 0
    ensures Mapped(attrs, el, pmap).Ok?
    ensures Mapped(attrs, el, pmap).value.scopes == ["openid"] + Dedup(Without(Requested(attrs, pmap, name), "openid"))
    decreases |attrs|
  {
    MappedTotal(attrs, el, pmap, name);
    var init := attrs[..|attrs| - 1];
    var a := attrs[|attrs| - 1];
    var info := Lookup(pmap, a, name);
    var s := ScopeOf(pmap, a, name);
    var r := Requested(init, pmap, name);
    var w := Without(r, "openid");
    var m := Mapped(init, el, pmap).value;
    assert Mapped(attrs, el, pmap).value == MapOne(m, a, info, true);
    assert Requested(attrs, pmap, name) == r + if s != "" then [s] else [];
    var total := Without(Requested(attrs, pmap, name), "openid");
    if s != "" {
      WithoutSnoc(r, s, "openid");
    } else {
      assert r + [] == r;
    }
    assert total == w + if s != "" && s != "openid" then [s] else [];
    if |init| > 0 {
      GoogleScopesInOrder(init, el, pmap, name);
      assert m.scopes == ["openid"] + Dedup(w);
      GoogleTurn(m, a, info);
      var res := MapOne(m, a, info, true).scopes;
      if s != "" && s != "openid" {
        DedupSnoc(w, s);
        assert total == w + [s];
        if s in Dedup(w) {
          assert res == m.scopes;
        } else {
          assert res == m.scopes + [s];
          assert Dedup(total) == Dedup(w) + [s];
          SnocAfter(["openid"], Dedup(w), s);
        }
      } else {
        assert total == w;
        assert res == m.scopes;
      }
    } else {
      MappedTotal(init, el, pmap, name);
      assert init == [];
      assert m.scopes == [];
      assert r == [] && w == [];
    }
  }
}
