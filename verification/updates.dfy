/** The update-mode pre-step `handleUpdates` (lines 414-437) and the two
    deserialisers it relies on, `parseOAuthMetaData` (lines 368-373) and
    `parseOAuthCreds` (lines 378-398). */
module Updates {
  import opened Wrappers
  import opened JsValues

  // ---------------------------------------------------------------------------
  // parseOAuthMetaData
  // ---------------------------------------------------------------------------

  /** The serialised OAuth metadata of a previous configuration is expanded
      into the record, and the serialised copy is removed. Text that is not
      JSON makes `JSON.parse` throw. */
  function ExpandOAuthMetaData(previous: Answers): (r: Result<Answers>)
    ensures !Truthy(Get(previous, "oAuthMetadata")) ==> r == Ok(previous)
    ensures Truthy(Get(previous, "oAuthMetadata")) ==>
      (r.Ok? <==> Parse(Get(previous, "oAuthMetadata")).Ok?) && (r.Ok? ==> "oAuthMetadata" !in r.value)
  {
    var text := Get(previous, "oAuthMetadata");
    if !Truthy(text) then Ok(previous)
    else
      var parsed :- Parse(text);
      Ok(Assign(previous, parsed) - {"oAuthMetadata"})
  }

  /** Metadata serialised from an object with distinct keys comes back field
      by field: each of its fields is set from it, the rest of the record is
      kept, and the serialised copy is gone. */
  lemma ExpandOAuthMetaDataFields(previous: Answers, es: Entries, k: string)
    requires Get(previous, "oAuthMetadata") == Json(Obj(es))
    requires DistinctKeys(es)
    requires k != "oAuthMetadata"
    ensures ExpandOAuthMetaData(previous).Ok?
    ensures Get(ExpandOAuthMetaData(previous).value, k) == if k in Keys(es) then Field(es, k) else Get(previous, k)
  {
    AssignEntriesGet(previous, es, k);
  }

  // ---------------------------------------------------------------------------
  // parseOAuthCreds
  // ---------------------------------------------------------------------------

  /** `i.ProviderName === el`; reading a property of undefined throws. */
  predicate Names(v: Value, el: Value) {
    v != Undef && StrictEquals(Prop(v, "ProviderName").value, el)
  }

  /** `xs.find(i => i.ProviderName === el)`: the first entry naming `el`,
      undefined when there is none; an undefined entry met before it throws. */
  function FindProvider(xs: seq<Value>, el: Value): (r: Result<Value>)
    ensures r.Ok? && r.value != Undef ==> r.value in xs && Names(r.value, el)
    ensures r.Ok? && r.value == Undef ==> forall i :: 0 <= i < |xs| ==> xs[i] != Undef && !Names(xs[i], el)
    ensures r.Err? ==> Undef in xs
  {
    if xs == [] then Ok(Undef)
    else if xs[0] == Undef then Err(TypeError)
    else if Names(xs[0], el) then Ok(xs[0])
    else
      var r := FindProvider(xs[1..], el);
      assert forall i :: 1 <= i < |xs| ==> xs[i] == xs[1..][i - 1];
      r
  }

  /** `find` returns the first entry naming the provider: every entry before
      it is defined and names another. */
  lemma {:induction false} FindProviderFirst(xs: seq<Value>, el: Value)
    ensures FindProvider(xs, el).Ok? && FindProvider(xs, el).value != Undef ==>
      exists i :: 0 <= i < |xs| && xs[i] == FindProvider(xs, el).value && forall k :: 0 <= k < i ==> xs[k] != Undef && !Names(xs[k], el)
    decreases |xs|
  {
    if xs != [] && xs[0] != Undef && !Names(xs[0], el) && FindProvider(xs, el).Ok? && FindProvider(xs, el).value != Undef {
      var tail := xs[1..];
      FindProviderFirst(tail, el);
      var i :| 0 <= i < |tail| && tail[i] == FindProvider(xs, el).value && forall k :: 0 <= k < i ==> tail[k] != Undef && !Names(tail[k], el);
      assert forall k :: 1 <= k < |xs| ==> xs[k] == tail[k - 1];
      assert xs[i + 1] == tail[i];
      assert forall k :: 0 <= k < i + 1 ==> xs[k] != Undef && !Names(xs[k], el);
    }
  }

  /** `find` throws exactly when an undefined entry comes before any entry
      naming the provider. */
  lemma {:induction false} FindProviderThrows(xs: seq<Value>, el: Value)
    ensures FindProvider(xs, el).Err? <==>
      exists i :: 0 <= i < |xs| && xs[i] == Undef && forall k :: 0 <= k < i ==> !Names(xs[k], el)
    decreases |xs|
  {
    if xs != [] && xs[0] != Undef {
      if Names(xs[0], el) {
        forall i | 0 <= i < |xs| && xs[i] == Undef ensures !(forall k :: 0 <= k < i ==> !Names(xs[k], el)) {
          assert i > 0;
        }
      } else {
        var tail := xs[1..];
        FindProviderThrows(tail, el);
        assert forall k :: 1 <= k < |xs| ==> xs[k] == tail[k - 1];
        if FindProvider(xs, el).Err? {
          var i :| 0 <= i < |tail| && tail[i] == Undef && forall k :: 0 <= k < i ==> !Names(tail[k], el);
          assert xs[i + 1] == Undef;
        }
      }
    } else if xs != [] {
      assert xs[0] == Undef;
    }
  }

  const AppIdSuffix := "AppIdUserPool"
  const AppSecretSuffix := "AppSecretUserPool"
  const ScopesSuffix := "AuthorizeScopes"

  /** The three keys a provider named `name` (lower-cased) writes. */
  function CredKeys(name: string): set<string> {
    {name + AppIdSuffix, name + AppSecretSuffix, name + ScopesSuffix}
  }

  lemma SameSuffix(a: string, b: string, x: string)
    ensures a + x == b + x ==> a == b
  {
    assert (a + x)[..|a|] == a;
    assert (b + x)[..|b|] == b;
  }

  lemma EndsDiffer(a: string, b: string, x: string, y: string, i: nat)
    requires 0 < i <= |x| && i <= |y| && x[|x| - i] != y[|y| - i]
    ensures a + x != b + y
  {
    assert (a + x)[|a + x| - i] == x[|x| - i];
    assert (b + y)[|b + y| - i] == y[|y| - i];
  }

  /** A key written for a provider names that provider and one suffix:
      the suffixes differ near their ends. */
  lemma CredKeysDisjoint(a: string, b: string)
    requires a != b
    ensures CredKeys(a) !! CredKeys(b)
  {
    SameSuffix(a, b, AppIdSuffix);
    SameSuffix(a, b, AppSecretSuffix);
    SameSuffix(a, b, ScopesSuffix);
    EndsDiffer(a, b, AppIdSuffix, AppSecretSuffix, 9);
    EndsDiffer(b, a, AppIdSuffix, AppSecretSuffix, 9);
    EndsDiffer(a, b, AppIdSuffix, ScopesSuffix, 1);
    EndsDiffer(b, a, AppIdSuffix, ScopesSuffix, 1);
    EndsDiffer(a, b, AppSecretSuffix, ScopesSuffix, 1);
    EndsDiffer(b, a, AppSecretSuffix, ScopesSuffix, 1);
  }

  /** `s` ends with `x`. */
  predicate EndsWith(s: string, x: string) {
    |x| <= |s| && s[|s| - |x|..] == x
  }

  /** A key that some provider's turn may write: it ends with one of the
      three suffixes. */
  predicate CredKey(k: string) {
    EndsWith(k, AppIdSuffix) || EndsWith(k, AppSecretSuffix) || EndsWith(k, ScopesSuffix)
  }

  lemma CredKeysOf(name: string)
    ensures forall k :: k in CredKeys(name) ==> CredKey(k)
  {
    assert (name + AppIdSuffix)[|name|..] == AppIdSuffix;
    assert (name + AppSecretSuffix)[|name|..] == AppSecretSuffix;
    assert (name + ScopesSuffix)[|name|..] == ScopesSuffix;
  }

  /** The serialised metadata is not among the keys a provider writes. */
  lemma MetadataNotCredKey()
    ensures !CredKey("oAuthMetadata")
  {
    assert "oAuthMetadata"[0] != AppIdSuffix[0];
  }

  /** Everything one provider's turn needs resolves: both parsed documents
      are arrays, both name the provider, it is a string, and its scopes are
      text. */
  predicate Resolves(meta: Value, creds: Value, el: Value) {
    && meta.List? && creds.List?
    && FindProvider(meta.items, el).Ok? && FindProvider(meta.items, el).value != Undef
    && FindProvider(creds.items, el).Ok? && FindProvider(creds.items, el).value != Undef
    && LowerText(el).Ok?
    && AsText(Prop(FindProvider(meta.items, el).value, "authorize_scopes").value).Some?
  }

  /** One provider's turn (lines 384-392). The statement that throws stops
      the turn, and what was written before it stays: a provider whose
      credentials are found but whose metadata is missing keeps its id and
      secret without scopes. */
  function ProviderKeys(keys: Entries, meta: Value, creds: Value, el: Value): (r: Entries)
    ensures forall k :: (LowerText(el).Err? || k !in CredKeys(LowerText(el).value)) ==> Field(r, k) == Field(keys, k)
    ensures Resolves(meta, creds, el) ==>
      var name := LowerText(el).value;
      var cred := FindProvider(creds.items, el).value;
      var provider := FindProvider(meta.items, el).value;
      && Field(r, name + AppIdSuffix) == Prop(cred, "client_id").value
      && Field(r, name + AppSecretSuffix) == Prop(cred, "client_secret").value
      && Field(r, name + ScopesSuffix) == List(Strs(Split(AsText(Prop(provider, "authorize_scopes").value).value, ',')))
    ensures meta.List? && creds.List? && LowerText(el).Ok? && FindProvider(meta.items, el) == Ok(Undef)
            && FindProvider(creds.items, el).Ok? && FindProvider(creds.items, el).value != Undef ==>
      var name := LowerText(el).value;
      && Field(r, name + AppIdSuffix) == Prop(FindProvider(creds.items, el).value, "client_id").value
      && Field(r, name + ScopesSuffix) == Field(keys, name + ScopesSuffix)
  {
    if !meta.List? || !creds.List? then keys  // `find` is an array method
    else
      match (FindProvider(meta.items, el), FindProvider(creds.items, el), LowerText(el))
      case (Ok(provider), Ok(cred), Ok(name)) =>
        if cred == Undef then keys
        else
          var withId := SetField(keys, name + AppIdSuffix, Prop(cred, "client_id").value);
          var withSecret := SetField(withId, name + AppSecretSuffix, Prop(cred, "client_secret").value);
          var scopes := if provider == Undef then None else AsText(Prop(provider, "authorize_scopes").value);
          if scopes.None? then withSecret
          else SetField(withSecret, name + ScopesSuffix, List(Strs(Split(scopes.value, ','))))
      case _ => keys
  }

  /** The providers' turns, in order. */
  function CollectKeys(meta: Value, creds: Value, providers: seq<Value>): Entries
    decreases |providers|
  {
    if providers == [] then []
    else ProviderKeys(CollectKeys(meta, creds, providers[..|providers| - 1]), meta, creds, providers[|providers| - 1])
  }

  /** What `parseOAuthCreds` returns: `{}` when either document is not JSON
      or the providers are not an array. */
  function OAuthCreds(providers: Value, metadata: Value, envCreds: Value): Value {
    match (Parse(metadata), Parse(envCreds))
    case (Ok(meta), Ok(creds)) => if providers.List? then Obj(CollectKeys(meta, creds, providers.items)) else Obj([])
    case _ => Obj([])
  }

  /** Providers are told apart by their lower-cased names. */
  predicate DistinctNames(providers: seq<Value>) {
    forall i, j :: 0 <= i < j < |providers| ==> LowerText(providers[i]) != LowerText(providers[j])
  }

  /** With distinct provider names, every provider whose documents resolve
      ends up with its id, its secret and its split scopes, whatever the
      other providers do. */
  lemma {:induction false} CollectKeysResolve(meta: Value, creds: Value, providers: seq<Value>, el: Value)
    requires el in providers && DistinctNames(providers) && Resolves(meta, creds, el)
    ensures var keys := CollectKeys(meta, creds, providers);
      var name := LowerText(el).value;
      var cred := FindProvider(creds.items, el).value;
      var provider := FindProvider(meta.items, el).value;
      && Field(keys, name + AppIdSuffix) == Prop(cred, "client_id").value
      && Field(keys, name + AppSecretSuffix) == Prop(cred, "client_secret").value
      && Field(keys, name + ScopesSuffix) == List(Strs(Split(AsText(Prop(provider, "authorize_scopes").value).value, ',')))
    decreases |providers|
  {
    var init := providers[..|providers| - 1];
    var last := providers[|providers| - 1];
    if el != last {
      assert el in init by {
        var i :| 0 <= i < |providers| && providers[i] == el;
        assert i < |providers| - 1;
        assert init[i] == el;
      }
      assert DistinctNames(init) by {
        forall i, j | 0 <= i < j < |init| ensures LowerText(init[i]) != LowerText(init[j]) {
          assert init[i] == providers[i] && init[j] == providers[j];
        }
      }
      CollectKeysResolve(meta, creds, init, el);
      var k :| 0 <= k < |init| && init[k] == el;
      assert providers[k] == el;
      assert LowerText(last) != LowerText(el);
      if LowerText(last).Ok? {
        CredKeysDisjoint(LowerText(el).value, LowerText(last).value);
      }
    }
  }

  /** One provider's turn keeps the keys already written, adds only keys of
      the provider's own and keeps keys distinct. */
  lemma ProviderKeysKeys(keys: Entries, meta: Value, creds: Value, el: Value)
    ensures var r := ProviderKeys(keys, meta, creds, el);
      && (forall x :: x in Keys(keys) ==> x in Keys(r))
      && (forall x :: x in Keys(r) ==> x in Keys(keys) || CredKey(x))
      && (DistinctKeys(keys) ==> DistinctKeys(r))
  {
    if meta.List? && creds.List? {
      match (FindProvider(meta.items, el), FindProvider(creds.items, el), LowerText(el))
      case (Ok(provider), Ok(cred), Ok(name)) =>
        if cred != Undef {
          CredKeysOf(name);
          var withId := SetField(keys, name + AppIdSuffix, Prop(cred, "client_id").value);
          SetFieldKeys(keys, name + AppIdSuffix, Prop(cred, "client_id").value);
          var withSecret := SetField(withId, name + AppSecretSuffix, Prop(cred, "client_secret").value);
          SetFieldKeys(withId, name + AppSecretSuffix, Prop(cred, "client_secret").value);
          var scopes := if provider == Undef then None else AsText(Prop(provider, "authorize_scopes").value);
          if scopes.Some? {
            SetFieldKeys(withSecret, name + ScopesSuffix, List(Strs(Split(scopes.value, ','))));
          }
        }
      case _ =>
    }
  }

  /** A provider whose documents resolve writes all three of its keys. */
  lemma ProviderKeysHas(keys: Entries, meta: Value, creds: Value, el: Value)
    requires Resolves(meta, creds, el)
    ensures forall x :: x in CredKeys(LowerText(el).value) ==> x in Keys(ProviderKeys(keys, meta, creds, el))
  {
    var name := LowerText(el).value;
    var cred := FindProvider(creds.items, el).value;
    var provider := FindProvider(meta.items, el).value;
    var withId := SetField(keys, name + AppIdSuffix, Prop(cred, "client_id").value);
    SetFieldKeys(keys, name + AppIdSuffix, Prop(cred, "client_id").value);
    var withSecret := SetField(withId, name + AppSecretSuffix, Prop(cred, "client_secret").value);
    SetFieldKeys(withId, name + AppSecretSuffix, Prop(cred, "client_secret").value);
    SetFieldKeys(withSecret, name + ScopesSuffix, List(Strs(Split(AsText(Prop(provider, "authorize_scopes").value).value, ','))));
  }

  /** All the providers' turns together write distinct keys, each of them a
      provider's key. */
  lemma {:induction false} CollectKeysKeys(meta: Value, creds: Value, providers: seq<Value>)
    ensures var keys := CollectKeys(meta, creds, providers);
      DistinctKeys(keys) && forall x :: x in Keys(keys) ==> CredKey(x)
    decreases |providers|
  {
    if providers != [] {
      var init := providers[..|providers| - 1];
      CollectKeysKeys(meta, creds, init);
      ProviderKeysKeys(CollectKeys(meta, creds, init), meta, creds, providers[|providers| - 1]);
    }
  }

  /** A provider whose documents resolve has all three of its keys written. */
  lemma {:induction false} CollectKeysHas(meta: Value, creds: Value, providers: seq<Value>, el: Value)
    requires el in providers && Resolves(meta, creds, el)
    ensures forall x :: x in CredKeys(LowerText(el).value) ==> x in Keys(CollectKeys(meta, creds, providers))
    decreases |providers|
  {
    var init := providers[..|providers| - 1];
    var last := providers[|providers| - 1];
    if el == last {
      ProviderKeysHas(CollectKeys(meta, creds, init), meta, creds, last);
    } else {
      ProviderKeysKeys(CollectKeys(meta, creds, init), meta, creds, last);
      assert el in init by {
        var i :| 0 <= i < |providers| && providers[i] == el;
        assert init[i] == el;
      }
      CollectKeysHas(meta, creds, init, el);
    }
  }

  /** `parseOAuthCreds` (lines 378-398): each provider's turn in order, with
      the per-provider and the outer `try`. */
  method ParseOAuthCreds(providers: Value, metadata: Value, envCreds: Value) returns (r: Value)
    ensures r == OAuthCreds(providers, metadata, envCreds)
  {
    var providerKeys: Entries := [];
    var parsedMetaData := Parse(metadata);
    var parsedCreds := Parse(envCreds);
    if parsedMetaData.Err? || parsedCreds.Err? || !providers.List? {
      return Obj([]);
    }
    var i := 0;
    while i < |providers.items|
      invariant 0 <= i <= |providers.items|
      invariant providerKeys == CollectKeys(parsedMetaData.value, parsedCreds.value, providers.items[..i])
    {
      assert providers.items[..i + 1][..i] == providers.items[..i];
      providerKeys := ProviderKeys(providerKeys, parsedMetaData.value, parsedCreds.value, providers.items[i]);
      i := i + 1;
    }
    assert providers.items[..i] == providers.items;
    return Obj(providerKeys);
  }

  // ---------------------------------------------------------------------------
  // handleUpdates
  // ---------------------------------------------------------------------------

  /** What `handleUpdates` leaves in the answers and the update context.
      `loadEnv` stands for `loadEnvResourceParameters` on the auth resource
      named by its argument. */
  function Prepared(core: Answers, updating: Option<Answers>, loadEnv: Value -> Answers): Result<(Answers, Option<Answers>)> {
    if updating.None? then Ok((core, None))
    else
      var previous := updating.value;
      // previous triggers are pushed onto the current ones
      var core1 :-
        if !Truthy(Get(previous, "triggers")) then Ok(core)
        else if !Get(core, "triggers").List? then Err(TypeError)
        else
          var more :- Iterate(Get(previous, "triggers"));
          Ok(core["triggers" := List(Get(core, "triggers").items + more)]);
      var previous1 :- ExpandOAuthMetaData(previous);
      var previous2 :=
        if !Truthy(Get(previous1, "authProvidersUserPool")) then previous1
        else
          var env := loadEnv(Get(previous1, "resourceName"));
          Assign(previous1, OAuthCreds(Get(previous1, "authProvidersUserPool"), Get(previous1, "hostedUIProviderMeta"),
                                       Get(env, "hostedUIProviderCreds")));
      var core2 := if IsText(Get(previous2, "authSelections"), "identityPoolOnly")
        then core1["authSelections" := Str("identityPoolAndUserPool")] else core1;
      Ok((core2, Some(previous2)))
  }

  /** Merging `parseOAuthCreds`' result into a record leaves every key that
      is not a provider's key as it was, and adds no serialised metadata. */
  lemma AssignCredsKeys(m: Answers, providers: Value, metadata: Value, envCreds: Value)
    ensures var r := Assign(m, OAuthCreds(providers, metadata, envCreds));
      && (forall k :: !CredKey(k) ==> Get(r, k) == Get(m, k))
      && ("oAuthMetadata" !in m ==> "oAuthMetadata" !in r)
  {
    var es := OwnEntries(OAuthCreds(providers, metadata, envCreds));
    if Parse(metadata).Ok? && Parse(envCreds).Ok? && providers.List? {
      CollectKeysKeys(Parse(metadata).value, Parse(envCreds).value, providers.items);
    } else {
      assert es == [];
    }
    forall k | !CredKey(k) ensures Get(AssignEntries(m, es), k) == Get(m, k) {
      AssignEntriesGet(m, es, k);
    }
    MetadataNotCredKey();
    assert forall i :: 0 <= i < |es| ==> es[i].0 == Keys(es)[i];
  }

  /** Assigning distinct entries that hold a provider's three keys sets them. */
  lemma CredKeysIn(m: Answers, es: Entries, name: string)
    requires DistinctKeys(es) && forall x :: x in CredKeys(name) ==> x in Keys(es)
    ensures Get(AssignEntries(m, es), name + AppIdSuffix) == Field(es, name + AppIdSuffix)
    ensures Get(AssignEntries(m, es), name + AppSecretSuffix) == Field(es, name + AppSecretSuffix)
    ensures Get(AssignEntries(m, es), name + ScopesSuffix) == Field(es, name + ScopesSuffix)
  {
    AssignEntriesGet(m, es, name + AppIdSuffix);
    AssignEntriesGet(m, es, name + AppSecretSuffix);
    AssignEntriesGet(m, es, name + ScopesSuffix);
  }

  /** Merging `parseOAuthCreds`' result gives a provider whose documents
      resolve its id, its secret and its split scopes. */
  lemma AssignCredsResolve(m: Answers, providers: Value, metadata: Value, envCreds: Value, el: Value)
    requires providers.List? && el in providers.items && DistinctNames(providers.items)
    requires Parse(metadata).Ok? && Parse(envCreds).Ok? && Resolves(Parse(metadata).value, Parse(envCreds).value, el)
    ensures var r := Assign(m, OAuthCreds(providers, metadata, envCreds));
      var name := LowerText(el).value;
      var cred := FindProvider(Parse(envCreds).value.items, el).value;
      var provider := FindProvider(Parse(metadata).value.items, el).value;
      && Get(r, name + AppIdSuffix) == Prop(cred, "client_id").value
      && Get(r, name + AppSecretSuffix) == Prop(cred, "client_secret").value
      && Get(r, name + ScopesSuffix) == List(Strs(Split(AsText(Prop(provider, "authorize_scopes").value).value, ',')))
  {
    var meta := Parse(metadata).value;
    var creds := Parse(envCreds).value;
    var es := CollectKeys(meta, creds, providers.items);
    var name := LowerText(el).value;
    assert Assign(m, OAuthCreds(providers, metadata, envCreds)) == AssignEntries(m, es);
    CollectKeysKeys(meta, creds, providers.items);
    CollectKeysHas(meta, creds, providers.items, el);
    CollectKeysResolve(meta, creds, providers.items, el);
    CredKeysIn(m, es, name);
  }

  /** `handleUpdates` (lines 414-437). */
  method HandleUpdates(core: Answers, updating: Option<Answers>, loadEnv: Value -> Answers)
    returns (r: Result<(Answers, Option<Answers>)>)
    ensures r == Prepared(core, updating, loadEnv)
  {
    if updating.None? {
      return Ok((core, None));
    }
    var coreAnswers := core;
    var previous := updating.value;
    if Truthy(Get(previous, "triggers")) {
      var triggers := Get(coreAnswers, "triggers");
      if !triggers.List? {
        return Err(TypeError);
      }
      var more := Iterate(Get(previous, "triggers"));
      if more.Err? {
        return Err(more.error);
      }
      coreAnswers := coreAnswers["triggers" := List(triggers.items + more.value)];
    }
    var expanded := ExpandOAuthMetaData(previous);
    if expanded.Err? {
      return Err(expanded.error);
    }
    previous := expanded.value;
    if Truthy(Get(previous, "authProvidersUserPool")) {
      var env := loadEnv(Get(previous, "resourceName"));
      var oAuthCreds := ParseOAuthCreds(Get(previous, "authProvidersUserPool"), Get(previous, "hostedUIProviderMeta"),
                                        Get(env, "hostedUIProviderCreds"));
      previous := Assign(previous, oAuthCreds);
    }
    if IsText(Get(previous, "authSelections"), "identityPoolOnly") {
      coreAnswers := coreAnswers["authSelections" := Str("identityPoolAndUserPool")];
    }
    return Ok((coreAnswers, Some(previous)));
  }

  /** Outside update mode nothing happens; in update mode the previous
      triggers follow the current ones, an identity-pool-only configuration
      reopens both pools, each of the two answers is left as it was when its
      condition does not hold, and the update context stays present. */
  lemma PreparedEffects(core: Answers, updating: Option<Answers>, loadEnv: Value -> Answers)
    ensures updating.None? ==> Prepared(core, updating, loadEnv) == Ok((core, None))
    ensures Prepared(core, updating, loadEnv).Ok? && updating.Some? ==>
      var (core', updating') := Prepared(core, updating, loadEnv).value;
      && updating'.Some?
      && (Truthy(Get(updating.value, "triggers")) ==>
            Get(core', "triggers") == List(Get(core, "triggers").items + Iterate(Get(updating.value, "triggers")).value))
      && (IsText(Get(updating'.value, "authSelections"), "identityPoolOnly") ==>
            Get(core', "authSelections") == Str("identityPoolAndUserPool"))
      && (!Truthy(Get(updating.value, "triggers")) ==> Get(core', "triggers") == Get(core, "triggers"))
      && (!IsText(Get(updating'.value, "authSelections"), "identityPoolOnly") ==>
            Get(core', "authSelections") == Get(core, "authSelections"))
      && forall k :: k != "triggers" && k != "authSelections" ==> Get(core', k) == Get(core, k)
    ensures updating.Some? && Truthy(Get(updating.value, "triggers")) && !Get(core, "triggers").List? ==>
      Prepared(core, updating, loadEnv) == Err(TypeError)
  {
  }

  /** The update context `handleUpdates` leaves: the serialised metadata is
      gone once expanded, every key that is not a provider's key reads as in
      the expanded record (as in the previous configuration when there was
      no metadata), and without user-pool providers nothing is merged. */
  lemma PreparedContext(core: Answers, updating: Option<Answers>, loadEnv: Value -> Answers)
    requires updating.Some? && Prepared(core, updating, loadEnv).Ok?
    ensures ExpandOAuthMetaData(updating.value).Ok? && Prepared(core, updating, loadEnv).value.1.Some?
    ensures var context := Prepared(core, updating, loadEnv).value.1.value;
      var expanded := ExpandOAuthMetaData(updating.value).value;
      && (Truthy(Get(updating.value, "oAuthMetadata")) ==> "oAuthMetadata" !in context)
      && (forall k :: !CredKey(k) ==> Get(context, k) == Get(expanded, k))
      && (!Truthy(Get(updating.value, "oAuthMetadata")) ==> forall k :: !CredKey(k) ==> Get(context, k) == Get(updating.value, k))
      && (!Truthy(Get(expanded, "authProvidersUserPool")) ==> context == expanded)
  {
    var expanded := ExpandOAuthMetaData(updating.value).value;
    var providers := Get(expanded, "authProvidersUserPool");
    if Truthy(providers) {
      var env := loadEnv(Get(expanded, "resourceName"));
      AssignCredsKeys(expanded, providers, Get(expanded, "hostedUIProviderMeta"), Get(env, "hostedUIProviderCreds"));
    }
  }

  /** Metadata serialised from an object with distinct keys: in the update
      context each key that is neither a provider's key nor the serialised
      copy reads as the metadata field of that name, or as before when the
      metadata has none. */
  lemma PreparedContextFields(core: Answers, updating: Option<Answers>, loadEnv: Value -> Answers, es: Entries, k: string)
    requires updating.Some? && Prepared(core, updating, loadEnv).Ok?
    requires Get(updating.value, "oAuthMetadata") == Json(Obj(es)) && DistinctKeys(es)
    requires k != "oAuthMetadata" && !CredKey(k)
    ensures Prepared(core, updating, loadEnv).value.1.Some?
    ensures Get(Prepared(core, updating, loadEnv).value.1.value, k) == if k in Keys(es) then Field(es, k) else Get(updating.value, k)
  {
    PreparedContext(core, updating, loadEnv);
    ExpandOAuthMetaDataFields(updating.value, es, k);
  }

  /** In the update context, a user-pool provider listed among providers
      with distinct names, whose metadata and credentials resolve, has its
      client id, its client secret and its comma-split scopes. */
  lemma PreparedProviderCreds(core: Answers, updating: Option<Answers>, loadEnv: Value -> Answers, el: Value)
    requires updating.Some? && Prepared(core, updating, loadEnv).Ok?
    requires ExpandOAuthMetaData(updating.value).Ok?
    requires var expanded := ExpandOAuthMetaData(updating.value).value;
      var providers := Get(expanded, "authProvidersUserPool");
      var meta := Parse(Get(expanded, "hostedUIProviderMeta"));
      var creds := Parse(Get(loadEnv(Get(expanded, "resourceName")), "hostedUIProviderCreds"));
      && providers.List? && el in providers.items && DistinctNames(providers.items)
      && meta.Ok? && creds.Ok? && Resolves(meta.value, creds.value, el)
    ensures Prepared(core, updating, loadEnv).value.1.Some?
    ensures var expanded := ExpandOAuthMetaData(updating.value).value;
      var context := Prepared(core, updating, loadEnv).value.1.value;
      var name := LowerText(el).value;
      var cred := FindProvider(Parse(Get(loadEnv(Get(expanded, "resourceName")), "hostedUIProviderCreds")).value.items, el).value;
      var provider := FindProvider(Parse(Get(expanded, "hostedUIProviderMeta")).value.items, el).value;
      && Get(context, name + AppIdSuffix) == Prop(cred, "client_id").value
      && Get(context, name + AppSecretSuffix) == Prop(cred, "client_secret").value
      && Get(context, name + ScopesSuffix) == List(Strs(Split(AsText(Prop(provider, "authorize_scopes").value).value, ',')))
  {
    var expanded := ExpandOAuthMetaData(updating.value).value;
    var env := loadEnv(Get(expanded, "resourceName"));
    var merged := Assign(expanded, OAuthCreds(Get(expanded, "authProvidersUserPool"), Get(expanded, "hostedUIProviderMeta"),
                                              Get(env, "hostedUIProviderCreds")));
    assert Prepared(core, updating, loadEnv).value.1 == Some(merged);
    AssignCredsResolve(expanded, Get(expanded, "authProvidersUserPool"), Get(expanded, "hostedUIProviderMeta"),
                       Get(env, "hostedUIProviderCreds"), el);
  }
}
