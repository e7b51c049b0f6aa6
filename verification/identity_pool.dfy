/** `identityPoolProviders` (lines 236-265): the identity pool's map from
    provider name to the identifier the user entered, and the audiences of a
    native project signing in with Google. */
module IdentityPool {
  import opened Wrappers
  import opened JsValues

  /** One entry of the `authProviders` table (kept outside this model): the
      answer holding the provider's id, the provider's name, and the further
      answers some providers need joined to that id. An absent `concatKeys`
      behaves as an empty one. */
  datatype ThirdParty = ThirdParty(answerHashKey: string, value: string, concatKeys: seq<string>)

  /** `party.concat(';', x)` on a string or an array; other values have no
      `concat`. */
  function ConcatParty(party: Value, x: Value): Result<Value> {
    if AsText(party).Some? then Ok(Str(AsText(party).value + ";" + ToText(x)))
    else if party.List? then Ok(List(party.items + [Str(";")] + (if x.List? then x.items else [x])))
    else Err(TypeError)
  }

  /** The provider's value once each of `keys` has been joined on in order. */
  function Joined(party: Value, core: Answers, keys: seq<string>): Result<Value>
    decreases |keys|
  {
    if keys == [] then Ok(party)
    else
      var next :- ConcatParty(party, Get(core, keys[0]));
      Joined(next, core, keys[1..])
  }

  /** The text `;a;b...` that joining `keys` appends to a string id. */
  function JoinedSuffix(core: Answers, keys: seq<string>): string
    decreases |keys|
  {
    if keys == [] then "" else ";" + ToText(Get(core, keys[0])) + JoinedSuffix(core, keys[1..])
  }

  /** A string id gets each further answer appended after a `;`, in order. */
  lemma {:induction false} JoinedText(party: Value, core: Answers, keys: seq<string>)
    requires party.Str?
    ensures Joined(party, core, keys) == Ok(Str(party.s + JoinedSuffix(core, keys)))
    decreases |keys|
  {
    if keys != [] {
      var t := ToText(Get(core, keys[0]));
      var next := Str(party.s + ";" + t);
      assert Joined(party, core, keys) == Joined(next, core, keys[1..]);
      JoinedText(next, core, keys[1..]);
      Appended(party.s, t, JoinedSuffix(core, keys[1..]));
    } else {
      assert party.s + JoinedSuffix(core, keys) == party.s;
    }
  }

  lemma Appended(a: string, t: string, rest: string)
    ensures a + ";" + t + rest == a + (";" + t + rest)
  {
  }

  /** Whether a descriptor takes part: on a native project the Google client
      id is left out, because Google sign-in goes through an OpenID provider. */
  predicate Applies(projectType: string, e: ThirdParty) {
    projectType == "javascript" || e.answerHashKey != "googleClientId"
  }

  /** One descriptor's turn (lines 240-254). */
  function PartyTurn(parties: Entries, core: Answers, projectType: string, e: ThirdParty): Result<Entries> {
    if !Applies(projectType, e) || !Truthy(Get(core, e.answerHashKey)) then Ok(parties)
    else
      var joined :- Joined(Get(core, e.answerHashKey), core, e.concatKeys);
      Ok(SetField(parties, e.value, joined))
  }

  /** `selectedParties` after the descriptors' turns, in table order. */
  function Parties(core: Answers, projectType: string, table: seq<ThirdParty>): Result<Entries>
    decreases |table|
  {
    if table == [] then Ok([])
    else
      var parties :- Parties(core, projectType, table[..|table| - 1]);
      PartyTurn(parties, core, projectType, table[|table| - 1])
  }

  /** `authProviders.includes('accounts.google.com')`: membership on an
      array, a substring test on a string, a TypeError on anything else. */
  function IncludesGoogle(authProviders: Value): Result<bool> {
    if authProviders.List? then Ok(Includes(authProviders.items, Str("accounts.google.com")))
    else if AsText(authProviders).Some? then Ok(ContainsText(AsText(authProviders).value, "accounts.google.com"))
    else Err(TypeError)
  }

  /** The audiences a native project gets (lines 256-263), `None` when none
      are set. */
  function Audiences(core: Answers, projectType: string): Result<Option<Value>> {
    if projectType == "javascript" then Ok(None)
    else
      var google :- IncludesGoogle(Get(core, "authProviders"));
      if !google then Ok(None)
      else if projectType == "ios" then Ok(Some(List([Get(core, "googleClientId"), Get(core, "googleIos")])))
      else if projectType == "android" then Ok(Some(List([Get(core, "googleClientId"), Get(core, "googleAndroid")])))
      else Ok(Some(List([Get(core, "googleClientId")])))
  }

  /** The answers `identityPoolProviders` leaves behind. */
  function WithIdentityPoolProviders(core: Answers, projectType: string, table: seq<ThirdParty>): Result<Answers> {
    var parties :- Parties(core, projectType, table);
    var audiences :- Audiences(core, projectType);
    var withAudiences := if audiences.Some? then core["audiences" := audiences.value] else core;
    Ok(withAudiences["selectedParties" := Json(Obj(parties))])
  }

  /** `SetField` twice on one key is `SetField` with the second value. */
  lemma {:induction false} SetFieldTwice(es: Entries, k: string, v1: Value, v2: Value)
    ensures SetField(SetField(es, k, v1), k, v2) == SetField(es, k, v2)
  {
    if es != [] && es[0].0 != k {
      SetFieldTwice(es[1..], k, v1, v2);
      assert SetField(es, k, v1)[1..] == SetField(es[1..], k, v1);
    }
  }

  /** `identityPoolProviders`, in place: a turn per descriptor, and within
      it a `concat` per further key, each written back as it is built. */
  method IdentityPoolProviders(core: Answers, projectType: string, table: seq<ThirdParty>) returns (r: Result<Answers>)
    ensures r == WithIdentityPoolProviders(core, projectType, table)
  {
    var selectedParties: Entries := [];
    var n := 0;
    while n < |table|
      invariant 0 <= n <= |table|
      invariant Parties(core, projectType, table[..n]) == Ok(selectedParties)
    {
      var e := table[n];
      assert table[..n + 1][..n] == table[..n];
      if Applies(projectType, e) && Truthy(Get(core, e.answerHashKey)) {
        var start := selectedParties;
        selectedParties := SetField(selectedParties, e.value, Get(core, e.answerHashKey));
        var t := 0;
        while t < |e.concatKeys|
          invariant 0 <= t <= |e.concatKeys|
          invariant selectedParties == SetField(start, e.value, Field(selectedParties, e.value))
          invariant Joined(Field(selectedParties, e.value), core, e.concatKeys[t..]) == Joined(Get(core, e.answerHashKey), core, e.concatKeys)
        {
          var joined := ConcatParty(Field(selectedParties, e.value), Get(core, e.concatKeys[t]));
          if joined.Err? {
            assert Parties(core, projectType, table[..n + 1]) == Err(joined.error);
            PartiesFailure(core, projectType, table, n + 1);
            return Err(joined.error);
          }
          SetFieldTwice(start, e.value, Field(selectedParties, e.value), joined.value);
          assert e.concatKeys[t..][1..] == e.concatKeys[t + 1..];
          selectedParties := SetField(selectedParties, e.value, joined.value);
          t := t + 1;
        }
      }
      n := n + 1;
    }
    assert table[..n] == table;
    assert Parties(core, projectType, table) == Ok(selectedParties);
    var answers := core;
    if projectType != "javascript" {
      var google := IncludesGoogle(Get(answers, "authProviders"));
      if google.Err? {
        return Err(google.error);
      }
      if google.value {
        var audiences := [Get(answers, "googleClientId")];
        if projectType == "ios" {
          audiences := audiences + [Get(answers, "googleIos")];
          assert audiences == [Get(core, "googleClientId"), Get(core, "googleIos")];
        } else if projectType == "android" {
          audiences := audiences + [Get(answers, "googleAndroid")];
          assert audiences == [Get(core, "googleClientId"), Get(core, "googleAndroid")];
        }
        answers := answers["audiences" := List(audiences)];
        assert Audiences(core, projectType) == Ok(Some(List(audiences)));
      } else {
        assert Audiences(core, projectType) == Ok(None);
      }
    } else {
      assert Audiences(core, projectType) == Ok(None);
    }
    return Ok(answers["selectedParties" := Json(Obj(selectedParties))]);
  }

  /** A failed turn fails the whole table. */
  lemma {:induction false} PartiesFailure(core: Answers, projectType: string, table: seq<ThirdParty>, n: nat)
    requires n <= |table| && Parties(core, projectType, table[..n]).Err?
    ensures Parties(core, projectType, table) == Parties(core, projectType, table[..n])
    decreases |table| - n
  {
    if n < |table| {
      assert table[..n + 1][..n] == table[..n];
      PartiesFailure(core, projectType, table, n + 1);
    } else {
      assert table[..n] == table;
    }
  }

  /** Descriptor names are the keys of `selectedParties`. */
  predicate DistinctValues(table: seq<ThirdParty>) {
    forall i, j :: 0 <= i < j < |table| ==> table[i].value != table[j].value
  }

  /** With distinct descriptor names, each descriptor that applies and was
      answered maps to its answer with the further answers joined on, and a
      descriptor that does not apply (the Google client id on a native
      project) or was not answered has no entry. */
  lemma {:induction false} PartiesSelect(core: Answers, projectType: string, table: seq<ThirdParty>, e: ThirdParty)
    requires e in table && DistinctValues(table) && Parties(core, projectType, table).Ok?
    ensures var parties := Parties(core, projectType, table).value;
      if Applies(projectType, e) && Truthy(Get(core, e.answerHashKey)) then
        Joined(Get(core, e.answerHashKey), core, e.concatKeys).Ok?
        && Field(parties, e.value) == Joined(Get(core, e.answerHashKey), core, e.concatKeys).value
      else e.value !in Keys(parties)
    decreases |table|
  {
    var init := table[..|table| - 1];
    var last := table[|table| - 1];
    var before := Parties(core, projectType, init).value;
    assert DistinctValues(init) by {
      forall i, j | 0 <= i < j < |init| ensures init[i].value != init[j].value {
        assert init[i] == table[i] && init[j] == table[j];
      }
    }
    if e == last {
      if Applies(projectType, e) && Truthy(Get(core, e.answerHashKey)) {
      } else {
        forall i | 0 <= i < |init| ensures init[i].value != e.value {
          assert init[i] == table[i];
        }
        PartiesKeys(core, projectType, init);
      }
    } else {
      var k :| 0 <= k < |table| && table[k] == e;
      assert k < |table| - 1 && init[k] == e;
      PartiesSelect(core, projectType, init, e);
      assert last.value != e.value;
      if !(Applies(projectType, last) && Truthy(Get(core, last.answerHashKey))) {
      } else {
        assert e.value !in Keys(before) ==> e.value !in Keys(SetField(before, last.value, Joined(Get(core, last.answerHashKey), core, last.concatKeys).value));
      }
    }
  }

  /** Only descriptor names become keys of `selectedParties`. */
  lemma {:induction false} PartiesKeys(core: Answers, projectType: string, table: seq<ThirdParty>)
    requires Parties(core, projectType, table).Ok?
    ensures forall k :: k in Keys(Parties(core, projectType, table).value) ==> exists i :: 0 <= i < |table| && table[i].value == k
    decreases |table|
  {
    if table != [] {
      var init := table[..|table| - 1];
      PartiesKeys(core, projectType, init);
      forall k | k in Keys(Parties(core, projectType, table).value)
        ensures exists i :: 0 <= i < |table| && table[i].value == k
      {
        if k != table[|table| - 1].value {
          var i :| 0 <= i < |init| && init[i].value == k;
          assert table[i] == init[i];
        }
      }
    }
  }

  /** Audiences (lines 256-263): a native project that signs in with Google
      lists the Google client id first, then the platform's own client id
      on iOS and Android; a web project gets none. */
  lemma AudiencesRule(core: Answers, projectType: string, table: seq<ThirdParty>)
    requires WithIdentityPoolProviders(core, projectType, table).Ok?
    ensures var r := WithIdentityPoolProviders(core, projectType, table).value;
      && r["selectedParties"] == Json(Obj(Parties(core, projectType, table).value))
      && (projectType == "javascript" || IncludesGoogle(Get(core, "authProviders")) == Ok(false) ==> Get(r, "audiences") == Get(core, "audiences"))
      && (projectType != "javascript" && IncludesGoogle(Get(core, "authProviders")) == Ok(true) ==>
            Get(r, "audiences") == List([Get(core, "googleClientId")]
              + (if projectType == "ios" then [Get(core, "googleIos")]
                 else if projectType == "android" then [Get(core, "googleAndroid")] else [])))
      && forall k :: k != "selectedParties" && k != "audiences" ==> Get(r, k) == Get(core, k)
  {
  }
}
