/**
 * What app/agents/base_agent.py gives every agent: the agent type derived
 * from the class name, the wrapping of a failed model call, the response
 * envelope, and the filling of expected keys in a reply's JSON.
 */
module BaseAgent {
  import opened Wrappers
  import opened Strings
  import opened Json
  import opened Utils

  /** A request: the string fields a caller supplies, by name. */
  type Request = map<string, string>

  /** `request_data.get(key, default)`. */
  function Field(request: Request, key: string, default: string): (v: string)
    ensures key !in request ==> v == default
    ensures key in request ==> v == request[key]
  {
    if key in request then request[key] else default
  }

  /**
   * `self.__class__.__name__.lower().replace("agent", "")`: the type an
   * agent gets before its own constructor overrides it.
   */
  function DefaultAgentType(className: string): (t: string)
    ensures |t| <= |className|
  {
    RemoveAll(Lower(className), "agent")
  }

  /** No occurrence of "agent" starts inside `x` in `x + "agent"`. */
  predicate NoAgentBefore(x: string)
  {
    forall k | 0 <= k < |x| :: !StartsWith((x + "agent")[k..], "agent")
  }

  /** Removing "agent" from a name that ends with it and holds no other occurrence leaves the rest. */
  lemma {:induction false} RemoveAgentSuffix(x: string)
    requires NoAgentBefore(x)
    ensures RemoveAll(x + "agent", "agent") == x
    decreases |x|
  {
    if x == [] {
      assert x + "agent" == "agent";
    } else {
      var s := x + "agent";
      assert s[0..] == s;
      assert s[1..] == x[1..] + "agent";
      forall k | 0 <= k < |x[1..]| ensures !StartsWith((x[1..] + "agent")[k..], "agent") {
        assert (x[1..] + "agent")[k..] == s[k + 1..];
      }
      RemoveAgentSuffix(x[1..]);
    }
  }

  /** Lower-casing goes character by character. */
  lemma LowerAppend(a: string, b: string)
    ensures Lower(a + b) == Lower(a) + Lower(b)
  {
  }

  /**
   * A class named `n` + "Agent" derives `n` lower-cased, provided no other
   * "agent" is found before the suffix.
   */
  lemma DefaultTypeOfAgentClass(n: string)
    requires NoAgentBefore(Lower(n))
    ensures DefaultAgentType(n + "Agent") == Lower(n)
  {
    LowerAppend(n, "Agent");
    assert Lower("Agent") == "agent";
    RemoveAgentSuffix(Lower(n));
  }

  /** PlanningAgent and ResearchAgent derive "planning" and "research", the types their constructors set anyway. */
  lemma PlanningResearchTypesDerived()
    ensures DefaultAgentType("PlanningAgent") == "planning"
    ensures DefaultAgentType("ResearchAgent") == "research"
  {
    assert Lower("Planning") == "planning" && "Planning" + "Agent" == "PlanningAgent";
    forall k | 0 <= k < 8 ensures !StartsWith(("planning" + "agent")[k..], "agent") {
      assert ("planning" + "agent")[k..][0] != 'a' || ("planning" + "agent")[k..][1] != 'g';
    }
    DefaultTypeOfAgentClass("Planning");
    assert Lower("Research") == "research" && "Research" + "Agent" == "ResearchAgent";
    forall k | 0 <= k < 8 ensures !StartsWith(("research" + "agent")[k..], "agent") {
      assert ("research" + "agent")[k..][0] != 'a' || ("research" + "agent")[k..][1] != 'g';
    }
    DefaultTypeOfAgentClass("Research");
  }

  /** AssetPrepAgent derives "assetprep", so it needs its own "asset_prep". */
  lemma AssetPrepTypeDerived()
    ensures DefaultAgentType("AssetPrepAgent") == "assetprep" != "asset_prep"
  {
    assert Lower("AssetPrepAgent") == "assetprep" + "agent";
    forall k | 0 <= k < 9 ensures !StartsWith(("assetprep" + "agent")[k..], "agent") {
      assert ("assetprep" + "agent")[k..][0] != 'a' || ("assetprep" + "agent")[k..][1] != 'g';
    }
    RemoveAgentSuffix("assetprep");
    assert "assetprep"[5] != "asset_prep"[5];
  }

  /** What the hosted model answers to one call: its text, or the text of the exception it raised. */
  datatype Reply = Answered(text: string) | Raised(error: string)

  /** `invoke_llm(...)`: the reply's text, or an exception whose message is prefixed "LLM invocation failed: ". */
  function InvokeLlm(reply: Reply): (r: Result<string, PyError>)
    ensures r.Success? <==> reply.Answered?
    ensures r.Success? ==> r.value == reply.text
    ensures r.Failure? ==> r.error.Exception? && r.error.Message() == "LLM invocation failed: " + reply.error
  {
    match reply
    case Answered(text) => Success(text)
    case Raised(m) => Failure(Exception("LLM invocation failed: " + m))
  }

  /** The response of an agent: `format_response`'s dict, and the coordinator's `AgentResponse`. */
  datatype Envelope = Envelope(success: bool, data: Option<Members>, error: Option<string>, agentType: string)

  /** `format_response(success, data, error)` of an agent whose type is `agentType`. */
  function FormatResponse(agentType: string, success: bool, data: Option<Members>, error: Option<string>): (e: Envelope)
    ensures e.agentType == agentType
    ensures e.success == success && e.data == data && e.error == error
  {
    Envelope(success, data, error, agentType)
  }

  /** The envelope as the dict callers receive. */
  function AsDict(e: Envelope): (r: Members)
    ensures Keys(r) == ["success", "data", "error", "agent_type"]
    ensures r[0].1 == Bool(e.success) && r[3].1 == Str(e.agentType)
    ensures r[1].1 == (if e.data.Some? then Object(e.data.value) else Null)
    ensures r[2].1 == (if e.error.Some? then Str(e.error.value) else Null)
  {
    [("success", Bool(e.success)),
     ("data", if e.data.Some? then Object(e.data.value) else Null),
     ("error", if e.error.Some? then Str(e.error.value) else Null),
     ("agent_type", Str(e.agentType))]
  }

  /** A failure envelope carrying no data. */
  function Failed(agentType: string, error: string): (e: Envelope)
    ensures e.agentType == agentType && !e.success && e.data.None? && e.error == Some(error)
  {
    FormatResponse(agentType, false, None, Some(error))
  }

  /** A success envelope. */
  function Succeeded(agentType: string, data: Members): (e: Envelope)
    ensures e.agentType == agentType && e.success && e.data == Some(data) && e.error.None?
  {
    FormatResponse(agentType, true, Some(data), None)
  }

  /**
   * `d[key] = value` for each key of `keys` not yet in `d`, in order: the
   * existing entries stay as they were and where they were; the missing keys
   * are appended, once each.
   */
  function FillWith(m: Members, keys: seq<string>, v: Json): (r: Members)
    ensures |m| <= |r| && r[..|m|] == m
    ensures forall k | 0 <= k < |keys| :: Has(r, keys[k])
    ensures forall j | |m| <= j < |r| :: r[j].1 == v && r[j].0 in keys && !Has(m, r[j].0)
    ensures forall i, j | |m| <= i < j < |r| :: r[i].0 != r[j].0
    decreases |keys|
  {
    if keys == [] then m
    else
      var before := FillWith(m, keys[..|keys| - 1], v);
      var key := keys[|keys| - 1];
      if Has(before, key) then before
      else
        var r := before + [(key, v)];
        assert r[|before|].0 == key;
        forall k | 0 <= k < |keys| ensures Has(r, keys[k]) {
          if k < |keys| - 1 {
            assert keys[k] == keys[..|keys| - 1][k];
            var j :| 0 <= j < |before| && before[j].0 == keys[k];
            assert r[j] == before[j];
          }
        }
        forall j | |m| <= j < |r| ensures r[j].0 in keys {
          if j < |before| {
            assert before[j].0 in keys[..|keys| - 1];
          }
        }
        forall i | |m| <= i < |before| ensures r[i].0 != key {
          assert r[i] == before[i];
        }
        r
  }

  /** Filling keys that are all present already changes nothing. */
  lemma {:induction false} FillPresent(m: Members, keys: seq<string>, v: Json)
    requires forall k | 0 <= k < |keys| :: Has(m, keys[k])
    ensures FillWith(m, keys, v) == m
    decreases |keys|
  {
    if keys != [] {
      var init := keys[..|keys| - 1];
      forall k | 0 <= k < |init| ensures Has(m, init[k]) {
        assert init[k] == keys[k];
      }
      FillPresent(m, init, v);
    }
  }

  /** Filling is idempotent. */
  lemma FillIdempotent(m: Members, keys: seq<string>, v: Json)
    ensures FillWith(FillWith(m, keys, v), keys, v) == FillWith(m, keys, v)
  {
    FillPresent(FillWith(m, keys, v), keys, v);
  }

  /** The first entry for a key decides its value: filling keeps the value of every key already present. */
  lemma GetFilled(m: Members, keys: seq<string>, v: Json, key: string, default: Json)
    ensures Has(m, key) ==> Get(FillWith(m, keys, v), key, default) == Get(m, key, default)
    ensures !Has(m, key) && key in keys ==> Get(FillWith(m, keys, v), key, default) == v
  {
    var r := FillWith(m, keys, v);
    GetPrefix(m, r[|m|..], key, default);
    assert r == m + r[|m|..];
  }

  /** `d.get(key)` in a dict extended at the end, by several entries. */
  lemma {:induction false} GetPrefix(m: Members, extra: Members, key: string, default: Json)
    ensures Has(m, key) ==> Get(m + extra, key, default) == Get(m, key, default)
    ensures !Has(m, key) ==> Get(m + extra, key, default) == Get(extra, key, default)
    decreases |m|
  {
    if m != [] {
      assert (m + extra)[1..] == m[1..] + extra;
      GetPrefix(m[1..], extra, key, default);
      if m[0].0 != key && Has(m, key) {
        var j :| 0 <= j < |m| && m[j].0 == key;
        assert m[1..][j - 1].0 == key;
      }
      if Has(m[1..], key) {
        var j :| 0 <= j < |m[1..]| && m[1..][j].0 == key;
        assert m[j + 1].0 == key;
      }
    } else {
      assert m + extra == extra;
    }
  }

  /**
   * `extract_structured_data(response, expected_keys)`: the reply's JSON with
   * the missing expected keys set to None, or, when there is no JSON that
   * decodes, one entry per expected key holding the whole reply.
   */
  function StructuredData(response: string, expectedKeys: seq<string>, decode: Decoder): Members
  {
    match DecodeEmbedded(response, decode)
    case Some(data) => FillWith(data, expectedKeys, Null)
    case None => FillWith([], expectedKeys, Str(response))
  }

  /** The fallback holds exactly the expected keys, once each, each mapped to the whole reply. */
  lemma StructuredDataFallback(response: string, expectedKeys: seq<string>, decode: Decoder)
    requires DecodeEmbedded(response, decode).None?
    ensures var r := StructuredData(response, expectedKeys, decode);
            && (forall k | 0 <= k < |expectedKeys| :: Has(r, expectedKeys[k]))
            && (forall j | 0 <= j < |r| :: r[j].0 in expectedKeys && r[j].1 == Str(response))
            && (forall i, j | 0 <= i < j < |r| :: r[i].0 != r[j].0)
  {
  }

  /** `extract_structured_data`, mutating the decoded dict key by key. */
  method ExtractStructuredData(response: string, expectedKeys: seq<string>, decode: Decoder) returns (r: Members)
    ensures r == StructuredData(response, expectedKeys, decode)
  {
    var decoded := DecodeEmbedded(response, decode);
    if decoded.None? {
      return FillWith([], expectedKeys, Str(response));
    }
    var data := decoded.value;
    var i := 0;
    while i < |expectedKeys|
      invariant 0 <= i <= |expectedKeys|
      invariant data == FillWith(decoded.value, expectedKeys[..i], Null)
    {
      assert expectedKeys[..i + 1][..i] == expectedKeys[..i];
      if !Has(data, expectedKeys[i]) {
        data := data + [(expectedKeys[i], Null)];
      }
      i := i + 1;
    }
    assert expectedKeys[..i] == expectedKeys;
    r := data;
  }
}
