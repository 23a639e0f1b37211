/**
 * The memory hooks of project/src/helpers/memory.py: the namespace table a
 * hook object builds from the memory's strategies, the hook that prefixes the
 * newest user message with remembered context, the hook that saves the last
 * exchange as an event, the event that seeds a product's memory and the
 * summary of what is remembered about a user.
 *
 * The memory service is a parameter: `retrieve` stands for
 * `retrieve_memories`, and an event is returned for the caller to hand to
 * `create_event`.
 */
module Memory {
  import opened Wrappers
  import opened Strings
  import opened Json
  import BaseAgent

  /** One item of a message's "content" list: its "text" entry, if it has one, and whether it has a "toolResult" key. */
  datatype Block = Block(text: Option<string>, hasToolResult: bool)

  /** One entry of an agent's message list. */
  datatype Message = Message(role: string, content: seq<Block>)

  /** One item of `get_memory_strategies(memory_id)`: its "type" and its "namespaces". */
  datatype Strategy = Strategy(kind: string, namespaces: seq<string>)

  /** The arguments of one `create_event` call. */
  datatype Event = Event(memoryId: string, actorId: string, sessionId: string, messages: seq<(string, string)>)

  /**
   * `retrieve_memories(memory_id, namespace, query, top_k)`: the memories
   * found, or the exception the client raises.
   */
  type Retriever = (string, string, string, nat) -> Result<seq<Json>, PyError>

  // ---------------------------------------------------------------------------
  // The namespace table
  // ---------------------------------------------------------------------------

  /** A dict from str to str, its entries in insertion order. */
  type Table = seq<(string, string)>

  /** The keys of a table, in order. */
  function Kinds(m: Table): (ks: seq<string>)
    ensures |ks| == |m|
  {
    if m == [] then [] else [m[0].0] + Kinds(m[1..])
  }

  predicate Distinct(ks: seq<string>)
  {
    forall i, j | 0 <= i < j < |ks| :: ks[i] != ks[j]
  }

  /** `d.get(k)`: the value of the first entry with key `k`. */
  function Lookup(m: Table, k: string): (v: Option<string>)
    ensures v.Some? <==> k in Kinds(m)
  {
    if m == [] then None
    else if m[0].0 == k then Some(m[0].1)
    else Lookup(m[1..], k)
  }

  /** `d[k] = v`: an existing key keeps its place and takes the new value; a new key goes last. */
  function Put(m: Table, k: string, v: string): Table
  {
    if m == [] then [(k, v)]
    else if m[0].0 == k then [(k, v)] + m[1..]
    else [m[0]] + Put(m[1..], k, v)
  }

  /** After `d[k] = v`, `k` maps to `v` and every other key to what it did before. */
  lemma {:induction false} PutLookup(m: Table, k: string, v: string, other: string)
    ensures Lookup(Put(m, k, v), other) == if other == k then Some(v) else Lookup(m, other)
  {
    if m != [] && m[0].0 != k {
      PutLookup(m[1..], k, v, other);
    }
  }

  /** An existing key keeps its place, a new key goes last. */
  lemma {:induction false} PutKinds(m: Table, k: string, v: string)
    ensures Kinds(Put(m, k, v)) == if k in Kinds(m) then Kinds(m) else Kinds(m) + [k]
  {
    if m != [] {
      if m[0].0 == k {
        assert Kinds([(k, v)] + m[1..]) == [k] + Kinds(m[1..]);
      } else {
        PutKinds(m[1..], k, v);
        assert Kinds([m[0]] + Put(m[1..], k, v)) == [m[0].0] + Kinds(Put(m[1..], k, v));
      }
    }
  }

  /** Putting a key keeps the keys distinct. */
  lemma PutDistinct(m: Table, k: string, v: string)
    requires Distinct(Kinds(m))
    ensures Distinct(Kinds(Put(m, k, v)))
  {
    var ks := Kinds(m);
    PutKinds(m, k, v);
    if k !in ks {
      var rs := ks + [k];
      forall i, j | 0 <= i < j < |rs| ensures rs[i] != rs[j] {
        if j < |ks| {
          assert rs[i] == ks[i] && rs[j] == ks[j];
        } else {
          assert rs[i] == ks[i];
        }
      }
    }
  }

  /**
   * `{i["type"]: i["namespaces"][0] for i in strategies}`: a strategy with no
   * namespace raises IndexError.
   */
  function NamespaceMap(strategies: seq<Strategy>): (r: Result<Table, PyError>)
    ensures r.Failure? ==> r.error == IndexError
    ensures r.Success? ==> Distinct(Kinds(r.value))
    decreases |strategies|
  {
    if strategies == [] then Success([])
    else
      var m :- NamespaceMap(strategies[..|strategies| - 1]);
      var s := strategies[|strategies| - 1];
      if s.namespaces == [] then Failure(IndexError)
      else
        PutDistinct(m, s.kind, s.namespaces[0]);
        Success(Put(m, s.kind, s.namespaces[0]))
  }

  /** The first namespace of the last strategy of type `kind`. */
  function LastNamespace(strategies: seq<Strategy>, kind: string): Option<string>
    decreases |strategies|
  {
    if strategies == [] then None
    else
      var s := strategies[|strategies| - 1];
      if s.kind == kind && s.namespaces != [] then Some(s.namespaces[0])
      else LastNamespace(strategies[..|strategies| - 1], kind)
  }

  /** Building the table fails exactly when some strategy has no namespace. */
  lemma {:induction false} NamespaceMapFails(strategies: seq<Strategy>)
    ensures NamespaceMap(strategies).Failure? <==> exists k | 0 <= k < |strategies| :: strategies[k].namespaces == []
    decreases |strategies|
  {
    if strategies != [] {
      var n := |strategies| - 1;
      var init := strategies[..n];
      NamespaceMapFails(init);
      if NamespaceMap(init).Failure? {
        var k :| 0 <= k < |init| && init[k].namespaces == [];
        assert strategies[k].namespaces == [];
      } else if strategies[n].namespaces == [] {
        assert NamespaceMap(strategies).Failure?;
      } else {
        assert forall k | 0 <= k < |init| :: init[k].namespaces != [];
        assert forall k | 0 <= k < n :: strategies[k] == init[k];
      }
    }
  }

  /** The namespace the table gives a type is the first namespace of the last strategy of that type. */
  lemma {:induction false} NamespaceMapLookup(strategies: seq<Strategy>, kind: string)
    requires NamespaceMap(strategies).Success?
    ensures Lookup(NamespaceMap(strategies).value, kind) == LastNamespace(strategies, kind)
    decreases |strategies|
  {
    if strategies != [] {
      var n := |strategies| - 1;
      var init := strategies[..n];
      var s := strategies[n];
      var m := NamespaceMap(init).value;
      NamespaceMapLookup(init, kind);
      assert NamespaceMap(strategies).value == Put(m, s.kind, s.namespaces[0]);
      PutLookup(m, s.kind, s.namespaces[0], kind);
    }
  }

  /** The types in the table are those of the strategies. */
  lemma {:induction false} NamespaceMapKinds(strategies: seq<Strategy>, kind: string)
    requires NamespaceMap(strategies).Success?
    ensures kind in Kinds(NamespaceMap(strategies).value) <==> exists k | 0 <= k < |strategies| :: strategies[k].kind == kind
    decreases |strategies|
  {
    if strategies != [] {
      var n := |strategies| - 1;
      var init := strategies[..n];
      var s := strategies[n];
      var m := NamespaceMap(init).value;
      NamespaceMapKinds(init, kind);
      assert NamespaceMap(strategies).value == Put(m, s.kind, s.namespaces[0]);
      PutKinds(m, s.kind, s.namespaces[0]);
      if kind == s.kind {
        assert strategies[n].kind == kind;
      } else if kind in Kinds(m) {
        var k :| 0 <= k < |init| && init[k].kind == kind;
        assert strategies[k].kind == kind;
      } else {
        forall k | 0 <= k < |strategies| ensures strategies[k].kind != kind {
          if k < n {
            assert strategies[k] == init[k];
          }
        }
      }
    }
  }

  /** The replacement field a namespace template names the actor by. */
  const ActorField := "{actorId}"

  /** `template.format(actorId=actorId)` when `{actorId}` is the template's only replacement field. */
  function Substitute(template: string, actorId: string): string
    decreases |template|
  {
    if |template| < |ActorField| then template
    else if template[..|ActorField|] == ActorField then actorId + Substitute(template[|ActorField|..], actorId)
    else [template[0]] + Substitute(template[1..], actorId)
  }

  /** A template without a brace is its own namespace. */
  lemma {:induction false} SubstitutePlain(template: string, actorId: string)
    requires '{' !in template
    ensures Substitute(template, actorId) == template
    decreases |template|
  {
    if |template| >= |ActorField| {
      assert template[..|ActorField|][0] == template[0];
      assert ActorField[0] == '{';
      SubstitutePlain(template[1..], actorId);
      assert template == [template[0]] + template[1..];
    }
  }

  /** A template naming the actor once is filled in at that place, whatever the actor's name. */
  lemma {:induction false} SubstituteOnce(prefix: string, suffix: string, actorId: string)
    requires '{' !in prefix && '{' !in suffix
    ensures Substitute(prefix + ActorField + suffix, actorId) == prefix + actorId + suffix
    decreases |prefix|
  {
    var t := prefix + ActorField + suffix;
    if prefix == [] {
      assert t[..|ActorField|] == ActorField;
      assert t[|ActorField|..] == suffix;
      SubstitutePlain(suffix, actorId);
    } else {
      assert t[..|ActorField|][0] == prefix[0];
      assert ActorField[0] == '{';
      assert t[1..] == prefix[1..] + ActorField + suffix;
      SubstituteOnce(prefix[1..], suffix, actorId);
      assert prefix == [prefix[0]] + prefix[1..];
    }
  }

  // ---------------------------------------------------------------------------
  // The text of a memory
  // ---------------------------------------------------------------------------

  /**
   * The text one retrieved memory gives: for a dict whose "content" (default
   * `{}`) is a dict, its "text" (default "") stripped; "" for anything else.
   * A "text" that is not a str has no `strip`.
   */
  function MemoryText(memory: Json): (r: Result<string, PyError>)
    ensures r.Success? ==> Stripped(r.value)
    ensures r.Failure? ==> r.error.AttributeError? && r.error.attribute == "strip"
  {
    if !memory.Object? then Success("")
    else
      var content := Get(memory.members, "content", Object([]));
      if !content.Object? then Success("")
      else
        var text := Get(content.members, "text", Str(""));
        if text.Str? then Success(Strip(text.s)) else Failure(AttributeError(TypeName(text), "strip"))
  }

  /** A memory gives text exactly when it is a dict around a dict around a str with more than whitespace in it. */
  lemma MemoryTextKept(memory: Json)
    ensures MemoryText(memory).Success? && MemoryText(memory).value != "" <==>
            && memory.Object?
            && Get(memory.members, "content", Object([])).Object?
            && Get(Get(memory.members, "content", Object([])).members, "text", Str("")).Str?
            && Strip(Get(Get(memory.members, "content", Object([])).members, "text", Str("")).s) != ""
  {
  }

  /** `[t] if t else []`. */
  function Kept(t: string): (r: seq<string>)
    ensures t != "" ==> r == [t]
    ensures t == "" ==> r == []
  {
    if t == "" then [] else [t]
  }

  /** The non-empty texts of memories in order; the first memory whose text has no `strip` raises. */
  function MemoryTexts(memories: seq<Json>): Result<seq<string>, PyError>
    decreases |memories|
  {
    if memories == [] then Success([])
    else
      var t :- MemoryText(memories[0]);
      var rest :- MemoryTexts(memories[1..]);
      Success(Kept(t) + rest)
  }

  /** A result with `acc` put in front of its value. */
  function Prepend(acc: seq<string>, r: Result<seq<string>, PyError>): Result<seq<string>, PyError>
  {
    match r
    case Success(v) => Success(acc + v)
    case Failure(e) => Failure(e)
  }

  lemma PrependEmpty(r: Result<seq<string>, PyError>)
    ensures Prepend([], r) == r
  {
    if r.Success? {
      assert [] + r.value == r.value;
    }
  }

  lemma PrependTwice(a: seq<string>, b: seq<string>, r: Result<seq<string>, PyError>)
    ensures Prepend(a, Prepend(b, r)) == Prepend(a + b, r)
  {
    if r.Success? {
      assert a + (b + r.value) == (a + b) + r.value;
    }
  }

  /** There are no more texts than memories, and each is non-empty and stripped. */
  lemma {:induction false} MemoryTextsShape(memories: seq<Json>)
    requires MemoryTexts(memories).Success?
    ensures |MemoryTexts(memories).value| <= |memories|
    ensures forall k | 0 <= k < |MemoryTexts(memories).value| :: MemoryTexts(memories).value[k] != "" && Stripped(MemoryTexts(memories).value[k])
    decreases |memories|
  {
    if memories != [] {
      MemoryTextsShape(memories[1..]);
      var t := MemoryText(memories[0]).value;
      var rest := MemoryTexts(memories[1..]).value;
      assert MemoryTexts(memories).value == Kept(t) + rest;
    }
  }

  /** The texts of memories are found one memory at a time: those of two runs of memories are those of each, in order. */
  lemma {:induction false} MemoryTextsAppend(a: seq<Json>, b: seq<Json>)
    ensures MemoryTexts(a + b) == match MemoryTexts(a) { case Success(x) => Prepend(x, MemoryTexts(b)) case Failure(e) => Failure(e) }
    decreases |a|
  {
    if a == [] {
      assert a + b == b;
      PrependEmpty(MemoryTexts(b));
    } else {
      assert (a + b)[0] == a[0];
      assert (a + b)[1..] == a[1..] + b;
      MemoryTextsAppend(a[1..], b);
      var t := MemoryText(a[0]);
      if t.Success? && MemoryTexts(a[1..]).Success? && MemoryTexts(b).Success? {
        var x, y := MemoryTexts(a[1..]).value, MemoryTexts(b).value;
        assert Kept(t.value) + (x + y) == (Kept(t.value) + x) + y;
      }
    }
  }

  /** One memory gives its text, if any; all of them succeed exactly when each does. */
  lemma MemoryTextsOne(memory: Json)
    ensures MemoryTexts([memory]) == match MemoryText(memory) { case Success(t) => Success(Kept(t)) case Failure(e) => Failure(e) }
  {
    assert [memory][1..] == [];
    var t := MemoryText(memory);
    if t.Success? {
      assert Kept(t.value) + [] == Kept(t.value);
    }
  }

  /** `memories` one by one, as the hooks do: `for memory in memories`. */
  method CollectTexts(memories: seq<Json>) returns (texts: Result<seq<string>, PyError>)
    ensures texts == MemoryTexts(memories)
  {
    var found: seq<string> := [];
    var j := 0;
    assert memories[j..] == memories;
    PrependEmpty(MemoryTexts(memories));
    while j < |memories|
      invariant 0 <= j <= |memories|
      invariant MemoryTexts(memories) == Prepend(found, MemoryTexts(memories[j..]))
    {
      assert memories[j..][0] == memories[j];
      assert memories[j..][1..] == memories[j + 1..];
      var text := MemoryText(memories[j]);
      if text.Failure? {
        return Failure(text.error);
      }
      PrependTwice(found, Kept(text.value), MemoryTexts(memories[j + 1..]));
      if text.value != "" {
        found := found + [text.value];
      } else {
        assert found + Kept(text.value) == found;
      }
      j := j + 1;
    }
    assert memories[j..] == [];
    assert found + [] == found;
    return Success(found);
  }

  // ---------------------------------------------------------------------------
  // The context hook: `retrieve_product_context`
  // ---------------------------------------------------------------------------

  /** `f"[{context_type.upper()}] {text}"` for each text, in order. */
  function Tagged(kind: string, texts: seq<string>): (r: seq<string>)
    ensures |r| == |texts|
  {
    seq(|texts|, k requires 0 <= k < |texts| => "[" + Upper(kind) + "] " + texts[k])
  }

  /**
   * The context items of every namespace in table order: each namespace is
   * filled in with the actor and searched for the query, three memories at
   * most; the first exception stops the search.
   */
  function AllContext(namespaces: Table, memoryId: string, actorId: string, query: string, retrieve: Retriever): Result<seq<string>, PyError>
    decreases |namespaces|
  {
    if namespaces == [] then Success([])
    else
      var memories :- retrieve(memoryId, Substitute(namespaces[0].1, actorId), query, 3);
      var texts :- MemoryTexts(memories);
      Prepend(Tagged(namespaces[0].0, texts), AllContext(namespaces[1..], memoryId, actorId, query, retrieve))
  }

  /** Namespaces are searched one at a time: the items of two runs of namespaces are those of each, in order. */
  lemma {:induction false} AllContextAppend(a: Table, b: Table, memoryId: string, actorId: string, query: string, retrieve: Retriever)
    ensures AllContext(a + b, memoryId, actorId, query, retrieve) ==
            match AllContext(a, memoryId, actorId, query, retrieve)
            case Success(x) => Prepend(x, AllContext(b, memoryId, actorId, query, retrieve))
            case Failure(e) => Failure(e)
    decreases |a|
  {
    if a == [] {
      assert a + b == b;
      PrependEmpty(AllContext(b, memoryId, actorId, query, retrieve));
    } else {
      assert (a + b)[0] == a[0];
      assert (a + b)[1..] == a[1..] + b;
      AllContextAppend(a[1..], b, memoryId, actorId, query, retrieve);
      var memories := retrieve(memoryId, Substitute(a[0].1, actorId), query, 3);
      if memories.Success? && MemoryTexts(memories.value).Success? && AllContext(a[1..], memoryId, actorId, query, retrieve).Success? {
        PrependTwice(Tagged(a[0].0, MemoryTexts(memories.value).value),
                     AllContext(a[1..], memoryId, actorId, query, retrieve).value,
                     AllContext(b, memoryId, actorId, query, retrieve));
      }
    }
  }

  /** One namespace gives its texts tagged with its type. */
  lemma AllContextOne(kind: string, namespace: string, memoryId: string, actorId: string, query: string, retrieve: Retriever)
    ensures AllContext([(kind, namespace)], memoryId, actorId, query, retrieve) ==
            match retrieve(memoryId, Substitute(namespace, actorId), query, 3)
            case Failure(e) => Failure(e)
            case Success(memories) =>
              match MemoryTexts(memories)
              case Failure(e) => Failure(e)
              case Success(texts) => Success(Tagged(kind, texts))
  {
    assert [(kind, namespace)][1..] == [];
    var memories := retrieve(memoryId, Substitute(namespace, actorId), query, 3);
    if memories.Success? && MemoryTexts(memories.value).Success? {
      assert Tagged(kind, MemoryTexts(memories.value).value) + [] == Tagged(kind, MemoryTexts(memories.value).value);
    }
  }

  /** The heading of the injected context. */
  const ContextHeading := "Product Launch Context:"

  /** `f"Product Launch Context:\n{context_text}\n\n{original_text}"` with the items joined by line breaks. */
  function Injected(items: seq<string>, query: string): string
  {
    ContextHeading + "\n" + Join(items, "\n") + "\n" + "\n" + query
  }

  /**
   * When neither the items nor the query hold a line break, the injected text
   * is the heading line, one line per item, an empty line and the query.
   */
  lemma InjectedLines(items: seq<string>, query: string)
    requires |items| >= 1
    requires '\n' !in query
    requires forall k | 0 <= k < |items| :: '\n' !in items[k]
    ensures Split(Injected(items, query), '\n') == [ContextHeading] + items + ["", query]
  {
    assert '\n' !in ContextHeading;
    SplitFramed(ContextHeading, items, query, '\n');
  }

  /** The query is the end of the injected text, after a blank line. */
  lemma InjectedEnds(items: seq<string>, query: string)
    ensures StartsWith(Injected(items, query), ContextHeading + "\n")
    ensures EndsWith(Injected(items, query), "\n" + "\n" + query)
    ensures |Injected(items, query)| > |query|
  {
    var head := ContextHeading + "\n" + Join(items, "\n");
    assert Injected(items, query) == head + ("\n" + "\n" + query);
    assert Injected(items, query) == (ContextHeading + "\n") + (Join(items, "\n") + "\n" + "\n" + query);
  }

  /** A message with the text of its first block replaced. */
  function WithText(m: Message, text: string): (r: Message)
    requires |m.content| > 0
    ensures r.role == m.role && |r.content| == |m.content|
    ensures r.content[0] == Block(Some(text), m.content[0].hasToolResult) && r.content[1..] == m.content[1..]
  {
    m.(content := [m.content[0].(text := Some(text))] + m.content[1..])
  }

  /**
   * The messages after `retrieve_product_context`, or the exception that
   * escapes it. The last message is looked at only when it is a user message
   * that is not a tool result; reading its text outside the `try` can raise,
   * while a failed search is caught and leaves the messages as they are.
   */
  function ProductContext(messages: seq<Message>, memoryId: string, actorId: string, namespaces: Table, retrieve: Retriever): Result<seq<Message>, PyError>
  {
    if messages == [] then Failure(IndexError)
    else
      var last := messages[|messages| - 1];
      if last.role != "user" then Success(messages)
      else if last.content == [] then Failure(IndexError)
      else if last.content[0].hasToolResult then Success(messages)
      else if last.content[0].text.None? then Failure(KeyError("text"))
      else
        var query := last.content[0].text.value;
        match AllContext(namespaces, memoryId, actorId, query, retrieve)
        case Failure(_) => Success(messages)
        case Success(items) =>
          if items == [] then Success(messages)
          else Success(messages[..|messages| - 1] + [WithText(last, Injected(items, query))])
  }

  /** The last message is a user's own text, not a tool result. */
  predicate UserText(messages: seq<Message>)
  {
    && messages != []
    && messages[|messages| - 1].role == "user"
    && messages[|messages| - 1].content != []
    && !messages[|messages| - 1].content[0].hasToolResult
    && messages[|messages| - 1].content[0].text.Some?
  }

  /** The search text of the last message. */
  function Query(messages: seq<Message>): string
    requires UserText(messages)
  {
    messages[|messages| - 1].content[0].text.value
  }

  /** The hook raises exactly on an empty message list, or on a last user message with no first block or no text. */
  lemma ProductContextRaises(messages: seq<Message>, memoryId: string, actorId: string, namespaces: Table, retrieve: Retriever)
    ensures var r := ProductContext(messages, memoryId, actorId, namespaces, retrieve);
            && (messages == [] ==> r == Failure(IndexError))
            && (messages != [] ==>
                  var last := messages[|messages| - 1];
                  && (r.Failure? <==> last.role == "user" && (last.content == [] || (!last.content[0].hasToolResult && last.content[0].text.None?)))
                  && (r.Failure? ==> r.error == if last.content == [] then IndexError else KeyError("text")))
  {
  }

  /**
   * The messages change exactly when the last one is a user's own text and
   * the search finds at least one item; then only the text of its first
   * block changes, to the injected context followed by the query.
   */
  lemma ProductContextInjects(messages: seq<Message>, memoryId: string, actorId: string, namespaces: Table, retrieve: Retriever)
    requires ProductContext(messages, memoryId, actorId, namespaces, retrieve).Success?
    ensures var r := ProductContext(messages, memoryId, actorId, namespaces, retrieve).value;
            r != messages <==>
              && UserText(messages)
              && AllContext(namespaces, memoryId, actorId, Query(messages), retrieve).Success?
              && AllContext(namespaces, memoryId, actorId, Query(messages), retrieve).value != []
    ensures var r := ProductContext(messages, memoryId, actorId, namespaces, retrieve).value;
            r != messages ==>
              && |r| == |messages|
              && r[..|r| - 1] == messages[..|messages| - 1]
              && r[|r| - 1].role == "user"
              && r[|r| - 1].content[1..] == messages[|messages| - 1].content[1..]
              && r[|r| - 1].content[0] ==
                   Block(Some(Injected(AllContext(namespaces, memoryId, actorId, Query(messages), retrieve).value, Query(messages))), false)
  {
    if UserText(messages) {
      var query := Query(messages);
      var found := AllContext(namespaces, memoryId, actorId, query, retrieve);
      if found.Success? && found.value != [] {
        var r := ProductContext(messages, memoryId, actorId, namespaces, retrieve).value;
        var n := |messages| - 1;
        InjectedEnds(found.value, query);
        assert r[n] == WithText(messages[n], Injected(found.value, query));
        assert r[n] != messages[n];
      }
    }
  }

  /** A search that raises is caught: the messages stay as they are. */
  lemma SearchFailureCaught(messages: seq<Message>, memoryId: string, actorId: string, namespaces: Table, retrieve: Retriever)
    requires UserText(messages)
    requires AllContext(namespaces, memoryId, actorId, Query(messages), retrieve).Failure?
    ensures ProductContext(messages, memoryId, actorId, namespaces, retrieve) == Success(messages)
  {
  }

  /** A search that succeeds prefixes the query with the items it found, if any. */
  lemma SearchFound(messages: seq<Message>, memoryId: string, actorId: string, namespaces: Table, retrieve: Retriever, items: seq<string>)
    requires UserText(messages)
    requires AllContext(namespaces, memoryId, actorId, Query(messages), retrieve) == Success(items)
    ensures ProductContext(messages, memoryId, actorId, namespaces, retrieve) ==
            if items == [] then Success(messages)
            else Success(messages[..|messages| - 1] + [WithText(messages[|messages| - 1], Injected(items, Query(messages)))])
  {
  }

  // ---------------------------------------------------------------------------
  // The save hook: `save_launch_interaction`
  // ---------------------------------------------------------------------------

  /** A user message that is not a tool result. */
  predicate PlainUser(m: Message)
  {
    m.role == "user" && m.content != [] && !m.content[0].hasToolResult
  }

  /**
   * `for msg in reversed(messages[:n])` with the response found so far ("" for
   * none): an assistant message sets the response while there is none, and
   * the first plain user message gives the query and ends the scan. Reading a
   * missing first block or text raises.
   */
  function ScanBack(messages: seq<Message>, n: nat, response: string): Result<(string, string), PyError>
    requires n <= |messages|
    decreases n
  {
    if n == 0 then Success(("", response))
    else
      var msg := messages[n - 1];
      if msg.role == "assistant" && response == "" then
        if msg.content == [] then Failure(IndexError)
        else if msg.content[0].text.None? then Failure(KeyError("text"))
        else ScanBack(messages, n - 1, msg.content[0].text.value)
      else if msg.role == "user" then
        if msg.content == [] then Failure(IndexError)
        else if msg.content[0].hasToolResult then ScanBack(messages, n - 1, response)
        else if msg.content[0].text.None? then Failure(KeyError("text"))
        else Success((msg.content[0].text.value, response))
      else ScanBack(messages, n - 1, response)
  }

  /**
   * The event `save_launch_interaction` creates, if any: only after an
   * assistant message that follows at least one other, only when the scan
   * finds both a query and a response, and nothing when it raises.
   */
  function SavedEvent(messages: seq<Message>, memoryId: string, actorId: string, sessionId: string): Option<Event>
  {
    if |messages| >= 2 && messages[|messages| - 1].role == "assistant" then
      match ScanBack(messages, |messages|, "")
      case Failure(_) => None
      case Success((query, response)) =>
        if query != "" && response != "" then Some(Event(memoryId, actorId, sessionId, [(query, "USER"), (response, "ASSISTANT")]))
        else None
    else None
  }

  /** Once a response is found it is kept to the end of the scan. */
  lemma {:induction false} ScanKeepsResponse(messages: seq<Message>, n: nat, response: string)
    requires n <= |messages| && response != ""
    requires ScanBack(messages, n, response).Success?
    ensures ScanBack(messages, n, response).value.1 == response
    decreases n
  {
    if n > 0 {
      var msg := messages[n - 1];
      if !(msg.role == "user" && !msg.content[0].hasToolResult) {
        ScanKeepsResponse(messages, n - 1, response);
      }
    }
  }

  /** A query the scan finds is the text of the latest plain user message before position `n`. */
  lemma {:induction false} ScanFindsQuery(messages: seq<Message>, n: nat, response: string)
    requires n <= |messages|
    requires ScanBack(messages, n, response).Success? && ScanBack(messages, n, response).value.0 != ""
    ensures exists j | 0 <= j < n ::
              && PlainUser(messages[j])
              && messages[j].content[0].text == Some(ScanBack(messages, n, response).value.0)
              && forall k | j < k < n :: !PlainUser(messages[k])
    decreases n
  {
    var msg := messages[n - 1];
    var q := ScanBack(messages, n, response).value.0;
    if PlainUser(msg) && !(msg.role == "assistant" && response == "") {
      assert messages[n - 1].content[0].text == Some(q);
    } else {
      var next := if msg.role == "assistant" && response == "" then msg.content[0].text.value else response;
      assert ScanBack(messages, n, response) == ScanBack(messages, n - 1, next);
      ScanFindsQuery(messages, n - 1, next);
      var j :| 0 <= j < n - 1 && PlainUser(messages[j]) && messages[j].content[0].text == Some(q)
               && forall k | j < k < n - 1 :: !PlainUser(messages[k]);
      assert !PlainUser(messages[n - 1]);
    }
  }

  /**
   * A saved event holds the exchange as a user turn and an assistant turn,
   * both non-empty, under the hook's memory, actor and session, and only
   * after an assistant message that follows at least one other.
   */
  lemma SavedShape(messages: seq<Message>, memoryId: string, actorId: string, sessionId: string)
    requires SavedEvent(messages, memoryId, actorId, sessionId).Some?
    ensures var e := SavedEvent(messages, memoryId, actorId, sessionId).value;
            && |messages| >= 2 && messages[|messages| - 1].role == "assistant"
            && e.memoryId == memoryId && e.actorId == actorId && e.sessionId == sessionId
            && |e.messages| == 2 && e.messages[0].1 == "USER" && e.messages[1].1 == "ASSISTANT"
            && e.messages[0].0 != "" && e.messages[1].0 != ""
  {
  }

  /** The saved query is the text of the latest plain user message. */
  lemma SavedQuery(messages: seq<Message>, memoryId: string, actorId: string, sessionId: string)
    requires SavedEvent(messages, memoryId, actorId, sessionId).Some?
    ensures exists j | 0 <= j < |messages| ::
              && PlainUser(messages[j])
              && messages[j].content[0].text == Some(SavedEvent(messages, memoryId, actorId, sessionId).value.messages[0].0)
              && forall k | j < k < |messages| :: !PlainUser(messages[k])
  {
    ScanFindsQuery(messages, |messages|, "");
  }

  /** When the last message has text, that text is the saved response. */
  lemma SavedResponse(messages: seq<Message>, memoryId: string, actorId: string, sessionId: string)
    requires SavedEvent(messages, memoryId, actorId, sessionId).Some?
    requires messages[|messages| - 1].content[0].text != Some("")
    ensures SavedEvent(messages, memoryId, actorId, sessionId).value.messages[1].0 == messages[|messages| - 1].content[0].text.value
  {
    var n := |messages|;
    var t := messages[n - 1].content[0].text.value;
    assert ScanBack(messages, n, "") == ScanBack(messages, n - 1, t);
    ScanKeepsResponse(messages, n - 1, t);
  }

  /** Nothing is saved without an assistant message that follows at least one other. */
  lemma SavedNeedsReply(messages: seq<Message>, memoryId: string, actorId: string, sessionId: string)
    requires |messages| < 2 || messages[|messages| - 1].role != "assistant"
    ensures SavedEvent(messages, memoryId, actorId, sessionId).None?
  {
  }

  // ---------------------------------------------------------------------------
  // The memory summary: `get_user_memory_summary`
  // ---------------------------------------------------------------------------

  /** The summary dict: the texts of each namespace and the number of memories retrieved. */
  datatype MemorySummary = MemorySummary(preferences: seq<string>, semantic: seq<string>, totalMemories: nat)

  /** What is returned when anything raises. */
  const EmptySummary := MemorySummary([], [], 0)

  /** The query the summary searches with. */
  const SummaryQuery := "product launch context"

  /** The namespaces the summary searches, in order, by the summary key each fills. */
  function SummaryNamespaces(actorId: string): Table
  {
    [("preferences", "producthunt/user/" + actorId + "/preferences"),
     ("semantic", "producthunt/user/" + actorId + "/semantic")]
  }

  /** `summary[kind].append(text)` for each text, and `summary["total_memories"] += count`. */
  function AddTexts(s: MemorySummary, kind: string, texts: seq<string>, count: nat): MemorySummary
  {
    if kind == "preferences" then s.(preferences := s.preferences + texts, totalMemories := s.totalMemories + count)
    else s.(semantic := s.semantic + texts, totalMemories := s.totalMemories + count)
  }

  /** The summary after searching `entries` in order, five memories at most each, from `s`. */
  function Summarise(entries: Table, memoryId: string, retrieve: Retriever, s: MemorySummary): Result<MemorySummary, PyError>
    decreases |entries|
  {
    if entries == [] then Success(s)
    else
      var memories :- retrieve(memoryId, entries[0].1, SummaryQuery, 5);
      var texts :- MemoryTexts(memories);
      Summarise(entries[1..], memoryId, retrieve, AddTexts(s, entries[0].0, texts, |memories|))
  }

  /** `get_user_memory_summary(memory_id, actor_id)`. */
  function UserMemorySummary(memoryId: string, actorId: string, retrieve: Retriever): MemorySummary
  {
    match Summarise(SummaryNamespaces(actorId), memoryId, retrieve, EmptySummary)
    case Success(s) => s
    case Failure(_) => EmptySummary
  }

  /**
   * The summary holds the texts of the preferences namespace, those of the
   * semantic namespace and the count of the memories of both; when either
   * search or either text raises, it is empty.
   */
  lemma SummaryParts(memoryId: string, actorId: string, retrieve: Retriever)
    ensures var p := retrieve(memoryId, "producthunt/user/" + actorId + "/preferences", SummaryQuery, 5);
            var q := retrieve(memoryId, "producthunt/user/" + actorId + "/semantic", SummaryQuery, 5);
            UserMemorySummary(memoryId, actorId, retrieve) ==
              if p.Success? && MemoryTexts(p.value).Success? && q.Success? && MemoryTexts(q.value).Success?
              then MemorySummary(MemoryTexts(p.value).value, MemoryTexts(q.value).value, |p.value| + |q.value|)
              else EmptySummary
  {
    var entries := SummaryNamespaces(actorId);
    assert entries[1..][1..] == [];
    var p := retrieve(memoryId, entries[0].1, SummaryQuery, 5);
    if p.Success? && MemoryTexts(p.value).Success? {
      var s1 := AddTexts(EmptySummary, "preferences", MemoryTexts(p.value).value, |p.value|);
      assert s1 == MemorySummary(MemoryTexts(p.value).value, [], |p.value|);
      assert Summarise(entries, memoryId, retrieve, EmptySummary) == Summarise(entries[1..], memoryId, retrieve, s1);
      var q := retrieve(memoryId, entries[1].1, SummaryQuery, 5);
      if q.Success? && MemoryTexts(q.value).Success? {
        assert "semantic"[0] != "preferences"[0];
        var s2 := AddTexts(s1, "semantic", MemoryTexts(q.value).value, |q.value|);
        assert s2 == MemorySummary(MemoryTexts(p.value).value, MemoryTexts(q.value).value, |p.value| + |q.value|);
        assert Summarise(entries[1..], memoryId, retrieve, s1) == Summarise(entries[1..][1..], memoryId, retrieve, s2);
      }
    }
  }

  /** Each text of the summary is non-empty and stripped, and there are no more texts than memories. */
  lemma SummaryBound(memoryId: string, actorId: string, retrieve: Retriever)
    ensures var s := UserMemorySummary(memoryId, actorId, retrieve);
            && |s.preferences| + |s.semantic| <= s.totalMemories
            && (forall k | 0 <= k < |s.preferences| :: s.preferences[k] != "" && Stripped(s.preferences[k]))
            && (forall k | 0 <= k < |s.semantic| :: s.semantic[k] != "" && Stripped(s.semantic[k]))
  {
    SummaryParts(memoryId, actorId, retrieve);
    var p := retrieve(memoryId, "producthunt/user/" + actorId + "/preferences", SummaryQuery, 5);
    var q := retrieve(memoryId, "producthunt/user/" + actorId + "/semantic", SummaryQuery, 5);
    if p.Success? && MemoryTexts(p.value).Success? && q.Success? && MemoryTexts(q.value).Success? {
      MemoryTextsShape(p.value);
      MemoryTextsShape(q.value);
    }
  }

  /** The templates the memory's strategies are created with. */
  const PreferencesTemplate := "producthunt/user/" + ActorField + "/preferences"
  const SemanticTemplate := "producthunt/user/" + ActorField + "/semantic"

  /** The summary reads the namespaces the hooks search for the same actor when the memory has the strategies it is created with. */
  lemma SummaryNamespacesFilled(actorId: string)
    ensures Substitute(PreferencesTemplate, actorId) == SummaryNamespaces(actorId)[0].1
    ensures Substitute(SemanticTemplate, actorId) == SummaryNamespaces(actorId)[1].1
  {
    assert "producthunt/user/"[11] == '/';
    assert '{' !in "producthunt/user/";
    assert '{' !in "/preferences";
    assert '{' !in "/semantic";
    SubstituteOnce("producthunt/user/", "/preferences", actorId);
    SubstituteOnce("producthunt/user/", "/semantic", actorId);
  }

  /** `get_user_memory_summary(memory_id, actor_id)`, one namespace and one memory at a time. */
  method GetUserMemorySummary(memoryId: string, actorId: string, retrieve: Retriever) returns (summary: MemorySummary)
    ensures summary == UserMemorySummary(memoryId, actorId, retrieve)
  {
    var entries := SummaryNamespaces(actorId);
    summary := EmptySummary;
    var i := 0;
    assert entries[i..] == entries;
    while i < |entries|
      invariant 0 <= i <= |entries|
      invariant Summarise(entries, memoryId, retrieve, EmptySummary) == Summarise(entries[i..], memoryId, retrieve, summary)
    {
      assert entries[i..][0] == entries[i];
      assert entries[i..][1..] == entries[i + 1..];
      var (contextType, namespace) := entries[i];
      var memories := retrieve(memoryId, namespace, SummaryQuery, 5);
      if memories.Failure? {
        return EmptySummary;
      }
      var texts := CollectTexts(memories.value);
      if texts.Failure? {
        return EmptySummary;
      }
      summary := AddTexts(summary, contextType, texts.value, |memories.value|);
      i := i + 1;
    }
    assert entries[i..] == [];
  }

  // ---------------------------------------------------------------------------
  // Seeding: `seed_product_memory`
  // ---------------------------------------------------------------------------

  /** The indentation of the lines of the seeded context. */
  const Indent := "        "

  /** The lines of the seeded context, each field with its default when the product data lacks it. */
  function SeedLines(data: BaseAgent.Request): (lines: seq<string>)
    ensures |lines| == 8
  {
    [Indent + "Product Information:",
     Indent + "- Name: " + BaseAgent.Field(data, "product_name", "Not specified"),
     Indent + "- Type: " + BaseAgent.Field(data, "product_type", "SaaS"),
     Indent + "- Description: " + BaseAgent.Field(data, "product_description", "Not provided"),
     Indent + "- Target Audience: " + BaseAgent.Field(data, "target_audience", "Not specified"),
     Indent + "- Launch Date: " + BaseAgent.Field(data, "launch_date", "Not specified"),
     Indent + "- Additional Notes: " + BaseAgent.Field(data, "additional_notes", "None"),
     Indent + "- GitHub Repository: " + BaseAgent.Field(data, "github_repo", "Not provided")]
  }

  /** The seeded context: a line break, the lines, a line break and the closing indentation. */
  function SeedContext(data: BaseAgent.Request): string
  {
    "\n" + Join(SeedLines(data), "\n") + "\n" + Indent
  }

  /** The event `seed_product_memory` creates. */
  function SeedEvent(memoryId: string, actorId: string, data: BaseAgent.Request): (e: Event)
    ensures e.memoryId == memoryId && e.actorId == actorId && e.sessionId == "initial_setup"
    ensures |e.messages| == 2 && e.messages[0].1 == "USER" && e.messages[1].1 == "ASSISTANT"
    ensures StartsWith(e.messages[0].0, "I'm launching a product: ")
    ensures StartsWith(e.messages[1].0, "\n") && EndsWith(e.messages[1].0, "\n" + Indent)
  {
    Event(memoryId, actorId, "initial_setup",
          [("I'm launching a product: " + BaseAgent.Field(data, "product_name", "my product"), "USER"),
           (SeedContext(data), "ASSISTANT")])
  }

  /** The product's name opens the user turn and the name line; without one, "my product" and "Not specified" stand in, and a missing type reads "SaaS". */
  lemma SeedDefaults(memoryId: string, actorId: string, data: BaseAgent.Request)
    ensures var e := SeedEvent(memoryId, actorId, data);
            && e.sessionId == "initial_setup" && |e.messages| == 2
            && e.messages[0].1 == "USER" && e.messages[1] == (SeedContext(data), "ASSISTANT")
    ensures "product_name" in data ==> SeedEvent(memoryId, actorId, data).messages[0].0 == "I'm launching a product: " + data["product_name"]
    ensures "product_name" !in data ==>
              && SeedEvent(memoryId, actorId, data).messages[0].0 == "I'm launching a product: " + "my product"
              && SeedLines(data)[1] == Indent + "- Name: " + "Not specified"
    ensures "product_type" !in data ==> SeedLines(data)[2] == Indent + "- Type: " + "SaaS"
    ensures "product_description" !in data ==> SeedLines(data)[3] == Indent + "- Description: " + "Not provided"
    ensures "target_audience" !in data ==> SeedLines(data)[4] == Indent + "- Target Audience: " + "Not specified"
    ensures "launch_date" !in data ==> SeedLines(data)[5] == Indent + "- Launch Date: " + "Not specified"
    ensures "additional_notes" !in data ==> SeedLines(data)[6] == Indent + "- Additional Notes: " + "None"
    ensures "github_repo" !in data ==> SeedLines(data)[7] == Indent + "- GitHub Repository: " + "Not provided"
  {
  }

  /** No label of the seeded context holds a line break. */
  lemma SeedLabelsOneLine()
    ensures '\n' !in Indent && '\n' !in "Product Information:"
    ensures '\n' !in "- Name: " && '\n' !in "- Type: " && '\n' !in "- Description: "
    ensures '\n' !in "- Target Audience: " && '\n' !in "- Launch Date: "
    ensures '\n' !in "- Additional Notes: " && '\n' !in "- GitHub Repository: "
  {
    SeedFirstLabelsOneLine();
    SeedLastLabelsOneLine();
  }

  lemma SeedFirstLabelsOneLine()
    ensures '\n' !in Indent && '\n' !in "Product Information:"
    ensures '\n' !in "- Name: " && '\n' !in "- Type: " && '\n' !in "- Description: "
  {
  }

  lemma SeedLastLabelsOneLine()
    ensures '\n' !in "- Target Audience: " && '\n' !in "- Launch Date: "
    ensures '\n' !in "- Additional Notes: " && '\n' !in "- GitHub Repository: "
  {
  }

  /** No default of the seeded context holds a line break. */
  lemma SeedDefaultsOneLine()
    ensures '\n' !in "Not specified" && '\n' !in "SaaS" && '\n' !in "Not provided" && '\n' !in "None"
  {
  }

  /** No line of the seeded context breaks when no value in the product data does. */
  lemma SeedLinesOneLine(data: BaseAgent.Request)
    requires forall k | k in data :: '\n' !in data[k]
    ensures forall k | 0 <= k < 8 :: '\n' !in SeedLines(data)[k]
  {
    SeedLabelsOneLine();
    SeedDefaultsOneLine();
  }

  /** The seeded context splits into an empty line, the eight lines and the closing indentation. */
  lemma SeedLayout(data: BaseAgent.Request)
    requires forall k | k in data :: '\n' !in data[k]
    ensures Split(SeedContext(data), '\n') == [""] + SeedLines(data) + [Indent]
  {
    SeedLinesOneLine(data);
    assert '\n' !in Indent;
    SplitEnclosed("", SeedLines(data), Indent, '\n');
    assert "" + "\n" == "\n";
  }

  /** The agent whose message list the hooks read and change. */
  class Agent {
    var messages: seq<Message>

    constructor (messages: seq<Message>)
      ensures this.messages == messages
    {
      this.messages := messages;
    }
  }

  /** `ProductHuntMemoryHooks`: the memory, the actor, the session and the namespace of each strategy type. */
  class MemoryHooks {
    const memoryId: string
    const actorId: string
    const sessionId: string
    const namespaces: Table

    constructor (memoryId: string, actorId: string, sessionId: string, namespaces: Table)
      ensures this.memoryId == memoryId && this.actorId == actorId && this.sessionId == sessionId
      ensures this.namespaces == namespaces
    {
      this.memoryId := memoryId;
      this.actorId := actorId;
      this.sessionId := sessionId;
      this.namespaces := namespaces;
    }

    /** `ProductHuntMemoryHooks(memory_id, client, actor_id, session_id)`, given the client's strategies. */
    static method Create(memoryId: string, actorId: string, sessionId: string, strategies: seq<Strategy>) returns (r: Result<MemoryHooks, PyError>)
      ensures r.Failure? <==> NamespaceMap(strategies).Failure?
      ensures r.Failure? ==> r.error == IndexError
      ensures r.Success? ==>
                && fresh(r.value)
                && r.value.memoryId == memoryId && r.value.actorId == actorId && r.value.sessionId == sessionId
                && r.value.namespaces == NamespaceMap(strategies).value
    {
      var table := NamespaceMap(strategies);
      if table.Failure? {
        return Failure(table.error);
      }
      var hooks := new MemoryHooks(memoryId, actorId, sessionId, table.value);
      return Success(hooks);
    }

    /**
     * `retrieve_product_context(event)`: the agent's messages afterwards are
     * those `ProductContext` gives, or stay as they are when an exception
     * escapes, which is returned.
     */
    method RetrieveProductContext(agent: Agent, retrieve: Retriever) returns (escaped: Option<PyError>)
      modifies agent
      ensures var r := ProductContext(old(agent.messages), memoryId, actorId, namespaces, retrieve);
              && (r.Failure? ==> escaped == Some(r.error) && agent.messages == old(agent.messages))
              && (r.Success? ==> escaped == None && agent.messages == r.value)
    {
      var messages := agent.messages;
      if |messages| == 0 {
        return Some(IndexError);
      }
      var last := messages[|messages| - 1];
      if last.role != "user" {
        return None;
      }
      if |last.content| == 0 {
        return Some(IndexError);
      }
      if last.content[0].hasToolResult {
        return None;
      }
      if last.content[0].text.None? {
        return Some(KeyError("text"));
      }
      var userQuery := last.content[0].text.value;
      var allContext: seq<string> := [];
      var i := 0;
      assert namespaces[i..] == namespaces;
      PrependEmpty(AllContext(namespaces, memoryId, actorId, userQuery, retrieve));
      while i < |namespaces|
        invariant 0 <= i <= |namespaces|
        invariant agent.messages == messages
        invariant AllContext(namespaces, memoryId, actorId, userQuery, retrieve)
                  == Prepend(allContext, AllContext(namespaces[i..], memoryId, actorId, userQuery, retrieve))
      {
        assert namespaces[i..][0] == namespaces[i];
        assert namespaces[i..][1..] == namespaces[i + 1..];
        var (contextType, namespace) := namespaces[i];
        var memories := retrieve(memoryId, Substitute(namespace, actorId), userQuery, 3);
        if memories.Failure? {
          SearchFailureCaught(messages, memoryId, actorId, namespaces, retrieve);
          return None;
        }
        var texts := CollectTexts(memories.value);
        if texts.Failure? {
          SearchFailureCaught(messages, memoryId, actorId, namespaces, retrieve);
          return None;
        }
        PrependTwice(allContext, Tagged(contextType, texts.value), AllContext(namespaces[i + 1..], memoryId, actorId, userQuery, retrieve));
        allContext := allContext + Tagged(contextType, texts.value);
        i := i + 1;
      }
      assert namespaces[i..] == [];
      assert allContext + [] == allContext;
      SearchFound(messages, memoryId, actorId, namespaces, retrieve, allContext);
      if allContext != [] {
        var originalText := last.content[0].text.value;
        agent.messages := messages[..|messages| - 1] + [WithText(last, Injected(allContext, originalText))];
      }
      return None;
    }

    /** `save_launch_interaction(event)`: the event it hands to `create_event`, if any; every exception is caught. */
    method SaveLaunchInteraction(agent: Agent) returns (event: Option<Event>)
      ensures event == SavedEvent(agent.messages, memoryId, actorId, sessionId)
    {
      var messages := agent.messages;
      if !(|messages| >= 2 && messages[|messages| - 1].role == "assistant") {
        return None;
      }
      var userQuery := "";
      var agentResponse := "";
      var i := |messages|;
      while i > 0
        invariant 0 <= i <= |messages|
        invariant userQuery == ""
        invariant ScanBack(messages, |messages|, "") == ScanBack(messages, i, agentResponse)
      {
        var msg := messages[i - 1];
        if msg.role == "assistant" && agentResponse == "" {
          if |msg.content| == 0 || msg.content[0].text.None? {
            return None;
          }
          agentResponse := msg.content[0].text.value;
        } else if msg.role == "user" && userQuery == "" {
          if |msg.content| == 0 {
            return None;
          }
          if !msg.content[0].hasToolResult {
            if msg.content[0].text.None? {
              return None;
            }
            userQuery := msg.content[0].text.value;
            assert ScanBack(messages, |messages|, "") == Success((userQuery, agentResponse));
            break;
          }
        }
        i := i - 1;
      }
      assert ScanBack(messages, |messages|, "") == Success((userQuery, agentResponse));
      if userQuery != "" && agentResponse != "" {
        return Some(Event(memoryId, actorId, sessionId, [(userQuery, "USER"), (agentResponse, "ASSISTANT")]));
      }
      return None;
    }
  }
}
