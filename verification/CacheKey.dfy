/** What the response cache is keyed on (cache.py). */
module CacheKey {
  import opened Wrappers
  import opened Canonical

  datatype Message = Message(role: string, content: string)

  /** The redacted request, with the temperature as its four-decimal text counts it. */
  datatype RequestKey = RequestKey(
    connectionId: Option<string>,
    projectId: Option<string>,
    model: string,
    maxTokens: nat,
    temperature: int,
    messages: seq<Message>)

  function OptionalText(x: Option<string>): Value {
    if x.Some? then Str(x.value) else Null
  }

  function MessageValue(m: Message): Value {
    Obj(map[Text("role") := Str(m.role), Text("content") := Str(m.content)])
  }

  function MessageValues(messages: seq<Message>): (r: seq<Value>)
    ensures |r| == |messages| && forall i :: 0 <= i < |r| ==> r[i] == MessageValue(messages[i])
  {
    seq(|messages|, i requires 0 <= i < |messages| => MessageValue(messages[i]))
  }

  // The temperature in ten-thousandths, rounded half-up.
  function FourDecimals(t: real): int {
    (t * 10000.0 + 0.5).Floor
  }

  function Payload(k: RequestKey): Value {
    Obj(map[
      Text("connection_id") := OptionalText(k.connectionId),
      Text("project_id") := OptionalText(k.projectId),
      Text("model") := Str(k.model),
      Text("max_tokens") := Num(k.maxTokens),
      Text("temperature") := Str(NumText(k.temperature)),
      Text("messages") := Arr(MessageValues(k.messages))])
  }

  lemma PayloadPrints(k: RequestKey)
    ensures Printable(Payload(k))
  {
    forall i | 0 <= i < |k.messages|
      ensures Printable(MessageValue(k.messages[i]))
    {
    }
    assert Printable(Payload(k).fields[Text("messages")]);
    assert Printable(OptionalText(k.connectionId)) && Printable(OptionalText(k.projectId));
  }

  function KeyText(k: RequestKey): string {
    PayloadPrints(k);
    Print(Payload(k))
  }

  lemma SameMessages(a: seq<Message>, b: seq<Message>)
    requires MessageValues(a) == MessageValues(b)
    ensures a == b
  {
    forall i | 0 <= i < |a|
      ensures i < |b| && a[i] == b[i]
    {
      var x, y := MessageValues(a)[i], MessageValues(b)[i];
      assert x.fields[Text("role")] == y.fields[Text("role")] && x.fields[Text("content")] == y.fields[Text("content")];
    }
    assert |a| == |MessageValues(a)| == |b|;
  }

  lemma SamePayload(a: RequestKey, b: RequestKey)
    requires Payload(a) == Payload(b)
    ensures a == b
  {
    var m, n := Payload(a).fields, Payload(b).fields;
    assert m[Text("connection_id")] == n[Text("connection_id")] && m[Text("project_id")] == n[Text("project_id")];
    assert m[Text("model")] == n[Text("model")] && m[Text("max_tokens")] == n[Text("max_tokens")];
    assert m[Text("temperature")].s == n[Text("temperature")].s;
    assert NumText(a.temperature) == NumText(b.temperature);
    NumTextIsInjective(a.temperature, b.temperature);
    assert m[Text("messages")].items == n[Text("messages")].items;
    SameMessages(a.messages, b.messages);
  }

  /** Two requests share a cache key exactly when nothing that is keyed differs: one
      project's or connection's answer is never found under another's key. */
  lemma KeyTextIsInjective(a: RequestKey, b: RequestKey)
    ensures KeyText(a) == KeyText(b) <==> a == b
  {
    PayloadPrints(a);
    PayloadPrints(b);
    PrintIsInjective(Payload(a), Payload(b));
    if KeyText(a) == KeyText(b) {
      SamePayload(a, b);
    }
  }

  /** But the four decimals tell only temperatures apart from zero that are not within half a
      unit of it: it is the exact test of cacheability that keeps a warm request away from a
      cold one's answer. */
  lemma ColdKeyShared(t: real)
    ensures FourDecimals(t) == FourDecimals(0.0) <==> -0.00005 <= t < 0.00005
  {
    assert FourDecimals(0.0) == 0;
    var u := t * 10000.0 + 0.5;
    assert u.Floor == 0 <==> 0.0 <= u < 1.0;
  }
}
