/** The batch converter for whole chat completions. */
module CopilotBatch {
  import opened Collections
  import opened CopilotEvents

  datatype ChatCall = ChatCall(id: string, name: string, arguments: string)

  /** A chat completion's message. */
  datatype ChatMessage = ChatMessage(text: string, refusal: string, calls: seq<ChatCall>)

  function Content(m: ChatMessage): seq<Part> {
    (if m.text != "" then [Written(m.text)] else []) + (if m.refusal != "" then [Refused(m.refusal)] else [])
  }

  function CallItem(env: Env, call: ChatCall): Item {
    var info := Named(env, call.name);
    Item(call.id, if info.custom then Asks(info.name, info.namespace, env.input(call.arguments))
      else Calls(info.name, info.namespace, call.arguments))
  }

  function MessageItems(env: Env, responseId: string, m: ChatMessage): seq<Item> {
    if Content(m) == [] then [] else [Item(env.messageId(responseId), Says(Content(m)))]
  }

  predicate Complete(call: ChatCall) {
    call.id != "" && call.name != ""
  }

  /**
   The output of a response: the message if it says anything, then every call; nothing if a call
   lacks its id or its name.
   */
  function Batch(env: Env, responseId: string, m: ChatMessage): Option<seq<Item>> {
    if forall k :: 0 <= k < |m.calls| ==> Complete(m.calls[k])
    then Some(MessageItems(env, responseId, m) + seq(|m.calls|, k requires 0 <= k < |m.calls| =>
      CallItem(env, m.calls[k])))
    else None
  }

  /** chatMessageToResponseOutput. */
  method ChatMessageToOutput(env: Env, responseId: string, m: ChatMessage) returns (r: Option<seq<Item>>)
    ensures r == Batch(env, responseId, m)
  {
    var output: seq<Item>, content: seq<Part> := [], [];
    if m.text != "" { content := content + [Written(m.text)]; }
    if m.refusal != "" { content := content + [Refused(m.refusal)]; }
    assert content == Content(m);
    if |content| > 0 { output := output + [Item(env.messageId(responseId), Says(content))]; }
    ghost var items := output;
    assert items == MessageItems(env, responseId, m);
    for k := 0 to |m.calls|
      invariant items == MessageItems(env, responseId, m) && |output| == |items| + k && output[..|items|] == items
      invariant forall j :: 0 <= j < k ==> Complete(m.calls[j]) && output[|items| + j] == CallItem(env, m.calls[j])
    {
      var call := m.calls[k];
      if call.id == "" || call.name == "" { return None; }
      var info := if call.name in env.known then env.known[call.name] else Info(call.name, "", false);
      if info.custom {
        output := output + [Item(call.id, Asks(info.name, info.namespace, env.input(call.arguments)))];
      } else {
        output := output + [Item(call.id, Calls(info.name, info.namespace, call.arguments))];
      }
    }
    assert output == items + seq(|m.calls|, k requires 0 <= k < |m.calls| => CallItem(env, m.calls[k]));
    return Some(output);
  }

  /**
   The calls come last and in order: a known name as the client's tool, with its input if that
   is a custom tool, and any other name as it is.
   */
  lemma BatchCallItem(env: Env, responseId: string, m: ChatMessage, items: seq<Item>, k: nat)
    requires Batch(env, responseId, m) == Some(items) && k < |m.calls|
    ensures m.calls[k].id != "" && m.calls[k].name != ""
    ensures |items| == |m.calls| + if m.text == "" && m.refusal == "" then 0 else 1
    ensures var call, item := m.calls[k], items[|items| - |m.calls| + k];
            && item.id == call.id
            && item.shape ==
                if call.name !in env.known then Calls(call.name, "", call.arguments)
                else if env.known[call.name].custom
                then Asks(env.known[call.name].name, env.known[call.name].namespace, env.input(call.arguments))
                else Calls(env.known[call.name].name, env.known[call.name].namespace, call.arguments)
  {
    assert Complete(m.calls[k]);
  }

  // ---- Response ids --------------------------------------------------------------------------------------

  predicate HasPrefix(s: string, prefix: string) {
    |prefix| <= |s| && s[..|prefix|] == prefix
  }

  /** strings.TrimPrefix. */
  function TrimPrefix(s: string, prefix: string): string {
    if HasPrefix(s, prefix) then s[|prefix|..] else s
  }

  /** copilotResponseID. */
  function ResponseId(chat: string, fallback: string): string {
    if HasPrefix(chat, "resp_") then chat
    else
      var id := TrimPrefix(TrimPrefix(chat, "chatcmpl-"), "chat-");
      "resp_" + if id == "" then fallback else id
  }

  /** A chat id that says nothing once its prefixes are gone. */
  predicate Blank(chat: string) {
    !HasPrefix(chat, "resp_") && TrimPrefix(TrimPrefix(chat, "chatcmpl-"), "chat-") == ""
  }

  lemma ResponseIdPrefixed(chat: string, fallback: string)
    ensures HasPrefix(ResponseId(chat, fallback), "resp_")
  {
    if !HasPrefix(chat, "resp_") {
      var id := TrimPrefix(TrimPrefix(chat, "chatcmpl-"), "chat-");
      assert ResponseId(chat, fallback)[..5] == "resp_";
    }
  }

  /** What a response is called after the usual chat ids, and without one. */
  lemma ResponseIdNamed(rest: string, fallback: string)
    ensures ResponseId("resp_" + rest, fallback) == "resp_" + rest
    ensures rest != "" && !HasPrefix(rest, "chat-") ==> ResponseId("chatcmpl-" + rest, fallback) == "resp_" + rest
    ensures rest != "" ==> ResponseId("chat-" + rest, fallback) == "resp_" + rest
    ensures rest != "" && rest[0] != 'c' && rest[0] != 'r' ==> ResponseId(rest, fallback) == "resp_" + rest
    ensures ResponseId("", fallback) == "resp_" + fallback
  {
    assert ("resp_" + rest)[..5] == "resp_";
    assert ("chatcmpl-" + rest)[0] == 'c' && ("chat-" + rest)[0] == 'c';
    assert ("chatcmpl-" + rest)[..9] == "chatcmpl-" && ("chatcmpl-" + rest)[9..] == rest;
    assert ("chat-" + rest)[4] == '-' && ("chat-" + rest)[..5] == "chat-" && ("chat-" + rest)[5..] == rest;
    assert "chatcmpl-"[4] == 'c';
    assert !HasPrefix("chat-" + rest, "chatcmpl-") by {
      assert |"chat-" + rest| >= 9 ==> ("chat-" + rest)[..9][4] == '-';
    }
  }

  /** A blank chat id leaves the response's id as it was; any other names the response whatever it was named before. */
  lemma Renaming(chat: string, before: string, fallback: string)
    ensures ResponseId(chat, TrimPrefix(ResponseId(before, fallback), "resp_")) ==
      ResponseId(if Blank(chat) then before else chat, fallback)
  {
    var current := ResponseId(before, fallback);
    ResponseIdPrefixed(before, fallback);
    assert "resp_" + TrimPrefix(current, "resp_") == current;
  }
}
