/** models/doubao_client.py: the API-key check of the client's constructor and
    the in-place rewrite of the message list into the shape the Doubao endpoint
    expects. */
module Doubao {
  import opened Wrappers
  import opened Messages

  /** The state a `DoubaoClient` keeps (the SDK handle is not modelled). */
  datatype DoubaoClient = DoubaoClient(apiKey: string, model: string)

  /** The `ValueError` of the constructor. */
  datatype ClientError = MissingApiKey

  /** `DoubaoClient.__init__`: refuses a missing or empty key; `baseUrl` is accepted and ignored. */
  function NewDoubaoClient(apiKey: Option<string>, baseUrl: string, defaultModel: string): (r: Result<DoubaoClient, ClientError>)
    ensures r.Failure? <==> apiKey == None || apiKey == Some("")
    ensures r.Failure? ==> r.error == MissingApiKey
    ensures r.Success? ==> r.value.apiKey == apiKey.value && r.value.model == defaultModel
  {
    if apiKey.None? || apiKey.value == "" then Failure(MissingApiKey)
    else Success(DoubaoClient(apiKey.value, defaultModel))
  }

  /** The rule applied to one message's content: a list holding exactly one
      text part becomes that part's bare text; anything else is kept. */
  function ConvertContent(c: Content): (r: Content)
    ensures CanonicalParts(r) == CanonicalParts(c)
    ensures r.Parts? ==> r == c
    ensures r != c <==> c.Parts? && |c.parts| == 1 && c.parts[0].Text?
  {
    if c.Parts? && |c.parts| == 1 && c.parts[0].Text? then Str(c.parts[0].text)
    else c
  }

  function ConvertMessage(m: Message): (r: Message)
    ensures r.role == m.role
    ensures r.content == ConvertContent(m.content)
    ensures CanonicalParts(r.content) == CanonicalParts(m.content)
  {
    m.(content := ConvertContent(m.content))
  }

  /** The whole list after `_convert_message_format`. */
  function ConvertAll(ms: seq<Message>): (rs: seq<Message>)
    ensures |rs| == |ms|
    ensures forall i :: 0 <= i < |ms| ==> rs[i] == ConvertMessage(ms[i])
  {
    seq(|ms|, i requires 0 <= i < |ms| => ConvertMessage(ms[i]))
  }

  /** Converting a converted content changes nothing: a collapsed string is no
      longer a list. */
  lemma ConvertContentIdempotent(c: Content)
    ensures ConvertContent(ConvertContent(c)) == ConvertContent(c)
  {
  }

  /** Converting the list twice is the same as converting it once. */
  lemma ConvertAllIdempotent(ms: seq<Message>)
    ensures ConvertAll(ConvertAll(ms)) == ConvertAll(ms)
  {
  }

  /** The conversion keeps the number, order and roles of the messages and
      the meaning of every content; only the form of single-text contents changes. */
  lemma ConvertAllPreserves(ms: seq<Message>)
    ensures |ConvertAll(ms)| == |ms|
    ensures forall i :: 0 <= i < |ms| ==>
              && ConvertAll(ms)[i].role == ms[i].role
              && CanonicalParts(ConvertAll(ms)[i].content) == CanonicalParts(ms[i].content)
              && PlainText(ConvertAll(ms)[i].content) == PlainText(ms[i].content)
  {
  }

  /** `_convert_message_format`: rewrites every message in place and returns
      the same list. */
  method ConvertMessageFormat(messages: array<Message>) returns (same: array<Message>)
    modifies messages
    ensures same == messages
    ensures messages[..] == ConvertAll(old(messages[..]))
  {
    for i := 0 to messages.Length
      invariant forall j :: 0 <= j < i ==> messages[j] == ConvertMessage(old(messages[j]))
      invariant forall j :: i <= j < messages.Length ==> messages[j] == old(messages[j])
    {
      var content := messages[i].content;
      // a missing content, a bare string and a multi-part list are passed through
      if content.Parts? && |content.parts| == 1 && content.parts[0].Text? {
        messages[i] := messages[i].(content := Str(content.parts[0].text));
      }
    }
    same := messages;
  }
}
