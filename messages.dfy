/** The chat-message records that main.py builds: a role and a content that is
    either a bare string or a list of typed parts (the OpenAI chat format). */
module Messages {
  import opened Wrappers

  /** One element of a content list: `{"type": "text", "text": …}`,
      `{"type": "image_url", "image_url": {"url": …}}`, or a part of any
      other (or no) type. */
  datatype Part = Text(text: string) | ImageUrl(url: string) | Other

  /** The value under a message's "content" key: a bare string, a list of
      parts, or no "content" key at all. */
  datatype Content = Str(s: string) | Parts(parts: seq<Part>) | NoContent

  datatype Message = Message(role: string, content: Content)

  /** The prefix every image URL carries; the file type is never inspected. */
  const PngDataUrlPrefix: string := "data:image/png;base64,"

  /** `create_text_message`: one text part holding `text`; the role defaults to "user". */
  function CreateTextMessage(text: string, role: string := "user"): (m: Message)
    ensures m.role == role
    ensures m.content.Parts?
    ensures PlainText(m.content) == Some(text)
    ensures CanonicalParts(m.content) == [Text(text)]
  {
    Message(role, Parts([Text(text)]))
  }

  /** `create_image_message`: a user message whose first part is the image as a
      PNG data URL of `encode(imagePath)` and whose second part is the prompt.
      `encode` stands for `encode_image` (reading the file and base64-encoding it). */
  function CreateImageMessage(imagePath: string, prompt: string, encode: string -> string): (m: Message)
    ensures m.role == "user"
    ensures |CanonicalParts(m.content)| == 2
    ensures ParseDataUrl(ImageUrlOf(m.content)) == Some(("image/png", encode(imagePath)))
    ensures CanonicalParts(m.content)[1] == Text(prompt)
  {
    var url := PngDataUrlPrefix + encode(imagePath);
    assert url == "data:" + "image/png" + ";base64," + encode(imagePath);
    DataUrlRoundTrip("image/png", encode(imagePath));
    Message("user", Parts([ImageUrl(url), Text(prompt)]))
  }

  /** The parts a content stands for: a bare string is one text part, a missing
      content no parts at all. */
  function CanonicalParts(c: Content): seq<Part>
  {
    match c
    case Str(s) => [Text(s)]
    case Parts(ps) => ps
    case NoContent => []
  }

  /** The text of a content that consists of exactly one text part, in either form. */
  function PlainText(c: Content): Option<string>
  {
    var ps := CanonicalParts(c);
    if |ps| == 1 && ps[0].Text? then Some(ps[0].text) else None
  }

  /** The URL of the first part, if that part is an image (otherwise ""). */
  function ImageUrlOf(c: Content): string
  {
    var ps := CanonicalParts(c);
    if |ps| > 0 && ps[0].ImageUrl? then ps[0].url else ""
  }

  /** Index of the first occurrence of `ch` in `s`, or `|s|` when there is none. */
  function IndexOf(s: string, ch: char): (k: nat)
    ensures k <= |s|
    ensures forall j :: 0 <= j < k ==> s[j] != ch
    ensures k < |s| ==> s[k] == ch
  {
    if |s| == 0 then 0
    else if s[0] == ch then 0
    else 1 + IndexOf(s[1..], ch)
  }

  /** Reads `data:<mime>;base64,<payload>` back into its media type and payload;
      the media type runs up to the first `;`. */
  function ParseDataUrl(url: string): Option<(string, string)>
  {
    if |url| < 5 || url[..5] != "data:" then None
    else
      var rest := url[5..];
      var k := IndexOf(rest, ';');
      var tail := rest[k..];
      if |tail| < 8 || tail[..8] != ";base64," then None
      else Some((rest[..k], tail[8..]))
  }

  /** Any media type without a `;` survives the round trip through a data URL. */
  lemma DataUrlRoundTrip(mime: string, payload: string)
    requires ';' !in mime
    ensures ParseDataUrl("data:" + mime + ";base64," + payload) == Some((mime, payload))
  {
    var url := "data:" + mime + ";base64," + payload;
    var rest := url[5..];
    assert rest == mime + (";base64," + payload);
    IndexOfAfterPrefix(mime, ";base64," + payload, ';');
    assert rest[..|mime|] == mime;
    assert rest[|mime|..] == ";base64," + payload;
  }

  lemma {:induction false} IndexOfAfterPrefix(prefix: string, suffix: string, ch: char)
    requires ch !in prefix
    requires |suffix| > 0 && suffix[0] == ch
    ensures IndexOf(prefix + suffix, ch) == |prefix|
  {
    if |prefix| > 0 {
      assert (prefix + suffix)[1..] == prefix[1..] + suffix;
      IndexOfAfterPrefix(prefix[1..], suffix, ch);
    }
  }
}
