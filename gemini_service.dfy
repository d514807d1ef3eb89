/** The remote generation client: how the two requests to the generative
    service are shaped and how their answers are turned into results. The
    service itself is not modelled; each call's answer is a `Reply` value
    supplied by the caller. */
module GeminiService {
  import opened Types
  import opened JsString

  /** What a failed call rejects with: an `Error` object with its message, or
      any other thrown value. */
  datatype Thrown = ErrorValue(message: string) | NonErrorValue

  /** The settled value of an asynchronous call. */
  datatype Outcome<+T> = Ok(value: T) | Err(thrown: Thrown)

  /** The service's answer to one request: the call itself fails (network,
      protocol, unparsable body), or it answers with a body. */
  datatype Reply<+T> = CallFailed(thrown: Thrown) | Replied(body: T)

  /** The parsed `prompts` field of a prompt-generation answer; `None` when the
      field is absent or falsy. */
  type PromptsReply = Reply<Option<seq<string>>>

  /** The parts of the first candidate's content in an image-generation answer;
      `None` when the candidate, its content or its parts are missing. */
  type ImageReply = Reply<Option<seq<ResponsePart>>>

  datatype InlineData = InlineData(mimeType: string, data: string)

  /** One part of a response; only whether it carries inline data matters. */
  datatype ResponsePart = ResponsePart(inlineData: Option<InlineData>)

  /** One part of an image request. An inline part's `data` is absent when the
      reference URL it came from has no comma. */
  datatype RequestPart = InlinePart(mimeType: string, data: Option<string>) | TextPart(text: string)

  const NoContentPartsMessage := "Image generation failed, no content parts returned."
  const NoImagesMessage := "Image generation failed, no images returned."
  /** The TypeError message a JavaScript engine (V8) reports when `split` is
      called on `undefined`. */
  const SplitOfUndefinedMessage := "Cannot read properties of undefined (reading 'split')"

  // ---------------------------------------------------------------------
  // Stage 1: script to prompts

  /** A line holding only `---`, as it separates the sections of the request. */
  const SeparatorLine := "\n    ---\n"
  const ScriptHeader := "\n    Script:\n    ---\n    "
  const NicheHeader := SeparatorLine + "    Niche/Topic: "
  const InstructionHeader := SeparatorLine + "    Instructions:\n    "
  const RequestTrailer := "\n  "

  /** The text of the prompt-generation request. */
  function PromptRequestText(script: string, niche: string, instruction: string): string
  {
    ScriptHeader + script + NicheHeader + niche + InstructionHeader + instruction + RequestTrailer
  }

  /** The request holds the script, a `---` line, the niche, a `---` line and
      then the instruction, in that order and unaltered. */
  lemma PromptRequestLayout(script: string, niche: string, instruction: string)
    ensures var r := PromptRequestText(script, niche, instruction);
            var a := |ScriptHeader|;
            var b := a + |script| + |NicheHeader|;
            var c := b + |niche| + |InstructionHeader|;
            && OccursAt(r, script, a)
            && OccursAt(r, SeparatorLine, a + |script|)
            && OccursAt(r, niche, b)
            && OccursAt(r, SeparatorLine, b + |niche|)
            && OccursAt(r, instruction, c)
            && a + |script| < b && b + |niche| < c
  {
    Layout(ScriptHeader, script, SeparatorLine, "    Niche/Topic: ", niche, "    Instructions:\n    ",
           instruction, RequestTrailer);
  }

  /** Where the parts of `h + x + (sep + l1) + y + (sep + l2) + z + t` lie. */
  lemma Layout(h: string, x: string, sep: string, l1: string, y: string, l2: string, z: string, t: string)
    ensures var r := h + x + (sep + l1) + y + (sep + l2) + z + t;
            var a := |h|;
            var b := a + |x| + |sep + l1|;
            var c := b + |y| + |sep + l2|;
            && OccursAt(r, x, a)
            && OccursAt(r, sep, a + |x|)
            && OccursAt(r, y, b)
            && OccursAt(r, sep, b + |y|)
            && OccursAt(r, z, c)
  {
    var s1 := h + x;
    var s2 := s1 + (sep + l1);
    var s3 := s2 + y;
    var s4 := s3 + (sep + l2);
    var s5 := s4 + z;
    OccursAtEnd(h, x);
    OccursExtendRight(s1, x, |h|, sep + l1);
    OccursAtStart(sep, l1);
    OccursExtendLeft(s1, sep + l1, sep, 0);
    OccursExtendRight(s2, x, |h|, y);
    OccursExtendRight(s2, sep, |s1|, y);
    OccursAtEnd(s2, y);
    OccursExtendRight(s3, x, |h|, sep + l2);
    OccursExtendRight(s3, sep, |s1|, sep + l2);
    OccursExtendRight(s3, y, |s2|, sep + l2);
    OccursAtStart(sep, l2);
    OccursExtendLeft(s3, sep + l2, sep, 0);
    OccursExtendRight(s4, x, |h|, z);
    OccursExtendRight(s4, sep, |s1|, z);
    OccursExtendRight(s4, y, |s2|, z);
    OccursExtendRight(s4, sep, |s3|, z);
    OccursAtEnd(s4, z);
    OccursExtendRight(s5, x, |h|, t);
    OccursExtendRight(s5, sep, |s1|, t);
    OccursExtendRight(s5, y, |s2|, t);
    OccursExtendRight(s5, sep, |s3|, t);
    OccursExtendRight(s5, z, |s4|, t);
  }

  /** The prompt list of a stage-1 answer: the `prompts` field, or the empty
      list when it is absent or falsy; a failed call stays a failure. */
  function GeneratePromptsFromScript(reply: PromptsReply): (r: Outcome<seq<string>>)
    ensures r.Err? <==> reply.CallFailed?
    ensures r.Err? ==> r.thrown == reply.thrown
    ensures reply.Replied? && reply.body.None? ==> r == Ok([])
    ensures reply.Replied? && reply.body.Some? ==> r == Ok(reply.body.value)
  {
    match reply
    case CallFailed(t) => Err(t)
    case Replied(None) => Ok([])
    case Replied(Some(ps)) => Ok(ps)
  }

  // ---------------------------------------------------------------------
  // Stage 2: prompt to image

  function Quoted(s: string): string
  {
    "\"" + s + "\""
  }

  const DefaultLead := "Create an image with aspect ratio "
  const DefaultDepict := ". The image should depict: "
  const ReferenceLead := "Analyze the style of the provided reference image and generate a new image with a similar style. The new image should have an aspect ratio of "
  const ReferenceDepict := " and depict: "
  const StyleLead := ". Additional style keywords: "

  /** The instruction sent when there is no reference image. */
  function DefaultImageText(prompt: string, style: string, ratio: AspectRatio): string
  {
    DefaultLead + ratio.Text() + DefaultDepict + Quoted(prompt) + StyleLead + style + "."
  }

  /** The instruction sent with a reference image, asking to emulate its style. */
  function ReferenceImageText(prompt: string, style: string, ratio: AspectRatio): string
  {
    ReferenceLead + ratio.Text() + ReferenceDepict + Quoted(prompt) + StyleLead + style + "."
  }

  /** Both instructions embed the aspect ratio, the quoted prompt and the style keywords. */
  lemma ImageTextsEmbedRequest(prompt: string, style: string, ratio: AspectRatio)
    ensures Contains(DefaultImageText(prompt, style, ratio), ratio.Text())
    ensures Contains(DefaultImageText(prompt, style, ratio), Quoted(prompt))
    ensures Contains(DefaultImageText(prompt, style, ratio), style)
    ensures Contains(ReferenceImageText(prompt, style, ratio), ratio.Text())
    ensures Contains(ReferenceImageText(prompt, style, ratio), Quoted(prompt))
    ensures Contains(ReferenceImageText(prompt, style, ratio), style)
  {
    EmbedsThree(DefaultLead, ratio.Text(), DefaultDepict, Quoted(prompt), StyleLead, style, ".");
    EmbedsThree(ReferenceLead, ratio.Text(), ReferenceDepict, Quoted(prompt), StyleLead, style, ".");
  }

  /** Each of the three inserted values occurs in a seven-part concatenation. */
  lemma EmbedsThree(a: string, x: string, b: string, y: string, c: string, z: string, d: string)
    ensures var s := a + x + b + y + c + z + d;
            Contains(s, x) && Contains(s, y) && Contains(s, z)
  {
    var s := a + x + b + y + c + z + d;
    assert s == a + x + (b + y + c + z + d);
    OccursInMiddle(a, x, b + y + c + z + d);
    assert s == (a + x + b) + y + (c + z + d);
    OccursInMiddle(a + x + b, y, c + z + d);
    assert s == (a + x + b + y + c) + z + d;
    OccursInMiddle(a + x + b + y + c, z, d);
  }

  /** A reference image is used when the URL is present and non-empty. */
  predicate HasReference(referenceImageUrl: Option<string>)
  {
    referenceImageUrl.Some? && referenceImageUrl.value != ""
  }

  /** The data URL of an inline image. */
  function FormatDataUrl(d: InlineData): string
  {
    "data:" + d.mimeType + ";base64," + d.data
  }

  /** Parses a `data:<mime>;base64,<payload>` URL into an inline request part:
      the media type lies between the first `:` and the next `;` of the text
      before the first comma, the payload is the second comma field. Fails, as
      JavaScript's chained `split` does, exactly when that text has no `:`. */
  function DataUrlToPart(url: string): (r: Outcome<RequestPart>)
    ensures r.Err? <==> ':' !in Split(url, ',')[0]
    ensures r.Err? ==> r.thrown == ErrorValue(SplitOfUndefinedMessage)
    ensures r.Ok? ==> r.value.InlinePart? && (r.value.data.None? <==> ',' !in url)
  {
    var fields := Split(url, ',');
    var colonFields := Split(fields[0], ':');
    SplitFirstField(url, ',');
    SplitFirstField(fields[0], ':');
    if |colonFields| < 2 then Err(ErrorValue(SplitOfUndefinedMessage))
    else
      Ok(InlinePart(MediaTypeOf(fields[0]), PayloadOf(fields)))
  }

  /** The media type in a data URL header: the first `;`-field of its second `:`-field. */
  function MediaTypeOf(head: string): string
    requires |Split(head, ':')| > 1
  {
    Split(Split(head, ':')[1], ';')[0]
  }

  /** The payload among a URL's comma fields: the second one, if any. */
  function PayloadOf(fields: seq<string>): Option<string>
  {
    if |fields| > 1 then Some(fields[1]) else None
  }

  /** `head[k]` is the first `:` of `head` and `m` is the text after it, up to
      the next `;` or `:` or the end. */
  predicate MediaTypeAt(head: string, k: int, m: string)
  {
    && 0 <= k < |head| && head[k] == ':' && ':' !in head[..k]
    && OccursAt(head, m, k + 1) && ':' !in m && ';' !in m
    && (k + 1 + |m| == |head| || head[k + 1 + |m|] == ':' || head[k + 1 + |m|] == ';')
  }

  /** In a header with a `:`, the media type is the text after the first `:`
      up to the next `;`, `:` or the end. */
  lemma HeaderMediaType(head: string)
    requires |Split(head, ':')| > 1
    ensures MediaTypeAt(head, |Split(head, ':')[0]|, MediaTypeOf(head))
  {
    var colonFields := Split(head, ':');
    var k := |colonFields[0]|;
    var c1 := colonFields[1];
    var m := Split(c1, ';')[0];
    FirstField(head, ':');
    assert head[..k] == colonFields[0];
    SecondField(head, ':');
    FirstField(c1, ';');
    OccursNested(head, c1, k + 1, m, 0);
    AbsentFromPart(c1, m, 0, ':');
    var e := k + 1 + |m|;
    if e < |head| {
      if |m| < |c1| {
        assert head[e] == c1[|m|];
      } else {
        assert e == k + 1 + |c1|;
      }
    }
  }

  /** The media type of a parsed URL is the text after the first `:` of the
      header, the text before the first comma, up to the next `;`, `:` or the
      end of the header. */
  lemma DataUrlToPartMediaType(url: string)
    requires DataUrlToPart(url).Ok?
    ensures var head := Split(url, ',')[0];
            && OccursAt(url, head, 0) && ',' !in head
            && MediaTypeAt(head, |Split(head, ':')[0]|, DataUrlToPart(url).value.mimeType)
  {
    var head := Split(url, ',')[0];
    assert DataUrlToPart(url).value.mimeType == MediaTypeOf(head);
    FirstField(url, ',');
    HeaderMediaType(head);
  }

  /** The payload of a parsed URL is absent without a comma, and otherwise is
      the text between the first comma and the next comma or the end. */
  lemma DataUrlToPartPayload(url: string)
    requires DataUrlToPart(url).Ok?
    ensures var head := Split(url, ',')[0];
            var d := DataUrlToPart(url).value.data;
            && (d.None? <==> ',' !in url)
            && (d.Some? ==>
                  && |head| < |url| && url[|head|] == ','
                  && OccursAt(url, d.value, |head| + 1) && ',' !in d.value
                  && (|head| + 1 + |d.value| == |url| || url[|head| + 1 + |d.value|] == ','))
  {
    var fields := Split(url, ',');
    SplitFirstField(url, ',');
    if |fields| > 1 {
      assert DataUrlToPart(url).value.data == PayloadOf(fields);
      SecondField(url, ',');
    }
  }

  /** The comma fields of a data URL are its header and its payload. */
  lemma DataUrlFields(d: InlineData)
    requires ',' !in d.mimeType && ',' !in d.data
    ensures Split(FormatDataUrl(d), ',') == ["data:" + d.mimeType + ";base64", d.data]
  {
    var head := "data:" + d.mimeType + ";base64";
    assert FormatDataUrl(d) == head + [','] + d.data;
    SplitAtFirstSeparator(head, ',', d.data);
    SplitWithoutSeparator(d.data, ',');
  }

  /** In `p:m;q` the second `:`-field is `m;q`, and its first `;`-field is `m`. */
  lemma SecondColonFieldHead(p: string, m: string, q: string)
    requires ':' !in p && ':' !in m && ':' !in q && ';' !in m
    ensures var colonFields := Split(p + [':'] + (m + [';'] + q), ':');
            |colonFields| == 2 && Split(colonFields[1], ';')[0] == m
  {
    SplitAtFirstSeparator(p, ':', m + [';'] + q);
    SplitWithoutSeparator(m + [';'] + q, ':');
    SplitAtFirstSeparator(m, ';', q);
  }

  /** The media type is recovered from the header of a data URL. */
  lemma DataUrlHeaderMediaType(m: string)
    requires ':' !in m && ';' !in m
    ensures var colonFields := Split("data:" + m + ";base64", ':');
            |colonFields| == 2 && Split(colonFields[1], ';')[0] == m
  {
    var p, q := "data", "base64";
    assert "data:" == p + [':'] && ";base64" == [';'] + q;
    assert "data:" + m + ";base64" == p + [':'] + (m + [';'] + q);
    SecondColonFieldHead(p, m, q);
  }

  /** Parsing inverts formatting for a media type without `:`, `;` or `,` and a
      payload without `,`. */
  lemma DataUrlRoundTrip(d: InlineData)
    requires ':' !in d.mimeType && ';' !in d.mimeType && ',' !in d.mimeType
    requires ',' !in d.data
    ensures DataUrlToPart(FormatDataUrl(d)) == Ok(InlinePart(d.mimeType, Some(d.data)))
  {
    DataUrlFields(d);
    DataUrlHeaderMediaType(d.mimeType);
  }

  /** A URL without any `:` cannot be parsed. */
  lemma DataUrlWithoutColonFails(url: string)
    requires ':' !in url
    ensures DataUrlToPart(url) == Err(ErrorValue(SplitOfUndefinedMessage))
  {
    var head := Split(url, ',')[0];
    assert ':' !in head by {
      assert head == url[..|head|];
    }
    SplitWithoutSeparator(head, ':');
  }

  /** The reference URL is present but cannot be parsed, so an image request
      fails before anything is sent. */
  predicate ReferenceFails(referenceImageUrl: Option<string>)
  {
    HasReference(referenceImageUrl) && DataUrlToPart(referenceImageUrl.value).Err?
  }

  /** The content parts an image request sends, or `None` when nothing is sent. */
  function ImageRequestParts(prompt: string, style: string, ratio: AspectRatio,
                             referenceImageUrl: Option<string>): Option<seq<RequestPart>>
  {
    if !HasReference(referenceImageUrl) then Some([TextPart(DefaultImageText(prompt, style, ratio))])
    else
      match DataUrlToPart(referenceImageUrl.value)
      case Err(_) => None
      case Ok(part) => Some([part, TextPart(ReferenceImageText(prompt, style, ratio))])
  }

  /** A request is sent unless the reference fails to parse. It ends with an
      instruction that holds the aspect ratio, the quoted prompt and the style
      keywords; with a reference image it starts with that image, parsed. */
  lemma ImageRequestCarriesSettings(prompt: string, style: string, ratio: AspectRatio,
                                    referenceImageUrl: Option<string>)
    ensures var sent := ImageRequestParts(prompt, style, ratio, referenceImageUrl);
            && (sent.None? <==> ReferenceFails(referenceImageUrl))
            && (sent.Some? ==>
                  var last := sent.value[|sent.value| - 1];
                  && |sent.value| == (if HasReference(referenceImageUrl) then 2 else 1)
                  && last.TextPart?
                  && Contains(last.text, ratio.Text())
                  && Contains(last.text, Quoted(prompt))
                  && Contains(last.text, style)
                  && (HasReference(referenceImageUrl) ==> sent.value[0] == DataUrlToPart(referenceImageUrl.value).value))
  {
    ImageTextsEmbedRequest(prompt, style, ratio);
  }

  /** Builds the content parts of an image request: the text instruction alone,
      or the reference image followed by the style-emulating instruction, and
      fails when the reference URL cannot be parsed. */
  method BuildContents(prompt: string, style: string, ratio: AspectRatio, referenceImageUrl: Option<string>)
    returns (r: Outcome<seq<RequestPart>>)
    ensures !HasReference(referenceImageUrl) ==> r == Ok([TextPart(DefaultImageText(prompt, style, ratio))])
    ensures HasReference(referenceImageUrl) ==>
              var part := DataUrlToPart(referenceImageUrl.value);
              if part.Err? then r == Err(part.thrown)
              else r == Ok([part.value, TextPart(ReferenceImageText(prompt, style, ratio))])
  {
    var fullPrompt := DefaultImageText(prompt, style, ratio);
    if HasReference(referenceImageUrl) {
      fullPrompt := ReferenceImageText(prompt, style, ratio);
    }
    var contentParts: seq<RequestPart> := [];
    if HasReference(referenceImageUrl) {
      var part := DataUrlToPart(referenceImageUrl.value);
      if part.Err? {
        return Err(part.thrown);
      }
      contentParts := contentParts + [part.value];
      assert contentParts == [part.value];
    }
    contentParts := contentParts + [TextPart(fullPrompt)];
    assert !HasReference(referenceImageUrl) ==> contentParts == [TextPart(fullPrompt)];
    assert HasReference(referenceImageUrl) ==>
             contentParts == [DataUrlToPart(referenceImageUrl.value).value, TextPart(fullPrompt)];
    r := Ok(contentParts);
  }

  /** `k` is the index of the first part carrying inline data. */
  predicate IsFirstInline(ps: seq<ResponsePart>, k: int)
  {
    0 <= k < |ps| && ps[k].inlineData.Some? && forall j :: 0 <= j < k ==> ps[j].inlineData.None?
  }

  /** The index of the first part with inline data, or `|ps|` when there is none. */
  function FirstInlineIndex(ps: seq<ResponsePart>): (k: nat)
    ensures k <= |ps|
    ensures forall j :: 0 <= j < k ==> ps[j].inlineData.None?
    ensures k < |ps| ==> IsFirstInline(ps, k)
  {
    if |ps| == 0 then 0
    else if ps[0].inlineData.Some? then 0
    else 1 + FirstInlineIndex(ps[1..])
  }

  /** The result an image answer's parts produce. */
  function ImageFromParts(parts: Option<seq<ResponsePart>>): Outcome<string>
  {
    match parts
    case None => Err(ErrorValue(NoContentPartsMessage))
    case Some(ps) =>
      var k := FirstInlineIndex(ps);
      if k == |ps| then Err(ErrorValue(NoImagesMessage))
      else Ok(FormatDataUrl(ps[k].inlineData.value))
  }

  /** Parts after the first inline image do not affect the result. */
  lemma ImageFromPartsIgnoresLaterParts(ps: seq<ResponsePart>, qs: seq<ResponsePart>)
    requires ImageFromParts(Some(ps)).Ok?
    ensures ImageFromParts(Some(ps + qs)) == ImageFromParts(Some(ps))
  {
    var k := FirstInlineIndex(ps);
    assert IsFirstInline(ps + qs, k);
    assert FirstInlineIndex(ps + qs) == k;
  }

  /** Turns the parts of an image answer into a data URL of the first inline
      image, with a distinct error for missing parts and for parts without an
      image. */
  method ExtractImageUrl(parts: Option<seq<ResponsePart>>) returns (r: Outcome<string>)
    ensures parts.None? ==> r == Err(ErrorValue(NoContentPartsMessage))
    ensures parts.Some? && (forall k :: 0 <= k < |parts.value| ==> parts.value[k].inlineData.None?) ==>
              r == Err(ErrorValue(NoImagesMessage))
    ensures parts.Some? ==>
              forall k :: IsFirstInline(parts.value, k) ==> r == Ok(FormatDataUrl(parts.value[k].inlineData.value))
    ensures r == ImageFromParts(parts)
  {
    if parts.None? {
      return Err(ErrorValue(NoContentPartsMessage));
    }
    var ps := parts.value;
    for i := 0 to |ps|
      invariant forall j :: 0 <= j < i ==> ps[j].inlineData.None?
    {
      if ps[i].inlineData.Some? {
        var data := ps[i].inlineData.value;
        assert IsFirstInline(ps, i);
        assert FirstInlineIndex(ps) == i;
        return Ok(FormatDataUrl(data));
      }
    }
    return Err(ErrorValue(NoImagesMessage));
  }

  /** The outcome of one image request given the service's answer to it. A
      successful result is always a data URL. */
  function ImageCallResult(referenceImageUrl: Option<string>, reply: ImageReply): (r: Outcome<string>)
    ensures r.Ok? ==> |r.value| >= 5 && r.value[..5] == "data:"
  {
    if HasReference(referenceImageUrl) && DataUrlToPart(referenceImageUrl.value).Err? then
      Err(DataUrlToPart(referenceImageUrl.value).thrown)
    else
      match reply
      case CallFailed(t) => Err(t)
      case Replied(parts) => ImageFromParts(parts)
  }

  /** One image request: the content parts it sends (none when the reference
      URL cannot be parsed, so that no request is made) and its outcome. */
  method GenerateImageFromPrompt(prompt: string, style: string, ratio: AspectRatio,
                                 referenceImageUrl: Option<string>, reply: ImageReply)
    returns (sent: Option<seq<RequestPart>>, r: Outcome<string>)
    ensures r == ImageCallResult(referenceImageUrl, reply)
    ensures sent == ImageRequestParts(prompt, style, ratio, referenceImageUrl)
    ensures sent.None? <==> HasReference(referenceImageUrl) && DataUrlToPart(referenceImageUrl.value).Err?
    ensures sent.Some? && !HasReference(referenceImageUrl) ==>
              sent.value == [TextPart(DefaultImageText(prompt, style, ratio))]
    ensures sent.Some? && HasReference(referenceImageUrl) ==>
              sent.value == [DataUrlToPart(referenceImageUrl.value).value, TextPart(ReferenceImageText(prompt, style, ratio))]
  {
    var contents := BuildContents(prompt, style, ratio, referenceImageUrl);
    if contents.Err? {
      return None, Err(contents.thrown);
    }
    sent := Some(contents.value);
    match reply {
      case CallFailed(t) =>
        r := Err(t);
      case Replied(parts) =>
        r := ExtractImageUrl(parts);
    }
  }
}
