/**
  The image relay (generate-image): it validates a prompt, forwards it trimmed to
  the image model, scans the parts of the first candidate for inline image data
  and an optional caption, and answers with a data URI.
 */
module GenerateImage {

  import opened Wrappers
  import opened Js
  import opened Relay

  /** The destructured request field. */
  datatype Fields = Fields(prompt: JsValue)

  /** A part's truthy `inlineData`, reduced to the template renderings of its
      `mimeType` and `data` properties: a property it lacks renders as "undefined", and
      None stands for a value whose conversion to a string throws. */
  datatype InlineData = InlineData(mimeType: Option<string>, data: Option<string>)

  /** Both properties of the inline data convert to strings. */
  predicate InlineRenders(d: InlineData)
  {
    d.mimeType.Some? && d.data.Some?
  }

  /** One element of the parts list. `NullishPart` is null or undefined, on which reading
      `inlineData` throws. Any other value is a `Part`: `inlineData` is None when that
      property is falsy, and `text` is the value of its `text` property. */
  datatype Part = NullishPart | Part(inlineData: Option<InlineData>, text: JsValue)

  /** `candidates?.[0]?.content?.parts || []`: `NoParts` when the chain breaks or ends in
      a falsy value, `NotIterable` for a truthy value `for ... of` rejects. A string is
      iterable: it is the list of its characters, each a `Part(None, Undefined)`. */
  datatype PartsField = NoParts | PartList(parts: seq<Part>) | NotIterable

  /** A successful upstream reply, reduced to its parts. */
  datatype Generated = Generated(parts: PartsField)

  /** The outcome of the part scan: it threw, or it ended with the two variables. */
  datatype Scan = Threw | Scanned(imageUrl: Option<string>, textContent: Option<JsValue>)

  const Model := "gemini-2.5-flash-image"

  /** Everything the handler does before the upstream call. */
  function ImagePlan(verb: string, request: RequestJson<Fields>, key: Option<string>): (p: Plan<UpstreamRequest>)
    ensures verb == "OPTIONS" ==> p == Respond(Preflight())
    ensures verb != "OPTIONS" && !request.Destructured? ==> p == Respond(Failure(500, Unexpected))
    ensures p.Respond? && verb != "OPTIONS" ==>
              && p.response.status in {400, 500} && p.response.headers == JsonHeaders
              && p.response.body.ErrorBody?
              && p.response.body.error in {PromptRequired, ConfigurationError, Unexpected}
    ensures p.Call? <==>
              && verb != "OPTIONS"
              && request.Destructured?
              && request.fields.prompt.Str?
              && !Blank(request.fields.prompt.s)
              && KeyConfigured(key)
    ensures p.Call? ==>
              p.request == UpstreamRequest(Model, key.value, Trim(request.fields.prompt.s))
  {
    if verb == "OPTIONS" then Respond(Preflight())
    else match request
      case Unreadable => Respond(Failure(500, Unexpected))
      case NullJson => Respond(Failure(500, Unexpected))
      case Destructured(f) =>
        if RejectsText(f.prompt) then Respond(Failure(400, PromptRequired))
        else
          var trimmedPrompt := Trim(f.prompt.s);
          if !KeyConfigured(key) then Respond(Failure(500, ConfigurationError))
          else Call(UpstreamRequest(Model, key.value, trimmedPrompt))
  }

  /** The URL made from a part's inline data. */
  function DataUri(d: InlineData): (u: string)
    requires InlineRenders(d)
    ensures |u| == 13 + |d.mimeType.value| + |d.data.value| && u[..5] == "data:"
    ensures u[5..5 + |d.mimeType.value|] == d.mimeType.value
    ensures u[5 + |d.mimeType.value|..13 + |d.mimeType.value|] == ";base64,"
    ensures u[13 + |d.mimeType.value|..] == d.data.value
  {
    "data:" + d.mimeType.value + ";base64," + d.data.value
  }

  /** A part the loop throws on: null or undefined, or inline data that does not render. */
  predicate Throws(p: Part)
  {
    p.NullishPart? || (p.inlineData.Some? && !InlineRenders(p.inlineData.value))
  }

  predicate HasImage(p: Part)
  {
    p.Part? && p.inlineData.Some?
  }

  /** A part whose text becomes the caption: no inline data and a truthy text. */
  predicate HasCaption(p: Part)
  {
    p.Part? && p.inlineData.None? && Truthy(p.text)
  }

  /** No part of the list makes the loop throw. */
  predicate ScanSafe(parts: seq<Part>)
  {
    forall j :: 0 <= j < |parts| ==> !Throws(parts[j])
  }

  /** What one part does to the two variables: it throws, or it changes at most the
      variable it is for. */
  function Step(acc: Scan, p: Part): (r: Scan)
    ensures r.Threw? <==> acc.Threw? || Throws(p)
    ensures r.Scanned? ==> (r.imageUrl == acc.imageUrl || HasImage(p))
    ensures r.Scanned? ==> (r.textContent == acc.textContent || HasCaption(p))
    ensures r.Scanned? && HasImage(p) ==> r.imageUrl == Some(DataUri(p.inlineData.value))
    ensures r.Scanned? && HasCaption(p) ==> r.textContent == Some(p.text)
  {
    match acc
    case Threw => Threw
    case Scanned(imageUrl, textContent) =>
      match p
      case NullishPart => Threw
      case Part(inlineData, text) =>
        if inlineData.Some? then
          if !InlineRenders(inlineData.value) then Threw
          else Scanned(Some(DataUri(inlineData.value)), textContent)
        else if Truthy(text) then Scanned(imageUrl, Some(text))
        else acc
  }

  /** The scan of `parts` from the start, both variables initially null. Whatever it keeps
      as the image is a data URI, and whatever it keeps as the caption is truthy. */
  function ScanSpec(parts: seq<Part>): (r: Scan)
    ensures parts == [] ==> r == Scanned(None, None)
    ensures r.Scanned? && r.imageUrl.Some? ==>
              |r.imageUrl.value| >= 13 && r.imageUrl.value[..5] == "data:"
    ensures r.Scanned? && r.textContent.Some? ==> Truthy(r.textContent.value)
  {
    if parts == [] then Scanned(None, None)
    else Step(ScanSpec(parts[..|parts| - 1]), parts[|parts| - 1])
  }

  /** The part loop: overwrites `imageUrl` on each part with inline data and `textContent`
      on each other part with a truthy text; a nullish part, or inline data that does not
      convert to a string, throws out of the loop. */
  method ScanParts(parts: seq<Part>) returns (r: Scan)
    ensures r == ScanSpec(parts)
  {
    var imageUrl: Option<string> := None;
    var textContent: Option<JsValue> := None;
    var i := 0;
    while i < |parts|
      invariant 0 <= i <= |parts|
      invariant ScanSpec(parts[..i]) == Scanned(imageUrl, textContent)
    {
      assert parts[..i + 1][..i] == parts[..i];
      match parts[i]
      case NullishPart =>
        ThrowingStops(parts, i + 1);
        return Threw;
      case Part(inlineData, text) =>
        if inlineData.Some? {
          if !InlineRenders(inlineData.value) {
            ThrowingStops(parts, i + 1);
            return Threw;
          }
          imageUrl := Some(DataUri(inlineData.value));
        } else if Truthy(text) {
          textContent := Some(text);
        }
      i := i + 1;
    }
    assert parts[..i] == parts;
    r := Scanned(imageUrl, textContent);
  }

  /** Once the scan of a prefix has thrown, the scan of the whole list has. */
  lemma {:induction false} ThrowingStops(parts: seq<Part>, i: nat)
    requires i <= |parts| && ScanSpec(parts[..i]).Threw?
    ensures ScanSpec(parts).Threw?
    decreases |parts| - i
  {
    if i < |parts| {
      assert parts[..i + 1][..i] == parts[..i];
      ThrowingStops(parts, i + 1);
    } else {
      assert parts[..i] == parts;
    }
  }

  /** The scan throws exactly when some part throws. */
  lemma {:induction false} ScanThrowsIffThrowingPart(parts: seq<Part>)
    ensures ScanSpec(parts).Threw? <==> !ScanSafe(parts)
  {
    if parts != [] {
      var init := parts[..|parts| - 1];
      var last := parts[|parts| - 1];
      ScanThrowsIffThrowingPart(init);
      assert ScanSpec(parts) == Step(ScanSpec(init), last);
      assert ScanSafe(parts) <==> ScanSafe(init) && !Throws(last) by {
        assert parts == init + [last];
        if ScanSafe(init) && !Throws(last) {
          forall j | 0 <= j < |parts|
            ensures !Throws(parts[j])
          {
            if j < |init| {
              assert parts[j] == init[j];
            }
          }
        }
      }
    }
  }

  /** The image is made from the last part with inline data. */
  lemma {:induction false} LastImageWins(parts: seq<Part>, k: nat)
    requires ScanSafe(parts)
    requires k < |parts| && HasImage(parts[k])
    requires forall j :: k < j < |parts| ==> !HasImage(parts[j])
    ensures ScanSpec(parts).Scanned?
    ensures ScanSpec(parts).imageUrl == Some(DataUri(parts[k].inlineData.value))
  {
    var init := parts[..|parts| - 1];
    ScanThrowsIffThrowingPart(init);
    if k < |parts| - 1 {
      LastImageWins(init, k);
    }
  }

  /** Without a part carrying inline data there is no image. */
  lemma {:induction false} NoImagePart(parts: seq<Part>)
    requires ScanSafe(parts)
    requires forall j :: 0 <= j < |parts| ==> !HasImage(parts[j])
    ensures ScanSpec(parts).Scanned? && ScanSpec(parts).imageUrl.None?
  {
    if parts != [] {
      NoImagePart(parts[..|parts| - 1]);
    }
  }

  /** The caption is the text of the last part without inline data whose text is truthy;
      a part with both contributes only its image. */
  lemma {:induction false} LastCaptionWins(parts: seq<Part>, k: nat)
    requires ScanSafe(parts)
    requires k < |parts| && HasCaption(parts[k])
    requires forall j :: k < j < |parts| ==> !HasCaption(parts[j])
    ensures ScanSpec(parts).Scanned?
    ensures ScanSpec(parts).textContent == Some(parts[k].text)
  {
    var init := parts[..|parts| - 1];
    ScanThrowsIffThrowingPart(init);
    if k < |parts| - 1 {
      LastCaptionWins(init, k);
    }
  }

  /** Without a caption part the caption stays null. */
  lemma {:induction false} NoCaptionPart(parts: seq<Part>)
    requires ScanSafe(parts)
    requires forall j :: 0 <= j < |parts| ==> !HasCaption(parts[j])
    ensures ScanSpec(parts).Scanned? && ScanSpec(parts).textContent.None?
  {
    if parts != [] {
      NoCaptionPart(parts[..|parts| - 1]);
    }
  }

  /** The answer the scan outcome gives: no image is a failure whatever the captions. */
  function Answer(scan: Scan): (r: Response)
    ensures r.headers == JsonHeaders
    ensures r.status == 200 <==> scan.Scanned? && scan.imageUrl.Some?
    ensures r.status != 200 ==> r.status == 500 && r.body.ErrorBody?
    ensures r.status == 200 ==> r.body == ImageBody(scan.imageUrl.value, scan.textContent)
    ensures r.body.ErrorBody? ==> (r.body.error == Unexpected <==> scan.Threw?)
  {
    match scan
    case Threw => Failure(500, Unexpected)
    case Scanned(imageUrl, textContent) =>
      if imageUrl.None? then Failure(500, ImageFailed)
      else Success(ImageBody(imageUrl.value, textContent))
  }

  /** The parts list the loop runs over, when `for ... of` accepts the value. */
  function PartsOf(g: Generated): (r: Option<seq<Part>>)
    ensures r.None? <==> g.parts.NotIterable?
    ensures g.parts.NoParts? ==> r == Some([])
    ensures g.parts.PartList? ==> r == Some(g.parts.parts)
  {
    match g.parts
    case NoParts => Some([])
    case PartList(parts) => Some(parts)
    case NotIterable => None
  }

  /** Everything the handler does with the upstream outcome. */
  function ImageFinish(reply: Upstream<Generated>): (r: Response)
    ensures reply.FetchFailed? ==> r == Failure(500, Unexpected)
    ensures reply.Replied? && !IsOk(reply.status) ==> r == Classify(reply.status, ImageFailed)
    ensures reply.Replied? && IsOk(reply.status) && reply.body.Malformed? ==> r == Failure(500, Unexpected)
    ensures (reply.Replied? && IsOk(reply.status) && reply.body.Parsed?
             && reply.body.value.parts.NotIterable?) ==> r == Failure(500, Unexpected)
    ensures r.headers == JsonHeaders
    ensures r.status in {200, 429, 500, 503}
    ensures r.status == 200 <==> r.body.ImageBody?
    ensures r.body.ImageBody? || r.body.ErrorBody?
    ensures r.body.ErrorBody? ==>
              r.body.error in {RateLimited, AuthenticationFailed, Unavailable, ImageFailed, Unexpected}
    ensures r.body.ImageBody? ==>
              && reply.Replied? && IsOk(reply.status) && reply.body.Parsed?
              && PartsOf(reply.body.value).Some?
              && ScanSpec(PartsOf(reply.body.value).value).Scanned?
              && ScanSpec(PartsOf(reply.body.value).value).imageUrl == Some(r.body.imageUrl)
              && ScanSpec(PartsOf(reply.body.value).value).textContent == r.body.text
  {
    match reply
    case FetchFailed => Failure(500, Unexpected)
    case Replied(status, body) =>
      if !IsOk(status) then Classify(status, ImageFailed)
      else match body
        case Malformed => Failure(500, Unexpected)
        case Parsed(g) =>
          match PartsOf(g)
          case None => Failure(500, Unexpected)
          case Some(parts) => Answer(ScanSpec(parts))
  }

  /** The generate-image handler as a function of its inputs. */
  function ImageResponse(verb: string, request: RequestJson<Fields>, key: Option<string>,
                         reply: Upstream<Generated>): (r: Response)
    ensures r.status in {200, 400, 429, 500, 503}
    ensures r.status == 200 <==> r.body.NoBody? || r.body.ImageBody?
    ensures r.body.NoBody? <==> verb == "OPTIONS"
    ensures r.body.NoBody? ==> r.headers == CorsHeaders
    ensures !r.body.NoBody? ==> r.headers == JsonHeaders
    ensures r.body.ErrorBody? ==>
              r.body.error in {PromptRequired, ConfigurationError, RateLimited,
                               AuthenticationFailed, Unavailable, ImageFailed, Unexpected}
    ensures !r.body.PromptBody?
    ensures r.body.ImageBody? ==> |r.body.imageUrl| >= 13 && r.body.imageUrl[..5] == "data:"
  {
    match ImagePlan(verb, request, key)
    case Respond(response) => response
    case Call(_) => ImageFinish(reply)
  }

  /** The generate-image handler: the guards, then the part loop over a successful reply. */
  method HandleImage(verb: string, request: RequestJson<Fields>, key: Option<string>,
                     reply: Upstream<Generated>) returns (resp: Response)
    ensures resp == ImageResponse(verb, request, key, reply)
  {
    var plan := ImagePlan(verb, request, key);
    if plan.Respond? {
      return plan.response;
    }
    if reply.Replied? && IsOk(reply.status) && reply.body.Parsed? && PartsOf(reply.body.value).Some? {
      var scan := ScanParts(PartsOf(reply.body.value).value);
      resp := Answer(scan);
    } else {
      resp := ImageFinish(reply);
    }
  }

  /** A request rejected before the upstream call gets the same answer whatever
      upstream would have said: no call is made. */
  lemma ImageRejectedWithoutUpstream(verb: string, request: RequestJson<Fields>, key: Option<string>,
                                     reply1: Upstream<Generated>, reply2: Upstream<Generated>)
    requires ImagePlan(verb, request, key).Respond?
    ensures ImageResponse(verb, request, key, reply1) == ImageResponse(verb, request, key, reply2)
  {
  }

  /** A missing, non-string or blank prompt is a 400, whatever the key or upstream. */
  lemma PromptRequiredFirst(request: RequestJson<Fields>, verb: string, key: Option<string>,
                            reply: Upstream<Generated>)
    requires verb != "OPTIONS" && request.Destructured?
    ensures (ImageResponse(verb, request, key, reply) == Failure(400, PromptRequired))
              <==> !(request.fields.prompt.Str? && !Blank(request.fields.prompt.s))
  {
    if !RejectsText(request.fields.prompt) {
      match ImagePlan(verb, request, key)
      case Respond(response) =>
        assert response.body.error != PromptRequired;
      case Call(_) =>
        assert ImageResponse(verb, request, key, reply) == ImageFinish(reply);
    }
  }

  /** A missing or empty key is a configuration error once the prompt is valid. */
  lemma ImageMissingKey(p: string, verb: string, key: Option<string>, reply: Upstream<Generated>)
    requires verb != "OPTIONS" && !Blank(p)
    ensures (ImageResponse(verb, Destructured(Fields(Str(p))), key, reply) == Failure(500, ConfigurationError))
              <==> !KeyConfigured(key)
  {
  }

  /** A failed upstream reply is answered by the shared classification, and its body
      never matters. */
  lemma ImageFailureNotEchoed(verb: string, request: RequestJson<Fields>, key: Option<string>,
                              status: int, body1: Parse<Generated>, body2: Parse<Generated>)
    requires ImagePlan(verb, request, key).Call?
    requires !IsOk(status)
    ensures ImageResponse(verb, request, key, Replied(status, body1)) == Classify(status, ImageFailed)
    ensures ImageResponse(verb, request, key, Replied(status, body1))
         == ImageResponse(verb, request, key, Replied(status, body2))
  {
  }

  /** A successful answer: the image comes from the last part with inline data, and the
      caption is the text of the last part without inline data whose text is truthy, or
      null when there is no such part. */
  lemma ImageFromLastInlinePart(verb: string, request: RequestJson<Fields>, key: Option<string>,
                                status: int, parts: seq<Part>, k: nat, c: Option<nat>)
    requires ImagePlan(verb, request, key).Call? && IsOk(status)
    requires ScanSafe(parts)
    requires k < |parts| && HasImage(parts[k])
    requires forall j :: k < j < |parts| ==> !HasImage(parts[j])
    requires c.Some? ==> c.value < |parts| && HasCaption(parts[c.value])
    requires c.Some? ==> forall j :: c.value < j < |parts| ==> !HasCaption(parts[j])
    requires c.None? ==> forall j :: 0 <= j < |parts| ==> !HasCaption(parts[j])
    ensures ImageResponse(verb, request, key, Replied(status, Parsed(Generated(PartList(parts)))))
         == Success(ImageBody(DataUri(parts[k].inlineData.value),
                              if c.Some? then Some(parts[c.value].text) else None))
  {
    LastImageWins(parts, k);
    if c.Some? {
      LastCaptionWins(parts, c.value);
    } else {
      NoCaptionPart(parts);
    }
    var reply := Replied(status, Parsed(Generated(PartList(parts))));
    assert ImageResponse(verb, request, key, reply) == ImageFinish(reply);
    assert ImageFinish(reply) == Answer(ScanSpec(parts));
  }

  /** Without inline data the answer is 500 "Failed to generate image", even when text
      parts were seen; a missing parts list counts as empty. */
  lemma NoImageIsFailure(verb: string, request: RequestJson<Fields>, key: Option<string>,
                         status: int, parts: seq<Part>)
    requires ImagePlan(verb, request, key).Call? && IsOk(status)
    requires ScanSafe(parts)
    requires forall j :: 0 <= j < |parts| ==> !HasImage(parts[j])
    ensures ImageResponse(verb, request, key, Replied(status, Parsed(Generated(PartList(parts)))))
         == Failure(500, ImageFailed)
    ensures ImageResponse(verb, request, key, Replied(status, Parsed(Generated(NoParts))))
         == Failure(500, ImageFailed)
  {
    NoImagePart(parts);
    var reply := Replied(status, Parsed(Generated(PartList(parts))));
    assert ImageResponse(verb, request, key, reply) == ImageFinish(reply);
  }

  /** A part that makes the loop throw, a null or undefined element or inline data that
      does not convert to a string, reaches the catch-all. */
  lemma ThrowingPartIsUnexpected(verb: string, request: RequestJson<Fields>, key: Option<string>,
                                 status: int, parts: seq<Part>, k: nat)
    requires ImagePlan(verb, request, key).Call? && IsOk(status)
    requires k < |parts| && Throws(parts[k])
    ensures ImageResponse(verb, request, key, Replied(status, Parsed(Generated(PartList(parts)))))
         == Failure(500, Unexpected)
  {
    ScanThrowsIffThrowingPart(parts);
    var reply := Replied(status, Parsed(Generated(PartList(parts))));
    assert ImageResponse(verb, request, key, reply) == ImageFinish(reply);
  }

  /** A request body that cannot be read, or is JSON null, reaches the catch-all. */
  lemma ImageUnreadableBody(verb: string, key: Option<string>, reply: Upstream<Generated>)
    requires verb != "OPTIONS"
    ensures ImageResponse(verb, Unreadable, key, reply) == Failure(500, Unexpected)
    ensures ImageResponse(verb, NullJson, key, reply) == Failure(500, Unexpected)
  {
  }

  /** A PNG part with payload X, followed by a caption part, gives the URL
      data:image/png;base64,X and that caption. */
  lemma PngExample(caption: string)
    requires caption != ""
    ensures ScanSpec([Part(Some(InlineData(Some("image/png"), Some("X"))), Undefined), Part(None, Str(caption))])
         == Scanned(Some("data:image/png;base64,X"), Some(Str(caption)))
  {
    var ps := [Part(Some(InlineData(Some("image/png"), Some("X"))), Undefined), Part(None, Str(caption))];
    assert ps[..1][..0] == [];
    assert ps[..|ps| - 1] == ps[..1];
    assert DataUri(InlineData(Some("image/png"), Some("X"))) == "data:image/png;base64,X";
    assert ScanSpec(ps[..1]) == Scanned(Some("data:image/png;base64,X"), None);
  }
}
