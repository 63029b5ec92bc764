/**
  The prompt-enrichment relay (generate-prompt): it validates a description and
  optional style attributes, composes one instruction for the text model, and
  returns the model's first candidate text, trimmed.
 */
module GeneratePrompt {

  import opened Wrappers
  import opened Js
  import opened Relay

  /** The destructured request fields. Only `description` and `style` are validated;
      the other attributes may be any JSON value. */
  datatype Fields = Fields(
    description: JsValue,
    style: JsValue,
    mood: JsValue,
    lighting: JsValue,
    colorTone: JsValue,
    cameraAngle: JsValue)

  /** A successful upstream reply, reduced to the value of
      `candidates?.[0]?.content?.parts?.[0]?.text` (Undefined when the chain breaks). */
  datatype Generated = Generated(firstText: JsValue)

  const Model := "gemini-1.5-flash"

  /** The fixed persona and its seven-point structure. */
  const SystemPrompt := JoinLines([
    "You are an expert image prompt engineer. Your job is to take a simple user description and transform it into a detailed, professional image generation prompt.",
    "",
    "You MUST output ONLY the final prompt text. No explanations, no labels, no markdown.",
    "",
    "Structure your prompt with these elements:",
    "1. Subject & composition (what's in the scene, positioning)",
    "2. Style & medium (the artistic style requested)",
    "3. Mood & atmosphere (emotional tone)",
    "4. Lighting (type and direction of light)",
    "5. Color palette (dominant colors and tones)",
    "6. Camera/perspective (angle, lens type, depth of field)",
    "7. Quality keywords (e.g., \"highly detailed\", \"8K\", \"masterpiece\")",
    "",
    "Combine everything into one flowing, comma-separated prompt paragraph."])

  const Closing := "Generate a detailed image generation prompt based on the above."

  /** The style guard: truthy and not a string. */
  predicate RejectsStyle(v: JsValue)
    ensures RejectsStyle(v) <==> v.OtherTruthy? || v.Unrenderable?
  {
    Truthy(v) && !v.Str?
  }

  /** Every attribute the user message interpolates converts to a string. */
  predicate AttributesRender(f: Fields)
  {
    Renders(f.style) && Renders(f.mood) && Renders(f.lighting) && Renders(f.colorTone)
    && Renders(f.cameraAngle)
  }

  /** One attribute line of the user message: labelled when the attribute is truthy,
      empty otherwise. */
  function Line(heading: string, v: JsValue): (r: string)
    requires heading != "" && Renders(v)
    ensures r == [] <==> !Truthy(v)
    ensures Truthy(v) ==> |heading| <= |r| && r[..|heading|] == heading && r[|heading|..] == Shown(v)
  {
    if Truthy(v) then heading + Shown(v) else ""
  }

  /** The user message for the trimmed description `d`: the description line, the five
      attribute lines and a blank line, then the closing sentence. */
  function UserMessage(d: string, f: Fields): (m: string)
    requires AttributesRender(f)
    ensures |m| >= 14 + |d| + |Closing| && m[..14 + |d|] == "Description: " + d + "\n"
    ensures m[|m| - |Closing|..] == Closing
  {
    JoinLines([
      "Description: " + d,
      Line("Style: ", f.style),
      Line("Mood: ", f.mood),
      Line("Lighting: ", f.lighting),
      Line("Color tone: ", f.colorTone),
      Line("Camera angle: ", f.cameraAngle),
      ""])
    + "\n" + Closing
  }

  /** The single instruction sent upstream: the system prompt, a blank line, the user message. */
  function Instruction(d: string, f: Fields): (t: string)
    requires AttributesRender(f)
    ensures |t| == |SystemPrompt| + 2 + |UserMessage(d, f)|
    ensures t[..|SystemPrompt|] == SystemPrompt
    ensures t[|SystemPrompt|..|SystemPrompt| + 2] == "\n\n"
    ensures t[|SystemPrompt| + 2..] == UserMessage(d, f)
  {
    SystemPrompt + "\n\n" + UserMessage(d, f)
  }

  /** The upstream call the relay decides on: the key, the trimmed description and the
      attributes the instruction is composed from. */
  datatype Composition = Composition(key: string, description: string, fields: Fields)

  /** The request that goes out for a composition. */
  function Outbound(c: Composition): (q: UpstreamRequest)
    requires AttributesRender(c.fields)
    ensures q.model == Model && q.key == c.key
    ensures Lines(q.text) == Lines(SystemPrompt) + [""] + Lines(UserMessage(c.description, c.fields))
  {
    InstructionLayout(c.description, c.fields);
    UpstreamRequest(Model, c.key, Instruction(c.description, c.fields))
  }

  /** Everything the handler does before the upstream call. */
  function PromptPlan(verb: string, request: RequestJson<Fields>, key: Option<string>): (p: Plan<Composition>)
    ensures verb == "OPTIONS" ==> p == Respond(Preflight())
    ensures verb != "OPTIONS" && !request.Destructured? ==> p == Respond(Failure(500, Unexpected))
    ensures p.Respond? && verb != "OPTIONS" ==>
              && p.response.status in {400, 500} && p.response.headers == JsonHeaders
              && p.response.body.ErrorBody?
              && p.response.body.error in {DescriptionRequired, InvalidStyle, ConfigurationError, Unexpected}
    ensures p.Call? <==>
              && verb != "OPTIONS"
              && request.Destructured?
              && request.fields.description.Str?
              && !Blank(request.fields.description.s)
              && !request.fields.style.OtherTruthy? && !request.fields.style.Unrenderable?
              && KeyConfigured(key)
              && AttributesRender(request.fields)
    ensures p.Call? ==>
              && p.request == Composition(key.value, Trim(request.fields.description.s), request.fields)
              && AttributesRender(p.request.fields)
  {
    if verb == "OPTIONS" then Respond(Preflight())
    else match request
      case Unreadable => Respond(Failure(500, Unexpected))
      case NullJson => Respond(Failure(500, Unexpected))
      case Destructured(f) =>
        if RejectsText(f.description) then Respond(Failure(400, DescriptionRequired))
        else
          var d := Trim(f.description.s);
          if RejectsStyle(f.style) then Respond(Failure(400, InvalidStyle))
          else if !KeyConfigured(key) then Respond(Failure(500, ConfigurationError))
          // composing the user message converts each truthy attribute to a string
          else if !AttributesRender(f) then Respond(Failure(500, Unexpected))
          else Call(Composition(key.value, d, f))
  }

  /** Everything the handler does with the upstream outcome. */
  function PromptFinish(reply: Upstream<Generated>): (r: Response)
    ensures reply.FetchFailed? ==> r == Failure(500, Unexpected)
    ensures reply.Replied? && !IsOk(reply.status) ==> r == Classify(reply.status, PromptFailed)
    ensures reply.Replied? && IsOk(reply.status) && reply.body.Malformed? ==> r == Failure(500, Unexpected)
    ensures r.status in {200, 429, 500, 503} && r.headers == JsonHeaders
    ensures r.body.PromptBody? || r.body.ErrorBody?
    ensures r.status == 200 <==> r.body.PromptBody?
    ensures r.body.ErrorBody? ==>
              r.body.error in {RateLimited, AuthenticationFailed, Unavailable, PromptFailed, Unexpected}
    ensures r.body.PromptBody? <==>
              && reply.Replied? && IsOk(reply.status) && reply.body.Parsed?
              && reply.body.value.firstText.Str? && !Blank(reply.body.value.firstText.s)
    ensures r.body.PromptBody? ==>
              && r == Success(PromptBody(Trim(reply.body.value.firstText.s)))
              && r.body.prompt != [] && Trimmed(r.body.prompt)
  {
    match reply
    case FetchFailed => Failure(500, Unexpected)
    case Replied(status, body) =>
      if !IsOk(status) then Classify(status, PromptFailed)
      else match body
        case Malformed => Failure(500, Unexpected)
        case Parsed(Generated(text)) =>
          match text
          case Undefined => Failure(500, PromptFailed)
          case Null => Failure(500, PromptFailed)
          case Str(s) =>
            var prompt := Trim(s);
            if prompt == "" then Failure(500, PromptFailed) else Success(PromptBody(prompt))
          // `trim` is not a function on any other value: the call throws.
          case _ => Failure(500, Unexpected)
  }

  /** The generate-prompt handler. `verb` is the HTTP method, `key` the environment
      lookup and `reply` what the upstream call yields if it is made. */
  function HandlePrompt(verb: string, request: RequestJson<Fields>, key: Option<string>,
                        reply: Upstream<Generated>): (r: Response)
    ensures r.status in {200, 400, 429, 500, 503}
    ensures r.status == 200 <==> r.body.NoBody? || r.body.PromptBody?
    ensures r.body.NoBody? <==> verb == "OPTIONS"
    ensures r.body.NoBody? ==> r.headers == CorsHeaders
    ensures !r.body.NoBody? ==> r.headers == JsonHeaders
    ensures r.body.ErrorBody? ==>
              r.body.error in {DescriptionRequired, InvalidStyle, ConfigurationError, RateLimited,
                               AuthenticationFailed, Unavailable, PromptFailed, Unexpected}
    ensures !r.body.ImageBody?
    ensures r.body.PromptBody? ==> r.body.prompt != [] && Trimmed(r.body.prompt)
  {
    match PromptPlan(verb, request, key)
    case Respond(response) => response
    case Call(_) => PromptFinish(reply)
  }

  /** A request rejected before the upstream call gets the same answer whatever
      upstream would have said: no call is made. */
  lemma RejectedWithoutUpstream(verb: string, request: RequestJson<Fields>, key: Option<string>,
                                 reply1: Upstream<Generated>, reply2: Upstream<Generated>)
    requires PromptPlan(verb, request, key).Respond?
    ensures HandlePrompt(verb, request, key, reply1) == HandlePrompt(verb, request, key, reply2)
  {
  }

  /** A missing, non-string or blank description is a 400, whatever the key or upstream. */
  lemma DescriptionRequiredFirst(request: RequestJson<Fields>, verb: string, key: Option<string>,
                                 reply: Upstream<Generated>)
    requires verb != "OPTIONS" && request.Destructured?
    ensures (HandlePrompt(verb, request, key, reply) == Failure(400, DescriptionRequired))
              <==> !(request.fields.description.Str? && !Blank(request.fields.description.s))
  {
    var p := PromptPlan(verb, request, key);
    if !RejectsText(request.fields.description) {
      match p
      case Respond(response) =>
        assert response.body.error != DescriptionRequired;
      case Call(_) =>
        assert HandlePrompt(verb, request, key, reply) == PromptFinish(reply);
    }
  }

  /** Of the optional attributes only `style` is type-checked: with a good description,
      the 400 "Invalid style parameter" happens exactly for a truthy non-string style. */
  lemma OnlyStyleIsChecked(f: Fields, verb: string, key: Option<string>, reply: Upstream<Generated>)
    requires verb != "OPTIONS"
    requires f.description.Str? && !Blank(f.description.s)
    ensures (HandlePrompt(verb, Destructured(f), key, reply) == Failure(400, InvalidStyle))
              <==> f.style.OtherTruthy? || f.style.Unrenderable?
  {
  }

  /** A missing or empty key is a configuration error once the input is valid. */
  lemma MissingKey(f: Fields, verb: string, key: Option<string>, reply: Upstream<Generated>)
    requires verb != "OPTIONS"
    requires f.description.Str? && !Blank(f.description.s) && !RejectsStyle(f.style)
    ensures (HandlePrompt(verb, Destructured(f), key, reply) == Failure(500, ConfigurationError))
              <==> !KeyConfigured(key)
  {
  }

  /** With valid input and a key, an attribute whose conversion to a string throws stops
      the composition before the upstream call, and the answer is the catch-all 500; the
      call is made exactly when no attribute throws. */
  lemma UnrenderableAttribute(f: Fields, verb: string, key: Option<string>, reply: Upstream<Generated>)
    requires verb != "OPTIONS"
    requires f.description.Str? && !Blank(f.description.s) && !RejectsStyle(f.style) && KeyConfigured(key)
    ensures PromptPlan(verb, Destructured(f), key).Call? <==> AttributesRender(f)
    ensures !AttributesRender(f) ==>
              HandlePrompt(verb, Destructured(f), key, reply) == Failure(500, Unexpected)
  {
  }

  /** Line by line, the user message is the description, one line per attribute
      (empty when the attribute is falsy), a blank line and then the closing sentence,
      provided neither the description nor a rendered attribute spans lines. */
  lemma {:induction false} UserMessageLayout(d: string, f: Fields)
    requires '\n' !in d
    requires RendersOnOneLine(f.style) && RendersOnOneLine(f.mood) && RendersOnOneLine(f.lighting)
    requires RendersOnOneLine(f.colorTone) && RendersOnOneLine(f.cameraAngle)
    ensures Lines(UserMessage(d, f)) == [
              "Description: " + d,
              Line("Style: ", f.style),
              Line("Mood: ", f.mood),
              Line("Lighting: ", f.lighting),
              Line("Color tone: ", f.colorTone),
              Line("Camera angle: ", f.cameraAngle),
              ""] + Lines(Closing)
  {
    var l0 := "Description: " + d;
    assert '\n' !in l0 by { assert l0[13..] == d; }
    var l1 := Line("Style: ", f.style);
    var l2 := Line("Mood: ", f.mood);
    var l3 := Line("Lighting: ", f.lighting);
    var l4 := Line("Color tone: ", f.colorTone);
    var l5 := Line("Camera angle: ", f.cameraAngle);
    LineIsOneLine("Style: ", f.style);
    LineIsOneLine("Mood: ", f.mood);
    LineIsOneLine("Lighting: ", f.lighting);
    LineIsOneLine("Color tone: ", f.colorTone);
    LineIsOneLine("Camera angle: ", f.cameraAngle);
    var ls := [l0, l1, l2, l3, l4, l5, ""];
    assert forall i :: 0 <= i < |ls| ==> '\n' !in ls[i];
    LinesOfJoinLines(ls);
    LinesOfJoin(JoinLines(ls), Closing);
  }

  /** A value whose rendering, if any, holds no line feed. */
  predicate RendersOnOneLine(v: JsValue)
  {
    Renders(v) && (Truthy(v) ==> '\n' !in Shown(v))
  }

  /** An attribute line spans one line when its rendering does. */
  lemma LineIsOneLine(heading: string, v: JsValue)
    requires heading != "" && '\n' !in heading
    requires RendersOnOneLine(v)
    ensures '\n' !in Line(heading, v)
  {
  }

  /** The instruction opens with the system prompt and continues, after a blank line,
      with the lines of the user message. */
  lemma InstructionLayout(d: string, f: Fields)
    requires AttributesRender(f)
    ensures Lines(Instruction(d, f)) == Lines(SystemPrompt) + [""] + Lines(UserMessage(d, f))
  {
    LinesOfParagraphs(SystemPrompt, UserMessage(d, f));
  }

  /** A failed upstream reply is answered by the shared classification, and its body
      never matters. */
  lemma UpstreamFailureNotEchoed(verb: string, request: RequestJson<Fields>, key: Option<string>,
                                 status: int, body1: Parse<Generated>, body2: Parse<Generated>)
    requires PromptPlan(verb, request, key).Call?
    requires !IsOk(status)
    ensures HandlePrompt(verb, request, key, Replied(status, body1)) == Classify(status, PromptFailed)
    ensures HandlePrompt(verb, request, key, Replied(status, body1))
         == HandlePrompt(verb, request, key, Replied(status, body2))
  {
  }

  /** The success answer is the first candidate text, trimmed. */
  lemma SuccessIsTrimmedFirstText(verb: string, request: RequestJson<Fields>, key: Option<string>,
                                  status: int, text: string)
    requires PromptPlan(verb, request, key).Call?
    requires IsOk(status) && !Blank(text)
    ensures HandlePrompt(verb, request, key, Replied(status, Parsed(Generated(Str(text)))))
         == Success(PromptBody(Trim(text)))
  {
    var reply := Replied(status, Parsed(Generated(Str(text))));
    assert HandlePrompt(verb, request, key, reply) == PromptFinish(reply);
  }

  /** A missing or blank first text is a 500 "Failed to generate prompt", never a 200 with an
      empty prompt; a text that is not a string makes trim() throw, which is the catch-all 500. */
  lemma NoUsableText(verb: string, request: RequestJson<Fields>, key: Option<string>,
                     status: int, text: JsValue)
    requires PromptPlan(verb, request, key).Call?
    requires IsOk(status) && !(text.Str? && !Blank(text.s))
    ensures var r := HandlePrompt(verb, request, key, Replied(status, Parsed(Generated(text))));
            r == Failure(500, if text.Undefined? || text.Null? || text.Str? then PromptFailed else Unexpected)
  {
    var reply := Replied(status, Parsed(Generated(text)));
    assert HandlePrompt(verb, request, key, reply) == PromptFinish(reply);
    if text.Str? {
      assert Trim(text.s) == "";
    }
  }

  /** A body that cannot be read, or the JSON literal null, reaches the catch-all. */
  lemma UnreadableBody(verb: string, key: Option<string>, reply: Upstream<Generated>)
    requires verb != "OPTIONS"
    ensures HandlePrompt(verb, Unreadable, key, reply) == Failure(500, Unexpected)
    ensures HandlePrompt(verb, NullJson, key, reply) == Failure(500, Unexpected)
  {
  }
}
