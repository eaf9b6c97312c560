/** Assembling a streamed message frame by frame, against extracting it whole
    (openjax-core/src/model/anthropic_messages.rs). */
module AnthropicStream {
  import opened Common

  // ---- Payloads, as far as the code looks into them ----------------------

  datatype BlockField = BlockField(
    ty: Option<string>, id: Option<string>, name: Option<string>, text: Option<string>, thinking: Option<string>)

  datatype DeltaField = DeltaField(
    text: Option<string>, thinking: Option<string>, partialJson: Option<string>, stopReason: Option<string>)

  datatype Frame = Frame(ty: Option<string>, block: Option<BlockField>, delta: Option<DeltaField>)

  /** JSON values of tool arguments: how a text is parsed, and the empty object. */
  datatype Codec<!J> = Codec(parse: string -> Option<J>, emptyObject: J)

  function ParseArgs<J>(c: Codec<J>, text: string): J {
    match c.parse(text) case Some(v) => v case None => c.emptyObject
  }

  datatype Content<J> = Text(text: string) | ToolUse(id: string, name: string, input: J)

  datatype Event =
    | TextDelta(text: string)
    | Reasoning(text: string)
    | ToolUseStart(id: string, name: string)
    | ToolArgsDelta(id: string, delta: string)
    | ToolUseEnd(id: string)

  datatype State<J> = State(
    assembled: string,
    thinking: string,
    blocks: seq<Content<J>>,
    current: Option<string>,
    pendingId: string,
    pendingName: string,
    pendingArgs: string,
    stopReason: Option<string>,
    sawStop: bool,
    sent: seq<Event>)

  function Init<J>(): State<J> {
    State("", "", [], None, "", "", "", None, false, [])
  }

  // ---- Reading one payload -----------------------------------------------

  function NonEmpty(s: Option<string>): Option<string> {
    if s == Some("") then None else s
  }

  function DeltaText(f: Frame): Option<string> {
    var fromDelta := if f.delta.Some? then NonEmpty(f.delta.value.text) else None;
    if fromDelta.Some? then fromDelta
    else if f.ty == Some("content_block_start") && f.block.Some? then NonEmpty(f.block.value.text)
    else None
  }

  function DeltaThinking(f: Frame): Option<string> {
    var fromDelta := if f.delta.Some? then NonEmpty(f.delta.value.thinking) else None;
    if fromDelta.Some? then fromDelta
    else if f.ty == Some("content_block_start") && f.block.Some? && f.block.value.ty == Some("thinking")
    then NonEmpty(f.block.value.thinking)
    else None
  }

  function OrEmpty(s: Option<string>): string {
    match s case Some(v) => v case None => ""
  }

  const TOOL_USE: Option<string> := Some("tool_use")

  /** `process_tool_use_frame`. */
  function ToolStep<J>(c: Codec<J>, s: State<J>, f: Frame): State<J> {
    match f.ty
    case Some("content_block_start") =>
      if f.block.None? then s
      else
        var b := f.block.value;
        if b.ty == TOOL_USE then
          s.(current := b.ty, pendingId := OrEmpty(b.id), pendingName := OrEmpty(b.name), pendingArgs := "",
             sent := s.sent + [ToolUseStart(OrEmpty(b.id), OrEmpty(b.name))])
        else s.(current := b.ty)
    case Some("content_block_delta") =>
      if s.current == TOOL_USE && f.delta.Some? && f.delta.value.partialJson.Some? then
        var piece := f.delta.value.partialJson.value;
        s.(pendingArgs := s.pendingArgs + piece, sent := s.sent + [ToolArgsDelta(s.pendingId, piece)])
      else s
    case Some("content_block_stop") =>
      if s.current == TOOL_USE then
        s.(blocks := s.blocks + [ToolUse(s.pendingId, s.pendingName, ParseArgs(c, s.pendingArgs))],
           current := None, sent := s.sent + [ToolUseEnd(s.pendingId)])
      else s.(current := None)
    case Some("message_delta") =>
      if f.delta.Some? && f.delta.value.stopReason.Some? then s.(stopReason := f.delta.value.stopReason) else s
    case _ => s
  }

  function TextStep<J>(s: State<J>, f: Frame): State<J> {
    match DeltaText(f)
    case Some(t) => s.(assembled := s.assembled + t, sent := s.sent + [TextDelta(t)])
    case None => s
  }

  function ThinkingStep<J>(s: State<J>, f: Frame): State<J> {
    match DeltaThinking(f)
    case Some(t) => s.(thinking := s.thinking + t, sent := s.sent + [Reasoning(t)])
    case None => s
  }

  function StopStep<J>(s: State<J>, f: Frame): State<J> {
    if f.ty == Some("message_stop") then s.(sawStop := true) else s
  }

  /** One iteration of the frame loop of `complete_stream`. */
  function Step<J>(c: Codec<J>, s: State<J>, f: Frame): State<J> {
    ToolStep(c, ThinkingStep(TextStep(StopStep(s, f), f), f), f)
  }

  function Run<J>(c: Codec<J>, s: State<J>, frames: seq<Frame>): State<J>
    decreases |frames|
  {
    if frames == [] then s else Run(c, Step(c, s, frames[0]), frames[1..])
  }

  lemma {:induction false} RunAppend<J>(c: Codec<J>, s: State<J>, a: seq<Frame>, b: seq<Frame>)
    ensures Run(c, s, a + b) == Run(c, Run(c, s, a), b)
    decreases |a|
  {
    hide Step;
    if a == [] {
      assert a + b == b;
    } else {
      assert (a + b)[1..] == a[1..] + b;
      RunAppend(c, Step(c, s, a[0]), a[1..], b);
    }
  }

  lemma {:induction false} RunOne<J>(c: Codec<J>, s: State<J>, f: Frame)
    ensures Run(c, s, [f]) == Step(c, s, f)
  {
    hide Step;
    assert [f][1..] == [];
  }

  /** The merge at the end: the text in front, then the tool uses. */
  function Final<J>(s: State<J>): seq<Content<J>> {
    (if s.assembled == "" then [] else [Text(s.assembled)]) + s.blocks
  }

  datatype Response<J> =
    | StreamEndedEarly
    | NoContent
    | Response(content: seq<Content<J>>, reasoning: Option<string>, stopReason: Option<string>)

  /** What is answered once the stream has ended; `done`: with the [DONE] marker. */
  function Answer<J>(s: State<J>, done: bool): Response<J> {
    if !done && !s.sawStop then StreamEndedEarly
    else if Final(s) == [] then NoContent
    else Response(Final(s), NonEmpty(Some(s.thinking)), s.stopReason)
  }

  /** The stream of one response, updated in place as `complete_stream` does. */
  class Assembler<J> {
    const codec: Codec<J>
    var assembled: string
    var thinking: string
    var blocks: seq<Content<J>>
    var current: Option<string>
    var pendingId: string
    var pendingName: string
    var pendingArgs: string
    var stopReason: Option<string>
    var sawStop: bool
    var sent: seq<Event>

    ghost function View(): State<J>
      reads this
    {
      State(assembled, thinking, blocks, current, pendingId, pendingName, pendingArgs, stopReason, sawStop, sent)
    }

    constructor (c: Codec<J>)
      ensures codec == c && View() == Init<J>()
    {
      codec := c;
      assembled, thinking, blocks, current := "", "", [], None;
      pendingId, pendingName, pendingArgs := "", "", "";
      stopReason, sawStop, sent := None, false, [];
    }

    method OnFrame(f: Frame)
      modifies this
      ensures View() == Step(codec, old(View()), f)
    {
      if f.ty == Some("message_stop") {
        sawStop := true;
      }
      var text := DeltaText(f);
      if text.Some? {
        assembled := assembled + text.value;
        sent := sent + [TextDelta(text.value)];
      }
      var thought := DeltaThinking(f);
      if thought.Some? {
        thinking := thinking + thought.value;
        sent := sent + [Reasoning(thought.value)];
      }
      ProcessToolUseFrame(f);
    }

    method ProcessToolUseFrame(f: Frame)
      modifies this
      ensures View() == ToolStep(codec, old(View()), f)
    {
      match f.ty
      case Some("content_block_start") =>
        if f.block.Some? {
          current := f.block.value.ty;
          if f.block.value.ty == TOOL_USE {
            pendingId := OrEmpty(f.block.value.id);
            pendingName := OrEmpty(f.block.value.name);
            pendingArgs := "";
            sent := sent + [ToolUseStart(pendingId, pendingName)];
          }
        }
      case Some("content_block_delta") =>
        if current == TOOL_USE && f.delta.Some? && f.delta.value.partialJson.Some? {
          pendingArgs := pendingArgs + f.delta.value.partialJson.value;
          sent := sent + [ToolArgsDelta(pendingId, f.delta.value.partialJson.value)];
        }
      case Some("content_block_stop") =>
        if current == TOOL_USE {
          blocks := blocks + [ToolUse(pendingId, pendingName, ParseArgs(codec, pendingArgs))];
          sent := sent + [ToolUseEnd(pendingId)];
        }
        current := None;
      case Some("message_delta") =>
        if f.delta.Some? && f.delta.value.stopReason.Some? {
          stopReason := f.delta.value.stopReason;
        }
      case _ =>
    }

    method Finish(done: bool) returns (r: Response<J>)
      ensures r == Answer(View(), done)
    {
      if !done && !sawStop {
        return StreamEndedEarly;
      }
      var content := [];
      if assembled != "" {
        content := content + [Text(assembled)];
      }
      content := content + blocks;
      if content == [] {
        return NoContent;
      }
      r := Response(content, if thinking == "" then None else Some(thinking), stopReason);
    }
  }

  // ---- Extraction from a whole message -----------------------------------

  datatype BodyBlock<J> = BodyBlock(
    ty: Option<string>, text: Option<string>, id: Option<string>, name: Option<string>,
    thinking: Option<string>, input: Option<J>)

  function ExtractOne<J>(c: Codec<J>, b: BodyBlock<J>): seq<Content<J>> {
    if b.ty == Some("text") then
      if NonEmpty(b.text).Some? then [Text(b.text.value)] else []
    else if b.ty == TOOL_USE then
      if b.id.Some? && b.name.Some?
      then [ToolUse(b.id.value, b.name.value, match b.input case Some(v) => v case None => c.emptyObject)]
      else []
    else []
  }

  function Extract<J>(c: Codec<J>, body: seq<BodyBlock<J>>): seq<Content<J>> {
    if body == [] then [] else ExtractOne(c, body[0]) + Extract(c, body[1..])
  }

  lemma {:induction false} ExtractAppend<J>(c: Codec<J>, a: seq<BodyBlock<J>>, b: seq<BodyBlock<J>>)
    ensures Extract(c, a + b) == Extract(c, a) + Extract(c, b)
  {
    hide ExtractOne;
    if a == [] {
      assert a + b == b;
    } else {
      assert (a + b)[1..] == a[1..] + b;
      ExtractAppend(c, a[1..], b);
    }
  }

  method ExtractContentBlocks<J>(c: Codec<J>, body: seq<BodyBlock<J>>) returns (result: seq<Content<J>>)
    ensures result == Extract(c, body)
  {
    result := [];
    for i := 0 to |body|
      invariant result == Extract(c, body[..i])
    {
      var b := body[i];
      assert body[..i + 1] == body[..i] + [b];
      ExtractAppend(c, body[..i], [b]);
      assert [b][1..] == [];
      if b.ty == Some("text") {
        if b.text.Some? && b.text.value != "" {
          result := result + [Text(b.text.value)];
        }
      } else if b.ty == TOOL_USE {
        if b.id.Some? && b.name.Some? {
          var input := if b.input.Some? then b.input.value else c.emptyObject;
          result := result + [ToolUse(b.id.value, b.name.value, input)];
        }
      }
    }
    assert body[..|body|] == body;
  }

  /** `extract_thinking_from_body`, continuing from `merged`. */
  function Merge<J>(merged: string, body: seq<BodyBlock<J>>): string
    decreases |body|
  {
    if body == [] then merged
    else if body[0].ty == Some("thinking") && body[0].thinking.Some? then
      Merge((if merged == "" then "" else merged + "\n") + body[0].thinking.value, body[1..])
    else Merge(merged, body[1..])
  }

  method ExtractThinking<J>(body: seq<BodyBlock<J>>) returns (r: Option<string>)
    ensures r == NonEmpty(Some(Merge("", body)))
  {
    var merged := "";
    for i := 0 to |body|
      invariant Merge(merged, body[i..]) == Merge("", body)
    {
      var b := body[i];
      assert body[i..][0] == b && body[i..][1..] == body[i + 1..];
      if b.ty == Some("thinking") && b.thinking.Some? {
        if merged != "" {
          merged := merged + "\n";
        }
        merged := merged + b.thinking.value;
      }
    }
    r := if merged == "" then None else Some(merged);
  }
}
