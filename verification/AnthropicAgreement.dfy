/** The streamed form and the whole form of one Anthropic message agree. */
module AnthropicAgreement {
  import opened Common
  import opened AnthropicStream

  // ---- A subscriber needs nothing but the events --------------------------

  datatype Heard<J> = Heard(
    text: string, thinking: string, id: string, name: string, args: string, blocks: seq<Content<J>>)

  function Hear<J>(c: Codec<J>, h: Heard<J>, e: Event): Heard<J> {
    match e
    case TextDelta(t) => h.(text := h.text + t)
    case Reasoning(t) => h.(thinking := h.thinking + t)
    case ToolUseStart(id, name) => h.(id := id, name := name, args := "")
    case ToolArgsDelta(_, d) => h.(args := h.args + d)
    case ToolUseEnd(id) => h.(blocks := h.blocks + [ToolUse(id, h.name, ParseArgs(c, h.args))])
  }

  function HearAll<J>(c: Codec<J>, events: seq<Event>): Heard<J> {
    if events == [] then Heard("", "", "", "", "", [])
    else Hear(c, HearAll(c, events[..|events| - 1]), events[|events| - 1])
  }

  lemma {:induction false} HearSnoc<J>(c: Codec<J>, events: seq<Event>, e: Event)
    ensures HearAll(c, events + [e]) == Hear(c, HearAll(c, events), e)
  {
    assert (events + [e])[..|events|] == events;
  }

  function Known<J>(s: State<J>): Heard<J> {
    Heard(s.assembled, s.thinking, s.pendingId, s.pendingName, s.pendingArgs, s.blocks)
  }

  lemma {:induction false} StepHeard<J>(c: Codec<J>, s: State<J>, f: Frame)
    requires HearAll(c, s.sent) == Known(s)
    ensures HearAll(c, Step(c, s, f).sent) == Known(Step(c, s, f))
  {
    var s0 := StopStep(s, f);
    var s1 := TextStep(s0, f);
    TextHeard(c, s0, f);
    ToolHeard(c, ThinkingStep(s1, f), f);
  }

  lemma {:induction false} TextHeard<J>(c: Codec<J>, s: State<J>, f: Frame)
    requires HearAll(c, s.sent) == Known(s)
    ensures HearAll(c, TextStep(s, f).sent) == Known(TextStep(s, f))
  {
    if DeltaText(f).Some? { HearSnoc(c, s.sent, TextDelta(DeltaText(f).value)); }
  }

  lemma {:induction false} ToolHeard<J>(c: Codec<J>, s: State<J>, f: Frame)
    requires HearAll(c, s.sent) == Known(s)
    ensures HearAll(c, ToolStep(c, s, f).sent) == Known(ToolStep(c, s, f))
  {
    hide HearAll;
    match f.ty
    case Some("content_block_start") =>
      if f.block.Some? && f.block.value.ty == TOOL_USE {
        HearSnoc(c, s.sent, ToolUseStart(OrEmpty(f.block.value.id), OrEmpty(f.block.value.name)));
      }
    case Some("content_block_delta") =>
      if s.current == TOOL_USE && f.delta.Some? && f.delta.value.partialJson.Some? {
        HearSnoc(c, s.sent, ToolArgsDelta(s.pendingId, f.delta.value.partialJson.value));
      }
    case Some("content_block_stop") =>
      if s.current == TOOL_USE { HearSnoc(c, s.sent, ToolUseEnd(s.pendingId)); }
    case _ =>
  }

  lemma {:induction false} RunHeard<J>(c: Codec<J>, s: State<J>, frames: seq<Frame>)
    requires HearAll(c, s.sent) == Known(s)
    ensures HearAll(c, Run(c, s, frames).sent) == Known(Run(c, s, frames))
    decreases |frames|
  {
    hide Step, HearAll;
    if frames != [] {
      StepHeard(c, s, frames[0]);
      RunHeard(c, Step(c, s, frames[0]), frames[1..]);
    }
  }

  /** For any frames whatever, the events sent live rebuild the text, the
      reasoning and the tool uses of the final response. */
  lemma {:induction false} EventsCarryEverything<J>(c: Codec<J>, frames: seq<Frame>)
    ensures var s := Run(c, Init(), frames);
      var h := HearAll(c, s.sent);
      h.text == s.assembled && h.thinking == s.thinking && h.blocks == s.blocks
  {
    RunHeard(c, Init<J>(), frames);
  }

  // ---- Messages and their frames -----------------------------------------

  datatype Kind = TextKind | ThinkingKind | ToolKind

  function KindName(k: Kind): string {
    match k case TextKind => "text" case ThinkingKind => "thinking" case ToolKind => "tool_use"
  }

  /** A fragment of a block, or an unrelated frame that arrives in between. */
  datatype Part = Piece(text: string) | Other(f: Frame)

  /** A block with its contents cut into fragments; `open` is what already comes
      with the block's first frame.  `Gap` is a frame between blocks. */
  datatype Block<J> =
    | TextBlock(open: string, parts: seq<Part>)
    | ThinkingBlock(open: string, parts: seq<Part>)
    | ToolBlock(id: string, name: string, input: J, parts: seq<Part>)
    | Gap(f: Frame)

  /** Ping, message_start, message_delta, message_stop and the like. */
  predicate Quiet(f: Frame) {
    && DeltaText(f).None? && DeltaThinking(f).None?
    && f.ty != Some("content_block_start") && f.ty != Some("content_block_delta") && f.ty != Some("content_block_stop")
  }

  predicate QuietParts(parts: seq<Part>) {
    forall i :: 0 <= i < |parts| ==> parts[i].Piece? || Quiet(parts[i].f)
  }

  function PartsText(parts: seq<Part>): string {
    if parts == [] then ""
    else (if parts[0].Piece? then parts[0].text else "") + PartsText(parts[1..])
  }

  ghost predicate WellFormedBlock<J>(c: Codec<J>, b: Block<J>) {
    match b
    case TextBlock(_, parts) => QuietParts(parts)
    case ThinkingBlock(_, parts) => QuietParts(parts)
    case ToolBlock(_, _, input, parts) => QuietParts(parts) && ParseArgs(c, PartsText(parts)) == input
    case Gap(f) => Quiet(f)
  }

  ghost predicate WellFormed<J>(c: Codec<J>, m: seq<Block<J>>) {
    forall i :: 0 <= i < |m| ==> WellFormedBlock(c, m[i])
  }

  function PartFrame(k: Kind, p: Part): Frame {
    match p
    case Other(f) => f
    case Piece(t) =>
      Frame(Some("content_block_delta"), None, Some(
        match k
        case TextKind => DeltaField(Some(t), None, None, None)
        case ThinkingKind => DeltaField(None, Some(t), None, None)
        case ToolKind => DeltaField(None, None, Some(t), None)))
  }

  function PartFrames(k: Kind, parts: seq<Part>): seq<Frame> {
    if parts == [] then [] else [PartFrame(k, parts[0])] + PartFrames(k, parts[1..])
  }

  const BLOCK_STOP: Frame := Frame(Some("content_block_stop"), None, None)

  function BlockStart<J>(b: Block<J>): Frame
    requires !b.Gap?
  {
    Frame(Some("content_block_start"), Some(
      match b
      case TextBlock(open, _) => BlockField(Some("text"), None, None, Some(open), None)
      case ThinkingBlock(open, _) => BlockField(Some("thinking"), None, None, None, Some(open))
      case ToolBlock(id, name, _, _) => BlockField(Some("tool_use"), Some(id), Some(name), None, None)), None)
  }

  function KindOf<J>(b: Block<J>): Kind
    requires !b.Gap?
  {
    match b
    case TextBlock(_, _) => TextKind
    case ThinkingBlock(_, _) => ThinkingKind
    case ToolBlock(_, _, _, _) => ToolKind
  }

  function BlockFrames<J>(b: Block<J>): seq<Frame> {
    if b.Gap? then [b.f] else [BlockStart(b)] + (PartFrames(KindOf(b), b.parts) + [BLOCK_STOP])
  }

  function Frames<J>(m: seq<Block<J>>): seq<Frame> {
    if m == [] then [] else BlockFrames(m[0]) + Frames(m[1..])
  }

  function BlockBody<J>(b: Block<J>): seq<BodyBlock<J>> {
    match b
    case TextBlock(open, parts) => [BodyBlock(Some("text"), Some(open + PartsText(parts)), None, None, None, None)]
    case ThinkingBlock(open, parts) =>
      [BodyBlock(Some("thinking"), None, None, None, Some(open + PartsText(parts)), None)]
    case ToolBlock(id, name, input, _) => [BodyBlock(Some("tool_use"), None, Some(id), Some(name), None, Some(input))]
    case Gap(_) => []
  }

  /** The same message as a response body. */
  function Body<J>(m: seq<Block<J>>): seq<BodyBlock<J>> {
    if m == [] then [] else BlockBody(m[0]) + Body(m[1..])
  }

  // ---- What a block adds -------------------------------------------------

  function Spoken(t: string): seq<Event> {
    if t == "" then [] else [TextDelta(t)]
  }

  function Thought(t: string): seq<Event> {
    if t == "" then [] else [Reasoning(t)]
  }

  function PartEvent(k: Kind, id: string, p: Part): seq<Event> {
    if p.Other? then []
    else match k
      case TextKind => Spoken(p.text)
      case ThinkingKind => Thought(p.text)
      case ToolKind => [ToolArgsDelta(id, p.text)]
  }

  function PartEvents(k: Kind, id: string, parts: seq<Part>): seq<Event> {
    if parts == [] then [] else PartEvent(k, id, parts[0]) + PartEvents(k, id, parts[1..])
  }

  function BlockEvents<J>(b: Block<J>): seq<Event> {
    match b
    case TextBlock(open, parts) => Spoken(open) + PartEvents(TextKind, "", parts)
    case ThinkingBlock(open, parts) => Thought(open) + PartEvents(ThinkingKind, "", parts)
    case ToolBlock(id, name, _, parts) =>
      [ToolUseStart(id, name)] + (PartEvents(ToolKind, id, parts) + [ToolUseEnd(id)])
    case Gap(_) => []
  }

  function BlockText<J>(b: Block<J>): string {
    if b.TextBlock? then b.open + PartsText(b.parts) else ""
  }

  function BlockThinking<J>(b: Block<J>): string {
    if b.ThinkingBlock? then b.open + PartsText(b.parts) else ""
  }

  function BlockTools<J>(b: Block<J>): seq<Content<J>> {
    if b.ToolBlock? then [ToolUse(b.id, b.name, b.input)] else []
  }

  datatype Totals<J> = Totals(text: string, thinking: string, tools: seq<Content<J>>, events: seq<Event>)

  function TotalsOf<J>(s: State<J>): Totals<J> {
    Totals(s.assembled, s.thinking, s.blocks, s.sent)
  }

  ghost predicate Grown<J>(s: State<J>, t: State<J>, text: string, thinking: string, tools: seq<Content<J>>,
      events: seq<Event>) {
    TotalsOf(t) == Totals(s.assembled + text, s.thinking + thinking, s.blocks + tools, s.sent + events)
  }

  lemma {:induction false} GrownTwice<J>(
      s: State<J>, t: State<J>, u: State<J>, a: string, b: string, p: string, q: string,
      x: seq<Content<J>>, y: seq<Content<J>>, d: seq<Event>, e: seq<Event>)
    requires Grown(s, t, a, p, x, d) && Grown(t, u, b, q, y, e)
    ensures Grown(s, u, a + b, p + q, x + y, d + e)
  {
  }

  /** What stays fixed while a block is being read. */
  ghost predicate SameBlock<J>(s: State<J>, t: State<J>) {
    t.current == s.current && t.pendingId == s.pendingId && t.pendingName == s.pendingName
  }

  function PartText(k: Kind, want: Kind, p: Part): string {
    if k == want && p.Piece? then p.text else ""
  }

  function OnlyFor(k: Kind, want: Kind, text: string): string {
    if k == want then text else ""
  }

  lemma {:induction false} RunPart<J>(c: Codec<J>, s: State<J>, k: Kind, p: Part)
    requires s.current == Some(KindName(k)) && (p.Piece? || Quiet(p.f))
    ensures var t := Step(c, s, PartFrame(k, p));
      && SameBlock(s, t)
      && Grown(s, t, PartText(k, TextKind, p), PartText(k, ThinkingKind, p), [], PartEvent(k, s.pendingId, p))
      && t.pendingArgs == s.pendingArgs + PartText(k, ToolKind, p)
  {
  }

  lemma {:induction false} RunParts<J>(c: Codec<J>, s: State<J>, k: Kind, parts: seq<Part>)
    requires s.current == Some(KindName(k)) && QuietParts(parts)
    ensures var t := Run(c, s, PartFrames(k, parts));
      && SameBlock(s, t)
      && Grown(s, t, OnlyFor(k, TextKind, PartsText(parts)), OnlyFor(k, ThinkingKind, PartsText(parts)),
               [], PartEvents(k, s.pendingId, parts))
      && t.pendingArgs == s.pendingArgs + OnlyFor(k, ToolKind, PartsText(parts))
    decreases |parts|
  {
    hide Step, Quiet, PartFrame, PartEvent, PartText, OnlyFor;
    if parts == [] {
      NothingGrown(c, s, k);
    } else {
      var p, rest := parts[0], parts[1..];
      RunPart(c, s, k, p);
      var t := Step(c, s, PartFrame(k, p));
      assert PartFrames(k, parts)[1..] == PartFrames(k, rest);
      RunParts(c, t, k, rest);
      GrownTwice(s, t, Run(c, t, PartFrames(k, rest)),
                 PartText(k, TextKind, p), OnlyFor(k, TextKind, PartsText(rest)),
                 PartText(k, ThinkingKind, p), OnlyFor(k, ThinkingKind, PartsText(rest)),
                 [], [], PartEvent(k, s.pendingId, p), PartEvents(k, s.pendingId, rest));
      OnlyForSplit(k, TextKind, parts);
      OnlyForSplit(k, ThinkingKind, parts);
      OnlyForSplit(k, ToolKind, parts);
      assert (s.pendingArgs + PartText(k, ToolKind, p)) + OnlyFor(k, ToolKind, PartsText(rest))
          == s.pendingArgs + OnlyFor(k, ToolKind, PartsText(parts));
    }
  }

  lemma {:induction false} NothingGrown<J>(c: Codec<J>, s: State<J>, k: Kind)
    ensures Grown(s, s, OnlyFor(k, TextKind, ""), OnlyFor(k, ThinkingKind, ""), [], [])
    ensures s.pendingArgs == s.pendingArgs + OnlyFor(k, ToolKind, "")
  {
  }

  lemma {:induction false} OnlyForSplit(k: Kind, w: Kind, parts: seq<Part>)
    requires parts != []
    ensures OnlyFor(k, w, PartsText(parts)) == PartText(k, w, parts[0]) + OnlyFor(k, w, PartsText(parts[1..]))
  {
  }

  function StartEvents<J>(b: Block<J>): seq<Event>
    requires !b.Gap?
  {
    match b
    case TextBlock(open, _) => Spoken(open)
    case ThinkingBlock(open, _) => Thought(open)
    case ToolBlock(id, name, _, _) => [ToolUseStart(id, name)]
  }

  lemma {:induction false} RunStart<J>(c: Codec<J>, s: State<J>, b: Block<J>)
    requires !b.Gap?
    ensures var t := Step(c, s, BlockStart(b));
      && t.current == Some(KindName(KindOf(b)))
      && (b.ToolBlock? ==> t.pendingId == b.id && t.pendingName == b.name && t.pendingArgs == "")
      && Grown(s, t, if b.TextBlock? then b.open else "", if b.ThinkingBlock? then b.open else "", [], StartEvents(b))
  {
  }

  lemma {:induction false} RunStop<J>(c: Codec<J>, s: State<J>)
    ensures var t := Step(c, s, BLOCK_STOP);
      && t.current == None
      && if s.current == TOOL_USE
         then Grown(s, t, "", "", [ToolUse(s.pendingId, s.pendingName, ParseArgs(c, s.pendingArgs))],
             [ToolUseEnd(s.pendingId)])
         else Grown(s, t, "", "", [], [])
  {
  }

  lemma {:induction false} RunBlock<J>(c: Codec<J>, s: State<J>, b: Block<J>)
    requires WellFormedBlock(c, b)
    ensures Grown(s, Run(c, s, BlockFrames(b)), BlockText(b), BlockThinking(b), BlockTools(b), BlockEvents(b))
  {
    hide Step, Run, Quiet, PartsText, PartEvents;
    if b.Gap? {
      RunOne(c, s, b.f);
      RunQuiet(c, s, b.f);
    } else if b.ToolBlock? {
      RunToolBlock(c, s, b);
    } else {
      RunOpened(c, s, b);
      var s1 := Step(c, s, BlockStart(b));
      var s2 := Run(c, s1, PartFrames(KindOf(b), b.parts));
      RunStop(c, s2);
      if b.TextBlock? {
        PartEventsId(TextKind, s1.pendingId, "", b.parts);
        GrownTwice(s, s1, s2, b.open, PartsText(b.parts), "", "", [], [],
                   Spoken(b.open), PartEvents(TextKind, "", b.parts));
      } else {
        PartEventsId(ThinkingKind, s1.pendingId, "", b.parts);
        GrownTwice(s, s1, s2, "", "", b.open, PartsText(b.parts), [], [],
                   Thought(b.open), PartEvents(ThinkingKind, "", b.parts));
      }
    }
  }

  lemma {:induction false} RunToolBlock<J>(c: Codec<J>, s: State<J>, b: Block<J>)
    requires b.ToolBlock? && WellFormedBlock(c, b)
    ensures Grown(s, Run(c, s, BlockFrames(b)), "", "", BlockTools(b), BlockEvents(b))
  {
    hide Step, Run, Quiet, PartsText, PartEvents;
    RunOpened(c, s, b);
    var s1 := Step(c, s, BlockStart(b));
    var s2 := Run(c, s1, PartFrames(ToolKind, b.parts));
    RunStop(c, s2);
    assert "" + PartsText(b.parts) == PartsText(b.parts);
    GrownTwice(s, s1, s2, "", "", "", "", [], [],
               [ToolUseStart(b.id, b.name)], PartEvents(ToolKind, b.id, b.parts));
  }

  /** The three stretches of a block's frames. */
  lemma {:induction false} RunOpened<J>(c: Codec<J>, s: State<J>, b: Block<J>)
    requires !b.Gap? && WellFormedBlock(c, b)
    ensures var s1 := Step(c, s, BlockStart(b));
      var s2 := Run(c, s1, PartFrames(KindOf(b), b.parts));
      && Run(c, s, BlockFrames(b)) == Step(c, s2, BLOCK_STOP)
      && s1.current == Some(KindName(KindOf(b)))
      && (b.ToolBlock? ==> s1.pendingId == b.id && s1.pendingName == b.name && s1.pendingArgs == "")
      && Grown(s, s1, if b.TextBlock? then b.open else "", if b.ThinkingBlock? then b.open else "", [], StartEvents(b))
      && SameBlock(s1, s2)
      && Grown(s1, s2, OnlyFor(KindOf(b), TextKind, PartsText(b.parts)),
          OnlyFor(KindOf(b), ThinkingKind, PartsText(b.parts)),
               [], PartEvents(KindOf(b), s1.pendingId, b.parts))
      && s2.pendingArgs == s1.pendingArgs + OnlyFor(KindOf(b), ToolKind, PartsText(b.parts))
  {
    hide Step, Run, Quiet, PartsText, PartEvents;
    var mid := PartFrames(KindOf(b), b.parts);
    RunAppend(c, s, [BlockStart(b)], mid + [BLOCK_STOP]);
    RunOne(c, s, BlockStart(b));
    RunStart(c, s, b);
    var s1 := Step(c, s, BlockStart(b));
    RunAppend(c, s1, mid, [BLOCK_STOP]);
    RunParts(c, s1, KindOf(b), b.parts);
    RunOne(c, Run(c, s1, mid), BLOCK_STOP);
  }

  lemma {:induction false} PartEventsId(k: Kind, id: string, id2: string, parts: seq<Part>)
    requires !k.ToolKind?
    ensures PartEvents(k, id, parts) == PartEvents(k, id2, parts)
  {
    if parts != [] { PartEventsId(k, id, id2, parts[1..]); }
  }

  lemma {:induction false} RunQuiet<J>(c: Codec<J>, s: State<J>, f: Frame)
    requires Quiet(f)
    ensures Grown(s, Step(c, s, f), "", "", [], [])
  {
  }

  // ---- Whole messages ----------------------------------------------------

  function MessageText<J>(m: seq<Block<J>>): string {
    if m == [] then "" else BlockText(m[0]) + MessageText(m[1..])
  }

  function MessageThinking<J>(m: seq<Block<J>>): string {
    if m == [] then "" else BlockThinking(m[0]) + MessageThinking(m[1..])
  }

  function MessageTools<J>(m: seq<Block<J>>): seq<Content<J>> {
    if m == [] then [] else BlockTools(m[0]) + MessageTools(m[1..])
  }

  function MessageEvents<J>(m: seq<Block<J>>): seq<Event> {
    if m == [] then [] else BlockEvents(m[0]) + MessageEvents(m[1..])
  }

  lemma {:induction false} RunMessage<J>(c: Codec<J>, s: State<J>, m: seq<Block<J>>)
    requires WellFormed(c, m)
    ensures Grown(s, Run(c, s, Frames(m)), MessageText(m), MessageThinking(m), MessageTools(m), MessageEvents(m))
    decreases |m|
  {
    hide Step, WellFormedBlock, BlockFrames, BlockText, BlockThinking, BlockTools, BlockEvents;
    if m != [] {
      RunAppend(c, s, BlockFrames(m[0]), Frames(m[1..]));
      RunBlock(c, s, m[0]);
      var t := Run(c, s, BlockFrames(m[0]));
      RunMessage(c, t, m[1..]);
      GrownTwice(s, t, Run(c, t, Frames(m[1..])), BlockText(m[0]), MessageText(m[1..]),
                 BlockThinking(m[0]), MessageThinking(m[1..]), BlockTools(m[0]), MessageTools(m[1..]),
                 BlockEvents(m[0]), MessageEvents(m[1..]));
    }
  }

  /** `ModelResponse::text`: all text blocks joined. */
  function TextOf<J>(content: seq<Content<J>>): string {
    if content == [] then ""
    else (if content[0].Text? then content[0].text else "") + TextOf(content[1..])
  }

  /** `ModelResponse::tool_uses`, in order. */
  function ToolsOf<J>(content: seq<Content<J>>): seq<Content<J>> {
    if content == [] then []
    else (if content[0].ToolUse? then [content[0]] else []) + ToolsOf(content[1..])
  }

  lemma {:induction false} OfAppend<J>(a: seq<Content<J>>, b: seq<Content<J>>)
    ensures TextOf(a + b) == TextOf(a) + TextOf(b)
    ensures ToolsOf(a + b) == ToolsOf(a) + ToolsOf(b)
  {
    if a == [] {
      assert a + b == b;
    } else {
      assert (a + b)[1..] == a[1..] + b;
      OfAppend(a[1..], b);
    }
  }

  lemma {:induction false} ToolsOnly<J>(m: seq<Block<J>>)
    ensures ToolsOf(MessageTools(m)) == MessageTools(m) && TextOf(MessageTools(m)) == ""
  {
    if m != [] {
      ToolsOnly(m[1..]);
      OfAppend(BlockTools(m[0]), MessageTools(m[1..]));
      if m[0].ToolBlock? { assert BlockTools(m[0])[1..] == []; }
    }
  }

  lemma {:induction false} ExtractMessage<J>(c: Codec<J>, m: seq<Block<J>>)
    ensures TextOf(Extract(c, Body(m))) == MessageText(m)
    ensures ToolsOf(Extract(c, Body(m))) == MessageTools(m)
  {
    if m != [] {
      ExtractMessage(c, m[1..]);
      ExtractAppend(c, BlockBody(m[0]), Body(m[1..]));
      OfAppend(Extract(c, BlockBody(m[0])), Extract(c, Body(m[1..])));
      ExtractBlock(c, m[0]);
    }
  }

  lemma {:induction false} ExtractBlock<J>(c: Codec<J>, b: Block<J>)
    ensures TextOf(Extract(c, BlockBody(b))) == BlockText(b)
    ensures ToolsOf(Extract(c, BlockBody(b))) == BlockTools(b)
  {
    if !b.Gap? {
      var one := BlockBody(b)[0];
      assert BlockBody(b)[1..] == [];
      var x := ExtractOne(c, one);
      assert Extract(c, BlockBody(b)) == x + [] == x;
      if x != [] { assert x[1..] == []; }
    }
  }

  /** However the contents are cut and whatever frames come in between, the
      streamed response has the text and the tool uses of the whole one. */
  lemma {:induction false} StreamAgrees<J>(c: Codec<J>, m: seq<Block<J>>)
    requires WellFormed(c, m)
    ensures var streamed, whole := Final(Run(c, Init(), Frames(m))), Extract(c, Body(m));
      TextOf(streamed) == TextOf(whole) && ToolsOf(streamed) == ToolsOf(whole)
    ensures Run(c, Init(), Frames(m)).sent == MessageEvents(m)
  {
    hide Run, Step, Extract;
    RunMessage(c, Init<J>(), m);
    var s := Run(c, Init(), Frames(m));
    ExtractMessage(c, m);
    ToolsOnly(m);
    FinalParts(s, MessageText(m), MessageTools(m));
    assert [] + MessageEvents(m) == MessageEvents(m);
  }

  lemma {:induction false} FinalParts<J>(s: State<J>, text: string, tools: seq<Content<J>>)
    requires s.assembled == "" + text && s.blocks == [] + tools
    requires TextOf(tools) == "" && ToolsOf(tools) == tools
    ensures Final(s) == (if text == "" then [] else [Text(text)]) + tools
    ensures TextOf(Final(s)) == text && ToolsOf(Final(s)) == tools
  {
    assert s.assembled == text && s.blocks == tools;
    var head: seq<Content<J>> := if text == "" then [] else [Text(text)];
    OfAppend(head, tools);
    if text != "" { assert head[1..] == []; }
    assert text + "" == text;
  }

  // ---- Whether and what a stream answers ---------------------------------

  predicate IsStop(f: Frame) {
    f.ty == Some("message_stop")
  }

  predicate TellsReason(f: Frame) {
    f.ty == Some("message_delta") && f.delta.Some? && f.delta.value.stopReason.Some?
  }

  /** `reason` is what the last frame that tells a reason tells; None if there is none. */
  ghost predicate LastReason(frames: seq<Frame>, reason: Option<string>) {
    if reason.None? then forall i :: 0 <= i < |frames| ==> !TellsReason(frames[i])
    else exists i :: 0 <= i < |frames| && IsLastReason(frames, i) && frames[i].delta.value.stopReason == reason
  }

  ghost predicate IsLastReason(frames: seq<Frame>, i: nat)
    requires i < |frames|
  {
    TellsReason(frames[i]) && forall j :: i < j < |frames| ==> !TellsReason(frames[j])
  }

  lemma {:induction false} StepStops<J>(c: Codec<J>, s: State<J>, f: Frame)
    ensures Step(c, s, f).sawStop <==> s.sawStop || IsStop(f)
    ensures Step(c, s, f).stopReason == if TellsReason(f) then f.delta.value.stopReason else s.stopReason
  {
  }

  /** Over any frames: a stop is seen exactly when there is one, and the last reason counts. */
  lemma {:induction false} RunStops<J>(c: Codec<J>, frames: seq<Frame>)
    ensures var s := Run(c, Init(), frames);
      && (s.sawStop <==> exists i :: 0 <= i < |frames| && IsStop(frames[i]))
      && LastReason(frames, s.stopReason)
  {
    if frames != [] {
      hide Step, IsStop, TellsReason;
      var n := |frames| - 1;
      var most, f := frames[..n], frames[n];
      RunStops(c, most);
      assert frames == most + [f];
      RunAppend(c, Init<J>(), most, [f]);
      var s := Run(c, Init(), most);
      RunOne(c, s, f);
      StepStops(c, s, f);
      if TellsReason(f) {
        assert IsLastReason(frames, n);
      } else if s.stopReason.Some? {
        var i :| 0 <= i < |most| && IsLastReason(most, i) && most[i].delta.value.stopReason == s.stopReason;
        assert frames[i] == most[i] && IsLastReason(frames, i);
      }
    }
  }

  /** A message streamed in frames, however its contents are cut: without a stop frame or the
      marker it is an error, without text and tools another; otherwise the answer is its text,
      its tool uses, its reasoning and the last stop reason. */
  lemma {:induction false} StreamAnswers<J>(c: Codec<J>, m: seq<Block<J>>, done: bool, reason: Option<string>)
    requires WellFormed(c, m) && LastReason(Frames(m), reason)
    ensures var text, tools, thinking := MessageText(m), MessageTools(m), MessageThinking(m);
      Answer(Run(c, Init(), Frames(m)), done) ==
      if !done && (forall i :: 0 <= i < |Frames(m)| ==> !IsStop(Frames(m)[i])) then StreamEndedEarly
      else if text == "" && tools == [] then NoContent
      else Response((if text == "" then [] else [Text(text)]) + tools,
                    if thinking == "" then None else Some(thinking), reason)
  {
    hide Run, Step, Frames, IsStop, TellsReason, MessageText, MessageTools, MessageThinking;
    RunStops(c, Frames(m));
    var s := Run(c, Init(), Frames(m));
    OneReason(Frames(m), s.stopReason, reason);
    RunMessage(c, Init<J>(), m);
    ToolsOnly(m);
    FinalParts(s, MessageText(m), MessageTools(m));
    assert "" + MessageThinking(m) == MessageThinking(m);
  }

  lemma {:induction false} OneReason(frames: seq<Frame>, a: Option<string>, b: Option<string>)
    requires LastReason(frames, a) && LastReason(frames, b)
    ensures a == b
  {
    if a.Some? && b.Some? {
      var i :| 0 <= i < |frames| && IsLastReason(frames, i) && frames[i].delta.value.stopReason == a;
      var j :| 0 <= j < |frames| && IsLastReason(frames, j) && frames[j].delta.value.stopReason == b;
      assert i == j;
    }
  }

  // ---- When the two contents are the very same list ----------------------

  predicate TextOnlyFirst<J>(content: seq<Content<J>>) {
    forall i :: 0 < i < |content| ==> content[i].ToolUse?
  }

  lemma {:induction false} NoText<J>(content: seq<Content<J>>)
    requires forall i :: 0 <= i < |content| ==> content[i].ToolUse?
    ensures TextOf(content) == "" && ToolsOf(content) == content
  {
    if content != [] { NoText(content[1..]); }
  }

  lemma {:induction false} ToolsAreTools<J>(content: seq<Content<J>>)
    ensures forall i :: 0 <= i < |ToolsOf(content)| ==> ToolsOf(content)[i].ToolUse?
  {
    if content != [] { ToolsAreTools(content[1..]); }
  }

  lemma {:induction false} ExtractedTextNonEmpty<J>(c: Codec<J>, body: seq<BodyBlock<J>>)
    ensures forall i :: 0 <= i < |Extract(c, body)| && Extract(c, body)[i].Text? ==> Extract(c, body)[i].text != ""
  {
    if body != [] { ExtractedTextNonEmpty(c, body[1..]); }
  }

  /** A block that says something. */
  predicate Voices<J>(b: Block<J>) {
    b.TextBlock? && BlockText(b) != ""
  }

  /** No block says anything after a tool block or after another block that does. */
  predicate TextLeads<J>(m: seq<Block<J>>) {
    forall i, j :: 0 <= i < j < |m| && Voices(m[j]) ==> !m[i].ToolBlock? && !Voices(m[i])
  }

  predicate NoVoice<J>(m: seq<Block<J>>) {
    forall i :: 0 <= i < |m| ==> !Voices(m[i])
  }

  predicate AllTools<J>(content: seq<Content<J>>) {
    forall i :: 0 <= i < |content| ==> content[i].ToolUse?
  }

  /** What the first block adds to the whole response. */
  lemma {:induction false} ExtractHead<J>(c: Codec<J>, m: seq<Block<J>>)
    requires m != []
    ensures var rest := Extract(c, Body(m[1..]));
      Extract(c, Body(m)) ==
      if Voices(m[0]) then [Text(BlockText(m[0]))] + rest
      else if m[0].ToolBlock? then [ToolUse(m[0].id, m[0].name, m[0].input)] + rest
      else rest
  {
    ExtractAppend(c, BlockBody(m[0]), Body(m[1..]));
    if !m[0].Gap? {
      var one := BlockBody(m[0])[0];
      assert BlockBody(m[0])[1..] == [];
      assert Extract(c, BlockBody(m[0])) == ExtractOne(c, one) + [] == ExtractOne(c, one);
    }
    if !Voices(m[0]) && !m[0].ToolBlock? { assert [] + Extract(c, Body(m[1..])) == Extract(c, Body(m[1..])); }
  }

  lemma {:induction false} SilentIsAllTools<J>(c: Codec<J>, m: seq<Block<J>>)
    ensures AllTools(Extract(c, Body(m))) <==> NoVoice(m)
  {
    hide Extract, Body, BlockText;
    if m == [] {
      assert Extract(c, Body(m)) == [] by { NothingExtracted(c); }
    } else {
      ExtractHead(c, m);
      SilentIsAllTools(c, m[1..]);
      FirstOrLater(m);
      AllToolsHead(Extract(c, Body(m)), Extract(c, Body(m[1..])));
    }
  }

  lemma {:induction false} NothingExtracted<J>(c: Codec<J>)
    ensures Extract(c, Body<J>([])) == []
  {
  }

  lemma {:induction false} FirstOrLater<J>(m: seq<Block<J>>)
    requires m != []
    ensures NoVoice(m) <==> !Voices(m[0]) && NoVoice(m[1..])
    ensures TextLeads(m) <==> if Voices(m[0]) || m[0].ToolBlock? then NoVoice(m[1..]) else TextLeads(m[1..])
  {
    hide Voices;
    var rest := m[1..];
    assert forall i :: 0 <= i < |rest| ==> rest[i] == m[i + 1];
    assert forall i :: 0 < i < |m| ==> m[i] == rest[i - 1];
  }

  lemma {:induction false} AllToolsHead<J>(content: seq<Content<J>>, rest: seq<Content<J>>)
    requires content == rest || (content != [] && content == [content[0]] + rest)
    ensures content == rest || (AllTools(content) <==> content[0].ToolUse? && AllTools(rest))
    ensures content == rest || (TextOnlyFirst(content) <==> AllTools(rest))
  {
    if content != rest {
      assert forall i :: 0 <= i < |rest| ==> rest[i] == content[i + 1];
      assert forall i :: 0 < i < |content| ==> content[i] == rest[i - 1];
    }
  }

  lemma {:induction false} LeadsExactly<J>(c: Codec<J>, m: seq<Block<J>>)
    ensures TextOnlyFirst(Extract(c, Body(m))) <==> TextLeads(m)
  {
    hide Extract, Body, BlockText;
    if m == [] {
      NothingExtracted(c);
    } else {
      ExtractHead(c, m);
      SilentIsAllTools(c, m[1..]);
      FirstOrLater(m);
      AllToolsHead(Extract(c, Body(m)), Extract(c, Body(m[1..])));
      LeadsExactly(c, m[1..]);
    }
  }

  /** Streaming moves all text in front.  The two lists are equal exactly when no block of
      the message says anything after a tool block or after another block that does. */
  lemma {:induction false} SameContentExactly<J>(c: Codec<J>, m: seq<Block<J>>)
    requires WellFormed(c, m)
    ensures Final(Run(c, Init(), Frames(m))) == Extract(c, Body(m)) <==> TextLeads(m)
  {
    hide Run, Step, Extract, TextOf, ToolsOf, TextLeads;
    LeadsExactly(c, m);
    var whole := Extract(c, Body(m));
    RunMessage(c, Init<J>(), m);
    var s := Run(c, Init(), Frames(m));
    ExtractMessage(c, m);
    ToolsOnly(m);
    FinalParts(s, MessageText(m), MessageTools(m));
    ToolsAreTools(whole);
    ExtractedTextNonEmpty(c, Body(m));
    if TextOnlyFirst(whole) {
      if whole != [] && whole[0].Text? {
        TextInFront(whole);
      } else {
        NoText(whole);
        assert [] + whole == whole;
      }
    }
  }

  lemma {:induction false} OneBlock<J>(b: Block<J>)
    ensures MessageText([b]) == BlockText(b) && MessageThinking([b]) == BlockThinking(b)
    ensures MessageTools([b]) == BlockTools(b) && Body([b]) == BlockBody(b) + Body([])
  {
    hide BlockText, BlockThinking, BlockTools, BlockBody;
    var none: seq<Block<J>> := [];
    assert [b][1..] == none;
    assert MessageText(none) == "" && MessageThinking(none) == "" && MessageTools(none) == [];
  }

  lemma {:induction false} TwoBlocks<J>(a: Block<J>, b: Block<J>)
    ensures MessageText([a, b]) == BlockText(a) + BlockText(b)
    ensures MessageThinking([a, b]) == BlockThinking(a) + BlockThinking(b)
    ensures MessageTools([a, b]) == BlockTools(a) + BlockTools(b)
    ensures Body([a, b]) == BlockBody(a) + Body([b]) && Body([b]) == BlockBody(b) + Body([])
  {
    hide BlockText, BlockThinking, BlockTools, BlockBody;
    OneBlock(b);
    assert [a, b][1..] == [b];
  }

  /** A tool use and then a text: the stream turns them around. */
  lemma {:induction false} TextMovesInFront<J>(c: Codec<J>)
    ensures var m := [ToolBlock("t", "n", ParseArgs(c, ""), []), TextBlock("x", [])];
      && WellFormed(c, m)
      && Final(Run(c, Init(), Frames(m))) == [Text("x"), ToolUse("t", "n", ParseArgs(c, ""))]
      && Extract(c, Body(m)) == [ToolUse("t", "n", ParseArgs(c, "")), Text("x")]
  {
    hide Run, Frames, Final, ParseArgs, Extract, Body, MessageText, MessageTools, MessageThinking, MessageEvents;
    var tool, text := ToolBlock("t", "n", ParseArgs(c, ""), []), TextBlock("x", []);
    var m := [tool, text];
    assert PartsText([]) == "" && BlockText(text) == "x" && "" + "x" == "x";
    TwoBlocks(tool, text);
    RunMessage(c, Init<J>(), m);
    assert BlockTools(tool) + BlockTools(text) == BlockTools(tool);
    ToolsOnly(m);
    FinalParts(Run(c, Init(), Frames(m)), "x", BlockTools(tool));
    assert m[1..] == [text] && [text][1..] == [];
    ExtractHead(c, m);
    ExtractHead(c, [text]);
    NothingExtracted(c);
  }

  lemma {:induction false} TextInFront<J>(content: seq<Content<J>>)
    requires content != [] && content[0].Text? && TextOnlyFirst(content)
    ensures TextOf(content) == content[0].text && ToolsOf(content) == content[1..]
    ensures content == [Text(TextOf(content))] + ToolsOf(content)
  {
    NoText(content[1..]);
    assert content[0].text + "" == content[0].text;
    assert [] + content[1..] == content[1..];
  }

  // ---- Reasoning ---------------------------------------------------------

  /** No thinking block follows the first one that has any text. */
  predicate Unbroken<J>(m: seq<Block<J>>) {
    m == [] || (if m[0].ThinkingBlock? && BlockThinking(m[0]) != "" then NoThinking(m[1..]) else Unbroken(m[1..]))
  }

  predicate NoThinking<J>(m: seq<Block<J>>) {
    forall i :: 0 <= i < |m| ==> !m[i].ThinkingBlock?
  }

  lemma {:induction false} MergeBlock<J>(merged: string, b: Block<J>, rest: seq<BodyBlock<J>>)
    ensures Merge(merged, BlockBody(b) + rest) ==
      if b.ThinkingBlock? then Merge((if merged == "" then "" else merged + "\n") + BlockThinking(b), rest)
      else Merge(merged, rest)
  {
    if b.Gap? {
      assert [] + rest == rest;
    } else {
      assert (BlockBody(b) + rest)[1..] == rest;
    }
  }

  /** The joined reasoning is longer than the streamed one by its line breaks. */
  lemma {:induction false} MergeLength<J>(merged: string, m: seq<Block<J>>)
    ensures |Merge(merged, Body(m))| >= |merged| + |MessageThinking(m)|
    ensures merged != "" && !NoThinking(m) ==> |Merge(merged, Body(m))| > |merged| + |MessageThinking(m)|
    ensures NoThinking(m) ==> Merge(merged, Body(m)) == merged && MessageThinking(m) == ""
    decreases |m|
  {
    if m != [] {
      var b := m[0];
      MergeBlock(merged, b, Body(m[1..]));
      if b.ThinkingBlock? {
        MergeLength((if merged == "" then "" else merged + "\n") + BlockThinking(b), m[1..]);
      } else {
        MergeLength(merged, m[1..]);
        assert NoThinking(m) <==> NoThinking(m[1..]) by {
          if NoThinking(m[1..]) {
            assert forall i :: 0 < i < |m| ==> m[i] == m[1..][i - 1];
          }
        }
      }
    }
  }

  lemma {:induction false} MergeExact<J>(m: seq<Block<J>>)
    ensures Merge("", Body(m)) == MessageThinking(m) <==> Unbroken(m)
    decreases |m|
  {
    if m != [] {
      var b, rest := m[0], m[1..];
      MergeBlock("", b, Body(rest));
      var t := BlockThinking(b);
      assert "" + t == t && t + "" == t;
      if b.ThinkingBlock? && t != "" {
        MergeLength(t, rest);
      } else {
        MergeExact(rest);
        assert t + MessageThinking(rest) == MessageThinking(rest);
      }
    }
  }

  /** The streamed reasoning is the whole response's exactly when nothing follows
      the first thinking block that has text: the whole form puts a line break
      between blocks, the streamed form does not. */
  lemma {:induction false} SameReasoningExactly<J>(c: Codec<J>, m: seq<Block<J>>)
    requires WellFormed(c, m)
    ensures Run(c, Init(), Frames(m)).thinking == Merge("", Body(m)) <==> Unbroken(m)
  {
    hide Run, Step, Merge;
    RunMessage(c, Init<J>(), m);
    assert "" + MessageThinking(m) == MessageThinking(m);
    MergeExact(m);
  }

  /** Two thoughts: a line break in the whole response, none in the stream. */
  lemma {:induction false} TwoThoughtsDiffer<J>(c: Codec<J>)
    ensures var m: seq<Block<J>> := [ThinkingBlock("a", []), ThinkingBlock("b", [])];
      && WellFormed(c, m)
      && Run(c, Init(), Frames(m)).thinking == "ab"
      && Merge("", Body(m)) == "a\nb"
  {
    hide Run, Frames, Merge, Body, MessageText, MessageTools, MessageThinking, MessageEvents, BlockBody;
    var a: Block<J>, b: Block<J> := ThinkingBlock("a", []), ThinkingBlock("b", []);
    assert PartsText([]) == "" && BlockThinking(a) == "a" && BlockThinking(b) == "b";
    TwoBlocks(a, b);
    RunMessage(c, Init<J>(), [a, b]);
    assert "" + ("a" + "b") == "ab";
    MergeBlock("", a, Body([b]));
    assert "" + "a" == "a" && "a" + "\n" + "b" == "a\nb";
    MergeBlock("a", b, Body([]));
    MergeEnd<J>("a\nb");
  }

  lemma {:induction false} MergeEnd<J>(merged: string)
    ensures Merge<J>(merged, Body<J>([])) == merged
  {
  }

  // ---- Brackets ----------------------------------------------------------

  /** The tool whose events are being sent; None outside; failure is sticky. */
  datatype Bracket = Outside | Inside(id: string) | Broken

  function Watch(w: Bracket, e: Event): Bracket {
    match e
    case ToolUseStart(id, _) => if w.Outside? then Inside(id) else Broken
    case ToolArgsDelta(id, _) => if w == Inside(id) then w else Broken
    case ToolUseEnd(id) => if w == Inside(id) then Outside else Broken
    case _ => if w.Outside? then w else Broken
  }

  function WatchAll(w: Bracket, events: seq<Event>): Bracket
    decreases |events|
  {
    if events == [] then w else WatchAll(Watch(w, events[0]), events[1..])
  }

  lemma {:induction false} WatchAppend(w: Bracket, a: seq<Event>, b: seq<Event>)
    ensures WatchAll(w, a + b) == WatchAll(WatchAll(w, a), b)
    decreases |a|
  {
    if a == [] {
      assert a + b == b;
    } else {
      assert (a + b)[1..] == a[1..] + b;
      WatchAppend(Watch(w, a[0]), a[1..], b);
    }
  }

  lemma {:induction false} PartsBracketed(k: Kind, id: string, parts: seq<Part>)
    ensures var w := if k.ToolKind? then Inside(id) else Outside; WatchAll(w, PartEvents(k, id, parts)) == w
  {
    if parts != [] {
      PartsBracketed(k, id, parts[1..]);
      var w := if k.ToolKind? then Inside(id) else Outside;
      var one := PartEvent(k, id, parts[0]);
      WatchAppend(w, one, PartEvents(k, id, parts[1..]));
      if one != [] { assert one[1..] == []; }
    }
  }

  lemma {:induction false} BlockBracketed<J>(b: Block<J>)
    ensures WatchAll(Outside, BlockEvents(b)) == Outside
  {
    match b
    case TextBlock(open, parts) =>
      WatchAppend(Outside, Spoken(open), PartEvents(TextKind, "", parts));
      PartsBracketed(TextKind, "", parts);
      if open != "" { assert Spoken(open)[1..] == []; }
    case ThinkingBlock(open, parts) =>
      WatchAppend(Outside, Thought(open), PartEvents(ThinkingKind, "", parts));
      PartsBracketed(ThinkingKind, "", parts);
      if open != "" { assert Thought(open)[1..] == []; }
    case ToolBlock(id, name, _, parts) =>
      var mid := PartEvents(ToolKind, id, parts);
      WatchAppend(Outside, [ToolUseStart(id, name)], mid + [ToolUseEnd(id)]);
      assert [ToolUseStart(id, name)][1..] == [] && [ToolUseEnd(id)][1..] == [];
      WatchAppend(Inside(id), mid, [ToolUseEnd(id)]);
      PartsBracketed(ToolKind, id, parts);
    case Gap(_) =>
  }

  /** Every tool's Start, argument and End events form one unbroken bracket. */
  lemma {:induction false} MessageBracketed<J>(m: seq<Block<J>>)
    ensures WatchAll(Outside, MessageEvents(m)) == Outside
  {
    if m != [] {
      WatchAppend(Outside, BlockEvents(m[0]), MessageEvents(m[1..]));
      BlockBracketed(m[0]);
      MessageBracketed(m[1..]);
    }
  }

  lemma {:induction false} StreamBracketed<J>(c: Codec<J>, m: seq<Block<J>>)
    requires WellFormed(c, m)
    ensures WatchAll(Outside, Run(c, Init(), Frames(m)).sent) == Outside
  {
    StreamAgrees(c, m);
    MessageBracketed(m);
  }
}
