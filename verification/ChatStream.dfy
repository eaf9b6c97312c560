/** Streamed chat completions: tool calls rebuilt from interleaved deltas
    (openjax-core/src/model/chat_completions.rs). */
module ChatStream {
  import opened Common
  import opened AnthropicStream

  /** The `content` field of a message or of a delta. */
  datatype ContentField = Missing | Plain(text: string) | Parts(texts: seq<Option<string>>)

  datatype ToolDelta = ToolDelta(index: nat, id: Option<string>, name: Option<string>, args: Option<string>)

  datatype ChatFrame = ChatFrame(
    content: ContentField, reasoning: Option<string>, tools: seq<ToolDelta>, finish: Option<string>)

  datatype Pending = Pending(id: string, name: string, args: string)

  datatype Chat = Chat(assembled: string, pending: seq<Pending>, stopReason: Option<string>, sent: seq<Event>)

  const BLANK: Chat := Chat("", [], None, [])

  function Joined(texts: seq<Option<string>>): string {
    if texts == [] then "" else OrEmpty(texts[0]) + Joined(texts[1..])
  }

  /** The text of a frame, empty text counting as none. */
  function FrameText(content: ContentField): string {
    match content
    case Missing => ""
    case Plain(text) => text
    case Parts(texts) => Joined(texts)
  }

  // ---- One delta ---------------------------------------------------------

  function NewCall(d: ToolDelta): Pending {
    Pending(OrEmpty(d.id), OrEmpty(d.name), "")
  }

  /** The growing loop: one new entry, with one Start event, per missing index. */
  function Grow(s: Chat, d: ToolDelta): (r: Chat)
    ensures |r.pending| > d.index
    decreases d.index - |s.pending|
  {
    if |s.pending| <= d.index then
      Grow(s.(pending := s.pending + [NewCall(d)],
              sent := s.sent + [ToolUseStart(NewCall(d).id, NewCall(d).name)]), d)
    else s
  }

  function AddArgs(s: Chat, d: ToolDelta): Chat
    requires d.index < |s.pending|
  {
    if NonEmpty(d.args).None? then s
    else
      var p := s.pending[d.index];
      s.(pending := s.pending[d.index := p.(args := p.args + d.args.value)],
         sent := s.sent + [ToolArgsDelta(p.id, d.args.value)])
  }

  function DeltaStep(s: Chat, d: ToolDelta): Chat {
    AddArgs(Grow(s, d), d)
  }

  function DeltasRun(s: Chat, ds: seq<ToolDelta>): Chat {
    if ds == [] then s else DeltaStep(DeltasRun(s, ds[..|ds| - 1]), ds[|ds| - 1])
  }

  function TextEvents(content: ContentField, reasoning: Option<string>): seq<Event> {
    (if FrameText(content) == "" then [] else [TextDelta(FrameText(content))])
    + (if NonEmpty(reasoning).None? then [] else [Reasoning(reasoning.value)])
  }

  function FrameStep(s: Chat, f: ChatFrame): Chat {
    var s1 := s.(assembled := s.assembled + FrameText(f.content), sent := s.sent + TextEvents(f.content, f.reasoning));
    var s2 := DeltasRun(s1, f.tools);
    if f.finish.Some? then s2.(stopReason := f.finish) else s2
  }

  function FramesRun(s: Chat, frames: seq<ChatFrame>): Chat {
    if frames == [] then s else FrameStep(FramesRun(s, frames[..|frames| - 1]), frames[|frames| - 1])
  }

  function Ends(pending: seq<Pending>): seq<Event> {
    if pending == [] then [] else [ToolUseEnd(pending[0].id)] + Ends(pending[1..])
  }

  function Calls<J>(c: Codec<J>, pending: seq<Pending>): seq<Content<J>> {
    if pending == [] then []
    else [ToolUse(pending[0].id, pending[0].name, ParseArgs(c, pending[0].args))] + Calls(c, pending[1..])
  }

  function FinalChat<J>(c: Codec<J>, s: Chat): seq<Content<J>> {
    (if s.assembled == "" then [] else [Text(s.assembled)]) + Calls(c, s.pending)
  }

  /** What is answered once the stream has ended; `done`: with the [DONE] marker. */
  function ChatAnswer<J>(c: Codec<J>, s: Chat, done: bool): Response<J> {
    if !done then StreamEndedEarly
    else if FinalChat(c, s) == [] then NoContent
    else Response(FinalChat(c, s), None, s.stopReason)
  }

  lemma {:induction false} EndsAppend(a: seq<Pending>, b: seq<Pending>)
    ensures Ends(a + b) == Ends(a) + Ends(b)
  {
    if a == [] {
      assert a + b == b;
    } else {
      assert (a + b)[1..] == a[1..] + b;
      EndsAppend(a[1..], b);
    }
  }

  lemma {:induction false} CallsAppend<J>(c: Codec<J>, a: seq<Pending>, b: seq<Pending>)
    ensures Calls(c, a + b) == Calls(c, a) + Calls(c, b)
  {
    if a == [] {
      assert a + b == b;
    } else {
      assert (a + b)[1..] == a[1..] + b;
      CallsAppend(c, a[1..], b);
    }
  }

  lemma {:induction false} CallsNone<J>(c: Codec<J>)
    ensures Calls(c, []) == [] && Ends([]) == []
  {
  }

  lemma {:induction false} CallsSnoc<J>(c: Codec<J>, pending: seq<Pending>, p: Pending)
    ensures Calls(c, pending + [p]) == Calls(c, pending) + [ToolUse(p.id, p.name, ParseArgs(c, p.args))]
    ensures Ends(pending + [p]) == Ends(pending) + [ToolUseEnd(p.id)]
  {
    CallsAppend(c, pending, [p]);
    EndsAppend(pending, [p]);
    assert [p][1..] == [];
  }

  class ChatAssembler<J> {
    const codec: Codec<J>
    var assembled: string
    var pending: seq<Pending>
    var stopReason: Option<string>
    var sent: seq<Event>

    ghost function View(): Chat
      reads this
    {
      Chat(assembled, pending, stopReason, sent)
    }

    constructor (c: Codec<J>)
      ensures codec == c && View() == BLANK
    {
      codec := c;
      assembled, pending, stopReason, sent := "", [], None, [];
    }

    method OnFrame(f: ChatFrame)
      modifies this
      ensures View() == FrameStep(old(View()), f)
    {
      var delta := FrameText(f.content);
      if delta != "" {
        assembled := assembled + delta;
        sent := sent + [TextDelta(delta)];
      }
      if f.reasoning.Some? && f.reasoning.value != "" {
        sent := sent + [Reasoning(f.reasoning.value)];
      }
      ghost var s1 := View();
      assert s1 == old(View()).(assembled := old(assembled) + delta,
                                sent := old(sent) + TextEvents(f.content, f.reasoning));
      for i := 0 to |f.tools|
        invariant View() == DeltasRun(s1, f.tools[..i])
      {
        assert f.tools[..i + 1][..i] == f.tools[..i];
        OnDelta(f.tools[i]);
      }
      assert f.tools[..|f.tools|] == f.tools;
      if f.finish.Some? {
        stopReason := f.finish;
      }
    }

    method OnDelta(d: ToolDelta)
      modifies this
      ensures View() == DeltaStep(old(View()), d)
    {
      ghost var before := View();
      while |pending| <= d.index
        invariant Grow(View(), d) == Grow(before, d)
        decreases d.index - |pending|
      {
        var id, name := OrEmpty(d.id), OrEmpty(d.name);
        sent := sent + [ToolUseStart(id, name)];
        pending := pending + [Pending(id, name, "")];
      }
      if d.args.Some? && d.args.value != "" {
        var p := pending[d.index];
        pending := pending[d.index := p.(args := p.args + d.args.value)];
        sent := sent + [ToolArgsDelta(p.id, d.args.value)];
      }
    }

    method Finish(done: bool) returns (r: Response<J>)
      modifies this
      ensures assembled == old(assembled) && pending == old(pending) && stopReason == old(stopReason)
      ensures sent == if done then old(sent) + Ends(pending) else old(sent)
      ensures r == ChatAnswer(codec, old(View()), done)
    {
      if !done {
        return StreamEndedEarly;
      }
      hide Calls, Ends;
      var content: seq<Content<J>> := [];
      if assembled != "" {
        content := content + [Text(assembled)];
      }
      ghost var head := content;
      CallsNone(codec);
      for i := 0 to |pending|
        invariant pending == old(pending) && assembled == old(assembled) && stopReason == old(stopReason)
        invariant content == head + Calls(codec, pending[..i])
        invariant sent == old(sent) + Ends(pending[..i])
      {
        var tc := pending[i];
        assert pending[..i + 1] == pending[..i] + [tc];
        CallsSnoc(codec, pending[..i], tc);
        content := content + [ToolUse(tc.id, tc.name, ParseArgs(codec, tc.args))];
        sent := sent + [ToolUseEnd(tc.id)];
      }
      assert pending[..|pending|] == pending;
      if content == [] {
        return NoContent;
      }
      r := Response(content, None, stopReason);
    }
  }

  // ---- What the deltas add up to -----------------------------------------

  function Max(a: nat, b: nat): nat {
    if a < b then b else a
  }

  function Width(ds: seq<ToolDelta>): nat {
    if ds == [] then 0 else Max(Width(ds[..|ds| - 1]), ds[|ds| - 1].index + 1)
  }

  /** The first delta that reaches index j. */
  function First(ds: seq<ToolDelta>, j: nat): ToolDelta
    requires j < Width(ds)
  {
    var last := |ds| - 1;
    if j < Width(ds[..last]) then First(ds[..last], j) else ds[last]
  }

  function ArgsOf(ds: seq<ToolDelta>, j: nat): string {
    if ds == [] then ""
    else ArgsOf(ds[..|ds| - 1], j) + (if ds[|ds| - 1].index == j then OrEmpty(ds[|ds| - 1].args) else "")
  }

  /** The call at index j, said without running anything: named by the first delta
      to reach j, with the arguments of all deltas for j in order. */
  function CallAt(ds: seq<ToolDelta>, j: nat): Pending
    requires j < Width(ds)
  {
    Pending(OrEmpty(First(ds, j).id), OrEmpty(First(ds, j).name), ArgsOf(ds, j))
  }

  lemma {:induction false} GrowExact(s: Chat, d: ToolDelta)
    ensures var g := Grow(s, d);
      && g.assembled == s.assembled && g.stopReason == s.stopReason
      && |g.pending| == Max(|s.pending|, d.index + 1)
      && (forall j :: 0 <= j < |g.pending| ==> g.pending[j] == if j < |s.pending| then s.pending[j] else NewCall(d))
    decreases d.index - |s.pending|
  {
    if |s.pending| <= d.index {
      GrowExact(s.(pending := s.pending + [NewCall(d)],
                   sent := s.sent + [ToolUseStart(NewCall(d).id, NewCall(d).name)]), d);
    }
  }

  lemma {:induction false} NoArgsBeyond(ds: seq<ToolDelta>, j: nat)
    requires j >= Width(ds)
    ensures ArgsOf(ds, j) == ""
  {
    if ds != [] { NoArgsBeyond(ds[..|ds| - 1], j); }
  }

  /** For any deltas, in any order, with or without gaps. */
  lemma {:induction false} PendingExact(s: Chat, ds: seq<ToolDelta>)
    requires s.pending == []
    ensures var t := DeltasRun(s, ds);
      && |t.pending| == Width(ds)
      && (forall j :: 0 <= j < Width(ds) ==> t.pending[j] == CallAt(ds, j))
      && t.assembled == s.assembled && t.stopReason == s.stopReason
  {
    if ds != [] {
      var before, d := ds[..|ds| - 1], ds[|ds| - 1];
      PendingExact(s, before);
      var t := DeltasRun(s, before);
      GrowExact(t, d);
      var g := Grow(t, d);
      forall j | 0 <= j < Width(ds) ensures DeltaStep(t, d).pending[j] == CallAt(ds, j) {
        PendingStep(t, ds, j);
      }
    }
  }

  lemma {:induction false} PendingStep(t: Chat, ds: seq<ToolDelta>, j: nat)
    requires ds != [] && j < Width(ds)
    requires var before := ds[..|ds| - 1];
      |t.pending| == Width(before) && forall i :: 0 <= i < Width(before) ==> t.pending[i] == CallAt(before, i)
    ensures |DeltaStep(t, ds[|ds| - 1]).pending| == Width(ds)
    ensures DeltaStep(t, ds[|ds| - 1]).pending[j] == CallAt(ds, j)
  {
    var before, d := ds[..|ds| - 1], ds[|ds| - 1];
    GrowExact(t, d);
    var g := Grow(t, d);
    if j >= Width(before) { NoArgsBeyond(before, j); }
    assert g.pending[j].args == ArgsOf(before, j);
    assert g.pending[j].args + "" == g.pending[j].args;
  }

  // ---- Frames ------------------------------------------------------------

  function AllDeltas(frames: seq<ChatFrame>): seq<ToolDelta> {
    if frames == [] then [] else AllDeltas(frames[..|frames| - 1]) + frames[|frames| - 1].tools
  }

  function AllText(frames: seq<ChatFrame>): string {
    if frames == [] then "" else AllText(frames[..|frames| - 1]) + FrameText(frames[|frames| - 1].content)
  }

  /** Where the text stands when a delta arrives does not touch the calls. */
  lemma {:induction false} PendingOnly(s: Chat, t: Chat, ds: seq<ToolDelta>)
    requires s.pending == t.pending
    ensures DeltasRun(s, ds).pending == DeltasRun(t, ds).pending
    ensures DeltasRun(s, ds).assembled == s.assembled
  {
    if ds != [] {
      var before, d := ds[..|ds| - 1], ds[|ds| - 1];
      PendingOnly(s, t, before);
      var s1, t1 := DeltasRun(s, before), DeltasRun(t, before);
      GrowExact(s1, d);
      GrowExact(t1, d);
      assert Grow(s1, d).pending == Grow(t1, d).pending;
    }
  }

  lemma {:induction false} DeltasAppend(s: Chat, a: seq<ToolDelta>, b: seq<ToolDelta>)
    ensures DeltasRun(s, a + b) == DeltasRun(DeltasRun(s, a), b)
  {
    if b == [] {
      assert a + b == a;
    } else {
      assert (a + b)[..|a + b| - 1] == a + b[..|b| - 1];
      DeltasAppend(s, a, b[..|b| - 1]);
    }
  }

  lemma {:induction false} FramesExact(frames: seq<ChatFrame>)
    ensures var s := FramesRun(BLANK, frames);
      s.assembled == AllText(frames) && s.pending == DeltasRun(BLANK, AllDeltas(frames)).pending
  {
    if frames != [] {
      var before, f := frames[..|frames| - 1], frames[|frames| - 1];
      FramesExact(before);
      var s := FramesRun(BLANK, before);
      var s1 := s.(assembled := s.assembled + FrameText(f.content),
                   sent := s.sent + TextEvents(f.content, f.reasoning));
      PendingOnly(s1, DeltasRun(BLANK, AllDeltas(before)), f.tools);
      DeltasAppend(BLANK, AllDeltas(before), f.tools);
    }
  }

  // ---- The whole message -------------------------------------------------

  datatype BodyCall = BodyCall(id: Option<string>, name: Option<string>, args: Option<string>)

  datatype BodyMessage = BodyMessage(content: ContentField, toolCalls: seq<BodyCall>)

  function MergeParts(merged: string, texts: seq<Option<string>>): string
    decreases |texts|
  {
    if texts == [] then merged
    else if texts[0].None? then MergeParts(merged, texts[1..])
    else MergeParts((if merged == "" then "" else merged + "\n") + texts[0].value, texts[1..])
  }

  function BodyText(content: ContentField): string {
    match content
    case Missing => ""
    case Plain(text) => text
    case Parts(texts) => MergeParts("", texts)
  }

  function BodyCalls<J>(c: Codec<J>, calls: seq<BodyCall>): seq<Content<J>> {
    if calls == [] then []
    else [ToolUse(OrEmpty(calls[0].id), OrEmpty(calls[0].name),
                  ParseArgs(c, match calls[0].args case Some(a) => a case None => "{}"))] + BodyCalls(c, calls[1..])
  }

  /** `extract_content_blocks_from_body`. */
  function ExtractChat<J>(c: Codec<J>, m: BodyMessage): seq<Content<J>> {
    (if BodyText(m.content) == "" then [] else [Text(BodyText(m.content))]) + BodyCalls(c, m.toolCalls)
  }

  method ExtractContentBlocks<J>(c: Codec<J>, m: BodyMessage) returns (blocks: seq<Content<J>>)
    ensures blocks == ExtractChat(c, m)
  {
    hide BodyCalls;
    blocks := [];
    var merged := "";
    match m.content {
      case Missing =>
      case Plain(text) => merged := text;
      case Parts(texts) =>
        for k := 0 to |texts|
          invariant MergeParts(merged, texts[k..]) == MergeParts("", texts)
        {
          assert texts[k..][1..] == texts[k + 1..];
          if texts[k].Some? {
            if merged != "" { merged := merged + "\n"; }
            merged := merged + texts[k].value;
          }
        }
        assert texts[|texts|..] == [];
    }
    if merged != "" { blocks := blocks + [Text(merged)]; }
    ghost var content := blocks;
    BodyCallsNone(c);
    for k := 0 to |m.toolCalls|
      invariant blocks == content + BodyCalls(c, m.toolCalls[..k])
    {
      var call := m.toolCalls[k];
      var text := match call.args case Some(a) => a case None => "{}";
      BodyCallsSnoc(c, m.toolCalls[..k], call);
      assert m.toolCalls[..k + 1] == m.toolCalls[..k] + [call];
      blocks := blocks + [ToolUse(OrEmpty(call.id), OrEmpty(call.name), ParseArgs(c, text))];
    }
    assert m.toolCalls[..|m.toolCalls|] == m.toolCalls;
  }

  /** A call without id, name or arguments has empty ones, and an empty object for input. */
  lemma {:induction false} MissingFields<J>(c: Codec<J>)
    ensures BodyCalls(c, [BodyCall(None, None, None)]) == [ToolUse("", "", ParseArgs(c, "{}"))]
  {
    BodyCallsNone(c);
    assert [BodyCall(None, None, None)][1..] == [];
  }

  lemma {:induction false} BodyCallsNone<J>(c: Codec<J>)
    ensures BodyCalls(c, []) == []
  {
  }

  lemma {:induction false} BodyCallsSnoc<J>(c: Codec<J>, calls: seq<BodyCall>, call: BodyCall)
    ensures BodyCalls(c, calls + [call]) == BodyCalls(c, calls) +
      [ToolUse(OrEmpty(call.id), OrEmpty(call.name), ParseArgs(c, match call.args case Some(a) => a case None => "{}"))]
  {
    if calls == [] {
      assert calls + [call] == [call] && [call][1..] == [];
    } else {
      assert (calls + [call])[1..] == calls[1..] + [call];
      BodyCallsSnoc(c, calls[1..], call);
    }
  }

  /** No text part follows the first one that is not empty. */
  predicate OneRealPart(texts: seq<Option<string>>) {
    texts == [] || (if NonEmpty(texts[0]).Some? then NoParts(texts[1..]) else OneRealPart(texts[1..]))
  }

  predicate NoParts(texts: seq<Option<string>>) {
    forall i :: 0 <= i < |texts| ==> texts[i].None?
  }

  lemma {:induction false} MergedLength(merged: string, texts: seq<Option<string>>)
    ensures |MergeParts(merged, texts)| >= |merged| + |Joined(texts)|
    ensures merged != "" && !NoParts(texts) ==> |MergeParts(merged, texts)| > |merged| + |Joined(texts)|
    ensures NoParts(texts) ==> MergeParts(merged, texts) == merged && Joined(texts) == ""
    decreases |texts|
  {
    if texts != [] {
      var next := if texts[0].None? then merged else (if merged == "" then "" else merged + "\n") + texts[0].value;
      MergedLength(next, texts[1..]);
      assert texts[0].None? && NoParts(texts[1..]) ==> NoParts(texts);
    }
  }

  /** A whole message puts line breaks between its text parts, a streamed delta does not:
      the same parts give the same text exactly when nothing follows the first real one. */
  lemma {:induction false} SamePartsExactly(texts: seq<Option<string>>)
    ensures BodyText(Parts(texts)) == FrameText(Parts(texts)) <==> OneRealPart(texts)
    decreases |texts|
  {
    if texts != [] {
      var rest := texts[1..];
      if NonEmpty(texts[0]).Some? {
        var v := texts[0].value;
        assert "" + v == v + "" == v;
        MergedLength(v, rest);
        assert |Joined(texts)| == |v| + |Joined(rest)|;
      } else {
        SamePartsExactly(rest);
      }
    }
  }

  /** Two text parts: a line break in the whole message, none in the stream. */
  lemma {:induction false} TwoPartsDiffer()
    ensures var parts := Parts([Some("a"), Some("b")]);
      BodyText(parts) == "a\nb" && FrameText(parts) == "ab"
  {
    var texts := [Some("a"), Some("b")];
    assert texts[1..] == [Some("b")] && texts[1..][1..] == [];
    assert MergeParts("", texts) == MergeParts("" + "a", texts[1..]) == MergeParts("a" + "\n" + "b", []);
    assert Joined(texts) == "a" + Joined([Some("b")]) && Joined([Some("b")]) == "b" + Joined([]);
  }

  function WholeCalls(calls: seq<Pending>): seq<BodyCall> {
    if calls == [] then []
    else [BodyCall(Some(calls[0].id), Some(calls[0].name), Some(calls[0].args))] + WholeCalls(calls[1..])
  }

  /** Each index appears first in its turn, with the id and name of its call, and
      the fragments for it add up to its arguments; otherwise any interleaving. */
  ghost predicate Encodes(ds: seq<ToolDelta>, calls: seq<Pending>) {
    && Width(ds) == |calls|
    && (forall k :: 0 <= k < |ds| && Width(ds[..k]) <= ds[k].index ==> Opens(ds, k, calls))
    && (forall j :: 0 <= j < |calls| ==> ArgsOf(ds, j) == calls[j].args)
  }

  ghost predicate Opens(ds: seq<ToolDelta>, k: nat, calls: seq<Pending>)
    requires k < |ds|
  {
    var j := Width(ds[..k]);
    ds[k].index == j && j < |calls| && OrEmpty(ds[k].id) == calls[j].id && OrEmpty(ds[k].name) == calls[j].name
  }

  ghost predicate DistinctIds(calls: seq<Pending>) {
    forall i, j :: 0 <= i < j < |calls| ==> calls[i].id != calls[j].id
  }

  lemma {:induction false} FirstIsOwn(ds: seq<ToolDelta>, all: seq<ToolDelta>, calls: seq<Pending>, j: nat)
    requires Encodes(all, calls) && ds <= all && j < Width(ds)
    ensures First(ds, j).index == j && j < |calls|
    ensures OrEmpty(First(ds, j).id) == calls[j].id && OrEmpty(First(ds, j).name) == calls[j].name
  {
    var last := |ds| - 1;
    if j < Width(ds[..last]) {
      FirstIsOwn(ds[..last], all, calls, j);
    } else {
      assert all[..last] == ds[..last] && all[last] == ds[last];
      assert Opens(all, last, calls);
    }
  }

  /** Call i ends with its own id, its own name and its own arguments. */
  lemma {:induction false} EncodedCalls(ds: seq<ToolDelta>, calls: seq<Pending>)
    requires Encodes(ds, calls)
    ensures DeltasRun(BLANK, ds).pending == calls
  {
    PendingExact(BLANK, ds);
    forall j | 0 <= j < |calls| ensures DeltasRun(BLANK, ds).pending[j] == calls[j] {
      FirstIsOwn(ds, ds, calls, j);
    }
  }

  /** A delta that goes beyond the calls so far is the first to reach all of them up to its index. */
  lemma {:induction false} Reaches(ds: seq<ToolDelta>, k: nat, j: nat)
    requires k < |ds| && Width(ds[..k]) <= j <= ds[k].index
    ensures j < Width(ds) && First(ds, j) == ds[k]
    decreases |ds|
  {
    var last := |ds| - 1;
    if k < last {
      assert ds[..last][..k] == ds[..k];
      Reaches(ds[..last], k, j);
    }
  }

  /** If calls with different ids come out, each was opened in its turn: a delta that
      skips an index would give its id to two of them. */
  lemma {:induction false} OpenedInTurn(ds: seq<ToolDelta>, calls: seq<Pending>, k: nat)
    requires DistinctIds(calls) && |calls| == Width(ds)
    requires forall j :: 0 <= j < |calls| ==> calls[j] == CallAt(ds, j)
    requires k < |ds| && Width(ds[..k]) <= ds[k].index
    ensures Opens(ds, k, calls)
  {
    var j, d := Width(ds[..k]), ds[k];
    Reaches(ds, k, j);
    Reaches(ds, k, d.index);
    assert calls[j].id == OrEmpty(d.id) == calls[d.index].id;
  }

  /** Calls with different ids keep their own id, name and arguments if and only if each
      index appears first in its turn, and with its own id and name. */
  lemma {:induction false} CallsKeptExactly(ds: seq<ToolDelta>, calls: seq<Pending>)
    requires DistinctIds(calls)
    ensures DeltasRun(BLANK, ds).pending == calls <==> Encodes(ds, calls)
  {
    if Encodes(ds, calls) {
      EncodedCalls(ds, calls);
    } else if DeltasRun(BLANK, ds).pending == calls {
      PendingExact(BLANK, ds);
      forall k | 0 <= k < |ds| && Width(ds[..k]) <= ds[k].index ensures Opens(ds, k, calls) {
        OpenedInTurn(ds, calls, k);
      }
    }
  }

  /** The same for whole frames, wherever text and reasoning fall. */
  lemma {:induction false} FramesKeepCallsExactly(frames: seq<ChatFrame>, calls: seq<Pending>)
    requires DistinctIds(calls)
    ensures FramesRun(BLANK, frames).pending == calls <==> Encodes(AllDeltas(frames), calls)
  {
    FramesExact(frames);
    CallsKeptExactly(AllDeltas(frames), calls);
  }

  lemma {:induction false} CallsAgree<J>(c: Codec<J>, calls: seq<Pending>)
    ensures Calls(c, calls) == BodyCalls(c, WholeCalls(calls))
  {
    if calls != [] {
      CallsAgree(c, calls[1..]);
      assert WholeCalls(calls)[1..] == WholeCalls(calls[1..]);
    }
  }

  /** Streaming a message in frames gives the very content of the whole message, unless
      the message has several text parts of which a later one follows a real one. */
  lemma {:induction false} ChatAgrees<J>(
      c: Codec<J>, frames: seq<ChatFrame>, content: ContentField, calls: seq<Pending>)
    requires AllText(frames) == FrameText(content) && Encodes(AllDeltas(frames), calls)
    ensures FinalChat(c, FramesRun(BLANK, frames)) == ExtractChat(c, BodyMessage(content, WholeCalls(calls)))
      <==> (content.Parts? ==> OneRealPart(content.texts))
  {
    hide FramesRun, AllText, AllDeltas, Encodes, Calls, BodyCalls, BodyText, FrameText, OneRealPart;
    FramesExact(frames);
    EncodedCalls(AllDeltas(frames), calls);
    CallsAgree(c, calls);
    SameTextExactly(content);
    SameHead(c, FrameText(content), BodyText(content), Calls(c, calls));
  }

  lemma {:induction false} SameTextExactly(content: ContentField)
    ensures BodyText(content) == FrameText(content) <==> (content.Parts? ==> OneRealPart(content.texts))
  {
    if content.Parts? { SamePartsExactly(content.texts); }
  }

  lemma {:induction false} SameHead<J>(c: Codec<J>, a: string, b: string, rest: seq<Content<J>>)
    ensures var left, right: seq<Content<J>> :=
        (if a == "" then [] else [Text(a)]) + rest, (if b == "" then [] else [Text(b)]) + rest;
      left == right <==> a == b
  {
    var left: seq<Content<J>>, right: seq<Content<J>> :=
      (if a == "" then [] else [Text(a)]) + rest, (if b == "" then [] else [Text(b)]) + rest;
    if left == right {
      assert |left| == |right|;
      if a != "" && b != "" { assert left[0] == Text(a) && right[0] == Text(b); }
    }
  }

  // ---- Whether and what a stream answers ---------------------------------

  /** `reason` is the finish reason of the last frame that has one; None if none has. */
  ghost predicate LastFinish(frames: seq<ChatFrame>, reason: Option<string>) {
    if reason.None? then forall i :: 0 <= i < |frames| ==> frames[i].finish.None?
    else exists i :: 0 <= i < |frames| && frames[i].finish == reason
                     && forall j :: i < j < |frames| ==> frames[j].finish.None?
  }

  lemma {:induction false} LastFinishSnoc(most: seq<ChatFrame>, f: ChatFrame, reason: Option<string>)
    requires LastFinish(most, reason)
    ensures LastFinish(most + [f], if f.finish.Some? then f.finish else reason)
  {
    var frames := most + [f];
    if f.finish.Some? {
      assert frames[|most|].finish == f.finish;
    } else if reason.Some? {
      var i :| 0 <= i < |most| && most[i].finish == reason && forall j :: i < j < |most| ==> most[j].finish.None?;
      assert frames[i].finish == reason;
    }
  }

  lemma {:induction false} FinishTells(frames: seq<ChatFrame>)
    ensures LastFinish(frames, FramesRun(BLANK, frames).stopReason)
  {
    if frames != [] {
      hide LastFinish, DeltasRun;
      var most, f := frames[..|frames| - 1], frames[|frames| - 1];
      FinishTells(most);
      LastFinishSnoc(most, f, FramesRun(BLANK, most).stopReason);
      assert frames == most + [f];
      var s := FramesRun(BLANK, most);
      DeltasKeepReason(s.(assembled := s.assembled + FrameText(f.content),
                          sent := s.sent + TextEvents(f.content, f.reasoning)), f.tools);
    } else {
      assert FramesRun(BLANK, frames).stopReason == None;
    }
  }

  lemma {:induction false} DeltasKeepReason(s: Chat, ds: seq<ToolDelta>)
    ensures DeltasRun(s, ds).stopReason == s.stopReason
  {
    if ds != [] {
      DeltasKeepReason(s, ds[..|ds| - 1]);
      GrowExact(DeltasRun(s, ds[..|ds| - 1]), ds[|ds| - 1]);
    }
  }

  lemma {:induction false} OneFinish(frames: seq<ChatFrame>, a: Option<string>, b: Option<string>)
    requires LastFinish(frames, a) && LastFinish(frames, b)
    ensures a == b
  {
  }

  /** Without the marker the stream is an error, without text and calls another; otherwise the
      answer is the text of all frames, the calls, and the last finish reason. */
  lemma {:induction false} ChatAnswers<J>(
      c: Codec<J>, frames: seq<ChatFrame>, calls: seq<Pending>, done: bool, reason: Option<string>)
    requires Encodes(AllDeltas(frames), calls) && LastFinish(frames, reason)
    ensures ChatAnswer(c, FramesRun(BLANK, frames), done) ==
      if !done then StreamEndedEarly
      else if AllText(frames) == "" && calls == [] then NoContent
      else Response((if AllText(frames) == "" then [] else [Text(AllText(frames))]) + BodyCalls(c, WholeCalls(calls)),
                    None, reason)
  {
    hide FramesRun, AllText, AllDeltas, Encodes, LastFinish;
    FramesExact(frames);
    EncodedCalls(AllDeltas(frames), calls);
    CallsAgree(c, calls);
    FinishTells(frames);
    OneFinish(frames, FramesRun(BLANK, frames).stopReason, reason);
  }

  // ---- Text and reasoning as they are told -------------------------------

  /** The texts and the reasoning that the events carry. */
  function Told(events: seq<Event>): (string, string) {
    if events == [] then ("", "")
    else
      var (text, reasoning) := Told(events[..|events| - 1]);
      match events[|events| - 1]
      case TextDelta(t) => (text + t, reasoning)
      case Reasoning(t) => (text, reasoning + t)
      case _ => (text, reasoning)
  }

  function AllReasoning(frames: seq<ChatFrame>): string {
    if frames == [] then "" else AllReasoning(frames[..|frames| - 1]) + OrEmpty(frames[|frames| - 1].reasoning)
  }

  lemma {:induction false} ToldSnoc(events: seq<Event>, e: Event)
    ensures var (text, reasoning) := Told(events);
      Told(events + [e]) ==
      match e
      case TextDelta(t) => (text + t, reasoning)
      case Reasoning(t) => (text, reasoning + t)
      case _ => (text, reasoning)
  {
    assert (events + [e])[..|events|] == events;
  }

  lemma {:induction false} GrowToldNothing(s: Chat, d: ToolDelta)
    ensures Told(Grow(s, d).sent) == Told(s.sent)
    decreases d.index - |s.pending|
  {
    if |s.pending| <= d.index {
      hide Told;
      ToldSnoc(s.sent, ToolUseStart(NewCall(d).id, NewCall(d).name));
      GrowToldNothing(s.(pending := s.pending + [NewCall(d)],
                         sent := s.sent + [ToolUseStart(NewCall(d).id, NewCall(d).name)]), d);
    }
  }

  lemma {:induction false} DeltasToldNothing(s: Chat, ds: seq<ToolDelta>)
    ensures Told(DeltasRun(s, ds).sent) == Told(s.sent)
  {
    if ds != [] {
      hide Told, Grow;
      var before, d := ds[..|ds| - 1], ds[|ds| - 1];
      DeltasToldNothing(s, before);
      var t := DeltasRun(s, before);
      GrowToldNothing(t, d);
      var g := Grow(t, d);
      if NonEmpty(d.args).Some? { ToldSnoc(g.sent, ToolArgsDelta(g.pending[d.index].id, d.args.value)); }
    }
  }

  lemma {:induction false} TextTold(sent: seq<Event>, content: ContentField, reasoning: Option<string>)
    ensures var (text, thought) := Told(sent);
      Told(sent + TextEvents(content, reasoning)) == (text + FrameText(content), thought + OrEmpty(reasoning))
  {
    hide Told, FrameText;
    var (text, thought) := Told(sent);
    assert text + "" == text && thought + "" == thought;
    var t := FrameText(content);
    var sent1 := if t == "" then sent else sent + [TextDelta(t)];
    if t != "" { ToldSnoc(sent, TextDelta(t)); }
    if NonEmpty(reasoning).Some? {
      ToldSnoc(sent1, Reasoning(reasoning.value));
      assert sent + TextEvents(content, reasoning) == sent1 + [Reasoning(reasoning.value)];
    } else {
      assert sent + TextEvents(content, reasoning) == sent1;
    }
  }

  /** A subscriber is told all text and all reasoning, in order; reasoning is told only, and is
      no part of the answer. */
  lemma {:induction false} EventsCarryText(frames: seq<ChatFrame>)
    ensures Told(FramesRun(BLANK, frames).sent) == (AllText(frames), AllReasoning(frames))
  {
    if frames != [] {
      hide Told, DeltasRun, FrameText, TextEvents;
      var most, f := frames[..|frames| - 1], frames[|frames| - 1];
      EventsCarryText(most);
      var s := FramesRun(BLANK, most);
      TextTold(s.sent, f.content, f.reasoning);
      DeltasToldNothing(s.(assembled := s.assembled + FrameText(f.content),
                           sent := s.sent + TextEvents(f.content, f.reasoning)), f.tools);
    }
  }

  /** Out of turn, a call takes the identity of whichever delta reached it first. */
  lemma {:induction false} SkippedIndexTakesForeignId()
    ensures var ds := [ToolDelta(1, Some("b"), Some("two"), None), ToolDelta(0, Some("a"), Some("one"), None)];
      DeltasRun(BLANK, ds).pending == [Pending("b", "two", ""), Pending("b", "two", "")]
  {
    var d0, d1 := ToolDelta(1, Some("b"), Some("two"), None), ToolDelta(0, Some("a"), Some("one"), None);
    var ds := [d0, d1];
    assert ds[..1] == [d0] && [d0][..0] == [];
    PendingExact(BLANK, ds);
    assert Width([d0]) == 2 && Width(ds) == 2;
    assert First(ds, 0) == First([d0], 0) == d0 && First(ds, 1) == First([d0], 1) == d0;
    assert "" + "" == "";
    assert ArgsOf([d0][..0], 1) == "" && ArgsOf([d0][..0], 0) == "";
    assert ArgsOf([d0], 0) == "" && ArgsOf([d0], 1) == "";
  }

  // ---- Events, call by call ----------------------------------------------

  predicate Concerns(e: Event, id: string) {
    match e
    case ToolUseStart(i, _) => i == id
    case ToolArgsDelta(i, _) => i == id
    case ToolUseEnd(i) => i == id
    case _ => false
  }

  function EventsOf(events: seq<Event>, id: string): seq<Event> {
    if events == [] then []
    else
      var last := events[|events| - 1];
      EventsOf(events[..|events| - 1], id) + (if Concerns(last, id) then [last] else [])
  }

  lemma {:induction false} EventsAppend(a: seq<Event>, b: seq<Event>, id: string)
    ensures EventsOf(a + b, id) == EventsOf(a, id) + EventsOf(b, id)
  {
    if b == [] {
      assert a + b == a;
    } else {
      var e := b[|b| - 1];
      assert (a + b)[..|a + b| - 1] == a + b[..|b| - 1] && (a + b)[|a + b| - 1] == e;
      EventsAppend(a, b[..|b| - 1], id);
    }
  }

  /** The argument events call j should cause. */
  function ArgEvents(ds: seq<ToolDelta>, j: nat, id: string): seq<Event> {
    if ds == [] then []
    else
      var d := ds[|ds| - 1];
      ArgEvents(ds[..|ds| - 1], j, id)
      + (if d.index == j && NonEmpty(d.args).Some? then [ToolArgsDelta(id, d.args.value)] else [])
  }

  /** The events of each call so far, and none for ids not seen yet. */
  ghost predicate Accounted(s: Chat, ds: seq<ToolDelta>, calls: seq<Pending>) {
    && |s.pending| == Width(ds) <= |calls|
    && (forall j :: 0 <= j < |s.pending| ==> s.pending[j].id == calls[j].id && s.pending[j].name == calls[j].name)
    && (forall j :: 0 <= j < |calls| ==> EventsOf(s.sent, calls[j].id) == EventsSoFar(ds, j, calls[j]))
  }

  function EventsSoFar(ds: seq<ToolDelta>, j: nat, call: Pending): seq<Event> {
    (if j < Width(ds) then [ToolUseStart(call.id, call.name)] else []) + ArgEvents(ds, j, call.id)
  }

  lemma {:induction false} NoArgEventsBeyond(ds: seq<ToolDelta>, j: nat, id: string)
    requires j >= Width(ds)
    ensures ArgEvents(ds, j, id) == []
  {
    if ds != [] { NoArgEventsBeyond(ds[..|ds| - 1], j, id); }
  }

  lemma {:induction false} DeltasAccounted(all: seq<ToolDelta>, calls: seq<Pending>, n: nat)
    requires Encodes(all, calls) && DistinctIds(calls) && n <= |all|
    ensures Accounted(DeltasRun(BLANK, all[..n]), all[..n], calls)
  {
    if n > 0 {
      DeltasAccounted(all, calls, n - 1);
      assert all[..n][..n - 1] == all[..n - 1];
      WidthWithin(all, n - 1);
      WidthWithin(all, n);
      StepAccounted(DeltasRun(BLANK, all[..n - 1]), all, n - 1, calls);
    }
  }

  lemma {:induction false} WidthWithin(all: seq<ToolDelta>, n: nat)
    requires n <= |all|
    ensures Width(all[..n]) <= Width(all)
    decreases |all|
  {
    if n == |all| {
      assert all[..n] == all;
    } else {
      var most := all[..|all| - 1];
      assert all[..n] == most[..n];
      WidthWithin(most, n);
    }
  }

  lemma {:induction false} StepAccounted(s: Chat, all: seq<ToolDelta>, k: nat, calls: seq<Pending>)
    requires k < |all| && Encodes(all, calls) && DistinctIds(calls)
    requires Accounted(s, all[..k], calls) && Width(all[..k + 1]) <= |calls|
    ensures Accounted(DeltaStep(s, all[k]), all[..k + 1], calls)
  {
    hide EventsOf, EventsSoFar, ArgsOf, Encodes, Width;
    var ds, ds', d := all[..k], all[..k + 1], all[k];
    assert ds' == ds + [d];
    StepPending(s, all, k, calls);
    GrowOneMore(s, all, k, calls);
    var g, t := Grow(s, d), DeltaStep(s, d);
    assert forall i :: 0 <= i < |g.pending| ==> g.pending[i].id == t.pending[i].id;
    forall j | 0 <= j < |calls| ensures EventsOf(t.sent, calls[j].id) == EventsSoFar(ds', j, calls[j]) {
      StepEvents(s, g, ds, d, j, calls);
      EventsSoFarSnoc(ds, d, j, calls[j]);
    }
  }

  lemma {:induction false} StepPending(s: Chat, all: seq<ToolDelta>, k: nat, calls: seq<Pending>)
    requires k < |all| && Encodes(all, calls)
    requires Accounted(s, all[..k], calls) && Width(all[..k + 1]) <= |calls|
    ensures var t := DeltaStep(s, all[k]);
      && |t.pending| == |Grow(s, all[k]).pending| == Width(all[..k + 1])
      && (forall j :: 0 <= j < |t.pending| ==> t.pending[j].id == calls[j].id && t.pending[j].name == calls[j].name)
  {
    hide EventsOf, EventsSoFar, ArgsOf;
    assert all[..k + 1][..k] == all[..k];
    GrowExact(s, all[k]);
    GrowOneMore(s, all, k, calls);
  }

  /** In turn, a delta opens at most one call. */
  lemma {:induction false} GrowOneMore(s: Chat, all: seq<ToolDelta>, k: nat, calls: seq<Pending>)
    requires k < |all| && Encodes(all, calls) && |s.pending| == Width(all[..k])
    ensures var d := all[k];
      && (d.index < |s.pending| ==> Grow(s, d) == s)
      && (d.index >= |s.pending| ==>
            && d.index == |s.pending| < |calls|
            && NewCall(d).id == calls[d.index].id && NewCall(d).name == calls[d.index].name
            && Grow(s, d).sent == s.sent + [ToolUseStart(calls[d.index].id, calls[d.index].name)])
  {
    var d := all[k];
    if |s.pending| <= d.index {
      assert Opens(all, k, calls);
      var started := s.(pending := s.pending + [NewCall(d)],
                        sent := s.sent + [ToolUseStart(NewCall(d).id, NewCall(d).name)]);
      assert Grow(s, d) == Grow(started, d) == started;
    }
  }

  lemma {:induction false} StepEvents(s: Chat, g: Chat, ds: seq<ToolDelta>, d: ToolDelta, j: nat, calls: seq<Pending>)
    requires j < |calls| && Accounted(s, ds, calls) && DistinctIds(calls)
    requires d.index < |g.pending| <= |calls|
    requires forall i :: 0 <= i < |g.pending| ==> g.pending[i].id == calls[i].id
    requires if d.index < |s.pending| then g == s
             else d.index == |s.pending| && g.sent == s.sent + [ToolUseStart(calls[d.index].id, calls[d.index].name)]
    ensures EventsOf(AddArgs(g, d).sent, calls[j].id) ==
      EventsOf(s.sent, calls[j].id)
      + (if d.index == j && |s.pending| <= j then [ToolUseStart(calls[j].id, calls[j].name)] else [])
      + (if d.index == j && NonEmpty(d.args).Some? then [ToolArgsDelta(calls[j].id, d.args.value)] else [])
  {
  }

  lemma {:induction false} EventsSoFarSnoc(ds: seq<ToolDelta>, d: ToolDelta, j: nat, call: Pending)
    requires d.index <= Width(ds)
    ensures Width(ds + [d]) >= Width(ds)
    ensures EventsSoFar(ds + [d], j, call) ==
      EventsSoFar(ds, j, call)
      + (if d.index == j && Width(ds) <= j then [ToolUseStart(call.id, call.name)] else [])
      + (if d.index == j && NonEmpty(d.args).Some? then [ToolArgsDelta(call.id, d.args.value)] else [])
  {
    assert (ds + [d])[..|ds|] == ds;
    if Width(ds) <= j { NoArgEventsBeyond(ds, j, call.id); }
  }

  lemma {:induction false} EndEvents(calls: seq<Pending>, j: nat)
    requires j < |calls| && DistinctIds(calls)
    ensures EventsOf(Ends(calls), calls[j].id) == [ToolUseEnd(calls[j].id)]
    decreases |calls|
  {
    var n := |calls| - 1;
    var most, last := calls[..n], calls[n];
    assert calls == most + [last];
    EndsAppend(most, [last]);
    assert [last][1..] == [];
    if j < n {
      EndEvents(most, j);
    } else {
      NoEndEvents(most, last.id);
    }
  }

  lemma {:induction false} NoEndEvents(calls: seq<Pending>, id: string)
    requires forall i :: 0 <= i < |calls| ==> calls[i].id != id
    ensures EventsOf(Ends(calls), id) == []
    decreases |calls|
  {
    if calls != [] {
      var n := |calls| - 1;
      assert calls == calls[..n] + [calls[n]];
      EndsAppend(calls[..n], [calls[n]]);
      assert [calls[n]][1..] == [];
      NoEndEvents(calls[..n], id);
    }
  }

  lemma {:induction false} DeltaEventsPerCall(ds: seq<ToolDelta>, calls: seq<Pending>, j: nat)
    requires Encodes(ds, calls) && DistinctIds(calls) && j < |calls|
    ensures EventsOf(DeltasRun(BLANK, ds).sent, calls[j].id) ==
      [ToolUseStart(calls[j].id, calls[j].name)] + ArgEvents(ds, j, calls[j].id)
  {
    assert ds[..|ds|] == ds;
    DeltasAccounted(ds, calls, |ds|);
  }

  // ---- Text and reasoning in between -------------------------------------

  /** Two runs with the same calls that have told call `id` the same events. */
  ghost predicate Alike(s: Chat, t: Chat, id: string) {
    s.pending == t.pending && EventsOf(s.sent, id) == EventsOf(t.sent, id)
  }

  lemma {:induction false} GrowAlike(s: Chat, t: Chat, d: ToolDelta, id: string)
    requires Alike(s, t, id)
    ensures Alike(Grow(s, d), Grow(t, d), id)
    decreases d.index - |s.pending|
  {
    if |s.pending| <= d.index {
      var p, e := NewCall(d), ToolUseStart(NewCall(d).id, NewCall(d).name);
      EventsAppend(s.sent, [e], id);
      EventsAppend(t.sent, [e], id);
      GrowAlike(s.(pending := s.pending + [p], sent := s.sent + [e]),
          t.(pending := t.pending + [p], sent := t.sent + [e]), d, id);
    }
  }

  lemma {:induction false} DeltasAlike(s: Chat, t: Chat, ds: seq<ToolDelta>, id: string)
    requires Alike(s, t, id)
    ensures Alike(DeltasRun(s, ds), DeltasRun(t, ds), id)
  {
    if ds != [] {
      hide EventsOf, Grow;
      var before, d := ds[..|ds| - 1], ds[|ds| - 1];
      DeltasAlike(s, t, before, id);
      var s1, t1 := DeltasRun(s, before), DeltasRun(t, before);
      GrowAlike(s1, t1, d, id);
      var s2, t2 := Grow(s1, d), Grow(t1, d);
      if NonEmpty(d.args).Some? {
        var e := ToolArgsDelta(s2.pending[d.index].id, d.args.value);
        EventsAppend(s2.sent, [e], id);
        EventsAppend(t2.sent, [e], id);
      }
    }
  }

  /** Text and reasoning deltas, wherever they fall, tell a call nothing. */
  lemma {:induction false} FramesAlike(frames: seq<ChatFrame>, id: string)
    ensures Alike(FramesRun(BLANK, frames), DeltasRun(BLANK, AllDeltas(frames)), id)
  {
    if frames != [] {
      hide EventsOf, DeltasRun;
      var before, f := frames[..|frames| - 1], frames[|frames| - 1];
      FramesAlike(before, id);
      var s, t := FramesRun(BLANK, before), DeltasRun(BLANK, AllDeltas(before));
      var told := TextEvents(f.content, f.reasoning);
      var s1 := s.(assembled := s.assembled + FrameText(f.content), sent := s.sent + told);
      EventsAppend(s.sent, told, id);
      TextTellsNothing(f.content, f.reasoning, id);
      DeltasAlike(s1, t, f.tools, id);
      DeltasAppend(BLANK, AllDeltas(before), f.tools);
    }
  }

  lemma {:induction false} TextTellsNothing(content: ContentField, reasoning: Option<string>, id: string)
    ensures EventsOf(TextEvents(content, reasoning), id) == []
  {
    var told := TextEvents(content, reasoning);
    if |told| == 2 { assert told[..1] == [told[0]] && EventsOf(told[..1], id) == []; }
  }

  /** However text, reasoning and the calls' fragments interleave over the frames, a
      completed stream has told each call one Start, its argument fragments in order,
      and one End. */
  lemma {:induction false} EventsPerCall(frames: seq<ChatFrame>, calls: seq<Pending>, j: nat)
    requires Encodes(AllDeltas(frames), calls) && DistinctIds(calls) && j < |calls|
    ensures var s := FramesRun(BLANK, frames);
      EventsOf(s.sent + Ends(s.pending), calls[j].id) ==
      [ToolUseStart(calls[j].id, calls[j].name)] + ArgEvents(AllDeltas(frames), j, calls[j].id) +
          [ToolUseEnd(calls[j].id)]
  {
    hide FramesRun, AllDeltas, Encodes, EventsOf, Ends, ArgEvents;
    var s := FramesRun(BLANK, frames);
    FramesAlike(frames, calls[j].id);
    DeltaEventsPerCall(AllDeltas(frames), calls, j);
    EncodedCalls(AllDeltas(frames), calls);
    EventsAppend(s.sent, Ends(s.pending), calls[j].id);
    EndEvents(calls, j);
  }
}
