/**
 * RenderBuddy's "Multi-Size Render" operator: it reads a comma-separated
 * list of `WxH` sizes, renders one still per size that parses (the output
 * path numbered with that size), warns about every size that does not
 * parse or whose render fails, and puts the render settings back as they
 * were.
 */
module RenderBuddy {
  import opened PyText
  import opened SceneData
  import opened SeqFacts

  datatype Option<T> = None | Some(value: T)

  /**
   * One size token as `w, h = map(int, res.strip().lower().split('x'))`
   * reads it: exactly two parts, each accepted by `int()`. No range check.
   */
  function ParseResolution(token: string): Option<(int, int)> {
    var parts := Split(Lower(Strip(token)), 'x');
    if |parts| == 2 && IsIntLiteral(parts[0]) && IsIntLiteral(parts[1])
    then Some((IntValue(parts[0]), IntValue(parts[1])))
    else None
  }

  /** The output path of one size: `f"{original}_{w}x{h}"`. */
  function OutputPath(original: string, w: int, h: int): string {
    original + "_" + Str(w) + "x" + Str(h)
  }

  /** The render settings the operator changes and restores. */
  class RenderSettings {
    var resolutionX: int
    var resolutionY: int
    var filepath: string

    constructor (resolutionX: int, resolutionY: int, filepath: string)
      ensures this.resolutionX == resolutionX && this.resolutionY == resolutionY
      ensures this.filepath == filepath
    {
      this.resolutionX, this.resolutionY, this.filepath := resolutionX, resolutionY, filepath;
    }
  }

  /** The settings one render call saw. */
  datatype Frame = Frame(width: int, height: int, filepath: string)

  /** The resolution and output path the settings hold now. */
  function Shown(settings: RenderSettings): Frame
    reads settings
  {
    Frame(settings.resolutionX, settings.resolutionY, settings.filepath)
  }

  /** One render call: the settings it saw and whether it succeeded. */
  datatype RenderCall = RenderCall(frame: Frame, ok: bool)

  /**
   * The host's still renderer, `bpy.ops.render.render(write_still=True)`,
   * reduced to a log of its calls. Whether a call succeeds is up to the
   * host, so the model leaves it open.
   */
  class Renderer {
    var log: seq<RenderCall>

    constructor ()
      ensures log == []
    {
      log := [];
    }

    method Render(settings: RenderSettings) returns (ok: bool)
      modifies this
      ensures log == old(log) + [RenderCall(Frame(settings.resolutionX, settings.resolutionY, settings.filepath), ok)]
    {
      ok := *;
      log := log + [RenderCall(Frame(settings.resolutionX, settings.resolutionY, settings.filepath), ok)];
    }
  }

  /** The frames of a sequence of render calls, in order. */
  function Frames(calls: seq<RenderCall>): (r: seq<Frame>)
    ensures |r| == |calls|
  {
    if calls == [] then [] else Frames(calls[..|calls| - 1]) + [calls[|calls| - 1].frame]
  }

  /** The outcomes of a sequence of render calls, in order. */
  function Outcomes(calls: seq<RenderCall>): (r: seq<bool>)
    ensures |r| == |calls|
  {
    if calls == [] then [] else Outcomes(calls[..|calls| - 1]) + [calls[|calls| - 1].ok]
  }

  /** A raw token with what `ParseResolution` makes of it. */
  datatype Parsed = Parsed(token: string, size: Option<(int, int)>)

  /** Every token, paired with its parse. */
  function ParseTokens(tokens: seq<string>): (r: seq<Parsed>)
    ensures |r| == |tokens|
  {
    if tokens == [] then []
    else ParseTokens(tokens[..|tokens| - 1]) + [Parsed(tokens[|tokens| - 1], ParseResolution(tokens[|tokens| - 1]))]
  }

  /** The parse of one token stands at that token's position. */
  lemma {:induction false} ParseTokensAt(tokens: seq<string>, i: nat)
    requires i < |tokens|
    ensures ParseTokens(tokens)[i] == Parsed(tokens[i], ParseResolution(tokens[i]))
  {
    var n := |tokens| - 1;
    var left, last := ParseTokens(tokens[..n]), Parsed(tokens[n], ParseResolution(tokens[n]));
    assert ParseTokens(tokens) == left + [last];
    if i < n {
      ParseTokensAt(tokens[..n], i);
      assert tokens[..n][i] == tokens[i];
    }
  }

  /** How many of the tokens parse. */
  function AcceptedCount(items: seq<Parsed>): (n: nat)
    ensures n <= |items|
  {
    if items == [] then 0
    else AcceptedCount(items[..|items| - 1]) + (if items[|items| - 1].size.Some? then 1 else 0)
  }

  /** The frame one token asks for: none if it does not parse. */
  function TokenFrames(item: Parsed, original: string): (r: seq<Frame>)
    ensures |r| == if item.size.Some? then 1 else 0
  {
    match item.size
    case None => []
    case Some((w, h)) => [Frame(w, h, OutputPath(original, w, h))]
  }

  /** The frames the tokens ask for, in token order, one per token that parses. */
  function Planned(items: seq<Parsed>, original: string): (r: seq<Frame>)
    ensures |r| == AcceptedCount(items)
  {
    if items == [] then []
    else Planned(items[..|items| - 1], original) + TokenFrames(items[|items| - 1], original)
  }

  /** The warning that names a raw token. */
  function InvalidWarning(token: string): Message {
    Message(Warning, "Invalid resolution: " + token)
  }

  /**
   * The warnings the loop reports, given the outcome of the render of each
   * token that parses: one for every token that does not parse and one for
   * every token whose render fails, in token order.
   */
  function Warnings(items: seq<Parsed>, oks: seq<bool>): seq<Message>
    requires |oks| == AcceptedCount(items)
  {
    if items == [] then []
    else
      var n := |items| - 1;
      if items[n].size.None? then Warnings(items[..n], oks) + [InvalidWarning(items[n].token)]
      else
        var m := |oks| - 1;
        Warnings(items[..n], oks[..m]) + (if oks[m] then [] else [InvalidWarning(items[n].token)])
  }

  /** The closing report: how many sizes were rendered. */
  function Summary(successes: nat): Message {
    Message(Info, "Rendered " + Str(successes) + " sizes")
  }

  /** The number of successes among render outcomes. */
  function CountTrue(oks: seq<bool>): (n: nat)
    ensures n <= |oks|
  {
    if oks == [] then 0 else CountTrue(oks[..|oks| - 1]) + (if oks[|oks| - 1] then 1 else 0)
  }

  /** The warnings for the tokens that do not parse, in token order. */
  function RejectionWarnings(items: seq<Parsed>): seq<Message> {
    if items == [] then []
    else
      var n := |items| - 1;
      RejectionWarnings(items[..n]) + (if items[n].size.None? then [InvalidWarning(items[n].token)] else [])
  }

  /**
   * What the settings hold after a run of calls that started from `shown0`:
   * the frame of the last call, or `shown0` if there was none.
   */
  function LastShown(shown0: Frame, calls: seq<RenderCall>): Frame {
    if calls == [] then shown0 else calls[|calls| - 1].frame
  }

  /**
   * The settings the loop leaves: those of the last token that parses, or
   * the ones it started from when no token parses.
   */
  lemma LastShownPlanned(items: seq<Parsed>, original: string, calls: seq<RenderCall>, shown0: Frame)
    requires Frames(calls) == Planned(items, original)
    ensures var p := Planned(items, original);
      && (p == [] ==> LastShown(shown0, calls) == shown0)
      && (p != [] ==> LastShown(shown0, calls) == p[|p| - 1])
  {
  }

  /** Appending a call appends its frame and its outcome. */
  lemma CallsAppend(calls: seq<RenderCall>, call: RenderCall)
    ensures Frames(calls + [call]) == Frames(calls) + [call.frame]
    ensures Outcomes(calls + [call]) == Outcomes(calls) + [call.ok]
    ensures CountTrue(Outcomes(calls + [call])) == CountTrue(Outcomes(calls)) + (if call.ok then 1 else 0)
  {
    Snoc(calls, call);
    Snoc(Outcomes(calls), call.ok);
  }

  /**
   * The loop's bookkeeping after a token that parses and is rendered by
   * `call`: one more frame, one more success or one more warning.
   */
  lemma AcceptStep(items: seq<Parsed>, i: nat, original: string, calls: seq<RenderCall>, call: RenderCall,
                   messages: seq<Message>, successes: nat)
    requires i < |items| && items[i].size == Some((call.frame.width, call.frame.height))
    requires call.frame.filepath == OutputPath(original, call.frame.width, call.frame.height)
    requires |calls| == AcceptedCount(items[..i])
    requires Frames(calls) == Planned(items[..i], original)
    requires successes == CountTrue(Outcomes(calls))
    requires messages == Warnings(items[..i], Outcomes(calls))
    ensures |calls + [call]| == AcceptedCount(items[..i + 1])
    ensures Frames(calls + [call]) == Planned(items[..i + 1], original)
    ensures call.ok ==>
      && successes + 1 == CountTrue(Outcomes(calls + [call]))
      && messages == Warnings(items[..i + 1], Outcomes(calls + [call]))
    ensures !call.ok ==>
      && successes == CountTrue(Outcomes(calls + [call]))
      && messages + [InvalidWarning(items[i].token)] == Warnings(items[..i + 1], Outcomes(calls + [call]))
  {
    PrefixStep(items, i);
    CallsAppend(calls, call);
    Snoc(Outcomes(calls), call.ok);
  }

  /** The loop's bookkeeping after a token that does not parse: one more warning. */
  lemma RejectStep(items: seq<Parsed>, i: nat, original: string, calls: seq<RenderCall>, messages: seq<Message>)
    requires i < |items| && items[i].size.None?
    requires |calls| == AcceptedCount(items[..i])
    requires Frames(calls) == Planned(items[..i], original)
    requires messages == Warnings(items[..i], Outcomes(calls))
    ensures |calls| == AcceptedCount(items[..i + 1])
    ensures Frames(calls) == Planned(items[..i + 1], original)
    ensures messages + [InvalidWarning(items[i].token)] == Warnings(items[..i + 1], Outcomes(calls))
  {
    PrefixStep(items, i);
  }

  /** The body of the `try` once a size parses: apply it and render one still. */
  method RenderSize(settings: RenderSettings, renderer: Renderer, w: int, h: int, path: string)
    returns (ok: bool)
    modifies settings, renderer
    ensures settings.resolutionX == w && settings.resolutionY == h && settings.filepath == path
    ensures renderer.log == old(renderer.log) + [RenderCall(Frame(w, h, path), ok)]
  {
    settings.resolutionX := w;
    settings.resolutionY := h;
    settings.filepath := path;
    ok := renderer.Render(settings);
  }

  /**
   * One pass of the `for` loop of `RB_OT_MultiSizeRender.execute`: if the
   * token parsed, apply its size and path and render a still, counting a
   * success or warning on failure; otherwise warn. The loop's bookkeeping
   * over the first `i` tokens then holds over the first `i + 1`.
   */
  method RenderToken(items: seq<Parsed>, i: nat, originalPath: string, settings: RenderSettings, renderer: Renderer,
                     ghost log0: seq<RenderCall>, ghost shown0: Frame, ghost calls: seq<RenderCall>,
                     messages: seq<Message>, successes: nat)
    returns (ghost calls': seq<RenderCall>, messages': seq<Message>, successes': nat)
    requires i < |items|
    requires renderer.log == log0 + calls
    requires |calls| == AcceptedCount(items[..i])
    requires Frames(calls) == Planned(items[..i], originalPath)
    requires successes == CountTrue(Outcomes(calls))
    requires messages == Warnings(items[..i], Outcomes(calls))
    requires Shown(settings) == LastShown(shown0, calls)
    modifies settings, renderer
    ensures renderer.log == log0 + calls'
    ensures |calls'| == AcceptedCount(items[..i + 1])
    ensures Frames(calls') == Planned(items[..i + 1], originalPath)
    ensures successes' == CountTrue(Outcomes(calls'))
    ensures messages' == Warnings(items[..i + 1], Outcomes(calls'))
    ensures items[i].size.None? ==> calls' == calls && Shown(settings) == old(Shown(settings))
    ensures items[i].size.Some? ==>
      && Shown(settings) == Frame(items[i].size.value.0, items[i].size.value.1,
                                  OutputPath(originalPath, items[i].size.value.0, items[i].size.value.1))
    ensures Shown(settings) == LastShown(shown0, calls')
  {
    var res := items[i].token;
    var parsed := items[i].size;
    if parsed.Some? {
      var w, h := parsed.value.0, parsed.value.1;
      var path := OutputPath(originalPath, w, h);
      var ok := RenderSize(settings, renderer, w, h, path);
      ghost var call := RenderCall(Frame(w, h, path), ok);
      AcceptStep(items, i, originalPath, calls, call, messages, successes);
      AppendAssoc(log0, calls, [call]);
      calls' := calls + [call];
      if ok {
        successes', messages' := successes + 1, messages;
      } else {
        successes', messages' := successes, messages + [InvalidWarning(res)];
      }
    } else {
      RejectStep(items, i, originalPath, calls, messages);
      calls', successes', messages' := calls, successes, messages + [InvalidWarning(res)];
    }
  }

  /**
   * The `for` loop of `RB_OT_MultiSizeRender.execute`, over the tokens
   * with their parses: for each, in order, either apply its size and path
   * and render a still, or warn.
   */
  method RenderSizes(items: seq<Parsed>, originalPath: string, settings: RenderSettings, renderer: Renderer)
    returns (messages: seq<Message>, successes: nat)
    modifies settings, renderer
    ensures |renderer.log| >= |old(renderer.log)| && renderer.log[..|old(renderer.log)|] == old(renderer.log)
    ensures var calls := renderer.log[|old(renderer.log)|..];
      && Frames(calls) == Planned(items, originalPath)
      && successes == CountTrue(Outcomes(calls))
      && messages == Warnings(items, Outcomes(calls))
    ensures successes + |messages| == |items|
    ensures var p := Planned(items, originalPath);
      p == [] ==> Shown(settings) == old(Shown(settings))
    ensures var p := Planned(items, originalPath);
      p != [] ==> Shown(settings) == p[|p| - 1]
  {
    ghost var log0 := renderer.log;
    ghost var shown0 := Shown(settings);
    ghost var calls: seq<RenderCall> := [];
    successes := 0;
    messages := [];
    for i := 0 to |items|
      invariant renderer.log == log0 + calls
      invariant |calls| == AcceptedCount(items[..i])
      invariant Frames(calls) == Planned(items[..i], originalPath)
      invariant successes == CountTrue(Outcomes(calls))
      invariant messages == Warnings(items[..i], Outcomes(calls))
      invariant Shown(settings) == LastShown(shown0, calls)
    {
      calls, messages, successes := RenderToken(items, i, originalPath, settings, renderer, log0, shown0, calls, messages, successes);
    }
    assert items[..|items|] == items;
    assert renderer.log[|log0|..] == calls;
    EveryTokenAccountedFor(items, Outcomes(calls));
    LastShownPlanned(items, originalPath, calls, shown0);
  }

  /**
   * `RB_OT_MultiSizeRender.execute`: remember the settings, run the loop,
   * put the settings back and report how many sizes were rendered.
   */
  method MultiSizeRender(resolutions: string, settings: RenderSettings, renderer: Renderer)
    returns (status: Status, messages: seq<Message>, successes: nat)
    modifies settings, renderer
    ensures settings.resolutionX == old(settings.resolutionX)
    ensures settings.resolutionY == old(settings.resolutionY)
    ensures settings.filepath == old(settings.filepath)
    ensures |renderer.log| >= |old(renderer.log)| && renderer.log[..|old(renderer.log)|] == old(renderer.log)
    ensures var items := ParseTokens(Split(resolutions, ','));
      var calls := renderer.log[|old(renderer.log)|..];
      && Frames(calls) == Planned(items, old(settings.filepath))
      && successes == CountTrue(Outcomes(calls))
      && messages == Warnings(items, Outcomes(calls)) + [Summary(successes)]
    ensures successes + |messages| == |Split(resolutions, ',')| + 1
    ensures status == Finished
  {
    var originalX, originalY, originalPath := settings.resolutionX, settings.resolutionY, settings.filepath;
    var items := ParseTokens(Split(resolutions, ','));
    messages, successes := RenderSizes(items, originalPath, settings, renderer);
    settings.resolutionX := originalX;
    settings.resolutionY := originalY;
    settings.filepath := originalPath;
    messages := messages + [Summary(successes)];
    status := Finished;
  }

  /**
   * The size suffix the loop writes into the output path, `f"{w}x{h}"`,
   * reads back as the same size: the numbering names the size rendered.
   */
  lemma SizeSuffixRoundTrip(w: int, h: int)
    ensures ParseResolution(Str(w) + "x" + Str(h)) == Some((w, h))
  {
    var s := Str(w) + "x" + Str(h);
    SizeTextUntouched(w, h);
    SplitInTwo(Str(w), 'x', Str(h));
    StrRoundTrip(w);
    StrRoundTrip(h);
  }

  /** Every token counts once: either as a rendered size or as a warning. */
  lemma {:induction false} EveryTokenAccountedFor(items: seq<Parsed>, oks: seq<bool>)
    requires |oks| == AcceptedCount(items)
    ensures |Warnings(items, oks)| + CountTrue(oks) == |items|
  {
    if items != [] {
      var n := |items| - 1;
      if items[n].size.None? {
        EveryTokenAccountedFor(items[..n], oks);
      } else {
        EveryTokenAccountedFor(items[..n], oks[..|oks| - 1]);
      }
    }
  }

  /** When every render succeeds, the only warnings are those for the tokens that do not parse. */
  lemma {:induction false} AllRendersSucceed(items: seq<Parsed>, oks: seq<bool>)
    requires |oks| == AcceptedCount(items)
    requires forall k :: 0 <= k < |oks| ==> oks[k]
    ensures Warnings(items, oks) == RejectionWarnings(items)
  {
    if items != [] {
      var n := |items| - 1;
      if items[n].size.None? {
        AllRendersSucceed(items[..n], oks);
      } else {
        AllRendersSucceed(items[..n], oks[..|oks| - 1]);
      }
    }
  }

  /**
   * The token at position `k`, if it parses, is rendered as the frame at
   * its rank among the tokens that parse: frames keep the order of the
   * tokens, and each carries its own size and numbered path.
   */
  lemma {:induction false} PlannedAt(items: seq<Parsed>, original: string, k: nat)
    requires k < |items| && items[k].size.Some?
    ensures AcceptedCount(items[..k]) < |Planned(items, original)|
    ensures Planned(items, original)[AcceptedCount(items[..k])]
         == Frame(items[k].size.value.0, items[k].size.value.1,
                  OutputPath(original, items[k].size.value.0, items[k].size.value.1))
  {
    var n := |items| - 1;
    var prefix := items[..n];
    var left, right := Planned(prefix, original), TokenFrames(items[n], original);
    assert Planned(items, original) == left + right;
    if k < n {
      PlannedAt(prefix, original, k);
      PrefixStep(items, k);
      assert prefix[..k] == items[..k] && prefix[k] == items[k];
    } else {
      assert items[..k] == prefix;
    }
  }

  /** The tokens that parse in two lists of tokens are those of the first and those of the second. */
  lemma {:induction false} AcceptedCountAppend(a: seq<Parsed>, b: seq<Parsed>)
    ensures AcceptedCount(a + b) == AcceptedCount(a) + AcceptedCount(b)
  {
    if b == [] {
      assert a + b == a;
    } else {
      DropLastOfAppend(a, b);
      AcceptedCountAppend(a, b[..|b| - 1]);
    }
  }

  /**
   * The tokens are handled one after another, whatever came before: the
   * frames of two lists of tokens are the frames of the first followed by
   * those of the second (a token that does not parse stops nothing).
   */
  lemma {:induction false} PlannedAppend(a: seq<Parsed>, b: seq<Parsed>, original: string)
    ensures Planned(a + b, original) == Planned(a, original) + Planned(b, original)
  {
    if b == [] {
      assert a + b == a;
    } else {
      var n := |b| - 1;
      DropLastOfAppend(a, b);
      PlannedAppend(a, b[..n], original);
      var pa, pb, last := Planned(a, original), Planned(b[..n], original), TokenFrames(b[n], original);
      calc {
        Planned(a + b, original);
        Planned(a + b[..n], original) + last;
        (pa + pb) + last;
        { AppendAssoc(pa, pb, last); }
        pa + (pb + last);
        pa + Planned(b, original);
      }
    }
  }

  lemma DefaultSizeText()
    ensures Str(1920) + "x" + Str(1080) == "1920x1080"
  {
    assert Str(1920) == "1920";
    assert Str(1080) == "1080";
  }

  /** `"1920x1080"`, the first size of the operator's default list, is read as that size. */
  lemma DefaultSizeParses()
    ensures ParseResolution("1920x1080") == Some((1920, 1080))
  {
    DefaultSizeText();
    SizeSuffixRoundTrip(1920, 1080);
  }

  lemma NegativeSizeText()
    ensures Str(-5) + "x" + Str(0) == "-5x0"
  {
    assert Str(-5) == "-5";
    assert Str(0) == "0";
  }

  /** No range check: a negative width and a zero height are read as given. */
  lemma NegativeSizeParses()
    ensures ParseResolution("-5x0") == Some((-5, 0))
  {
    NegativeSizeText();
    SizeSuffixRoundTrip(-5, 0);
  }

  lemma SpacedSizeText()
    ensures Strip(" 1080X1080") == "1080X1080"
  {
  }

  lemma CapitalSizeText()
    ensures Lower("1080X1080") == Str(1080) + "x" + Str(1080)
  {
    assert Str(1080) == "1080";
  }

  /** A leading blank and a capital `X` do not matter: `" 1080X1080"` is read as 1080 by 1080. */
  lemma SpacedSizeParses()
    ensures ParseResolution(" 1080X1080") == Some((1080, 1080))
  {
    SpacedSizeText();
    CapitalSizeText();
    SizeTextUntouched(1080, 1080);
    SplitInTwo(Str(1080), 'x', Str(1080));
    StrRoundTrip(1080);
  }

  /** A token without an `x`, such as `"bad"`, is one part and is rejected. */
  lemma WordRejected()
    ensures ParseResolution("bad") == None
  {
    assert Strip("bad") == "bad";
    assert Lower("bad") == "bad";
    SplitNoSeparator("bad", 'x');
  }

  /** The empty token a trailing comma leaves is rejected. */
  lemma EmptyTokenRejected()
    ensures ParseResolution("") == None
  {
    assert Strip("") == "" && Lower("") == "";
  }

  lemma ThreePartText()
    ensures Lower(Strip("1x2x3")) == "1" + "x" + "2" + "x" + "3"
  {
    assert Strip("1x2x3") == "1x2x3";
  }

  /** Three parts, as in `"1x2x3"`, are rejected. */
  lemma ThreePartsRejected()
    ensures ParseResolution("1x2x3") == None
  {
    ThreePartText();
    SplitAtSeparator("1", 'x', "2x3");
    SplitInTwo("2", 'x', "3");
    assert "1" + "x" + "2" + "x" + "3" == "1" + ['x'] + "2x3";
    assert "2x3" == "2" + ['x'] + "3";
  }

  lemma MissingHeightText()
    ensures Lower(Strip("1x")) == "1" + ['x'] + ""
  {
    assert Strip("1x") == "1x";
  }

  /** A missing height, as in `"1x"`, leaves an empty part, which `int()` rejects. */
  lemma MissingHeightRejected()
    ensures ParseResolution("1x") == None
  {
    MissingHeightText();
    SplitInTwo("1", 'x', "");
    assert !IsDigitRun(Unsigned(IntTrim("")));
  }
}
