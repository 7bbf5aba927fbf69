/** The main block of the demo script: parse the dumped transforms into rows
    of floats, start the renderer, render frames START to END - 1 with a
    two-key motion-blurred transform each, stop at the first failed render,
    and shut the renderer down. */
module Demo {
  import opened PyValues
  import opened Text
  import opened Arnold
  import opened Marshal

  const START: nat := 1
  const END: nat := 140

  // ---------------------------------------------------------------------
  // Reading the transforms

  /** `float(token)`. The conversion itself is the parameter `toFloat`;
      `None` stands for a token that `float()` refuses. */
  function PyFloat<T>(toFloat: string -> Option<T>, token: string): (r: Result<T>)
    ensures r.Ok? <==> toFloat(token).Some?
    ensures r.Ok? ==> r.value == toFloat(token).value
    ensures r.Err? ==> r.error == ValueError
  {
    match toFloat(token)
    case Some(x) => Ok(x)
    case None => Err(ValueError)
  }

  function FloatParser<T>(toFloat: string -> Option<T>): string -> Result<T> {
    token => PyFloat(toFloat, token)
  }

  /** `[float(i) for i in line.split()]`. */
  function ParseRow<T>(line: string, toFloat: string -> Option<T>): (r: Result<seq<T>>)
    ensures r.Ok? <==> forall i :: 0 <= i < |Tokens(line)| ==> toFloat(Tokens(line)[i]).Some?
    ensures r.Ok? ==> |r.value| == |Tokens(line)|
    ensures r.Ok? ==> forall i :: 0 <= i < |Tokens(line)| ==> r.value[i] == toFloat(Tokens(line)[i]).value
    ensures r.Err? ==> r.error == ValueError
  {
    var tokens := Tokens(line);
    var f := FloatParser(toFloat);
    assert forall i :: 0 <= i < |tokens| ==> f(tokens[i]) == PyFloat(toFloat, tokens[i]);
    assert tokens == Tokens(line);
    MapAll(tokens, f)
  }

  function RowParser<T>(toFloat: string -> Option<T>): string -> Result<seq<T>> {
    line => ParseRow(line, toFloat)
  }

  /** The list `mats` the main block builds from the text of the transform
      file: one row per `"\n"`-separated line, in order. */
  function Mats<T>(text: string, toFloat: string -> Option<T>): (r: Result<seq<seq<T>>>)
    ensures var lines := SplitOn(text, '\n');
      (r.Ok? <==> forall i :: 0 <= i < |lines| ==> ParseRow(lines[i], toFloat).Ok?) &&
      (r.Ok? ==> |r.value| == Count(text, '\n') + 1) &&
      (r.Ok? ==> forall i :: 0 <= i < |lines| ==> ParseRow(lines[i], toFloat) == Ok(r.value[i])) &&
      (r.Err? ==> r.error == ValueError)
  {
    var lines := SplitOn(text, '\n');
    var f := RowParser(toFloat);
    assert forall i :: 0 <= i < |lines| ==> f(lines[i]) == ParseRow(lines[i], toFloat);
    assert lines == SplitOn(text, '\n');
    MapAll(lines, f)
  }

  /** The parsing loop of the main block: `lines = as_txt.split("\n")`, then
      one `mats.append(...)` per line. */
  method ReadMats<T>(text: string, toFloat: string -> Option<T>) returns (r: Result<seq<seq<T>>>)
    ensures r == Mats(text, toFloat)
  {
    var lines := SplitOn(text, '\n');
    var mats: seq<seq<T>> := [];
    for i := 0 to |lines|
      invariant |mats| == i
      invariant forall j :: 0 <= j < i ==> ParseRow(lines[j], toFloat) == Ok(mats[j])
    {
      var row := ParseRow(lines[i], toFloat);
      if row.Err? {
        MapAllFirstError(lines, RowParser(toFloat), i);
        return Err(row.error);
      }
      mats := mats + [row.value];
    }
    assert Mats(text, toFloat).value == mats;
    return Ok(mats);
  }

  /** A line holding only whitespace, in particular an empty one, becomes an empty row. */
  lemma BlankLineGivesEmptyRow<T>(text: string, toFloat: string -> Option<T>, i: nat)
    requires Mats(text, toFloat).Ok?
    requires i < |SplitOn(text, '\n')|
    requires forall k :: 0 <= k < |SplitOn(text, '\n')[i]| ==> IsSpace(SplitOn(text, '\n')[i][k])
    ensures i < |Mats(text, toFloat).value| && Mats(text, toFloat).value[i] == []
  {
    BlankHasNoTokens(SplitOn(text, '\n')[i]);
  }

  /** A final newline adds an empty last row. */
  lemma FinalNewlineGivesEmptyRow<T>(text: string, toFloat: string -> Option<T>)
    requires 0 < |text| && text[|text| - 1] == '\n'
    requires Mats(text, toFloat).Ok?
    ensures var mats := Mats(text, toFloat).value; |mats| >= 2 && mats[|mats| - 1] == []
  {
    EndsWithSeparator(text, '\n');
    BlankLineGivesEmptyRow(text, toFloat, |SplitOn(text, '\n')| - 1);
  }

  /** Lines of space-separated tokens joined by newlines are read back as
      those lines' tokens, converted in order. */
  lemma ParseJoinedLines<T>(lines: seq<string>, toFloat: string -> Option<T>)
    requires |lines| >= 1
    requires forall i :: 0 <= i < |lines| ==> '\n' !in lines[i]
    requires Mats(JoinWith(lines, '\n'), toFloat).Ok?
    ensures var mats := Mats(JoinWith(lines, '\n'), toFloat).value;
      |mats| == |lines| &&
      forall i :: 0 <= i < |lines| ==> ParseRow(lines[i], toFloat) == Ok(mats[i])
  {
    SplitJoin(lines, '\n');
  }

  // ---------------------------------------------------------------------
  // The frame loop

  /** How the script ends: the frame loop ran to END, it broke out after a
      failed render at `frame`, or an exception ended the script. */
  datatype Exit = Finished | Stopped(frame: nat) | Raised(error: PyError)

  /** The calls a run makes and how it ends. */
  datatype Trace<T> = Trace(events: seq<Event<T>>, exit: Exit)

  /** `"renders/bounce.%03d.exr" % frame`. */
  function FileName(frame: nat): string {
    "renders/bounce." + Format03d(frame) + ".exr"
  }

  /** Different frames write different files, and a frame below 1000 is
      named by exactly 3 digits that read back as the frame number. */
  lemma FileNameCorrect(a: nat, b: nat)
    ensures a < 1000 ==> |FileName(a)| == 22 && DecimalValue(FileName(a)[15..18]) == a
    ensures FileName(a) == FileName(b) ==> a == b
  {
    FileNameMiddle(a);
    if a < 1000 {
      Format03dCorrect(a);
    }
    if FileName(a) == FileName(b) {
      FileNameMiddle(b);
      Format03dInjective(a, b);
    }
  }

  /** The file name is the `"%03d"` numeral between a fixed prefix and suffix. */
  lemma FileNameMiddle(n: nat)
    ensures |FileName(n)| == |Format03d(n)| + 19
    ensures FileName(n)[15..|FileName(n)| - 4] == Format03d(n)
  {
  }

  /** `xforms = [mats[frame], mats[frame+1]]`. */
  function FrameXforms<T>(mats: seq<seq<T>>, frame: nat): PyVal<T>
    requires frame + 1 < |mats|
  {
    PyList([Row(mats[frame]), Row(mats[frame + 1])])
  }

  /** Whether the render of `frame` succeeds: in this loop it is render call number `frame - START`. */
  predicate Succeeds(oracle: nat -> bool, frame: nat)
    requires START <= frame
  {
    oracle(frame - START)
  }

  /** One pass of the loop body for `frame`: the calls it makes and how it
      ends; `Finished` here means the body ran to its end and the loop goes on. */
  function FrameStep<T>(mats: seq<seq<T>>, oracle: nat -> bool, cube: NodeRef, driver: NodeRef, frame: nat): (r: Trace<T>)
    requires START <= frame
    ensures (|r.events| == 1 || |r.events| == 3) && r.events[0] == StrSet(driver, "filename", FileName(frame))
    ensures r.exit.Raised? <==> |r.events| == 1
    ensures r.exit == Finished <==> !r.exit.Raised? && Succeeds(oracle, frame)
    ensures r.exit.Stopped? ==> r.exit.frame == frame
    ensures !r.exit.Raised? ==> r.events[2] == Rendered(Succeeds(oracle, frame))
  {
    var named := StrSet(driver, "filename", FileName(frame));
    if frame + 1 >= |mats| then Trace([named], Raised(IndexError))
    else
      match Xform(FrameXforms(mats, frame))
      case Err(e) => Trace([named], Raised(e))
      case Ok(attr) =>
        var ok := Succeeds(oracle, frame);
        Trace([named, AttrEvent(cube, attr), Rendered(ok)], if ok then Finished else Stopped(frame))
  }

  /** What the loop `for frame in range(START, END)` does from `frame` on:
      a pass that runs to its end is followed by the pass for the next frame,
      and the first one that does not ends the loop. */
  function LoopTrace<T>(mats: seq<seq<T>>, oracle: nat -> bool, cube: NodeRef, driver: NodeRef, frame: nat): (r: Trace<T>)
    requires START <= frame
    ensures r.exit.Stopped? ==> frame <= r.exit.frame < END && !Succeeds(oracle, r.exit.frame)
    decreases END - frame
  {
    if frame >= END then Trace([], Finished)
    else
      var step := FrameStep(mats, oracle, cube, driver, frame);
      if step.exit != Finished then step
      else
        var rest := LoopTrace(mats, oracle, cube, driver, frame + 1);
        Trace(step.events + rest.events, rest.exit)
  }

  /** One pass of the loop body: name the output file, attach the two-key
      transform, render. `Finished` means the loop goes on. */
  method RenderFrame<T(0)>(s: Session<T>, mats: seq<seq<T>>, cube: NodeRef, driver: NodeRef, frame: nat)
    returns (outcome: Exit)
    requires START <= frame && s.renders == frame - START
    modifies s
    ensures outcome == FrameStep(mats, s.oracle, cube, driver, frame).exit
    ensures s.log == old(s.log) + FrameStep(mats, s.oracle, cube, driver, frame).events
    ensures s.renders == old(s.renders) + (if outcome.Raised? then 0 else 1)
  {
    // set the output file name for this frame
    var fileName := FileName(frame);
    s.NodeSetStr(driver, "filename", fileName);
    // apply this frame's and the next frame's transform, for motion blur
    if frame + 1 >= |mats| {
      return Raised(IndexError);
    }
    var xforms := FrameXforms(mats, frame);
    var applied := SetNodeXform(s, cube, xforms);
    if applied.Err? {
      return Raised(applied.error);
    }
    // render this frame
    var result := s.Render();
    outcome := if result then Finished else Stopped(frame);
  }

  /** The frame loop of the main block; it breaks out after the first failed
      render, and an exception ends it (and the script) on the spot. */
  method RenderFrames<T(0)>(s: Session<T>, mats: seq<seq<T>>, cube: NodeRef, driver: NodeRef) returns (exit: Exit)
    requires s.renders == 0
    modifies s
    ensures s.log == old(s.log) + LoopTrace(mats, s.oracle, cube, driver, START).events
    ensures exit == LoopTrace(mats, s.oracle, cube, driver, START).exit
  {
    ghost var whole := LoopTrace(mats, s.oracle, cube, driver, START);
    ghost var done: seq<Event<T>> := [];
    assert whole.events == done + whole.events;
    exit := Finished;
    for frame := START to END
      invariant s.renders == frame - START
      invariant s.log == old(s.log) + done
      invariant whole.events == done + LoopTrace(mats, s.oracle, cube, driver, frame).events
      invariant whole.exit == LoopTrace(mats, s.oracle, cube, driver, frame).exit
    {
      ghost var step := FrameStep(mats, s.oracle, cube, driver, frame);
      ghost var rest := LoopTrace(mats, s.oracle, cube, driver, frame + 1);
      var outcome := RenderFrame(s, mats, cube, driver, frame);
      AppendAssoc(old(s.log), done, step.events);
      if outcome != Finished {
        assert LoopTrace(mats, s.oracle, cube, driver, frame) == step;
        return outcome;
      }
      AppendAssoc(done, step.events, rest.events);
      done := done + step.events;
    }
    assert done + [] == done;
  }

  lemma AppendAssoc<X>(a: seq<X>, b: seq<X>, c: seq<X>)
    ensures (a + b) + c == a + (b + c)
  {
  }

  // ---------------------------------------------------------------------
  // The whole run

  const CUBE := NodeRef("cube")
  const DRIVER := NodeRef("exr")

  /** The calls made between parsing and the frame loop. */
  function Prelude<T>(): seq<Event<T>> {
    [Begun, ConsoleFlagsSet(LogAll), SceneLoaded("cube_bounce.ass"), LookedUp("cube"), LookedUp("exr")]
  }

  /** What the script does with the text of its transform file. An exception
      ends it on the spot; otherwise AiEnd follows the frame loop. */
  function DemoTrace<T>(text: string, toFloat: string -> Option<T>, oracle: nat -> bool): Trace<T> {
    match Mats(text, toFloat)
    case Err(e) => Trace([], Raised(e))
    case Ok(mats) =>
      var loop := LoopTrace(mats, oracle, CUBE, DRIVER, START);
      Trace(Prelude() + loop.events + (if loop.exit.Raised? then [] else [Ended]), loop.exit)
  }

  /** Starting the renderer: `AiBegin`, show every log message, load the
      scene, and look up the cube and the output driver. */
  method StartRenderer<T>(s: Session<T>) returns (cube: NodeRef, driver: NodeRef)
    modifies s
    ensures cube == CUBE && driver == DRIVER
    ensures s.log == old(s.log) + Prelude() && s.renders == old(s.renders)
  {
    s.Begin();
    s.MsgSetConsoleFlags(LogAll);
    s.AssLoad("cube_bounce.ass");
    cube := s.NodeLookUpByName("cube");
    driver := s.NodeLookUpByName("exr");
  }

  /** The main block. */
  method RunDemo<T(0)>(s: Session<T>, text: string, toFloat: string -> Option<T>) returns (exit: Exit)
    requires s.renders == 0
    modifies s
    ensures s.log == old(s.log) + DemoTrace(text, toFloat, s.oracle).events
    ensures exit == DemoTrace(text, toFloat, s.oracle).exit
  {
    var parsed := ReadMats(text, toFloat);
    if parsed.Err? {
      return Raised(parsed.error);
    }
    var mats := parsed.value;
    ghost var loop := LoopTrace(mats, s.oracle, CUBE, DRIVER, START);
    ghost var before := s.log;
    var cube, driver := StartRenderer(s);
    exit := RenderFrames(s, mats, cube, driver);
    AppendAssoc(before, Prelude(), loop.events);
    if exit.Raised? {
      // the exception propagates out of the script
      assert loop.events + [] == loop.events;
      return;
    }
    s.End();
    AppendAssoc(before, Prelude() + loop.events, [Ended]);
  }

  // ---------------------------------------------------------------------
  // Properties of the frame loop

  /** Both rows a frame reads exist and hold at least 16 entries, for frames `lo` to `hi - 1`. */
  predicate RowsReadable<T>(mats: seq<seq<T>>, lo: nat, hi: nat) {
    hi < |mats| && forall f :: lo <= f <= hi ==> |mats[f]| >= 16
  }

  /** The calls for one frame: file name, then the two-key transform, then the render. */
  function FrameEvents<T>(mats: seq<seq<T>>, oracle: nat -> bool, cube: NodeRef, driver: NodeRef, frame: nat): seq<Event<T>>
    requires START <= frame && RowsReadable(mats, frame, frame + 1)
  {
    [StrSet(driver, "filename", FileName(frame)),
     ArraySet(cube, "matrix", 1, 2, [MatrixOf(mats[frame]), MatrixOf(mats[frame + 1])]),
     Rendered(Succeeds(oracle, frame))]
  }

  /** The calls for frames `lo` to `hi - 1`, in increasing frame order. */
  function Frames<T>(mats: seq<seq<T>>, oracle: nat -> bool, cube: NodeRef, driver: NodeRef, lo: nat, hi: nat): seq<Event<T>>
    requires START <= lo <= hi && RowsReadable(mats, lo, hi)
    decreases hi - lo
  {
    if lo == hi then [] else FrameEvents(mats, oracle, cube, driver, lo) + Frames(mats, oracle, cube, driver, lo + 1, hi)
  }

  /** The calls of frame `f` sit at positions `3 * (f - lo)` to `3 * (f - lo) + 2`. */
  lemma {:induction false} FramesAt<T>(mats: seq<seq<T>>, oracle: nat -> bool, cube: NodeRef, driver: NodeRef, lo: nat, hi: nat, f: nat)
    requires START <= lo <= f < hi && RowsReadable(mats, lo, hi)
    ensures |Frames(mats, oracle, cube, driver, lo, hi)| == 3 * (hi - lo)
    ensures Frames(mats, oracle, cube, driver, lo, hi)[3 * (f - lo) .. 3 * (f - lo) + 3] ==
      FrameEvents(mats, oracle, cube, driver, f)
    decreases hi - lo
  {
    FramesLength(mats, oracle, cube, driver, lo + 1, hi);
    FramesCons(mats, oracle, cube, driver, lo, hi);
    var head := FrameEvents(mats, oracle, cube, driver, lo);
    var rest := Frames(mats, oracle, cube, driver, lo + 1, hi);
    if f > lo {
      FramesAt(mats, oracle, cube, driver, lo + 1, hi, f);
      var k := 3 * (f - lo - 1);
      assert 3 * (f - lo) == |head| + k;
      SliceAfter(head, rest, k, 3);
    } else {
      SlicePrefix(head, rest);
    }
  }

  lemma FramesCons<T>(mats: seq<seq<T>>, oracle: nat -> bool, cube: NodeRef, driver: NodeRef, lo: nat, hi: nat)
    requires START <= lo < hi && RowsReadable(mats, lo, hi)
    ensures |FrameEvents(mats, oracle, cube, driver, lo)| == 3
    ensures Frames(mats, oracle, cube, driver, lo, hi) ==
      FrameEvents(mats, oracle, cube, driver, lo) + Frames(mats, oracle, cube, driver, lo + 1, hi)
  {
  }

  lemma SliceAfter<X>(a: seq<X>, b: seq<X>, i: nat, n: nat)
    requires i + n <= |b|
    ensures (a + b)[|a| + i .. |a| + i + n] == b[i .. i + n]
  {
  }

  lemma SlicePrefix<X>(a: seq<X>, b: seq<X>)
    ensures (a + b)[..|a|] == a
  {
  }

  lemma {:induction false} FramesLength<T>(mats: seq<seq<T>>, oracle: nat -> bool, cube: NodeRef, driver: NodeRef, lo: nat, hi: nat)
    requires START <= lo <= hi && RowsReadable(mats, lo, hi)
    ensures |Frames(mats, oracle, cube, driver, lo, hi)| == 3 * (hi - lo)
    decreases hi - lo
  {
    if lo < hi {
      FramesLength(mats, oracle, cube, driver, lo + 1, hi);
    }
  }

  /** The two keys of a frame are the matrices of its own row and of the next one. */
  lemma FrameXformsSampled<T>(mats: seq<seq<T>>, frame: nat)
    requires RowsReadable(mats, frame, frame + 1)
    ensures Xform(FrameXforms(mats, frame)) == Ok(Sampled([MatrixOf(mats[frame]), MatrixOf(mats[frame + 1])]))
  {
    var rows := [mats[frame], mats[frame + 1]];
    XformSampledRows(rows);
    assert FrameXforms(mats, frame) == PyList(seq(|rows|, i requires 0 <= i < |rows| => Row(rows[i])));
    assert [MatrixOf(mats[frame]), MatrixOf(mats[frame + 1])] ==
      seq(|rows|, i requires 0 <= i < |rows| => MatrixOf(rows[i]));
  }

  /** With every row it reads present and long enough and every render
      successful, the loop visits each frame from `frame` up to END - 1 in
      order, three calls each (file name, transform, render), and runs to its end. */
  lemma {:induction false} LoopFinishes<T>(mats: seq<seq<T>>, oracle: nat -> bool, cube: NodeRef, driver: NodeRef, frame: nat)
    requires START <= frame <= END && RowsReadable(mats, frame, END)
    requires forall f :: frame <= f < END ==> Succeeds(oracle, f)
    ensures LoopTrace(mats, oracle, cube, driver, frame) == Trace(Frames(mats, oracle, cube, driver, frame, END), Finished)
    decreases END - frame
  {
    if frame < END {
      ReadablePass(mats, oracle, cube, driver, frame);
      LoopFinishes(mats, oracle, cube, driver, frame + 1);
    }
  }

  /** With every row it reads present and long enough, the loop breaks out
      right after the first failed render, at `last`, having made the three
      calls of each frame from `frame` to `last` and none for any later frame. */
  lemma {:induction false} LoopStops<T>(mats: seq<seq<T>>, oracle: nat -> bool, cube: NodeRef, driver: NodeRef, frame: nat, last: nat)
    requires START <= frame <= last < END && RowsReadable(mats, frame, last + 1)
    requires forall f :: frame <= f < last ==> Succeeds(oracle, f)
    requires !Succeeds(oracle, last)
    ensures LoopTrace(mats, oracle, cube, driver, frame) ==
      Trace(Frames(mats, oracle, cube, driver, frame, last + 1), Stopped(last))
    decreases last - frame
  {
    if frame < last {
      assert RowsReadable(mats, frame, frame + 1);
      ReadablePass(mats, oracle, cube, driver, frame);
      assert RowsReadable(mats, frame + 1, last + 1);
      LoopStops(mats, oracle, cube, driver, frame + 1, last);
      LoopContinues(mats, oracle, cube, driver, frame);
      assert Frames(mats, oracle, cube, driver, frame, last + 1) ==
        FrameEvents(mats, oracle, cube, driver, frame) + Frames(mats, oracle, cube, driver, frame + 1, last + 1);
    } else {
      LoopStopsHere(mats, oracle, cube, driver, frame);
    }
  }

  /** A readable pass whose render fails ends the loop after its three calls. */
  lemma LoopStopsHere<T>(mats: seq<seq<T>>, oracle: nat -> bool, cube: NodeRef, driver: NodeRef, frame: nat)
    requires START <= frame < END && RowsReadable(mats, frame, frame + 1)
    requires !Succeeds(oracle, frame)
    ensures LoopTrace(mats, oracle, cube, driver, frame) ==
      Trace(Frames(mats, oracle, cube, driver, frame, frame + 1), Stopped(frame))
  {
    ReadablePass(mats, oracle, cube, driver, frame);
    LoopBreaks(mats, oracle, cube, driver, frame);
    var head := FrameEvents(mats, oracle, cube, driver, frame);
    assert Frames(mats, oracle, cube, driver, frame + 1, frame + 1) == [];
    assert head + [] == head;
  }

  /** A pass that runs to its end is followed by the rest of the loop. */
  lemma LoopContinues<T>(mats: seq<seq<T>>, oracle: nat -> bool, cube: NodeRef, driver: NodeRef, frame: nat)
    requires START <= frame < END && FrameStep(mats, oracle, cube, driver, frame).exit == Finished
    ensures LoopTrace(mats, oracle, cube, driver, frame) ==
      Trace(FrameStep(mats, oracle, cube, driver, frame).events + LoopTrace(mats, oracle, cube, driver, frame + 1).events,
            LoopTrace(mats, oracle, cube, driver, frame + 1).exit)
  {
  }

  /** A pass that does not run to its end ends the loop. */
  lemma LoopBreaks<T>(mats: seq<seq<T>>, oracle: nat -> bool, cube: NodeRef, driver: NodeRef, frame: nat)
    requires START <= frame < END && FrameStep(mats, oracle, cube, driver, frame).exit != Finished
    ensures LoopTrace(mats, oracle, cube, driver, frame) == FrameStep(mats, oracle, cube, driver, frame)
  {
  }

  /** A pass whose two rows are readable makes the three calls of `FrameEvents`
      and stops the loop exactly when its render fails. */
  lemma ReadablePass<T>(mats: seq<seq<T>>, oracle: nat -> bool, cube: NodeRef, driver: NodeRef, frame: nat)
    requires START <= frame && RowsReadable(mats, frame, frame + 1)
    ensures FrameStep(mats, oracle, cube, driver, frame) ==
      Trace(FrameEvents(mats, oracle, cube, driver, frame),
            if Succeeds(oracle, frame) then Finished else Stopped(frame))
  {
    FrameXformsSampled(mats, frame);
  }

  /** A loop that runs to completion has read `mats[START]` to `mats[END]`,
      each with at least 16 entries: `mats` must have more than END rows. */
  lemma {:induction false} FinishedReadsUpToEnd<T>(mats: seq<seq<T>>, oracle: nat -> bool, cube: NodeRef, driver: NodeRef, frame: nat)
    requires START <= frame < END
    requires LoopTrace(mats, oracle, cube, driver, frame).exit == Finished
    ensures RowsReadable(mats, frame, END)
    decreases END - frame
  {
    FinishedPass(mats, oracle, cube, driver, frame);
    if frame + 1 < END {
      FinishedReadsUpToEnd(mats, oracle, cube, driver, frame + 1);
      assert RowsReadable(mats, frame + 1, END);
      forall f | frame <= f <= END ensures |mats[f]| >= 16 {
        if f != frame {
          assert frame + 1 <= f <= END;
        }
      }
    }
  }

  /** A pass the loop gets past read two rows of at least 16 entries each. */
  lemma FinishedPass<T>(mats: seq<seq<T>>, oracle: nat -> bool, cube: NodeRef, driver: NodeRef, frame: nat)
    requires START <= frame < END
    requires LoopTrace(mats, oracle, cube, driver, frame).exit == Finished
    ensures frame + 1 < |mats| && |mats[frame]| >= 16 && |mats[frame + 1]| >= 16
    ensures LoopTrace(mats, oracle, cube, driver, frame + 1).exit == Finished
  {
    assert FrameStep(mats, oracle, cube, driver, frame).exit == Finished;
    var x := FrameXforms(mats, frame);
    assert ToMatrix(x.items[0]).Ok? && ToMatrix(x.items[1]).Ok?;
  }

  /** The output file name one call sets on the driver, if it sets one. */
  function NamedBy<T>(e: Event<T>, driver: NodeRef): seq<string> {
    if e.StrSet? && e.node == driver && e.param == "filename" then [e.s] else []
  }

  /** The output file names a sequence of calls sets on the driver, in order. */
  function FilesNamed<T>(events: seq<Event<T>>, driver: NodeRef): seq<string> {
    if events == [] then [] else NamedBy(events[0], driver) + FilesNamed(events[1..], driver)
  }

  /** The output file names of frames `lo` to `hi - 1`, in order. */
  function FileNames(lo: nat, hi: nat): (r: seq<string>)
    requires lo <= hi
    ensures |r| == hi - lo && forall i :: 0 <= i < hi - lo ==> r[i] == FileName(lo + i)
  {
    seq(hi - lo, i requires 0 <= i < hi - lo => FileName(lo + i))
  }

  lemma FileNamesCons(lo: nat, hi: nat)
    requires lo < hi
    ensures [FileName(lo)] + FileNames(lo + 1, hi) == FileNames(lo, hi)
  {
    assert forall i :: 0 < i < hi - lo ==> FileNames(lo, hi)[i] == FileNames(lo + 1, hi)[i - 1];
  }

  lemma {:induction false} FilesNamedAppend<T>(a: seq<Event<T>>, b: seq<Event<T>>, driver: NodeRef)
    ensures FilesNamed(a + b, driver) == FilesNamed(a, driver) + FilesNamed(b, driver)
  {
    if a == [] {
      assert a + b == b;
    } else {
      assert (a + b)[0] == a[0];
      assert (a + b)[1..] == a[1..] + b;
      FilesNamedAppend(a[1..], b, driver);
      AppendAssoc(NamedBy(a[0], driver), FilesNamed(a[1..], driver), FilesNamed(b, driver));
    }
  }

  /** Each pass of the loop body names exactly one output file: its own. */
  lemma StepNamesItsFile<T>(mats: seq<seq<T>>, oracle: nat -> bool, cube: NodeRef, driver: NodeRef, frame: nat)
    requires START <= frame
    ensures FilesNamed(FrameStep(mats, oracle, cube, driver, frame).events, driver) == [FileName(frame)]
  {
    var e := FrameStep(mats, oracle, cube, driver, frame).events;
    assert NamedBy(e[0], driver) == [FileName(frame)];
    if |e| == 1 {
      assert e[1..] == [];
    } else {
      assert |e| == 3 && NamedBy(e[1], driver) == [] && NamedBy(e[2], driver) == [];
      assert e[1..][1..][1..] == [];
      assert FilesNamed(e[1..][1..], driver) == [];
      assert FilesNamed(e[1..], driver) == [];
    }
  }

  /** Whatever happens, the loop names the output files of consecutive frames,
      starting at `frame`, in increasing order and none of END or above. */
  lemma {:induction false} LoopNamesFramesBelowEnd<T>(mats: seq<seq<T>>, oracle: nat -> bool, cube: NodeRef, driver: NodeRef, frame: nat)
    requires START <= frame <= END
    ensures exists hi ::
      frame <= hi <= END && FilesNamed(LoopTrace(mats, oracle, cube, driver, frame).events, driver) == FileNames(frame, hi)
    decreases END - frame
  {
    if frame == END {
      assert FilesNamed(LoopTrace(mats, oracle, cube, driver, frame).events, driver) == FileNames(frame, frame);
    } else {
      var step := FrameStep(mats, oracle, cube, driver, frame);
      StepNamesItsFile(mats, oracle, cube, driver, frame);
      if step.exit != Finished {
        assert FilesNamed(step.events, driver) == FileNames(frame, frame + 1);
      } else {
        var rest := LoopTrace(mats, oracle, cube, driver, frame + 1).events;
        LoopNamesFramesBelowEnd(mats, oracle, cube, driver, frame + 1);
        var hi :| frame + 1 <= hi <= END &&
          FilesNamed(rest, driver) == FileNames(frame + 1, hi);
        assert LoopTrace(mats, oracle, cube, driver, frame).events == step.events + rest;
        FilesNamedAppend(step.events, rest, driver);
        FileNamesCons(frame, hi);
      }
    }
  }

  /** The frame loop itself never calls AiEnd. */
  lemma {:induction false} LoopNeverEnds<T>(mats: seq<seq<T>>, oracle: nat -> bool, cube: NodeRef, driver: NodeRef, frame: nat)
    requires START <= frame
    ensures Ended !in LoopTrace(mats, oracle, cube, driver, frame).events
    decreases END - frame
  {
    if frame < END && frame + 1 < |mats| && Xform(FrameXforms(mats, frame)).Ok? && Succeeds(oracle, frame) {
      LoopNeverEnds(mats, oracle, cube, driver, frame + 1);
    }
  }

  /** AiEnd is called exactly once, as the last call, whether the loop ran to
      END or broke out after a failed render; an exception skips it. */
  lemma ShutdownOnce<T>(text: string, toFloat: string -> Option<T>, oracle: nat -> bool)
    ensures var t := DemoTrace(text, toFloat, oracle);
      (t.exit.Raised? <==> Ended !in t.events) &&
      (!t.exit.Raised? ==> |t.events| > 0 && t.events[|t.events| - 1] == Ended &&
                           Ended !in t.events[..|t.events| - 1])
  {
    var t := DemoTrace(text, toFloat, oracle);
    if Mats(text, toFloat).Ok? {
      var mats := Mats(text, toFloat).value;
      var loop := LoopTrace(mats, oracle, CUBE, DRIVER, START);
      LoopNeverEnds(mats, oracle, CUBE, DRIVER, START);
      assert Ended !in Prelude<T>();
      if !loop.exit.Raised? {
        assert t.events[..|t.events| - 1] == Prelude() + loop.events;
      }
    }
  }
}
