/** What a page handler does to the outside world, in order: calls on the canvas
    context, writes of a snapshot to local storage, and image downloads. */
module Effects {
  import opened Canvas

  datatype Command =
    | Draw(call: Call)
    | SaveLocal(key: string)
    | Export(filename: string)

  /** The local-storage key under which the drawing page keeps its snapshot. */
  const SnapshotKey: string := "savedDrawing"

  /** The file name every download link offers. */
  const ExportName: string := "drawing.png"

  /** What the page sees of its canvas element when it mounts: whether the element
      exists, whether `getContext("2d")` returned a context, and the element's laid
      out size in pixels. */
  datatype Host = Host(mounted: bool, hasContext: bool, width: nat, height: nat)

  /** Runs the canvas calls among `cmds` on `ctx`; storage writes and downloads
      read the bitmap but leave the context and the bitmap as they are. */
  function Perform(ctx: Context, cmds: seq<Command>): Painting
    decreases |cmds|
  {
    if cmds == [] then Painting(ctx, [])
    else
      var first := if cmds[0].Draw? then Apply(ctx, cmds[0].call) else Painting(ctx, []);
      var rest := Perform(first.ctx, cmds[1..]);
      Painting(rest.ctx, first.marks + rest.marks)
  }

  /** Performing two command lists one after the other is performing their
      concatenation. */
  lemma {:induction false} PerformAppend(ctx: Context, xs: seq<Command>, ys: seq<Command>)
    ensures Perform(ctx, xs + ys).ctx == Perform(Perform(ctx, xs).ctx, ys).ctx
    ensures Perform(ctx, xs + ys).marks == Perform(ctx, xs).marks + Perform(Perform(ctx, xs).ctx, ys).marks
    decreases |xs|
  {
    if xs == [] {
      assert xs + ys == ys;
    } else {
      assert (xs + ys)[0] == xs[0];
      assert (xs + ys)[1..] == xs[1..] + ys;
      var first := if xs[0].Draw? then Apply(ctx, xs[0].call) else Painting(ctx, []);
      PerformAppend(first.ctx, xs[1..], ys);
      var front := Perform(first.ctx, xs[1..]);
      var back := Perform(front.ctx, ys);
      assert Perform(ctx, xs) == Painting(front.ctx, first.marks + front.marks);
      assert (first.marks + front.marks) + back.marks == first.marks + (front.marks + back.marks);
    }
  }

  /** Performing a canvas call followed by more commands: the call acts first. */
  lemma PerformDrawFirst(ctx: Context, call: Call, rest: seq<Command>)
    ensures Perform(ctx, [Draw(call)] + rest).ctx == Perform(Apply(ctx, call).ctx, rest).ctx
    ensures Perform(ctx, [Draw(call)] + rest).marks == Apply(ctx, call).marks + Perform(Apply(ctx, call).ctx, rest).marks
  {
    assert ([Draw(call)] + rest)[1..] == rest;
  }

  /** A canvas call that paints nothing, followed by more commands: the rest runs
      on the context the call left behind. */
  lemma PerformQuietFirst(ctx: Context, call: Call, rest: seq<Command>, next: Context)
    requires Apply(ctx, call) == Painting(next, [])
    ensures Perform(ctx, [Draw(call)] + rest) == Perform(next, rest)
  {
    PerformDrawFirst(ctx, call, rest);
  }

  /** Commands other than canvas calls do not change the context and paint nothing. */
  lemma {:induction false} PerformWithoutDraws(ctx: Context, cmds: seq<Command>)
    requires forall i :: 0 <= i < |cmds| ==> !cmds[i].Draw?
    ensures Perform(ctx, cmds) == Painting(ctx, [])
    decreases |cmds|
  {
    if cmds != [] {
      PerformWithoutDraws(ctx, cmds[1..]);
    }
  }

  /** Sizing the canvas to its element. */
  function Resize(width: nat, height: nat): seq<Command> {
    [Draw(SetWidth(width)), Draw(SetHeight(height))]
  }

  /** Sizing the canvas clears it once per dimension and leaves the context in
      its default state over the new size. */
  lemma ResizeResets(ctx: Context, width: nat, height: nat)
    ensures Perform(ctx, Resize(width, height))
         == Painting(Fresh(width, height), [Cleared(width, ctx.height), Cleared(width, height)])
  {
    PerformDrawFirst(Fresh(width, ctx.height), SetHeight(height), []);
    assert [Draw(SetHeight(height))] + [] == [Draw(SetHeight(height))];
    PerformDrawFirst(ctx, SetWidth(width), [Draw(SetHeight(height))]);
    assert Resize(width, height) == [Draw(SetWidth(width))] + [Draw(SetHeight(height))];
  }
}
