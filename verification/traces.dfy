/** Event traces: what a page's handler does with each event, folded over a
    sequence of events. */
module Traces {
  import opened Canvas
  import opened Effects

  /** What a page's handler did with one event or a sequence of them: the page
      afterwards, the commands it issued, and the marks those commands painted. */
  datatype Reaction<P> = Reaction(page: P, cmds: seq<Command>, marks: seq<Mark>)

  /** A reaction that issues no command. */
  function Quiet<P>(page: P): Reaction<P> {
    Reaction(page, [], [])
  }

  /** The page after `step` has handled each of `events` in turn, with every
      command issued and every mark painted along the way, in order. */
  function Run<P, E>(step: (P, E) -> Reaction<P>, page: P, events: seq<E>): Reaction<P>
    decreases |events|
  {
    if events == [] then Quiet(page)
    else
      var first := step(page, events[0]);
      var rest := Run(step, first.page, events[1..]);
      Reaction(rest.page, first.cmds + rest.cmds, first.marks + rest.marks)
  }

  /** Running an event followed by more events: the event is handled first. */
  lemma RunFirst<P, E>(step: (P, E) -> Reaction<P>, page: P, e: E, rest: seq<E>)
    ensures var first := step(page, e);
            var r := Run(step, first.page, rest);
            Run(step, page, [e] + rest) == Reaction(r.page, first.cmds + r.cmds, first.marks + r.marks)
  {
    assert ([e] + rest)[1..] == rest;
  }

  /** Running two event lists one after the other is running the second from
      where the first left the page, with commands and marks in order. */
  lemma {:induction false} RunAppend<P, E>(step: (P, E) -> Reaction<P>, page: P, xs: seq<E>, ys: seq<E>)
    ensures var a := Run(step, page, xs);
            var b := Run(step, a.page, ys);
            Run(step, page, xs + ys) == Reaction(b.page, a.cmds + b.cmds, a.marks + b.marks)
    decreases |xs|
  {
    if xs != [] {
      var first := step(page, xs[0]);
      assert (xs + ys)[0] == xs[0];
      assert (xs + ys)[1..] == xs[1..] + ys;
      RunAppend(step, first.page, xs[1..], ys);
      var a := Run(step, first.page, xs[1..]);
      var b := Run(step, a.page, ys);
      assert first.cmds + (a.cmds + b.cmds) == (first.cmds + a.cmds) + b.cmds;
      assert first.marks + (a.marks + b.marks) == (first.marks + a.marks) + b.marks;
    } else {
      assert xs + ys == ys;
    }
  }
}
