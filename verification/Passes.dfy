/**
 * What the run loop does, as a sequence of labels with those of its environment left out: a pass waits,
 * dispatches every reported event, and drains the ready list.
 */
module Passes {
  import opened Common
  import opened AsyncTypes
  import opened ReactorMachine

  /** The state that choices `ls` lead to from state `a`, if they can be made. */
  function Play(a: State, ls: seq<Label>): Option<State> {
    if ls == [] then Some(a)
    else
      var b, lb := Play(a, ls[..|ls| - 1]), ls[|ls| - 1];
      if b.Some? && Enabled(b.value, lb) && Apply(b.value, lb).Running? then Some(Apply(b.value, lb).state) else None
  }

  /** The steps that the program takes itself; the others are the kernel's and the application's. */
  predicate Own(lb: Label) { lb.EpollWait? || lb.Dispatch? || lb.BatchDone? || lb.RunFunctor? || lb.DrainDone? }

  function Program(ls: seq<Label>): seq<Label> {
    if ls == [] then []
    else
      var before, lb := Program(ls[..|ls| - 1]), ls[|ls| - 1];
      if Own(lb) then before + [lb] else before
  }

  /** From `a` the program takes the steps `ps`, with the environment at work in between, and is then in `b`. */
  ghost predicate Runs(a: State, ps: seq<Label>, b: State) {
    exists ls :: Play(a, ls) == Some(b) && Program(ls) == ps
  }

  lemma {:induction false} RunsItself(a: State)
    ensures Runs(a, [], a)
  {
    assert Play(a, []) == Some(a) && Program([]) == [];
  }

  lemma {:induction false} RunsStep(a: State, ps: seq<Label>, b: State, lb: Label, c: State)
    requires Runs(a, ps, b) && Enabled(b, lb) && Apply(b, lb) == Running(c)
    ensures Runs(a, if Own(lb) then ps + [lb] else ps, c)
  {
    hide Enabled, Apply;
    var ls :| Play(a, ls) == Some(b) && Program(ls) == ps;
    var more := ls + [lb];
    assert more[..|ls|] == ls;
    assert Play(a, more) == Some(c) && Program(more) == if Own(lb) then ps + [lb] else ps;
  }

  lemma {:induction false} PlayConcat(a: State, xs: seq<Label>, b: State, ys: seq<Label>)
    requires Play(a, xs) == Some(b)
    ensures Play(a, xs + ys) == Play(b, ys) && Program(xs + ys) == Program(xs) + Program(ys)
    decreases |ys|
  {
    hide Enabled, Apply;
    if ys == [] {
      assert xs + ys == xs && Program(xs) + [] == Program(xs);
    } else {
      var front := ys[..|ys| - 1];
      assert (xs + ys)[..|xs + ys| - 1] == xs + front;
      PlayConcat(a, xs, b, front);
    }
  }

  lemma {:induction false} RunsOn(a: State, ps: seq<Label>, b: State, qs: seq<Label>, c: State)
    requires Runs(a, ps, b) && Runs(b, qs, c)
    ensures Runs(a, ps + qs, c)
  {
    hide Play, Program;
    var xs :| Play(a, xs) == Some(b) && Program(xs) == ps;
    var ys :| Play(b, ys) == Some(c) && Program(ys) == qs;
    PlayConcat(a, xs, b, ys);
    assert Play(a, xs + ys) == Some(c) && Program(xs + ys) == ps + qs;
  }

  lemma {:induction false} RunsQuietly(a: State, b: State, c: State)
    requires Runs(a, [], b) && Runs(b, [], c)
    ensures Runs(a, [], c)
  {
    hide Runs;
    var none: seq<Label> := [];
    RunsOn(a, none, b, none, c);
    assert none + none == none;
  }

  /** What the program has run is a run of the machine: the states in between, step by step. */
  lemma {:induction false} RunsIsRun(a: State, ps: seq<Label>, b: State) returns (ws: seq<State>, ls: seq<Label>)
    requires Runs(a, ps, b)
    ensures |ws| == |ls| + 1 && ws[0] == a && ws[|ls|] == b && Program(ls) == ps
    ensures forall i :: 0 <= i < |ls| ==> Enabled(ws[i], ls[i]) && Apply(ws[i], ls[i]) == Running(ws[i + 1])
  {
    hide Play, Program;
    ls :| Play(a, ls) == Some(b) && Program(ls) == ps;
    ws := PlayStates(a, ls, b);
  }

  lemma {:induction false} PlayStates(a: State, ls: seq<Label>, b: State) returns (ws: seq<State>)
    requires Play(a, ls) == Some(b)
    ensures |ws| == |ls| + 1 && ws[0] == a && ws[|ls|] == b
    ensures forall i :: 0 <= i < |ls| ==> Enabled(ws[i], ls[i]) && Apply(ws[i], ls[i]) == Running(ws[i + 1])
    decreases |ls|
  {
    hide Enabled, Apply;
    if ls == [] {
      ws := [a];
    } else {
      ws := PlayStates(a, ls[..|ls| - 1], Play(a, ls[..|ls| - 1]).value);
      ws := ws + [b];
    }
  }

  // ---------------------------------------------------------------- passes

  predicate Dispatches(ps: seq<Label>) { forall i :: 0 <= i < |ps| ==> ps[i].Dispatch? }
  predicate Functors(ps: seq<Label>) { forall i :: 0 <= i < |ps| ==> ps[i].RunFunctor? }

  /** One pass on the events that epoll_wait reported: as many dispatches as events, and then functors. */
  ghost predicate IsPass(ps: seq<Label>, events: seq<Event>) {
    exists ds, fs :: Dispatches(ds) && |ds| == |events| && Functors(fs) &&
      ps == PassOf(events, ds, fs)
  }

  function PassOf(events: seq<Event>, ds: seq<Label>, fs: seq<Label>): seq<Label> {
    [EpollWait(events)] + ds + ([BatchDone] + fs + [DrainDone])
  }

  lemma {:induction false} NoPasses()
    ensures ArePasses([], [])
  {
  }

  /** Pass after pass. */
  ghost predicate ArePasses(ps: seq<Label>, batches: seq<seq<Event>>)
    decreases |batches|
  {
    if batches == [] then ps == []
    else exists before, pass :: ps == before + pass && ArePasses(before, batches[..|batches| - 1]) && IsPass(pass, batches[|batches| - 1])
  }

  lemma {:induction false} OnePassMore(ps: seq<Label>, batches: seq<seq<Event>>, pass: seq<Label>, events: seq<Event>)
    requires ArePasses(ps, batches) && IsPass(pass, events)
    ensures ArePasses(ps + pass, batches + [events])
  {
    hide IsPass;
    assert (batches + [events])[..|batches|] == batches;
  }

  /** The events of a batch are dispatched one by one and in order: after k dispatches the first k are gone. */
  lemma {:induction false} DispatchedInOrder(a: State, ls: seq<Label>, b: State, events: seq<Event>)
    requires a.pc == InBatch(events) && Play(a, ls) == Some(b) && Dispatches(Program(ls))
    ensures |Program(ls)| <= |events| && b.pc == InBatch(events[|Program(ls)|..])
    decreases |ls|
  {
    if ls != [] {
      var front, lb := ls[..|ls| - 1], ls[|ls| - 1];
      assert Own(lb) ==> Program(ls)[|Program(front)|] == lb;
      assert forall i :: 0 <= i < |Program(front)| ==> Program(front)[i] == Program(ls)[i];
      var c := Play(a, front).value;
      DispatchedInOrder(a, front, c, events);
      PcMoves(c, lb, b);
    }
  }

  lemma {:induction false} PcMoves(c: State, lb: Label, b: State)
    requires Enabled(c, lb) && Apply(c, lb) == Running(b) && c.pc.InBatch? && (Own(lb) ==> lb.Dispatch?)
    ensures if Own(lb) then c.pc.events != [] && b.pc == InBatch(c.pc.events[1..]) else b.pc == c.pc
  {
  }
}
