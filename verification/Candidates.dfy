/**
 Remote ICE candidates that arrive before the answer is applied wait in a queue. Messages are
 handled one at a time, on a thread that is not the one that applies the answer and flushes
 the queue; the check for a remote description and the queueing are separate steps.
 */
module Candidates {
  import opened Wrappers
  import opened Strings

  /** The answer's side: `todo` are the candidates taken from the queue and not yet handed over. */
  datatype Phase = NoRemote | RemoteSet | Flushing(todo: seq<nat>) | Flushed

  /** Candidates are numbered as they arrive. `held` has found no remote description and is about to be queued;
      `cut` is how many arrived before there was one; `caught` was held when the flush took the queue. */
  datatype State = State(
    phase: Phase, arrived: nat, held: Option<nat>, queue: seq<nat>, delivered: seq<nat>, cut: nat, caught: Option<nat>)

  const START := State(NoRemote, 0, None, [], [], 0, None)

  datatype Step = Arrive | Enqueue | SetRemote | Take | HandOver

  function Do(s: State, step: Step): State {
    match step
    case Arrive =>
      if s.held.Some? then s
      else if s.phase.NoRemote? then s.(arrived := s.arrived + 1, cut := s.arrived + 1, held := Some(s.arrived))
      else s.(arrived := s.arrived + 1, delivered := s.delivered + [s.arrived])
    case Enqueue => if s.held.Some? then s.(queue := s.queue + [s.held.value], held := None) else s
    case SetRemote => if s.phase.NoRemote? then s.(phase := RemoteSet) else s
    case Take => if s.phase.RemoteSet? then s.(phase := Flushing(s.queue), queue := [], caught := s.held) else s
    case HandOver =>
      if !s.phase.Flushing? then s
      else if s.phase.todo == [] then s.(phase := Flushed)
      else s.(phase := Flushing(s.phase.todo[1..]), delivered := s.delivered + [s.phase.todo[0]])
  }

  function Run(s: State, steps: seq<Step>): State
    decreases steps
  {
    if steps == [] then s else Run(Do(s, steps[0]), steps[1..])
  }

  function Range(from: nat, to: nat): (r: seq<nat>)
    requires from <= to
    ensures |r| == to - from && forall i :: 0 <= i < |r| ==> r[i] == from + i
  {
    seq(to - from, i requires 0 <= i => from + i)
  }

  /** Those of `s` that arrived before the remote description was there, and those that arrived later. */
  function Early(s: seq<nat>, cut: nat): seq<nat> {
    if s == [] then [] else Early(s[..|s| - 1], cut) + if s[|s| - 1] < cut then [s[|s| - 1]] else []
  }

  function Late(s: seq<nat>, cut: nat): seq<nat> {
    if s == [] then [] else Late(s[..|s| - 1], cut) + if s[|s| - 1] < cut then [] else [s[|s| - 1]]
  }

  function ToSeq(o: Option<nat>): seq<nat> {
    if o.Some? then [o.value] else []
  }

  function Todo(p: Phase): seq<nat> {
    if p.Flushing? then p.todo else []
  }

  /** Every candidate is in one place. Those that came early were handed over, are being handed over, or wait, in the
      order of arrival; those that came late were handed over as they arrived. */
  ghost predicate Inv(s: State) {
    && s.cut <= s.arrived
    && Early(s.delivered, s.cut) + Todo(s.phase) + s.queue + ToSeq(s.held) == Range(0, s.cut)
    && Late(s.delivered, s.cut) == Range(s.cut, s.arrived)
    && (s.phase.NoRemote? ==> s.delivered == [] && s.cut == s.arrived)
    && (s.phase.Flushing? || s.phase.Flushed? ==> s.queue + ToSeq(s.held) == ToSeq(s.caught))
  }

  lemma EarlyAppend(s: seq<nat>, n: nat, cut: nat)
    ensures Early(s + [n], cut) == Early(s, cut) + (if n < cut then [n] else [])
    ensures Late(s + [n], cut) == Late(s, cut) + (if n < cut then [] else [n])
  {
    assert (s + [n])[..|s|] == s;
  }

  lemma RangeGrows(from: nat, to: nat)
    requires from <= to
    ensures Range(from, to + 1) == Range(from, to) + [to]
  {}

  lemma ArriveEarly(s: State)
    requires Inv(s) && s.held.None? && s.phase.NoRemote?
    ensures Inv(Do(s, Arrive))
  {
    RangeGrows(0, s.arrived);
    hide Range;
    assert Early([], s.cut) + [] + s.queue + [] == s.queue;
    assert Early([], s.cut + 1) + [] + s.queue + [s.arrived] == s.queue + [s.arrived];
    assert Late([], s.cut) == Late([], s.cut + 1) == [];
    EmptyRange(s.cut);
    EmptyRange(s.cut + 1);
  }

  lemma EmptyRange(n: nat)
    ensures Range(n, n) == []
  {}

  lemma ArriveKeeps(s: State)
    requires Inv(s)
    ensures Inv(Do(s, Arrive))
  {
    hide Range;
    if s.held.None? && s.phase.NoRemote? {
      ArriveEarly(s);
    } else if s.held.None? {
      EarlyAppend(s.delivered, s.arrived, s.cut);
      RangeGrows(s.cut, s.arrived);
      assert Early(s.delivered, s.cut) + [] == Early(s.delivered, s.cut);
    }
  }

  lemma EnqueueKeeps(s: State)
    requires Inv(s)
    ensures Inv(Do(s, Enqueue))
  {
    if s.held.Some? {
      var before := Early(s.delivered, s.cut) + Todo(s.phase);
      assert before + (s.queue + [s.held.value]) + [] == before + s.queue + [s.held.value];
    }
  }

  lemma HandOverKeeps(s: State)
    requires Inv(s)
    ensures Inv(Do(s, HandOver))
  {
    if s.phase.Flushing? && s.phase.todo != [] {
      var todo := s.phase.todo;
      var early, rest := Early(s.delivered, s.cut), s.queue + ToSeq(s.held);
      assert early + todo + s.queue + ToSeq(s.held) == early + todo + rest;
      assert (early + todo + rest)[|early|] == todo[0];
      assert Range(0, s.cut)[|early|] == |early|;
      EarlyAppend(s.delivered, todo[0], s.cut);
      assert early + [todo[0]] + todo[1..] == early + todo;
    }
  }

  lemma DoKeeps(s: State, step: Step)
    requires Inv(s)
    ensures Inv(Do(s, step))
  {
    match step
    case Arrive => ArriveKeeps(s);
    case Enqueue => EnqueueKeeps(s);
    case SetRemote =>
    case Take =>
      assert Early(s.delivered, s.cut) + [] + s.queue + ToSeq(s.held)
          == Early(s.delivered, s.cut) + s.queue + [] + ToSeq(s.held);
    case HandOver => HandOverKeeps(s);
  }

  lemma {:induction false} RunKeeps(s: State, steps: seq<Step>)
    requires Inv(s)
    ensures Inv(Run(s, steps))
    decreases steps
  {
    hide Inv, Do;
    if steps != [] {
      DoKeeps(s, steps[0]);
      RunKeeps(Do(s, steps[0]), steps[1..]);
    }
  }

  lemma StartKeeps()
    ensures Inv(START)
  {}

  /** In every interleaving every candidate that arrived is handed over once, waits once, or is held: none is handed
      over before there is a remote description, and the early ones as well as the late ones keep their order. */
  lemma CandidatesConserved(steps: seq<Step>)
    ensures var s := Run(START, steps);
            && s.cut <= s.arrived
            && Early(s.delivered, s.cut) + Todo(s.phase) + s.queue + ToSeq(s.held) == Range(0, s.cut)
            && Late(s.delivered, s.cut) == Range(s.cut, s.arrived)
            && (s.phase.NoRemote? ==> s.delivered == [])
  {
    StartKeeps();
    RunKeeps(START, steps);
  }

  /** After the flush every candidate has been handed over if and only if none was held, past the check and not yet
      queued, at the moment the flush took the queue; otherwise that one alone is left behind. */
  lemma FlushIsCompleteIff(steps: seq<Step>)
    requires Run(START, steps).phase.Flushed?
    ensures var s := Run(START, steps);
            && s.queue + ToSeq(s.held) == ToSeq(s.caught)
            && (s.caught.None? <==> Early(s.delivered, s.cut) == Range(0, s.cut))
  {
    StartKeeps();
    RunKeeps(START, steps);
    var s := Run(START, steps);
    var early := Early(s.delivered, s.cut);
    assert early + [] + s.queue + ToSeq(s.held) == early + ToSeq(s.caught);
    assert |early| + |ToSeq(s.caught)| == s.cut;
  }

  /** Nothing fetches the one left behind: once flushed, the queue only grows by what is held. */
  lemma {:induction false} LeftBehindForEver(s: State, more: seq<Step>)
    requires s.phase.Flushed?
    ensures var t := Run(s, more); t.phase.Flushed? && t.queue + ToSeq(t.held) == s.queue + ToSeq(s.held)
    decreases more
  {
    if more != [] {
      LeftBehindForEver(Do(s, more[0]), more[1..]);
    }
  }

  /** The gap is real. */
  lemma OneLeftBehind()
    ensures var s := Run(START, [Arrive, SetRemote, Take, Enqueue, HandOver]);
            s.phase.Flushed? && s.queue == [0] && s.delivered == []
  {
    var s1 := Do(START, Arrive);
    var s2 := Do(s1, SetRemote);
    var s3 := Do(s2, Take);
    var s4 := Do(s3, Enqueue);
    var s5 := Do(s4, HandOver);
    assert s5.phase.Flushed? && s5.queue == [0] && s5.delivered == [];
    RunFive(START, Arrive, SetRemote, Take, Enqueue, HandOver);
  }

  lemma RunFive(s: State, a: Step, b: Step, c: Step, d: Step, e: Step)
    ensures Run(s, [a, b, c, d, e]) == Do(Do(Do(Do(Do(s, a), b), c), d), e)
  {
    hide Do;
    assert [a, b, c, d, e][1..] == [b, c, d, e] && [b, c, d, e][1..] == [c, d, e] && [c, d, e][1..] == [d, e] && [d, e][1..] == [e];
    var s4 := Do(Do(Do(Do(s, a), b), c), d);
    assert Run(s4, [e]) == Run(Do(s4, e), []);
    assert Run(Do(Do(Do(s, a), b), c), [d, e]) == Run(s4, [e]);
    assert Run(Do(Do(s, a), b), [c, d, e]) == Run(Do(Do(Do(s, a), b), c), [d, e]);
    assert Run(Do(s, a), [b, c, d, e]) == Run(Do(Do(s, a), b), [c, d, e]);
  }

  // ----- messages handled at once -----

  /** With messages handled at once, an arrival is queued before anything else happens. */
  function DoAtomic(s: State, step: Step): State {
    if step.Arrive? then Do(Do(s, Arrive), Enqueue) else Do(s, step)
  }

  function RunAtomic(s: State, steps: seq<Step>): State
    decreases steps
  {
    if steps == [] then s else RunAtomic(DoAtomic(s, steps[0]), steps[1..])
  }

  lemma {:induction false} RunAtomicKeeps(s: State, steps: seq<Step>)
    requires Inv(s) && s.held.None? && s.caught.None?
    ensures var t := RunAtomic(s, steps); Inv(t) && t.held.None? && t.caught.None?
    decreases steps
  {
    hide Inv;
    if steps != [] {
      DoKeeps(s, steps[0]);
      if steps[0].Arrive? { DoKeeps(Do(s, Arrive), Enqueue); }
      RunAtomicKeeps(DoAtomic(s, steps[0]), steps[1..]);
    }
  }

  /** With messages handled at once, nothing is left after the flush: the early candidates were handed over in the
      order of arrival, and so were the late ones. */
  lemma AtomicFlushIsComplete(steps: seq<Step>)
    requires RunAtomic(START, steps).phase.Flushed?
    ensures var s := RunAtomic(START, steps);
            && s.queue == [] && s.held.None? && s.cut <= s.arrived
            && Early(s.delivered, s.cut) == Range(0, s.cut) && Late(s.delivered, s.cut) == Range(s.cut, s.arrived)
  {
    StartKeeps();
    RunAtomicKeeps(START, steps);
    var s := RunAtomic(START, steps);
    assert Early(s.delivered, s.cut) + [] + [] + [] == Early(s.delivered, s.cut);
  }

  // ----- the controller's queue -----

  datatype IceCandidate = IceCandidate(sdpMid: string, sdpMLineIndex: int, candidate: string)

  class PeerCandidates {
    var remoteSet: bool
    var pending: seq<IceCandidate>
    var handedOver: seq<IceCandidate>

    constructor ()
      ensures !remoteSet && pending == [] && handedOver == []
    {
      remoteSet, pending, handedOver := false, [], [];
    }

    method OnCandidate(c: IceCandidate)
      modifies this`pending, this`handedOver
      ensures pending + handedOver == if remoteSet then old(pending) + (old(handedOver) + [c]) else old(pending) + [c] + old(handedOver)
      ensures !remoteSet ==> handedOver == old(handedOver)
      ensures remoteSet ==> pending == old(pending)
    {
      if remoteSet { handedOver := handedOver + [c]; } else { pending := pending + [c]; }
    }

    method FlushPendingRemoteCandidates()
      modifies this`pending, this`handedOver
      ensures pending == [] && handedOver == old(handedOver) + old(pending)
    {
      var copied := pending;
      pending := [];
      for i := 0 to |copied|
        invariant pending == [] && handedOver == old(handedOver) + copied[..i]
      {
        handedOver := handedOver + [copied[i]];
      }
    }

    method ApplyAnswer()
      modifies this
      ensures remoteSet && pending == [] && handedOver == old(handedOver) + old(pending)
    {
      remoteSet := true;
      FlushPendingRemoteCandidates();
    }

    method ClosePeer()
      modifies this
      ensures !remoteSet && pending == [] && handedOver == []
    {
      remoteSet, pending, handedOver := false, [], [];
    }
  }

  // ----- the web client's normalisation -----

  /** A JavaScript number: infinities and NaN are not finite. */
  datatype Number = Finite(r: real) | NonFinite

  datatype JsValue = Undefined | Null | Num(n: Number) | Str(s: string)

  datatype WebCandidate = WebCandidate(sdpMid: JsValue, sdpMLineIndex: JsValue, candidate: JsValue)

  /** Number(v): null is zero and undefined is not a number; `parse` reads strings. */
  function ToNumber(v: JsValue, parse: string -> Number): Number {
    match v
    case Undefined => NonFinite
    case Null => Finite(0.0)
    case Num(n) => n
    case Str(s) => parse(s)
  }

  /** String(v) of a value that is neither null nor undefined; `show` prints numbers. */
  function ToText(v: JsValue, show: Number -> string): string {
    match v
    case Num(n) => show(n)
    case Str(s) => s
    case _ => ""
  }

  predicate HasMid(v: JsValue, show: Number -> string) {
    !(v.Undefined? || v.Null? || IsBlank(ToText(v, show)))
  }

  function NormalizeRemoteCandidate(c: WebCandidate, parse: string -> Number, show: Number -> string): WebCandidate {
    var index := ToNumber(c.sdpMLineIndex, parse);
    if !HasMid(c.sdpMid, show) && index.Finite? && index.r >= 0.0 then c.(sdpMid := Str(show(index))) else c
  }

  /** The normalisation on arrival and again on the flush equals one. A candidate gets a media id if and only if it
      has none and its line index is a non-negative number, and then that number as it is printed; null counts as
      zero. Everything else in it stays. */
  lemma NormalizedOnce(c: WebCandidate, parse: string -> Number, show: Number -> string)
    requires forall n :: !IsBlank(show(n))
    ensures var once := NormalizeRemoteCandidate(c, parse, show);
            && NormalizeRemoteCandidate(once, parse, show) == once
            && once == c.(sdpMid := once.sdpMid)
            && (HasMid(once.sdpMid, show) <==>
                HasMid(c.sdpMid, show) || (ToNumber(c.sdpMLineIndex, parse).Finite? && ToNumber(c.sdpMLineIndex, parse).r >= 0.0))
    ensures HasMid(c.sdpMid, show) <==> c.sdpMid.Num? || (c.sdpMid.Str? && !IsBlank(c.sdpMid.s))
    ensures var once := NormalizeRemoteCandidate(c, parse, show);
            if HasMid(c.sdpMid, show) || c.sdpMLineIndex.Undefined? then once == c
            else
              var n := match c.sdpMLineIndex
                       case Num(n) => n
                       case Str(s) => parse(s)
                       case _ => Finite(0.0);
              once.sdpMid == if n.Finite? && n.r >= 0.0 then Str(show(n)) else c.sdpMid
  {
    hide IsBlank;
  }
}
