/** The message queue and the event loop of package painter, run one step at
    a time: the loop pulls an operation, applies it to the texture `next`, and
    when the operation makes the frame ready it hands `next` to the receiver
    and swaps `next` and `prev`. */
module Events {
  import opened Util
  import opened Ops

  /** Width and height of the textures Start creates. */
  const Size := 800

  /** The operation StopAndWait posts: it runs a closure that sets stopReq. */
  const StopOp := OperationFunc(RequestStop)

  /** messageQueue: a FIFO of operations. An entry can be nil when Push is
      called directly rather than through Post. */
  class MessageQueue {
    var queue: seq<Option<Operation>>

    constructor ()
      ensures queue == []
    {
      queue := [];
    }

    method Push(op: Option<Operation>)
      modifies this
      ensures queue == old(queue) + [op]
    {
      queue := queue + [op];
    }

    /** Pull waits until the queue is not empty; here that is the caller's
        obligation. */
    method Pull() returns (op: Option<Operation>)
      requires queue != []
      modifies this
      ensures op == old(queue)[0] && queue == old(queue)[1..]
    {
      op := queue[0];
      queue := queue[1..];
    }
  }

  /** A Receiver that keeps every texture it is given, together with what
      had been drawn on that texture when it was given. */
  class Receiver {
    var textures: seq<Texture>
    var frames: seq<seq<FillCall>>

    constructor ()
      ensures textures == [] && frames == []
    {
      textures, frames := [], [];
    }

    method Update(t: Texture)
      modifies this
      ensures textures == old(textures) + [t] && frames == old(frames) + [t.fills]
    {
      textures := textures + [t];
      frames := frames + [t.fills];
    }
  }

  /** The fills an entry of the queue makes; a nil entry makes none. */
  function EntryFills(entry: Option<Operation>, bounds: Rect): seq<FillCall>
  {
    if entry.Some? then Fills(entry.value, bounds) else []
  }

  function EntryActions(entry: Option<Operation>): seq<Action>
  {
    if entry.Some? then Actions(entry.value) else []
  }

  predicate EntryReady(entry: Option<Operation>)
  {
    entry.Some? && Ready(entry.value)
  }

  /** The number of entries that make the frame ready. */
  function ReadyCount(q: seq<Option<Operation>>): nat
  {
    if q == [] then 0 else (if EntryReady(q[0]) then 1 else 0) + ReadyCount(q[1..])
  }

  /** The closures run by the entries, in queue order. */
  function QueueActions(q: seq<Option<Operation>>): seq<Action>
  {
    if q == [] then [] else EntryActions(q[0]) + QueueActions(q[1..])
  }

  /** The names recorded by the entries' closures, in queue order. */
  function QueueLabels(q: seq<Option<Operation>>): seq<string>
  {
    if q == [] then [] else Labels(EntryActions(q[0])) + QueueLabels(q[1..])
  }

  lemma {:induction false} QueueLabelsAgree(q: seq<Option<Operation>>)
    ensures QueueLabels(q) == Labels(QueueActions(q))
    decreases |q|
  {
    if q != [] {
      QueueLabelsAgree(q[1..]);
      LabelsAppend(EntryActions(q[0]), QueueActions(q[1..]));
    }
  }

  /** The textures the receiver gets from n ready steps starting with a as
      next and b as prev: a, b, a, b, ... */
  function Alternate(a: Texture, b: Texture, n: nat): seq<Texture>
  {
    if n == 0 then [] else [a] + Alternate(b, a, n - 1)
  }

  /** What the two textures hold: `back` is drawn on, `front` was last shown. */
  datatype Buffers = Buffers(back: seq<FillCall>, front: seq<FillCall>)

  /** The event loop over a queue, by content: the buffers at the end and
      the contents handed to the receiver, one per ready entry. */
  function Process(q: seq<Option<Operation>>, bufs: Buffers, bounds: Rect): (seq<FillCall>, seq<FillCall>, seq<seq<FillCall>>)
  {
    if q == [] then (bufs.back, bufs.front, [])
    else
      var drawn := bufs.back + EntryFills(q[0], bounds);
      if EntryReady(q[0]) then
        var (back, front, frames) := Process(q[1..], Buffers(bufs.front, drawn), bounds);
        (back, front, [drawn] + frames)
      else Process(q[1..], Buffers(drawn, bufs.front), bounds)
  }

  /** The loop's state by value: the queue, the two textures and what they
      hold, what the receiver was given, and what the closures recorded. */
  datatype Config = Config(queue: seq<Option<Operation>>, next: Texture, prev: Texture,
                           back: seq<FillCall>, front: seq<FillCall>,
                           shown: seq<Texture>, frames: seq<seq<FillCall>>,
                           executed: seq<string>, stopReq: bool)

  /** One iteration of eventProcess on a configuration. */
  function Advance(c: Config, bounds: Rect): (d: Config)
    requires c.queue != []
    ensures |d.queue| < |c.queue|
  {
    var e := c.queue[0];
    var drawn := c.back + EntryFills(e, bounds);
    var executed := c.executed + Labels(EntryActions(e));
    var stopReq := c.stopReq || RequestStop in EntryActions(e);
    if EntryReady(e) then
      Config(c.queue[1..], c.prev, c.next, c.front, drawn, c.shown + [c.next], c.frames + [drawn], executed, stopReq)
    else
      Config(c.queue[1..], c.next, c.prev, drawn, c.front, c.shown, c.frames, executed, stopReq)
  }

  /** Where a configuration ends once its whole queue is processed, in
      closed form: next and prev are swapped once per ready entry, the
      receiver gets next and prev alternately, the buffers and frames are
      those of Process, and the closures run in queue order. */
  function Outcome(c: Config, bounds: Rect): Config
  {
    var n := ReadyCount(c.queue);
    var (back, front, frames) := Process(c.queue, Buffers(c.back, c.front), bounds);
    Config([], if n % 2 == 0 then c.next else c.prev, if n % 2 == 0 then c.prev else c.next,
           back, front, c.shown + Alternate(c.next, c.prev, n), c.frames + frames,
           c.executed + QueueLabels(c.queue), c.stopReq || RequestStop in QueueActions(c.queue))
  }

  /** A step does not change where the loop ends up. */
  lemma AdvanceKeepsOutcome(c: Config, bounds: Rect)
    requires c.queue != []
    ensures Outcome(Advance(c, bounds), bounds) == Outcome(c, bounds)
  {
    var q, d := c.queue, Advance(c, bounds);
    var drawn := c.back + EntryFills(q[0], bounds);
    assert c.executed + QueueLabels(q) == d.executed + QueueLabels(q[1..]);
    if EntryReady(q[0]) {
      var n := ReadyCount(q[1..]);
      assert Alternate(c.next, c.prev, n + 1) == [c.next] + Alternate(c.prev, c.next, n);
      assert c.shown + Alternate(c.next, c.prev, n + 1) == d.shown + Alternate(d.next, d.prev, n);
      var r := Process(q[1..], Buffers(c.front, drawn), bounds);
      assert Process(q, Buffers(c.back, c.front), bounds) == (r.0, r.1, [drawn] + r.2);
      assert c.frames + ([drawn] + r.2) == d.frames + r.2;
    }
  }

  /** With nothing queued, a configuration is its own outcome. */
  lemma EmptyOutcome(c: Config, bounds: Rect)
    requires c.queue == []
    ensures Outcome(c, bounds) == c
  {
    assert c.shown + [] == c.shown && c.frames + [] == c.frames && c.executed + [] == c.executed;
  }

  /** The receiver is handed exactly one frame per ready entry. */
  lemma {:induction false} FramesPerReadyEntry(q: seq<Option<Operation>>, bufs: Buffers, bounds: Rect)
    ensures |Process(q, bufs, bounds).2| == ReadyCount(q)
    decreases |q|
  {
    if q != [] {
      var drawn := bufs.back + EntryFills(q[0], bounds);
      if EntryReady(q[0]) {
        FramesPerReadyEntry(q[1..], Buffers(bufs.front, drawn), bounds);
      } else {
        FramesPerReadyEntry(q[1..], Buffers(drawn, bufs.front), bounds);
      }
    }
  }

  /** Processing two batches one after the other is processing their
      concatenation: the queue is first in, first out. */
  lemma {:induction false} ProcessAppend(q1: seq<Option<Operation>>, q2: seq<Option<Operation>>, bufs: Buffers, bounds: Rect)
    ensures var (back, front, frames) := Process(q1, bufs, bounds);
            var r := Process(q2, Buffers(back, front), bounds);
            Process(q1 + q2, bufs, bounds) == (r.0, r.1, frames + r.2)
    decreases |q1|
  {
    if q1 == [] {
      assert q1 + q2 == q2;
      var r := Process(q2, bufs, bounds);
      assert [] + r.2 == r.2;
    } else {
      var q := q1 + q2;
      assert q[0] == q1[0] && q[1..] == q1[1..] + q2;
      var drawn := bufs.back + EntryFills(q1[0], bounds);
      if EntryReady(q1[0]) {
        var rest := Process(q1[1..], Buffers(bufs.front, drawn), bounds);
        ProcessAppend(q1[1..], q2, Buffers(bufs.front, drawn), bounds);
        var r := Process(q2, Buffers(rest.0, rest.1), bounds);
        assert [drawn] + (rest.2 + r.2) == ([drawn] + rest.2) + r.2;
      } else {
        ProcessAppend(q1[1..], q2, Buffers(drawn, bufs.front), bounds);
      }
    }
  }

  /** The textures handed to the receiver alternate, starting with next. */
  lemma {:induction false} AlternateAt(a: Texture, b: Texture, n: nat, i: nat)
    requires i < n
    ensures |Alternate(a, b, n)| == n
    ensures Alternate(a, b, n)[i] == if i % 2 == 0 then a else b
    decreases n
  {
    if i == 0 {
      AlternateLength(b, a, n - 1);
    } else {
      AlternateAt(b, a, n - 1, i - 1);
    }
  }

  lemma {:induction false} AlternateLength(a: Texture, b: Texture, n: nat)
    ensures |Alternate(a, b, n)| == n
    decreases n
  {
    if n > 0 {
      AlternateLength(b, a, n - 1);
    }
  }

  /** Whether an entry runs the stop closure. */
  predicate Stops(entry: Option<Operation>)
  {
    RequestStop in EntryActions(entry)
  }

  /** The entries a loop that honours stopReq applies: everything up to and
      including the first entry that runs the stop closure. */
  function UntilStop(q: seq<Option<Operation>>): (p: seq<Option<Operation>>)
    ensures |p| <= |q| && p == q[..|p|]
  {
    if q == [] then []
    else if Stops(q[0]) then [q[0]]
    else [q[0]] + UntilStop(q[1..])
  }

  /** UntilStop stops at the first stop and nowhere else: no entry before
      its last stops, its last entry stops unless it is all of q, and it is
      all of q when no entry stops. */
  lemma {:induction false} UntilStopFirst(q: seq<Option<Operation>>)
    ensures var p := UntilStop(q);
            && (forall i :: 0 <= i < |p| - 1 ==> !Stops(p[i]))
            && ((p != [] && Stops(p[|p| - 1])) || p == q)
            && ((forall i :: 0 <= i < |q| ==> !Stops(q[i])) ==> p == q)
    decreases |q|
  {
    if q != [] && !Stops(q[0]) {
      UntilStopFirst(q[1..]);
      var p, r := UntilStop(q), UntilStop(q[1..]);
      assert p == [q[0]] + r;
      forall i | 0 <= i < |p| - 1
        ensures !Stops(p[i])
      {
        if i > 0 { assert p[i] == r[i - 1]; }
      }
      if forall i :: 0 <= i < |q| ==> !Stops(q[i]) {
        assert forall i :: 0 <= i < |q[1..]| ==> !Stops(q[1..][i]) by {
          forall i | 0 <= i < |q[1..]| ensures !Stops(q[1..][i]) { assert q[1..][i] == q[i + 1]; }
        }
        assert [q[0]] + q[1..] == q;
      }
      if r == q[1..] { assert [q[0]] + q[1..] == q; }
    }
  }

  /** What StopAndWait promises: the stop posted behind a batch without
      another stop is applied after every operation of the batch, and
      nothing posted after it is applied. */
  lemma {:induction false} StopAfterBatch(q: seq<Option<Operation>>, later: seq<Option<Operation>>)
    requires forall i :: 0 <= i < |q| ==> !Stops(q[i])
    ensures UntilStop(q + [Some(StopOp)] + later) == q + [Some(StopOp)]
    decreases |q|
  {
    var whole := q + [Some(StopOp)] + later;
    if q == [] {
      assert whole[0] == Some(StopOp) && [Some(StopOp)] + later == whole;
      assert Stops(Some(StopOp));
    } else {
      assert whole[0] == q[0] && whole[1..] == q[1..] + [Some(StopOp)] + later;
      assert !Stops(q[0]);
      StopAfterBatch(q[1..], later);
      assert [q[0]] + (q[1..] + [Some(StopOp)]) == q + [Some(StopOp)];
    }
  }

  /** As written, eventProcess never reads stopReq: an operation queued
      after the stop closure is still applied. */
  lemma StopIgnored(bounds: Rect)
    ensures var q := [Some(StopOp), Some(WhiteFill)];
            && UntilStop(q) == [Some(StopOp)]
            && Process(q, Buffers([], []), bounds).0 == [FillCall(bounds, White)]
  {
    var q := [Some(StopOp), Some(WhiteFill)];
    assert Stops(q[0]);
    assert q[1..] == [Some(WhiteFill)] && q[1..][1..] == [];
    assert [] + EntryFills(q[0], bounds) == [];
    assert [] + EntryFills(q[1], bounds) == [FillCall(bounds, White)];
    assert !EntryReady(q[0]) && !EntryReady(q[1]);
    assert Process(q[1..], Buffers([], []), bounds) == ([FillCall(bounds, White)], [], []);
  }

  /** A configuration whose queue is cut after its first stop. */
  lemma AdvanceUntilStop(c: Config, bounds: Rect)
    requires c.queue != [] && !c.stopReq
    ensures var d := Advance(c, bounds);
            Advance(c.(queue := UntilStop(c.queue)), bounds)
            == d.(queue := if d.stopReq then [] else UntilStop(d.queue))
  {
    var u := UntilStop(c.queue);
    assert u[0] == c.queue[0];
    if Stops(c.queue[0]) {
      assert u[1..] == [];
    } else {
      assert u[1..] == UntilStop(c.queue[1..]);
    }
  }

  /** The part of a configuration a loop that honours stopReq has still to
      go through: the queue up to its first stop, or nothing once the stop
      has run. */
  function PendingOf(c: Config): Config
  {
    c.(queue := if c.stopReq then [] else UntilStop(c.queue))
  }

  /** One step of the loop that honours stopReq, by value: the applied
      prefix grows by the head, and where the loop ends up is unchanged. */
  lemma StoppingStep(c: Config, bounds: Rect, done: seq<Option<Operation>>, q0: seq<Option<Operation>>)
    requires c.queue != [] && !c.stopReq
    requires q0 == done + c.queue && UntilStop(q0) == done + PendingOf(c).queue
    ensures var d := Advance(c, bounds);
            && q0 == (done + [c.queue[0]]) + d.queue
            && UntilStop(q0) == (done + [c.queue[0]]) + PendingOf(d).queue
            && Outcome(PendingOf(d), bounds) == Outcome(PendingOf(c), bounds)
  {
    var d := Advance(c, bounds);
    assert c.queue == [c.queue[0]] + d.queue;
    assert d.stopReq == Stops(c.queue[0]);
    var rest := PendingOf(d).queue;
    assert UntilStop(c.queue) == [c.queue[0]] + rest;
    assert done + ([c.queue[0]] + rest) == (done + [c.queue[0]]) + rest;
    assert done + ([c.queue[0]] + d.queue) == (done + [c.queue[0]]) + d.queue;
    AdvanceUntilStop(c, bounds);
    AdvanceKeepsOutcome(PendingOf(c), bounds);
  }

  class Loop {
    const receiver: Receiver
    var next: Texture?
    var prev: Texture?
    /** Holds stopReq, the flag the StopAndWait closure sets. */
    const captures: Captures
    /** The queue; in Go a struct value inside the Loop. */
    const msgQueue: MessageQueue
    /** Whether the `stopped` channel is closed. */
    var stopped: bool
    /** The two textures Start created, in the order it assigned them. */
    ghost var first: Texture?
    ghost var second: Texture?

    ghost predicate Valid()
      reads this`next, this`prev, this`first, this`second, next, prev
    {
      && next != null && prev != null && next != prev
      && first != null && second != null
      && ((next == first && prev == second) || (next == second && prev == first))
      && next.bounds == prev.bounds
    }

    /** The loop's state by value. */
    ghost function Abs(): Config
      requires Valid()
      reads this`next, this`prev, this`first, this`second, next, prev, receiver, captures, msgQueue
    {
      Config(msgQueue.queue, next, prev, next.fills, prev.fills, receiver.textures, receiver.frames,
             captures.executed, captures.stopReq)
    }

    /** A Loop value with its Receiver set, before Start. */
    constructor (r: Receiver)
      ensures receiver == r && next == null && prev == null
      ensures fresh(msgQueue) && msgQueue.queue == []
      ensures fresh(captures) && !captures.stopReq && captures.executed == []
      ensures !stopped
    {
      receiver := r;
      next, prev := null, null;
      captures := new Captures();
      msgQueue := new MessageQueue();
      first, second := null, null;
      stopped := false;
    }

    /** Start: creates the two textures and resets the queue to its zero
        value; the goroutine it starts is the repeated Step below. */
    method Start()
      modifies this`next, this`prev, this`first, this`second, msgQueue
      ensures Valid() && fresh(next) && fresh(prev)
      ensures first == next && second == prev
      ensures next.bounds == Rect(0, 0, Size, Size) && next.fills == [] && prev.fills == []
      ensures msgQueue.queue == []
    {
      next := new Texture(Size, Size);
      prev := new Texture(Size, Size);
      first, second := next, prev;
      msgQueue.queue := [];
    }

    /** Post: enqueues a non-nil operation unchanged and drops nil. */
    method Post(op: Option<Operation>)
      modifies msgQueue
      ensures msgQueue.queue == old(msgQueue.queue) + (if op.Some? then [op] else [])
    {
      if op.Some? {
        msgQueue.Push(op);
      }
    }

    /** StopAndWait without its wait: it posts the stop operation behind
        everything already queued. */
    method StopAndWait()
      modifies msgQueue
      ensures msgQueue.queue == old(msgQueue.queue) + [Some(StopOp)]
    {
      Post(Some(StopOp));
    }

    /** One iteration of eventProcess: pull the head; skip it if nil;
        otherwise apply it to next, and if that makes the frame ready hand
        next to the receiver and swap next and prev. */
    method Step() returns (ready: bool)
      requires Valid() && msgQueue.queue != []
      modifies this`next, this`prev, msgQueue, next, captures, receiver
      ensures Valid() && next.bounds == old(next.bounds)
      ensures ready == EntryReady(old(msgQueue.queue)[0])
      ensures Abs() == Advance(old(Abs()), old(next.bounds))
    {
      var op := msgQueue.Pull();
      ready := false;
      if op.Some? {
        var update := Apply(op.value, next, captures);
        if update {
          receiver.Update(next);
          next, prev := prev, next;
          ready := true;
        }
      }
    }

    /** eventProcess until Pull would block: steps until the queue is empty.
        Every entry is applied in queue order, the receiver gets next and
        prev alternately, once per ready entry, and next and prev are swapped
        back after an even number of ready entries. */
    method EventProcess()
      requires Valid()
      modifies this`next, this`prev, msgQueue, next, prev, captures, receiver
      ensures Valid() && msgQueue.queue == []
      ensures var n := ReadyCount(old(msgQueue.queue));
              if n % 2 == 0 then next == old(next) && prev == old(prev)
              else next == old(prev) && prev == old(next)
      ensures receiver.textures
              == old(receiver.textures) + Alternate(old(next), old(prev), ReadyCount(old(msgQueue.queue)))
      ensures var (back, front, frames) := Process(old(msgQueue.queue), Buffers(old(next.fills), old(prev.fills)), old(next.bounds));
              next.fills == back && prev.fills == front && receiver.frames == old(receiver.frames) + frames
      ensures captures.executed == old(captures.executed) + Labels(QueueActions(old(msgQueue.queue)))
      ensures captures.stopReq == (old(captures.stopReq) || RequestStop in QueueActions(old(msgQueue.queue)))
    {
      ghost var c0, bounds := Abs(), next.bounds;
      QueueLabelsAgree(c0.queue);
      while msgQueue.queue != []
        invariant Valid() && next.bounds == bounds
        invariant (next == old(next) && prev == old(prev)) || (next == old(prev) && prev == old(next))
        invariant Outcome(Abs(), bounds) == Outcome(c0, bounds)
        decreases |msgQueue.queue|
      {
        ghost var c := Abs();
        var _ := Step();
        AdvanceKeepsOutcome(c, bounds);
      }
      EmptyOutcome(Abs(), bounds);
    }

    /** eventProcess as evidently intended: it stops once the stop closure
        has run and then closes `stopped`. It applies exactly the queue up to
        and including the first stop, leaves the rest queued, and ends in the
        state Outcome gives for that prefix. */
    method EventProcessStopping()
      requires Valid() && !captures.stopReq
      modifies this`next, this`prev, this`stopped, msgQueue, next, prev, captures, receiver
      ensures Valid() && stopped == captures.stopReq
      ensures old(msgQueue.queue) == UntilStop(old(msgQueue.queue)) + msgQueue.queue
      ensures Abs().(queue := []) == Outcome(old(Abs()).(queue := UntilStop(old(msgQueue.queue))), next.bounds)
    {
      ghost var q0, cur, bounds := msgQueue.queue, Abs(), next.bounds;
      ghost var target := Outcome(PendingOf(cur), bounds);
      ghost var done: seq<Option<Operation>> := [];
      while !captures.stopReq && msgQueue.queue != []
        invariant Valid() && next.bounds == bounds && Abs() == cur
        invariant (next == old(next) && prev == old(prev)) || (next == old(prev) && prev == old(next))
        invariant q0 == done + cur.queue
        invariant UntilStop(q0) == done + PendingOf(cur).queue
        invariant Outcome(PendingOf(cur), bounds) == target
        decreases |msgQueue.queue|
      {
        var _ := Step();
        StoppingStep(cur, bounds, done, q0);
        done := done + [cur.queue[0]];
        cur := Advance(cur, bounds);
      }
      EmptyOutcome(PendingOf(cur), bounds);
      stopped := captures.stopReq;
    }
  }
}
