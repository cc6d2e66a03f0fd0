/** The event loop tests, stated over the model: what the loop does with the
    operations each test posts before StopAndWait. */
module LoopScenarios {
  import opened Util
  import opened Ops
  import opened Events

  const Screen := Rect(0, 0, Size, Size)

  const PostAndStopQueue := [Some(OperationFunc(Record("op 1"))), Some(WhiteFill), Some(UpdateOp),
                             Some(OperationFunc(Record("op 2"))), Some(StopOp)]

  const UpdateSwitchQueue := [Some(WhiteFill), Some(UpdateOp), Some(StopOp)]

  /** The stop closure alone: it runs, nothing is drawn or shown. */
  lemma StopOutcome(bufs: Buffers)
    ensures ReadyCount([Some(StopOp)]) == 0
    ensures QueueActions([Some(StopOp)]) == [RequestStop]
    ensures Process([Some(StopOp)], bufs, Screen) == (bufs.back, bufs.front, [])
    ensures UntilStop([Some(StopOp)]) == [Some(StopOp)]
  {
    var s := [Some(StopOp)];
    assert s[1..] == [];
    assert bufs.back + EntryFills(s[0], Screen) == bufs.back;
    assert EntryActions(s[0]) + [] == [RequestStop];
    assert Stops(s[0]);
  }

  /** An update followed by the stop closure shows what was drawn. */
  lemma UpdateThenStop(back: seq<FillCall>, front: seq<FillCall>)
    ensures ReadyCount([Some(UpdateOp), Some(StopOp)]) == 1
    ensures QueueActions([Some(UpdateOp), Some(StopOp)]) == [RequestStop]
    ensures Process([Some(UpdateOp), Some(StopOp)], Buffers(back, front), Screen) == (front, back, [back])
  {
    var u := [Some(UpdateOp), Some(StopOp)];
    assert u[1..] == [Some(StopOp)];
    StopOutcome(Buffers(front, back));
    assert back + EntryFills(u[0], Screen) == back;
    assert [] + [RequestStop] == [RequestStop];
    assert [back] + [] == [back];
  }

  /** The second closure and the stop closure, after the update. */
  lemma TailOutcome(white: seq<FillCall>)
    ensures var q4 := [Some(OperationFunc(Record("op 2"))), Some(StopOp)];
      QueueActions(q4) == [Record("op 2"), RequestStop] && ReadyCount(q4) == 0 &&
      Process(q4, Buffers([], white), Screen) == ([], white, [])
  {
    var q4 := [Some(OperationFunc(Record("op 2"))), Some(StopOp)];
    assert q4[1..] == [Some(StopOp)];
    StopOutcome(Buffers([], white));
    assert [] + EntryFills(q4[0], Screen) == [];
  }

  /** The white fill, the update, the second closure and the stop closure. */
  lemma WhiteTailOutcome()
    ensures var q2 := PostAndStopQueue[1..];
      QueueActions(q2) == [Record("op 2"), RequestStop] && ReadyCount(q2) == 1 &&
      Process(q2, Buffers([], []), Screen) == ([], [FillCall(Screen, White)], [[FillCall(Screen, White)]])
  {
    var white := [FillCall(Screen, White)];
    var q4 := [Some(OperationFunc(Record("op 2"))), Some(StopOp)];
    TailOutcome(white);
    var q3 := [Some(UpdateOp)] + q4;
    assert q3[1..] == q4;
    assert white + EntryFills(q3[0], Screen) == white;
    assert QueueActions(q3) == [] + QueueActions(q4);
    assert [white] + [] == [white];
    assert Process(q3, Buffers(white, []), Screen) == ([], white, [white]);
    var q2 := [Some(WhiteFill)] + q3;
    assert q2 == PostAndStopQueue[1..];
    assert q2[1..] == q3;
    assert [] + EntryFills(q2[0], Screen) == white;
    assert QueueActions(q2) == [] + QueueActions(q3);
  }

  /** Two closures around a white fill and an update: the closures run in
      posting order, one frame holding the white fill is shown, and the stop
      closure runs last. */
  lemma PostAndStopOutcome()
    ensures ReadyCount(PostAndStopQueue) == 1
    ensures Labels(QueueActions(PostAndStopQueue)) == ["op 1", "op 2"]
    ensures RequestStop in QueueActions(PostAndStopQueue)
    ensures Process(PostAndStopQueue, Buffers([], []), Screen) == ([], [FillCall(Screen, White)], [[FillCall(Screen, White)]])
    ensures UntilStop(PostAndStopQueue) == PostAndStopQueue
  {
    WhiteTailOutcome();
    var q := PostAndStopQueue;
    assert [] + EntryFills(q[0], Screen) == [];
    var acts := [Record("op 1"), Record("op 2"), RequestStop];
    assert QueueActions(q) == acts;
    PostAndStopLabels(acts);
    PostAndStopUntil();
  }

  lemma PostAndStopLabels(acts: seq<Action>)
    requires acts == [Record("op 1"), Record("op 2"), RequestStop]
    ensures Labels(acts) == ["op 1", "op 2"]
  {
    assert acts[..2] == [Record("op 1"), Record("op 2")] && acts[..2][..1] == [Record("op 1")];
    assert acts[..2][..1][..0] == [];
    assert Labels(acts[..2][..1]) == ["op 1"];
    assert Labels(acts[..2]) == ["op 1", "op 2"];
    assert Labels(acts) == ["op 1", "op 2"] + [];
  }

  lemma PostAndStopUntil()
    ensures UntilStop(PostAndStopQueue) == PostAndStopQueue
  {
    var batch := PostAndStopQueue[..4];
    assert forall i :: 0 <= i < |batch| ==> !Stops(batch[i]) by {
      assert EntryActions(batch[0]) == [Record("op 1")] && EntryActions(batch[3]) == [Record("op 2")];
    }
    StopAfterBatch(batch, []);
    assert batch + [Some(StopOp)] + [] == PostAndStopQueue;
  }

  /** A white fill and an update: the receiver is shown the white texture. */
  lemma UpdateSwitchOutcome()
    ensures ReadyCount(UpdateSwitchQueue) == 1
    ensures QueueActions(UpdateSwitchQueue) == [RequestStop]
    ensures Process(UpdateSwitchQueue, Buffers([], []), Screen) == ([], [FillCall(Screen, White)], [[FillCall(Screen, White)]])
    ensures UntilStop(UpdateSwitchQueue) == UpdateSwitchQueue
  {
    var white := [FillCall(Screen, White)];
    var q := UpdateSwitchQueue;
    assert q[1..] == [Some(UpdateOp), Some(StopOp)];
    UpdateThenStop(white, []);
    assert [] + EntryFills(q[0], Screen) == white;
    assert QueueActions(q) == [] + QueueActions(q[1..]);
    var batch := q[..2];
    assert !Stops(batch[0]) && !Stops(batch[1]);
    StopAfterBatch(batch, []);
    assert batch + [Some(StopOp)] + [] == q;
  }

  /** TestLoop_PostAndStop: what the receiver was shown, the labels the
      closures recorded, and whether the loop stopped. */
  method PostAndStop() returns (shown: seq<seq<FillCall>>, executed: seq<string>, stopped: bool)
    ensures shown == [[FillCall(Screen, White)]]
    ensures executed == ["op 1", "op 2"]
    ensures stopped
  {
    var tr := new Receiver();
    var loop := new Loop(tr);
    loop.Start();
    loop.Post(Some(OperationFunc(Record("op 1"))));
    loop.Post(Some(WhiteFill));
    loop.Post(Some(UpdateOp));
    loop.Post(Some(OperationFunc(Record("op 2"))));
    loop.StopAndWait();
    assert loop.msgQueue.queue == PostAndStopQueue;
    PostAndStopOutcome();
    QueueLabelsAgree(PostAndStopQueue);
    loop.EventProcessStopping();
    shown, executed, stopped := tr.frames, loop.captures.executed, loop.stopped;
  }

  /** TestLoop_UpdateSwitchTextures: the receiver's last texture is the one
      Start made first, and it was filled white; drawing goes on in the
      other one. */
  method UpdateSwitchTextures() returns (last: Texture, colors: seq<Color>, drawing: Texture)
    ensures colors == [White]
    ensures last != drawing
  {
    var tr := new Receiver();
    var loop := new Loop(tr);
    loop.Start();
    var first, second := loop.next, loop.prev;
    loop.Post(Some(WhiteFill));
    loop.Post(Some(UpdateOp));
    loop.StopAndWait();
    assert loop.msgQueue.queue == UpdateSwitchQueue;
    UpdateSwitchOutcome();
    loop.EventProcessStopping();
    assert Alternate(first, second, 1) == [first] + [];
    assert tr.textures == [] + Alternate(first, second, 1);
    assert loop.next == second;
    last := tr.textures[|tr.textures| - 1];
    colors := [last.fills[0].color];
    drawing := loop.next;
  }

  /** TestLoop_StopWithoutOperations: only the stop closure runs, the
      receiver is given nothing, and the loop stops. */
  method StopWithoutOperations() returns (shown: seq<Texture>, stopped: bool)
    ensures shown == [] && stopped
  {
    var tr := new Receiver();
    var loop := new Loop(tr);
    loop.Start();
    loop.StopAndWait();
    assert loop.msgQueue.queue == [Some(StopOp)];
    StopOutcome(Buffers([], []));
    loop.EventProcessStopping();
    shown, stopped := tr.textures, loop.stopped;
  }
}
