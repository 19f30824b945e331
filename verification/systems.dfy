/**
 * `read_commands` (src/systems.rs): drains the command queue, performs each
 * swap on the board and reports each outcome on the event queue.
 */
module Systems {
  import opened Wrappers
  import opened Grid
  import opened Boards
  import opened Queues

  /** The event that reports the outcome `result` of swapping `pos1` and `pos2`. */
  function Reported(pos1: Pos, pos2: Pos, result: Result<(), SwapError>): (e: BoardEvent)
    ensures e.pos1 == pos1 && e.pos2 == pos2
    ensures e.Swapped? <==> result.Success?
  {
    if result.Success? then Swapped(pos1, pos2) else FailedSwap(pos1, pos2)
  }

  /**
   * The commands `cmds` can be processed in turn from the gems `m` of a `w`
   * by `h` board without a panic: every one is a `Swap` (a `Pop` is
   * `todo!()`) whose board scan is defined.
   */
  predicate Processable(m: map<Pos, Gem>, w: nat, h: nat, cmds: seq<BoardCommand>): (r: bool)
    ensures r ==> forall i :: 0 <= i < |cmds| ==> cmds[i].Swap?
    ensures r && cmds != [] ==> SwapDefined(m, w, h, cmds[0].pos1, cmds[0].pos2)
    decreases |cmds|
  {
    cmds == []
    || (cmds[0].Swap? && SwapDefined(m, w, h, cmds[0].pos1, cmds[0].pos2)
        && Processable(SwapOutcome(m, w, h, cmds[0].pos1, cmds[0].pos2).gems, w, h, cmds[1..]))
  }

  /** The gems after processing some commands, and the events they produced. */
  datatype Processed = Processed(gems: map<Pos, Gem>, events: seq<BoardEvent>)

  /** What processing the commands `cmds` in order does, starting from the gems `m`. */
  function Process(m: map<Pos, Gem>, w: nat, h: nat, cmds: seq<BoardCommand>): (r: Processed)
    requires Processable(m, w, h, cmds)
    ensures |r.events| == |cmds|
    decreases |cmds|
  {
    if cmds == [] then Processed(m, [])
    else
      var o := SwapOutcome(m, w, h, cmds[0].pos1, cmds[0].pos2);
      var rest := Process(o.gems, w, h, cmds[1..]);
      Processed(rest.gems, [Reported(cmds[0].pos1, cmds[0].pos2, o.result)] + rest.events)
  }

  /**
   * `read_commands`: pops commands until the queue is empty; a swap the
   * board accepts is reported as `Swapped`, one it refuses as `FailedSwap`.
   */
  method ReadCommands(commands: Fifo<BoardCommand>, events: Fifo<BoardEvent>, board: Board)
    requires Processable(board.gems, board.width, board.height, commands.items)
    modifies commands, events, board
    ensures commands.items == []
    ensures board.gems == Process(old(board.gems), board.width, board.height, old(commands.items)).gems
    ensures events.items
      == old(events.items) + Process(old(board.gems), board.width, board.height, old(commands.items)).events
  {
    while true
      invariant Processable(board.gems, board.width, board.height, commands.items)
      invariant Process(board.gems, board.width, board.height, commands.items).gems
        == Process(old(board.gems), board.width, board.height, old(commands.items)).gems
      invariant events.items + Process(board.gems, board.width, board.height, commands.items).events
        == old(events.items) + Process(old(board.gems), board.width, board.height, old(commands.items)).events
      decreases |commands.items|
    {
      var command := commands.Pop();
      if command.Failure? {
        break;
      }
      match command.value {
        case Swap(pos1, pos2) =>
          var result := board.Swap(pos1, pos2);
          var _ := events.Push(Reported(pos1, pos2, result));
        case Pop(_) =>
          assert false;
      }
    }
  }

  /** A concatenation of commands can be processed exactly when its first batch can and the second can from where the first left the board. */
  lemma {:induction false} ProcessableAppend(m: map<Pos, Gem>, w: nat, h: nat, c1: seq<BoardCommand>, c2: seq<BoardCommand>)
    ensures Processable(m, w, h, c1 + c2)
      <==> Processable(m, w, h, c1) && Processable(Process(m, w, h, c1).gems, w, h, c2)
    decreases |c1|
  {
    if c1 == [] {
      assert c1 + c2 == c2;
    } else {
      assert (c1 + c2)[0] == c1[0];
      assert (c1 + c2)[1..] == c1[1..] + c2;
      if c1[0].Swap? && SwapDefined(m, w, h, c1[0].pos1, c1[0].pos2) {
        ProcessableAppend(SwapOutcome(m, w, h, c1[0].pos1, c1[0].pos2).gems, w, h, c1[1..], c2);
      }
    }
  }

  /**
   * Processing two batches of commands one after the other is processing
   * their concatenation: the board carries over and the events of the
   * second batch follow those of the first.
   */
  lemma {:induction false} ProcessAppend(m: map<Pos, Gem>, w: nat, h: nat, c1: seq<BoardCommand>, c2: seq<BoardCommand>)
    requires Processable(m, w, h, c1) && Processable(Process(m, w, h, c1).gems, w, h, c2)
    ensures Processable(m, w, h, c1 + c2)
    ensures
      var a := Process(m, w, h, c1);
      var b := Process(a.gems, w, h, c2);
      Process(m, w, h, c1 + c2) == Processed(b.gems, a.events + b.events)
    decreases |c1|
  {
    ProcessableAppend(m, w, h, c1, c2);
    if c1 == [] {
      assert c1 + c2 == c2;
    } else {
      var c := c1 + c2;
      assert c[0] == c1[0] && c[1..] == c1[1..] + c2;
      var o := SwapOutcome(m, w, h, c1[0].pos1, c1[0].pos2);
      var e := Reported(c1[0].pos1, c1[0].pos2, o.result);
      ProcessAppend(o.gems, w, h, c1[1..], c2);
      var a := Process(o.gems, w, h, c1[1..]);
      var b := Process(a.gems, w, h, c2);
      ProcessCons(m, w, h, c, o, e);
      ProcessCons(m, w, h, c1, o, e);
      assert [e] + (a.events + b.events) == ([e] + a.events) + b.events;
    }
  }

  /** One step of processing: the first command, then the rest from where it left the board. */
  lemma ProcessCons(m: map<Pos, Gem>, w: nat, h: nat, c: seq<BoardCommand>, o: SwapStep, e: BoardEvent)
    requires c != [] && Processable(m, w, h, c)
    requires o == SwapOutcome(m, w, h, c[0].pos1, c[0].pos2)
    requires e == Reported(c[0].pos1, c[0].pos2, o.result)
    ensures Processable(o.gems, w, h, c[1..])
    ensures Process(m, w, h, c) == Processed(Process(o.gems, w, h, c[1..]).gems, [e] + Process(o.gems, w, h, c[1..]).events)
  {
  }

  /**
   * The `i`-th event reports the `i`-th command, a swap of the same two
   * cells, and says `Swapped` exactly when the board as the earlier
   * commands left it accepted that swap; the board then moves on to the
   * outcome of that swap.
   */
  lemma ProcessEventAt(m: map<Pos, Gem>, w: nat, h: nat, cmds: seq<BoardCommand>, i: nat)
    requires Processable(m, w, h, cmds) && i < |cmds|
    ensures Processable(m, w, h, cmds[..i]) && Processable(m, w, h, cmds[..i + 1])
    ensures cmds[i].Swap? && SwapDefined(Process(m, w, h, cmds[..i]).gems, w, h, cmds[i].pos1, cmds[i].pos2)
    ensures
      var o := SwapOutcome(Process(m, w, h, cmds[..i]).gems, w, h, cmds[i].pos1, cmds[i].pos2);
      Process(m, w, h, cmds).events[i] == Reported(cmds[i].pos1, cmds[i].pos2, o.result)
      && Process(m, w, h, cmds[..i + 1]).gems == o.gems
  {
    assert cmds == cmds[..i] + cmds[i..];
    ProcessableAppend(m, w, h, cmds[..i], cmds[i..]);
    ProcessAppend(m, w, h, cmds[..i], cmds[i..]);
    var a := Process(m, w, h, cmds[..i]);
    assert cmds[i..][0] == cmds[i];
    assert cmds[..i + 1] == cmds[..i] + [cmds[i]];
    assert [cmds[i]][1..] == [];
    ProcessAppend(m, w, h, cmds[..i], [cmds[i]]);
  }

  /** When every swap was refused the board is the one processing started from. */
  lemma {:induction false} ProcessAllRefused(m: map<Pos, Gem>, w: nat, h: nat, cmds: seq<BoardCommand>)
    requires Processable(m, w, h, cmds)
    requires forall i :: 0 <= i < |cmds| ==> Process(m, w, h, cmds).events[i].FailedSwap?
    ensures Process(m, w, h, cmds).gems == m
    decreases |cmds|
  {
    if cmds != [] {
      var o := SwapOutcome(m, w, h, cmds[0].pos1, cmds[0].pos2);
      var r := Process(m, w, h, cmds);
      assert r.events[0].FailedSwap?;
      forall i | 0 <= i < |cmds| - 1
        ensures Process(o.gems, w, h, cmds[1..]).events[i].FailedSwap?
      {
        assert r.events[i + 1].FailedSwap?;
      }
      ProcessAllRefused(o.gems, w, h, cmds[1..]);
    }
  }
}
