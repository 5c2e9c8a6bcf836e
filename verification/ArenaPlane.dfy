/**
 The plane's setters over the byte mirror and the arena, and what a kernel reads after any
 sequence of them.
 */
module ArenaPlane {
  import opened Prelude
  import opened Bytes
  import opened Arena

  datatype Cmd =
    | PutNumTasks(v: int)
    | PutOrderSize(v: int)
    | PutLambda(d: seq<Byte>)
    | EnableTimer(on: bool)
    | PutRow(i: nat, q: Packed, tau: int, hint: int)
    | Push
    | PutOrder(tasks: seq<nat>)
    | ClearTimer
    | PutQueue(w: int)

  /** The mirror decoded, the arena as a kernel reads it, and the push counter. */
  datatype View = View(mirror: Ctrl, tables: Tables, generation: nat)

  predicate Fits(v: int) {
    0 <= v < U32
  }

  function WithTimer(flags: nat, on: bool): nat {
    flags - flags % 2 + if on then 0 else 1
  }

  function Do(n: nat, v: View, c: Cmd): View
    requires |v.mirror.rows| == n
  {
    match c
    case PutNumTasks(x) => if Fits(x) then v.(mirror := v.mirror.(numTasks := x)) else v
    case PutOrderSize(x) => if Fits(x) then v.(mirror := v.mirror.(orderSize := x)) else v
    case PutLambda(d) => v.(mirror := v.mirror.(lambda := d))
    case EnableTimer(on) => v.(mirror := v.mirror.(flags := WithTimer(v.mirror.flags, on)))
    case PutRow(i, q, tau, hint) =>
      if i < n then v.(mirror := v.mirror.(rows := v.mirror.rows[i := Row(q, tau % U16, hint % 256)])) else v
    case Push =>
      var g := v.generation + 1;
      if g < U32 then
        var m := v.mirror.(generation := g);
        View(m, v.tables.(ctrl := m), g)
      else v.(generation := g)
    case PutOrder(tasks) => v.(tables := v.tables.(order := OrderAfter(v.tables.order, tasks)))
    case ClearTimer => v.(tables := v.tables.(timer := seq(n, _ => 0)))
    case PutQueue(w) => if SignedFits(w) then v.(tables := v.tables.(queue := w % U32)) else v
  }

  predicate SignedFits(w: int) {
    -0x8000_0000 <= w < 0x8000_0000
  }

  function Run(n: nat, v: View, cs: seq<Cmd>): (r: View)
    requires |v.mirror.rows| == n
    ensures |r.mirror.rows| == n
  {
    if cs == [] then v else Do(n, Run(n, v, cs[..|cs| - 1]), cs[|cs| - 1])
  }

  // ------------------------------------------------------------------
  // The last value set.
  // ------------------------------------------------------------------

  function LastNumTasks(cs: seq<Cmd>, start: nat): nat {
    if cs == [] then start
    else
      var c := cs[|cs| - 1];
      if c.PutNumTasks? && Fits(c.v) then c.v else LastNumTasks(cs[..|cs| - 1], start)
  }

  function LastOrderSize(cs: seq<Cmd>, start: nat): nat {
    if cs == [] then start
    else
      var c := cs[|cs| - 1];
      if c.PutOrderSize? && Fits(c.v) then c.v else LastOrderSize(cs[..|cs| - 1], start)
  }

  function LastLambda(cs: seq<Cmd>, start: seq<Byte>): seq<Byte> {
    if cs == [] then start
    else
      var c := cs[|cs| - 1];
      if c.PutLambda? then c.d else LastLambda(cs[..|cs| - 1], start)
  }

  /** Bit 0 of flags: set means timer off. */
  function LastTimerOff(cs: seq<Cmd>, start: bool): bool {
    if cs == [] then start
    else
      var c := cs[|cs| - 1];
      if c.EnableTimer? then !c.on else LastTimerOff(cs[..|cs| - 1], start)
  }

  function LastRow(cs: seq<Cmd>, i: nat, start: Row): Row {
    if cs == [] then start
    else
      var c := cs[|cs| - 1];
      if c.PutRow? && c.i == i then Row(c.q, c.tau % U16, c.hint % 256)
      else LastRow(cs[..|cs| - 1], i, start)
  }

  lemma {:induction false} MirrorHoldsLast(n: nat, v: View, cs: seq<Cmd>)
    requires |v.mirror.rows| == n
    ensures var m := Run(n, v, cs).mirror;
            && m.numTasks == LastNumTasks(cs, v.mirror.numTasks)
            && m.orderSize == LastOrderSize(cs, v.mirror.orderSize)
            && m.lambda == LastLambda(cs, v.mirror.lambda)
            && (m.flags % 2 == 1 <==> LastTimerOff(cs, v.mirror.flags % 2 == 1))
            && m.flags / 2 == v.mirror.flags / 2
            && forall i :: 0 <= i < n ==> m.rows[i] == LastRow(cs, i, v.mirror.rows[i])
    ensures Run(n, v, cs).generation <= v.generation + |cs|
  {
    if cs != [] { MirrorHoldsLast(n, v, cs[..|cs| - 1]); }
  }

  /**
   After any commands and a push, a kernel reads the last value set for every header field and for
   every row, whatever came in between, and the push touches no order entry, timer row or ticket.
   */
  lemma KernelReadsLast(n: nat, v: View, cs: seq<Cmd>)
    requires |v.mirror.rows| == n && v.generation + |cs| + 1 < U32
    ensures var before, after := Run(n, v, cs), Run(n, v, cs + [Push]);
            var k := after.tables.ctrl;
            && k.numTasks == LastNumTasks(cs, v.mirror.numTasks)
            && k.orderSize == LastOrderSize(cs, v.mirror.orderSize)
            && k.lambda == LastLambda(cs, v.mirror.lambda)
            && (k.flags % 2 == 1 <==> LastTimerOff(cs, v.mirror.flags % 2 == 1))
            && |k.rows| == n && (forall i :: 0 <= i < n ==> k.rows[i] == LastRow(cs, i, v.mirror.rows[i]))
            && k.generation == before.generation + 1
            && after.tables == before.tables.(ctrl := k)
  {
    MirrorHoldsLast(n, v, cs);
    assert (cs + [Push])[..|cs|] == cs;
  }

  lemma {:induction false} ValueBound(bs: seq<Byte>)
    ensures Value(bs) < Bound(|bs|)
  {
    if bs != [] { ValueBound(bs[1..]); }
  }

  /** Body first, generation word last: together they are one write of the whole control block. */
  lemma PushWrites(a: seq<Byte>, n: nat, m: seq<Byte>)
    requires |a| == ARENA_BYTES && n <= MAX_TASKS_LIMIT && |m| == CtrlBytes(n)
    ensures Patch(Patch(a, CTRL_OFF + 4, m[4..]), CTRL_OFF, m[..4]) == Patch(a, CTRL_OFF, m)
  {
  }

  /** Between the two writes a kernel still reads the old generation, and already every other field. */
  lemma TornPush(a: seq<Byte>, n: nat, m: seq<Byte>)
    requires |a| == ARENA_BYTES && n <= MAX_TASKS_LIMIT && |m| == CtrlBytes(n)
    ensures Read(Patch(a, CTRL_OFF + 4, m[4..]), n).ctrl
            == Decode(m, n).(generation := Read(a, n).ctrl.generation)
  {
    hide Decode, Value;
    var w := At(a, CTRL_OFF, CtrlBytes(n));
    var t := At(Patch(a, CTRL_OFF + 4, m[4..]), CTRL_OFF, CtrlBytes(n));
    assert t == Patch(m, 0, w[..4]);
    SameButGeneration(m, n, w);
  }

  lemma SameButGeneration(m: seq<Byte>, n: nat, w: seq<Byte>)
    requires |m| == |w| == CtrlBytes(n)
    ensures Decode(Patch(m, 0, w[..4]), n) == Decode(m, n).(generation := Decode(w, n).generation)
  {
    hide Value;
    var d := w[..4];
    assert At(Patch(m, 0, d), 0, 4) == At(w, 0, 4);
    RowsKept(m, n, 0, d);
    PatchApart(m, 0, d, LAMBDA_OFF, 16);
    WordApart(m, 0, d, NUM_TASKS_OFF, 4);
    WordApart(m, 0, d, FLAGS_OFF, 4);
    WordApart(m, 0, d, ORDER_SIZE_OFF, 4);
  }

  // ------------------------------------------------------------------
  // The plane itself.
  // ------------------------------------------------------------------

  class Plane {
    const n: nat
    const mirror: array<Byte>
    const arena: array<Byte>
    var generation: nat

    ghost predicate Valid() {
      n <= MAX_TASKS_LIMIT && mirror.Length == CtrlBytes(n) && arena.Length == ARENA_BYTES && mirror != arena
    }

    ghost function Now(): (v: View)
      requires Valid()
      reads this, mirror, arena
      ensures |v.mirror.rows| == n
    {
      View(Decode(mirror[..], n), Read(arena[..], n), generation)
    }

    constructor (n: nat)
      requires n <= MAX_TASKS_LIMIT
      ensures Valid() && this.n == n && fresh(mirror) && fresh(arena)
      ensures mirror[..] == Zeros(CtrlBytes(n)) && arena[..] == Zeros(ARENA_BYTES) && generation == 0
    {
      this.n := n;
      mirror := new Byte[CtrlBytes(n)](_ => 0);
      arena := new Byte[ARENA_BYTES](_ => 0);
      generation := 0;
    }

    method PutWord(off: nat, v: int) returns (ok: bool)
      requires Valid() && (off == NUM_TASKS_OFF || off == FLAGS_OFF || off == ORDER_SIZE_OFF)
      modifies mirror
      ensures ok <==> Fits(v)
      ensures mirror[..] == if ok then Patch(old(mirror[..]), off, Encode(v, 4)) else old(mirror[..])
    {
      ok := Fits(v);
      if ok {
        Poke(mirror, off, Encode(v, 4));
      }
    }

    method SetNumTasks(v: int) returns (ok: bool)
      requires Valid()
      modifies mirror
      ensures (ok <==> 0 <= v < 0x1_0000_0000) && Now() == Do(n, old(Now()), PutNumTasks(v))
    {
      hide Decode, Read;
      ok := PutWord(NUM_TASKS_OFF, v);
      if ok { HeaderWord(old(mirror[..]), n, NUM_TASKS_OFF, v); }
    }

    method SetOrderSize(v: int) returns (ok: bool)
      requires Valid()
      modifies mirror
      ensures (ok <==> 0 <= v < 0x1_0000_0000) && Now() == Do(n, old(Now()), PutOrderSize(v))
    {
      hide Decode, Read;
      ok := PutWord(ORDER_SIZE_OFF, v);
      if ok { HeaderWord(old(mirror[..]), n, ORDER_SIZE_OFF, v); }
    }

    method SetLambda(d: seq<Byte>)
      requires Valid() && |d| == 16
      modifies mirror
      ensures Now() == Do(n, old(Now()), PutLambda(d))
    {
      hide Decode, Read;
      HeaderLambda(mirror[..], n, d);
      Poke(mirror, LAMBDA_OFF, d);
    }

    method SetTimerEnabled(on: bool)
      requires Valid()
      modifies mirror
      ensures Now() == Do(n, old(Now()), EnableTimer(on))
    {
      var flags := Word(mirror[..], FLAGS_OFF, 4);
      ValueBound(At(mirror[..], FLAGS_OFF, 4));
      U32Bound();
      var ok := PutWord(FLAGS_OFF, WithTimer(flags, on));
      HeaderWord(old(mirror[..]), n, FLAGS_OFF, WithTimer(flags, on));
    }

    /** As struct.pack_into places it: a negative index is accepted and may land in the header. */
    method SetRow(i: int, q: Packed, tau: int, hint: int) returns (ok: bool)
      requires Valid()
      modifies mirror
      ensures ok <==> RowOffset(n, i).Some?
      ensures mirror[..] == if ok then Patch(old(mirror[..]), RowOffset(n, i).value, RowBytes(q, tau, hint))
                            else old(mirror[..])
      ensures i >= 0 ==> Now() == Do(n, old(Now()), PutRow(i, q, tau, hint))
    {
      hide Decode, Read;
      var off := RowOffset(n, i);
      ok := off.Some?;
      if ok {
        Poke(mirror, off.value, RowBytes(q, tau, hint));
        if 0 <= i < n { RowWrite(old(mirror[..]), n, i, q, tau, hint); }
      }
    }

    /** Publishes the mirror; fails for good once the generation no longer fits its word. */
    method PushCtrl() returns (ok: bool)
      requires Valid()
      modifies this`generation, mirror, arena
      ensures ok <==> old(generation) + 1 < U32
      ensures Now() == Do(n, old(Now()), Push)
    {
      hide Decode, Read;
      generation := generation + 1;
      if generation >= U32 {
        return false;
      }
      HeaderWord(mirror[..], n, 0, generation);
      Poke(mirror, 0, Encode(generation, 4));
      PushWrites(arena[..], n, mirror[..]);
      CtrlWrite(arena[..], n, mirror[..]);
      Poke(arena, CTRL_OFF + 4, mirror[4..]);
      Poke(arena, CTRL_OFF, mirror[..4]);
      ok := true;
    }

    /** At most n entries land; the host channel of the order table. */
    method SetOrder(tasks: seq<nat>)
      requires Valid()
      modifies arena
      ensures Now() == Do(n, old(Now()), PutOrder(tasks))
    {
      hide Decode, OrderBytes, Word;
      var m := if |tasks| <= n then |tasks| else n;
      OrderWrite(arena[..], n, tasks[..m]);
      Poke(arena, ORDER_OFF, OrderBytes(tasks[..m]));
      assert OrderAfter(Read(old(arena[..]), n).order, tasks[..m])
             == OrderAfter(Read(old(arena[..]), n).order, tasks);
    }

    method ClearTimerRows()
      requires Valid()
      modifies arena
      ensures Now() == Do(n, old(Now()), ClearTimer)
    {
      hide Decode, Read;
      TimerWrite(arena[..], n);
      Poke(arena, TIMER_OFF, Zeros(8 * n));
    }

    method ResetQueue(workers: int) returns (ok: bool)
      requires Valid()
      modifies arena
      ensures (ok <==> -0x8000_0000 <= workers < 0x8000_0000) && Now() == Do(n, old(Now()), PutQueue(workers))
      ensures ok ==> Now().tables.queue == if workers >= 0 then workers else workers + 0x1_0000_0000
    {
      hide Decode, Read;
      ok := SignedFits(workers);
      if ok {
        QueueWrite(arena[..], n, workers % U32);
        Poke(arena, QUEUE_OFF, Encode(workers % U32, 4));
      }
    }
  }
}
