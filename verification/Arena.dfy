/**
 The byte layout the host and the kernel share: what a kernel reads at its fixed offsets after
 any sequence of setter calls and pushes.
 */
module Arena {
  import opened Prelude
  import opened Bytes
  import Remap

  const ORDER_OFF: nat := 0x00000
  const CTRL_OFF: nat := 0x40000
  const TIMER_OFF: nat := 0x80000
  const QUEUE_OFF: nat := 0xC0000
  const ARENA_BYTES: nat := 0x100000
  const MAX_TASKS_LIMIT: nat := 16384

  const NUM_TASKS_OFF: nat := 4
  const LAMBDA_OFF: nat := 8
  const FLAGS_OFF: nat := 24
  const ORDER_SIZE_OFF: nat := 28
  const ROWS_OFF: nat := 32
  const ROW_SIZE: nat := 8
  const ROW_TAU_OFF: nat := 4
  const ROW_HINT_OFF: nat := 6

  /** A packed float is an opaque 4-byte value. */
  type Packed = bs: seq<Byte> | |bs| == 4 witness [0, 0, 0, 0]

  /** A policy row as the kernel reads it. */
  datatype Row = Row(q: seq<Byte>, tau: nat, hint: nat)

  datatype Ctrl = Ctrl(generation: nat, numTasks: nat, lambda: seq<Byte>, flags: nat, orderSize: nat, rows: seq<Row>)

  function CtrlBytes(n: nat): nat {
    ROWS_OFF + ROW_SIZE * n
  }

  function Word(s: seq<Byte>, off: nat, k: nat): nat
    requires off + k <= |s|
  {
    Value(At(s, off, k))
  }

  function DecodeRow(s: seq<Byte>, n: nat, i: nat): Row
    requires |s| == CtrlBytes(n) && i < n
  {
    var off := ROWS_OFF + ROW_SIZE * i;
    Row(At(s, off, 4), Word(s, off + ROW_TAU_OFF, 2), Word(s, off + ROW_HINT_OFF, 1))
  }

  /** The control block as the kernel reads it. */
  function Decode(s: seq<Byte>, n: nat): Ctrl
    requires |s| == CtrlBytes(n)
  {
    Ctrl(Word(s, 0, 4), Word(s, NUM_TASKS_OFF, 4), At(s, LAMBDA_OFF, 16), Word(s, FLAGS_OFF, 4),
         Word(s, ORDER_SIZE_OFF, 4), seq(n, i requires 0 <= i < n => DecodeRow(s, n, i)))
  }

  /** Order entries, timer rows and the ticket counter, read out of the arena. */
  datatype Tables = Tables(order: seq<nat>, ctrl: Ctrl, timer: seq<nat>, queue: nat)

  function ReadOrder(a: seq<Byte>, n: nat): (o: seq<nat>)
    requires |a| == ARENA_BYTES && n <= MAX_TASKS_LIMIT
    ensures |o| == n && forall i :: 0 <= i < n ==> o[i] == Word(a, ORDER_OFF + 4 * i, 4)
  {
    seq(n, i requires 0 <= i < n => Word(a, ORDER_OFF + 4 * i, 4))
  }

  function ReadTimer(a: seq<Byte>, n: nat): (t: seq<nat>)
    requires |a| == ARENA_BYTES && n <= MAX_TASKS_LIMIT
    ensures |t| == n && forall i :: 0 <= i < n ==> t[i] == Word(a, TIMER_OFF + 8 * i, 8)
  {
    seq(n, i requires 0 <= i < n => Word(a, TIMER_OFF + 8 * i, 8))
  }

  function Read(a: seq<Byte>, n: nat): Tables
    requires |a| == ARENA_BYTES && n <= MAX_TASKS_LIMIT
  {
    Tables(ReadOrder(a, n), Decode(At(a, CTRL_OFF, CtrlBytes(n)), n), ReadTimer(a, n), Word(a, QUEUE_OFF, 4))
  }

  /** The fixed offsets the kernel is compiled with, written out. */
  lemma KernelOffsets(a: seq<Byte>, n: nat, i: nat)
    requires |a| == 0x10_0000 && i < n <= 16384
    ensures var v, c := Read(a, n), a[0x4_0000..];
            && v.order[i] == Value(a[4 * i..4 * i + 4])
            && v.timer[i] == Value(a[0x8_0000 + 8 * i..0x8_0000 + 8 * i + 8])
            && v.queue == Value(a[0xC_0000..0xC_0004])
            && v.ctrl.generation == Value(c[0..4]) && v.ctrl.numTasks == Value(c[4..8])
            && v.ctrl.lambda == c[8..24] && v.ctrl.flags == Value(c[24..28]) && v.ctrl.orderSize == Value(c[28..32])
            && v.ctrl.rows[i].q == c[32 + 8 * i..36 + 8 * i]
            && v.ctrl.rows[i].tau == Value(c[36 + 8 * i..38 + 8 * i])
            && v.ctrl.rows[i].hint == Value(c[38 + 8 * i..39 + 8 * i])
  {
    hide Value;
    CtrlSlice(a, n, 0, 4);
    CtrlSlice(a, n, NUM_TASKS_OFF, 4);
    CtrlSlice(a, n, LAMBDA_OFF, 16);
    CtrlSlice(a, n, FLAGS_OFF, 4);
    CtrlSlice(a, n, ORDER_SIZE_OFF, 4);
    CtrlSlice(a, n, ROWS_OFF + ROW_SIZE * i, 4);
    CtrlSlice(a, n, ROWS_OFF + ROW_SIZE * i + ROW_TAU_OFF, 2);
    CtrlSlice(a, n, ROWS_OFF + ROW_SIZE * i + ROW_HINT_OFF, 1);
  }

  lemma CtrlSlice(a: seq<Byte>, n: nat, off: nat, k: nat)
    requires |a| == ARENA_BYTES && n <= MAX_TASKS_LIMIT && off + k <= CtrlBytes(n)
    ensures At(At(a, CTRL_OFF, CtrlBytes(n)), off, k) == a[0x4_0000..][off..off + k]
  {
  }

  /** The four windows fit beside each other exactly up to this capacity. */
  lemma WindowsApartIff(n: nat)
    ensures (ORDER_OFF + 4 * n <= CTRL_OFF && CTRL_OFF + CtrlBytes(n) <= TIMER_OFF
             && TIMER_OFF + 8 * n <= QUEUE_OFF && QUEUE_OFF + 4 <= ARENA_BYTES)
            <==> n <= 32764
  {
  }

  // ------------------------------------------------------------------
  // Header words.
  // ------------------------------------------------------------------

  lemma RowsKept(s: seq<Byte>, n: nat, off: nat, d: seq<Byte>)
    requires |s| == CtrlBytes(n) && off + |d| <= ROWS_OFF
    ensures Decode(Patch(s, off, d), n).rows == Decode(s, n).rows
  {
    var t := Patch(s, off, d);
    forall i | 0 <= i < n ensures DecodeRow(t, n, i) == DecodeRow(s, n, i) {
      var o := ROWS_OFF + ROW_SIZE * i;
      PatchApart(s, off, d, o, 4);
      PatchApart(s, off, d, o + ROW_TAU_OFF, 2);
      PatchApart(s, off, d, o + ROW_HINT_OFF, 1);
    }
  }

  lemma WordApart(s: seq<Byte>, off: nat, d: seq<Byte>, o: nat, k: nat)
    requires off + |d| <= |s| && o + k <= |s| && (o + k <= off || off + |d| <= o)
    ensures Word(Patch(s, off, d), o, k) == Word(s, o, k)
  {
    PatchApart(s, off, d, o, k);
  }

  lemma U32Bound()
    ensures Bound(4) == U32 && Bound(2) == U16 && Bound(1) == 256 && Bound(8) == U64
  {
    assert Bound(3) == 256 * Bound(2);
    assert Bound(5) == 256 * Bound(4);
    assert Bound(6) == 256 * Bound(5);
    assert Bound(7) == 256 * Bound(6);
  }

  /** Writing one header word changes that field and no other, and no row. */
  lemma HeaderWord(s: seq<Byte>, n: nat, off: nat, v: nat)
    requires |s| == CtrlBytes(n) && v < U32
    requires off == 0 || off == NUM_TASKS_OFF || off == FLAGS_OFF || off == ORDER_SIZE_OFF
    ensures var c, c' := Decode(s, n), Decode(Patch(s, off, Encode(v, 4)), n);
            c' == if off == 0 then c.(generation := v)
                  else if off == NUM_TASKS_OFF then c.(numTasks := v)
                  else if off == FLAGS_OFF then c.(flags := v)
                  else c.(orderSize := v)
  {
    var d := Encode(v, 4);
    U32Bound();
    WordAt(s, off, v, 4);
    RowsKept(s, n, off, d);
    PatchApart(s, off, d, LAMBDA_OFF, 16);
    if off != 0 { WordApart(s, off, d, 0, 4); }
    if off != NUM_TASKS_OFF { WordApart(s, off, d, NUM_TASKS_OFF, 4); }
    if off != FLAGS_OFF { WordApart(s, off, d, FLAGS_OFF, 4); }
    if off != ORDER_SIZE_OFF { WordApart(s, off, d, ORDER_SIZE_OFF, 4); }
  }

  lemma HeaderLambda(s: seq<Byte>, n: nat, d: seq<Byte>)
    requires |s| == CtrlBytes(n) && |d| == 16
    ensures Decode(Patch(s, LAMBDA_OFF, d), n) == Decode(s, n).(lambda := d)
  {
    PatchAt(s, LAMBDA_OFF, d);
    RowsKept(s, n, LAMBDA_OFF, d);
    WordApart(s, LAMBDA_OFF, d, 0, 4);
    WordApart(s, LAMBDA_OFF, d, NUM_TASKS_OFF, 4);
    WordApart(s, LAMBDA_OFF, d, FLAGS_OFF, 4);
    WordApart(s, LAMBDA_OFF, d, ORDER_SIZE_OFF, 4);
  }

  // ------------------------------------------------------------------
  // Rows.
  // ------------------------------------------------------------------

  /** The seven bytes of a row; the eighth is padding and is left as it is. */
  function RowBytes(q: Packed, tau: int, hint: int): (d: seq<Byte>)
    ensures |d| == 7
  {
    q + Encode(tau % U16, 2) + Encode(hint % 256, 1)
  }

  lemma RowReads(s: seq<Byte>, n: nat, i: nat, q: Packed, tau: int, hint: int)
    requires |s| == CtrlBytes(n) && i < n
    ensures DecodeRow(Patch(s, ROWS_OFF + ROW_SIZE * i, RowBytes(q, tau, hint)), n, i)
            == Row(q, tau % U16, hint % 256)
  {
    var d := RowBytes(q, tau, hint);
    var off := ROWS_OFF + ROW_SIZE * i;
    var t := Patch(s, off, d);
    U32Bound();
    RoundTrip(tau % U16, 2);
    RoundTrip(hint % 256, 1);
    assert At(t, off, 4) == q;
    assert At(t, off + ROW_TAU_OFF, 2) == Encode(tau % U16, 2);
    assert At(t, off + ROW_HINT_OFF, 1) == Encode(hint % 256, 1);
  }

  lemma RowApart(s: seq<Byte>, n: nat, i: nat, j: nat, d: seq<Byte>)
    requires |s| == CtrlBytes(n) && i < n && j < n && i != j && |d| == 7
    ensures DecodeRow(Patch(s, ROWS_OFF + ROW_SIZE * i, d), n, j) == DecodeRow(s, n, j)
  {
    hide Patch, At, Value;
    var off, o := ROWS_OFF + ROW_SIZE * i, ROWS_OFF + ROW_SIZE * j;
    PatchApart(s, off, d, o, 4);
    PatchApart(s, off, d, o + ROW_TAU_OFF, 2);
    PatchApart(s, off, d, o + ROW_HINT_OFF, 1);
  }

  /** Writing a row changes that row and nothing else. */
  lemma RowWrite(s: seq<Byte>, n: nat, i: nat, q: Packed, tau: int, hint: int)
    requires |s| == CtrlBytes(n) && i < n
    ensures var c := Decode(s, n);
            Decode(Patch(s, ROWS_OFF + ROW_SIZE * i, RowBytes(q, tau, hint)), n)
            == c.(rows := c.rows[i := Row(q, tau % U16, hint % 256)])
  {
    hide Patch, DecodeRow, RowBytes, Word;
    var d := RowBytes(q, tau, hint);
    var off := ROWS_OFF + ROW_SIZE * i;
    RowReads(s, n, i, q, tau, hint);
    forall j | 0 <= j < n && j != i ensures DecodeRow(Patch(s, off, d), n, j) == DecodeRow(s, n, j) {
      RowApart(s, n, i, j, d);
    }
    PatchApart(s, off, d, LAMBDA_OFF, 16);
    WordApart(s, off, d, 0, 4);
    WordApart(s, off, d, NUM_TASKS_OFF, 4);
    WordApart(s, off, d, FLAGS_OFF, 4);
    WordApart(s, off, d, ORDER_SIZE_OFF, 4);
    assert Decode(Patch(s, off, d), n).rows == Decode(s, n).rows[i := Row(q, tau % U16, hint % 256)];
  }

  /** Where struct.pack_into puts row i: negative offsets count from the end, out of range is an error. */
  function RowOffset(n: nat, i: int): (off: Option<nat>)
    ensures off.Some? ==> off.value + 7 <= CtrlBytes(n)
    ensures 0 <= i < n ==> off == Some(ROWS_OFF + ROW_SIZE * i)
    ensures i >= n ==> off == None
  {
    var off := ROWS_OFF + ROW_SIZE * i;
    if off >= 0 then (if off + 7 <= CtrlBytes(n) then Some(off) else None)
    else if off + CtrlBytes(n) >= 0 then Some(off + CtrlBytes(n)) else None
  }

  /** Exactly which indices pack_into accepts, and where they land. */
  lemma RowOffsetIs(n: nat, i: int)
    ensures RowOffset(n, i).Some? <==> -8 - n <= i < n
    ensures -8 - n <= i < -4 ==> RowOffset(n, i) == Some(64 + 8 * n + 8 * i)
    ensures -4 <= i < n ==> RowOffset(n, i) == Some(32 + 8 * i)
  {
  }

  ghost predicate SameHeader(c: Ctrl, c': Ctrl) {
    c' == c.(rows := c'.rows)
  }

  lemma HeaderKept(s: seq<Byte>, n: nat, off: nat, d: seq<Byte>)
    requires |s| == CtrlBytes(n) && ROWS_OFF <= off && off + |d| <= |s|
    ensures SameHeader(Decode(s, n), Decode(Patch(s, off, d), n))
  {
    PatchApart(s, off, d, LAMBDA_OFF, 16);
    WordApart(s, off, d, 0, 4);
    WordApart(s, off, d, NUM_TASKS_OFF, 4);
    WordApart(s, off, d, FLAGS_OFF, 4);
    WordApart(s, off, d, ORDER_SIZE_OFF, 4);
  }

  function Zeros(k: nat): (s: seq<Byte>)
    ensures |s| == k && forall i :: 0 <= i < k ==> s[i] == 0
  {
    seq(k, _ => 0)
  }

  lemma HeaderHit(n: nat, off: nat)
    requires off in {0, 8, 16, 24} && off + 7 <= CtrlBytes(n)
    ensures var s := Zeros(CtrlBytes(n));
            !SameHeader(Decode(s, n), Decode(Patch(s, off, RowBytes([1, 0, 0, 0], 0, 0)), n))
  {
    var s := Zeros(CtrlBytes(n));
    var t := Patch(s, off, RowBytes([1, 0, 0, 0], 0, 0));
    if off == 0 || off == 24 {
      assert At(t, off, 4) == [1, 0, 0, 0] && At(s, off, 4) == [0, 0, 0, 0];
      assert Word(t, off, 4) == 1 && Word(s, off, 4) == 0;
    } else {
      assert At(t, LAMBDA_OFF, 16)[off - LAMBDA_OFF] == 1 && At(s, LAMBDA_OFF, 16)[off - LAMBDA_OFF] == 0;
    }
  }

  /** Whatever it writes, a row write at this offset leaves the header fields as they were. */
  ghost predicate HeaderSafe(n: nat, off: nat)
    requires off + 7 <= CtrlBytes(n)
  {
    forall s: seq<Byte>, q: Packed, tau: int, hint: int :: |s| == CtrlBytes(n) ==>
      SameHeader(Decode(s, n), Decode(Patch(s, off, RowBytes(q, tau, hint)), n))
  }

  lemma RowsAreSafe(n: nat, off: nat)
    requires ROWS_OFF <= off && off + 7 <= CtrlBytes(n)
    ensures HeaderSafe(n, off)
  {
    hide Decode, Patch, RowBytes, SameHeader;
    forall s: seq<Byte>, q: Packed, tau: int, hint: int | |s| == CtrlBytes(n)
      ensures SameHeader(Decode(s, n), Decode(Patch(s, off, RowBytes(q, tau, hint)), n))
    {
      HeaderKept(s, n, off, RowBytes(q, tau, hint));
    }
  }

  lemma HeaderIsNotSafe(n: nat, off: nat)
    requires off in {0, 8, 16, 24} && off + 7 <= CtrlBytes(n)
    ensures !HeaderSafe(n, off)
  {
    hide Decode, Patch, RowBytes, SameHeader;
    HeaderHit(n, off);
  }

  /**
   A row write that Python accepts leaves every header field alone, whatever it writes, exactly when
   it does not land in the header: row indices -1 to -4 do, and some far negative ones.
   */
  lemma RowKeepsHeaderIff(n: nat, i: int)
    requires RowOffset(n, i).Some?
    ensures HeaderSafe(n, RowOffset(n, i).value) <==> (i >= 0 || -4 - n <= i < -4)
  {
    hide HeaderSafe;
    var off := RowOffset(n, i).value;
    if off >= ROWS_OFF {
      RowsAreSafe(n, off);
    } else {
      HeaderIsNotSafe(n, off);
    }
  }

  // ------------------------------------------------------------------
  // Arena windows.
  // ------------------------------------------------------------------

  lemma OrderKept(a: seq<Byte>, n: nat, off: nat, d: seq<Byte>)
    requires |a| == ARENA_BYTES && n <= MAX_TASKS_LIMIT && CTRL_OFF <= off && off + |d| <= |a|
    ensures ReadOrder(Patch(a, off, d), n) == ReadOrder(a, n)
  {
    hide Patch, Word;
    forall i | 0 <= i < n ensures ReadOrder(Patch(a, off, d), n)[i] == ReadOrder(a, n)[i] {
      WordApart(a, off, d, ORDER_OFF + 4 * i, 4);
    }
  }

  lemma TimerKept(a: seq<Byte>, n: nat, off: nat, d: seq<Byte>)
    requires |a| == ARENA_BYTES && n <= MAX_TASKS_LIMIT && off + |d| <= |a|
    requires off + |d| <= TIMER_OFF || QUEUE_OFF <= off
    ensures ReadTimer(Patch(a, off, d), n) == ReadTimer(a, n)
  {
    hide Patch, Word;
    forall i | 0 <= i < n ensures ReadTimer(Patch(a, off, d), n)[i] == ReadTimer(a, n)[i] {
      WordApart(a, off, d, TIMER_OFF + 8 * i, 8);
    }
  }

  /** Writing the control window is invisible in the others. */
  lemma CtrlWrite(a: seq<Byte>, n: nat, m: seq<Byte>)
    requires |a| == ARENA_BYTES && n <= MAX_TASKS_LIMIT && |m| == CtrlBytes(n)
    ensures Read(Patch(a, CTRL_OFF, m), n) == Read(a, n).(ctrl := Decode(m, n))
  {
    hide Patch, Word, Decode, ReadOrder, ReadTimer;
    PatchAt(a, CTRL_OFF, m);
    OrderKept(a, n, CTRL_OFF, m);
    TimerKept(a, n, CTRL_OFF, m);
    WordApart(a, CTRL_OFF, m, QUEUE_OFF, 4);
  }

  function OrderBytes(tasks: seq<nat>): (d: seq<Byte>)
    ensures |d| == 4 * |tasks|
  {
    if tasks == [] then [] else OrderBytes(tasks[..|tasks| - 1]) + Encode(tasks[|tasks| - 1] % U32, 4)
  }

  lemma {:induction false} OrderEntry(tasks: seq<nat>, i: nat)
    requires i < |tasks|
    ensures At(OrderBytes(tasks), 4 * i, 4) == Encode(tasks[i] % U32, 4)
  {
    var n := |tasks| - 1;
    if i < n {
      OrderEntry(tasks[..n], i);
      assert At(OrderBytes(tasks), 4 * i, 4) == At(OrderBytes(tasks[..n]), 4 * i, 4);
    }
  }

  function OrderAfter(order: seq<nat>, tasks: seq<nat>): (o: seq<nat>)
    ensures |o| == |order|
    ensures forall i :: 0 <= i < |order| ==> o[i] == if i < |tasks| then tasks[i] % U32 else order[i]
  {
    seq(|order|, i requires 0 <= i < |order| => if i < |tasks| then tasks[i] % U32 else order[i])
  }

  lemma OrderRead(a: seq<Byte>, tasks: seq<nat>, i: nat)
    requires |a| == ARENA_BYTES && |tasks| <= MAX_TASKS_LIMIT && i < MAX_TASKS_LIMIT
    ensures Word(Patch(a, ORDER_OFF, OrderBytes(tasks)), ORDER_OFF + 4 * i, 4)
            == if i < |tasks| then tasks[i] % U32 else Word(a, ORDER_OFF + 4 * i, 4)
  {
    hide OrderBytes, Encode, Value, Bound, Patch, At;
    var d := OrderBytes(tasks);
    if i < |tasks| {
      OrderEntry(tasks, i);
      assert At(Patch(a, ORDER_OFF, d), ORDER_OFF + 4 * i, 4) == At(d, 4 * i, 4);
      U32Bound();
      RoundTrip(tasks[i] % U32, 4);
    } else {
      WordApart(a, ORDER_OFF, d, ORDER_OFF + 4 * i, 4);
    }
  }

  /** An order write covers a prefix of the table; the rest of the arena stays. */
  lemma OrderWrite(a: seq<Byte>, n: nat, tasks: seq<nat>)
    requires |a| == ARENA_BYTES && |tasks| <= n <= MAX_TASKS_LIMIT
    ensures Read(Patch(a, ORDER_OFF, OrderBytes(tasks)), n)
            == Read(a, n).(order := OrderAfter(Read(a, n).order, tasks))
  {
    hide OrderBytes, Word, Patch, Decode, ReadTimer;
    var d := OrderBytes(tasks);
    var order := ReadOrder(Patch(a, ORDER_OFF, d), n);
    forall i | 0 <= i < n ensures order[i] == OrderAfter(ReadOrder(a, n), tasks)[i] {
      OrderRead(a, tasks, i);
    }
    assert order == OrderAfter(ReadOrder(a, n), tasks);
    TimerKept(a, n, ORDER_OFF, d);
    PatchApart(a, ORDER_OFF, d, CTRL_OFF, CtrlBytes(n));
    WordApart(a, ORDER_OFF, d, QUEUE_OFF, 4);
  }

  lemma {:induction false} ZeroValue(k: nat)
    ensures Value(Zeros(k)) == 0
  {
    if k > 0 {
      ZeroValue(k - 1);
      assert Zeros(k)[1..] == Zeros(k - 1);
    }
  }

  lemma TimerWrite(a: seq<Byte>, n: nat)
    requires |a| == ARENA_BYTES && n <= MAX_TASKS_LIMIT
    ensures Read(Patch(a, TIMER_OFF, Zeros(8 * n)), n) == Read(a, n).(timer := seq(n, _ => 0))
  {
    hide Decode, ReadOrder, Value;
    var d := Zeros(8 * n);
    var t := Patch(a, TIMER_OFF, d);
    forall i | 0 <= i < n ensures Word(t, TIMER_OFF + 8 * i, 8) == 0 {
      assert At(t, TIMER_OFF + 8 * i, 8) == Zeros(8);
      ZeroValue(8);
    }
    assert ReadTimer(t, n) == seq(n, _ => 0);
    OrderKept(a, n, TIMER_OFF, d);
    PatchApart(a, TIMER_OFF, d, CTRL_OFF, CtrlBytes(n));
    WordApart(a, TIMER_OFF, d, QUEUE_OFF, 4);
  }

  lemma QueueWrite(a: seq<Byte>, n: nat, v: nat)
    requires |a| == ARENA_BYTES && n <= MAX_TASKS_LIMIT && v < U32
    ensures Read(Patch(a, QUEUE_OFF, Encode(v, 4)), n) == Read(a, n).(queue := v)
  {
    hide Patch, Decode, ReadOrder, ReadTimer, Encode, Value;
    var d := Encode(v, 4);
    U32Bound();
    WordAt(a, QUEUE_OFF, v, 4);
    OrderKept(a, n, QUEUE_OFF, d);
    TimerKept(a, n, QUEUE_OFF, d);
    PatchApart(a, QUEUE_OFF, d, CTRL_OFF, CtrlBytes(n));
  }
}
