/** Loading a buffer in one call or in stages (src/embed.rs): what each call does
    to the staged loads and to the installed pool, as functions on values. */
module StagedLoad {
  import opened Wrappers

  /** A buffer's samples and shape; `written` is how far it says it was written. */
  datatype Contents = Contents(cells: seq<real>, channels: nat, frames: nat, rate: real, written: nat)

  datatype Load = Load(ticket: nat, index: nat, buffer: Contents)

  datatype Host = Host(staged: seq<Load>, nextLoad: nat, pool: seq<Option<Contents>>)

  datatype Error = NotWhole | NoChannel | NoSuchLoad | PastTheEnd | OutOfRange | FifoFull

  function Zeros(n: nat): seq<real> { seq(n, _ => 0.0) }

  /** The place of a ticket among the staged loads, or their number. */
  function Find(staged: seq<Load>, ticket: nat, i: nat): (k: nat)
    requires i <= |staged|
    ensures i <= k <= |staged|
    ensures forall j :: i <= j < k ==> staged[j].ticket != ticket
    ensures k < |staged| ==> staged[k].ticket == ticket
    decreases |staged| - i
  {
    if i == |staged| || staged[i].ticket == ticket then i else Find(staged, ticket, i + 1)
  }

  /** Installs a buffer; `room` is whether the engine's command queue takes it. */
  function Install(h: Host, index: nat, buffer: Contents, room: bool): (Host, Result<(), Error>) {
    if index >= |h.pool| then (h, Err(OutOfRange))
    else (h.(pool := h.pool[index := Some(buffer)]), if room then Ok(()) else Err(FifoFull))
  }

  function LoadWhole(h: Host, index: nat, channels: nat, rate: real, data: seq<real>, room: bool): (Host, Result<(), Error>) {
    if channels == 0 || |data| % channels != 0 then (h, Err(NotWhole))
    else Install(h, index, Contents(data, channels, |data| / channels, rate, 0), room)
  }

  function Begin(h: Host, index: nat, channels: nat, rate: real, frames: nat): (Host, Result<nat, Error>) {
    if channels == 0 then (h, Err(NoChannel))
    else
      var ticket := h.nextLoad + 1;
      var buffer := Contents(Zeros(frames * channels), channels, frames, rate, 0);
      (h.(nextLoad := ticket, staged := h.staged + [Load(ticket, index, buffer)]), Ok(ticket))
  }

  /** `cells` with `data` written from `at` on. */
  function Written(cells: seq<real>, at: nat, data: seq<real>): seq<real>
    requires at + |data| <= |cells|
  {
    cells[..at] + data + cells[at + |data|..]
  }

  function Chunk(h: Host, ticket: nat, at: nat, data: seq<real>): (Host, Result<(), Error>) {
    var i := Find(h.staged, ticket, 0);
    if i == |h.staged| then (h, Err(NoSuchLoad))
    else
      var load := h.staged[i];
      if at + |data| > |load.buffer.cells| then (h, Err(PastTheEnd))
      else
        var buffer := load.buffer.(cells := Written(load.buffer.cells, at, data));
        (h.(staged := h.staged[i := load.(buffer := buffer)]), Ok(()))
  }

  function Raise(b: Contents): Contents { b.(written := if b.written < b.frames then b.frames else b.written) }

  function End(h: Host, ticket: nat, room: bool): (Host, Result<(), Error>) {
    var i := Find(h.staged, ticket, 0);
    if i == |h.staged| then (h, Err(NoSuchLoad))
    else
      var load := h.staged[i];
      Install(h.(staged := h.staged[..i] + h.staged[i + 1..]), load.index, Raise(load.buffer), room)
  }

  function Without(staged: seq<Load>, ticket: nat): seq<Load>
    decreases |staged|
  {
    if staged == [] then []
    else (if staged[0].ticket == ticket then [] else [staged[0]]) + Without(staged[1..], ticket)
  }

  function Cancel(h: Host, ticket: nat): Host { h.(staged := Without(h.staged, ticket)) }

  // ---- runs ----

  datatype Op =
    | OpLoad(index: nat, channels: nat, rate: real, data: seq<real>, room: bool)
    | OpBegin(index: nat, channels: nat, rate: real, frames: nat)
    | OpChunk(ticket: nat, at: nat, data: seq<real>)
    | OpEnd(ticket: nat, room: bool)
    | OpCancel(ticket: nat)

  function Do(h: Host, op: Op): Host {
    match op
    case OpLoad(index, channels, rate, data, room) => LoadWhole(h, index, channels, rate, data, room).0
    case OpBegin(index, channels, rate, frames) => Begin(h, index, channels, rate, frames).0
    case OpChunk(ticket, at, data) => Chunk(h, ticket, at, data).0
    case OpEnd(ticket, room) => End(h, ticket, room).0
    case OpCancel(ticket) => Cancel(h, ticket)
  }

  function Run(h: Host, ops: seq<Op>): Host
    decreases |ops|
  {
    if ops == [] then h else Run(Do(h, ops[0]), ops[1..])
  }

  /** Tickets in flight are distinct and were all handed out. */
  ghost predicate Tickets(h: Host) {
    && (forall i :: 0 <= i < |h.staged| ==> 1 <= h.staged[i].ticket <= h.nextLoad)
    && (forall i, j :: 0 <= i < j < |h.staged| ==> h.staged[i].ticket != h.staged[j].ticket)
  }

  /** What a ticket stands for, if it is in flight. */
  function Lookup(h: Host, ticket: nat): Option<Load> {
    var i := Find(h.staged, ticket, 0);
    if i == |h.staged| then None else Some(h.staged[i])
  }

  lemma {:induction false} WithoutIs(staged: seq<Load>, ticket: nat)
    requires forall i, j :: 0 <= i < j < |staged| ==> staged[i].ticket != staged[j].ticket
    ensures var i := Find(staged, ticket, 0);
            Without(staged, ticket) == if i == |staged| then staged else staged[..i] + staged[i + 1..]
    decreases |staged|
  {
    if staged != [] {
      WithoutIs(staged[1..], ticket);
      FindShift(staged, ticket, 1);
      if staged[0].ticket == ticket {
        assert Find(staged[1..], ticket, 0) == |staged[1..]| by {
          assert forall j :: 0 <= j < |staged[1..]| ==> staged[1..][j].ticket != ticket;
        }
      }
    }
  }

  lemma {:induction false} FindShift(staged: seq<Load>, ticket: nat, i: nat)
    requires 1 <= i <= |staged|
    ensures Find(staged, ticket, i) == 1 + Find(staged[1..], ticket, i - 1)
    decreases |staged| - i
  {
    if i < |staged| { FindShift(staged, ticket, i + 1); }
  }

  /** Dropping the load in place `i` leaves every other ticket what it was. */
  lemma DropKeeps(h: Host, i: nat)
    requires Tickets(h) && i < |h.staged|
    ensures var h' := h.(staged := h.staged[..i] + h.staged[i + 1..]);
            && Tickets(h')
            && (forall t: nat :: Lookup(h', t) == if t == h.staged[i].ticket then None else Lookup(h, t))
  {
    var h' := h.(staged := h.staged[..i] + h.staged[i + 1..]);
    forall t: nat ensures Lookup(h', t) == if t == h.staged[i].ticket then None else Lookup(h, t) {
      var j, j' := Find(h.staged, t, 0), Find(h'.staged, t, 0);
      if j < |h.staged| && j != i {
        var k := if j < i then j else j - 1;
        assert h'.staged[k] == h.staged[j];
      }
      if j' < |h'.staged| {
        var k := if j' < i then j' else j' + 1;
        assert h.staged[k] == h'.staged[j'];
      }
    }
  }

  /** The ticket an operation names, if it names one. */
  predicate Names(op: Op, ticket: nat) {
    (op.OpChunk? && op.ticket == ticket) || (op.OpEnd? && op.ticket == ticket) || (op.OpCancel? && op.ticket == ticket)
  }

  /** What one operation does to one ticket in flight. */
  function Effect(load: Load, op: Op): Option<Load> {
    if !Names(op, load.ticket) then Some(load)
    else if op.OpChunk? then
      if op.at + |op.data| > |load.buffer.cells| then Some(load)
      else Some(load.(buffer := load.buffer.(cells := Written(load.buffer.cells, op.at, op.data))))
    else None
  }

  /** What every operation keeps. */
  ghost predicate Kept(h: Host, h': Host, op: Op) {
    && Tickets(h')
    && h.nextLoad <= h'.nextLoad <= h.nextLoad + 1
    && |h'.pool| == |h.pool|
    && (h'.pool != h.pool ==> op.OpLoad? || (op.OpEnd? && Lookup(h, op.ticket).Some?))
    && (forall t: nat :: t <= h.nextLoad ==>
         Lookup(h', t) == if Lookup(h, t).None? then None else Effect(Lookup(h, t).value, op))
  }

  /** Every operation keeps tickets apart, hands out only new ones, leaves every
      load it does not name as it was, and changes the pool only when it is a
      whole load or ends a load in flight. */
  lemma DoKeeps(h: Host, op: Op)
    requires Tickets(h)
    ensures Kept(h, Do(h, op), op)
  {
    match op
    case OpLoad(_, _, _, _, _) => LoadKeeps(h, op);
    case OpBegin(index, channels, rate, frames) => BeginKeeps(h, index, channels, rate, frames);
    case OpChunk(ticket, at, data) => ChunkKeeps(h, ticket, at, data);
    case OpEnd(_, _) => EndKeeps(h, op);
    case OpCancel(_) => CancelKeeps(h, op);
  }

  lemma LoadKeeps(h: Host, op: Op)
    requires Tickets(h) && op.OpLoad?
    ensures Kept(h, Do(h, op), op)
  {
    hide Tickets, Lookup;
    SameStaged(h, Do(h, op));
  }

  lemma EndKeeps(h: Host, op: Op)
    requires Tickets(h) && op.OpEnd?
    ensures Kept(h, Do(h, op), op)
  {
    var i := Find(h.staged, op.ticket, 0);
    if i < |h.staged| {
      DropKeeps(h, i);
      Others(h, op);
      hide Tickets, Lookup, Effect;
      SameStaged(h.(staged := h.staged[..i] + h.staged[i + 1..]), Do(h, op));
    } else {
      Others(h, op);
    }
  }

  lemma CancelKeeps(h: Host, op: Op)
    requires Tickets(h) && op.OpCancel?
    ensures Kept(h, Do(h, op), op)
  {
    WithoutIs(h.staged, op.ticket);
    Others(h, op);
    var i := Find(h.staged, op.ticket, 0);
    if i < |h.staged| {
      DropKeeps(h, i);
      hide Tickets, Lookup, Effect;
    }
  }

  /** An end or a cancel takes its own ticket out of flight and no other. */
  lemma Others(h: Host, op: Op)
    requires op.OpEnd? || op.OpCancel?
    ensures forall t: nat :: Lookup(h, t).Some? ==>
              Effect(Lookup(h, t).value, op) == if t == op.ticket then None else Lookup(h, t)
    ensures Lookup(h, op.ticket).Some? <==> Find(h.staged, op.ticket, 0) < |h.staged|
    ensures Find(h.staged, op.ticket, 0) < |h.staged| ==> h.staged[Find(h.staged, op.ticket, 0)].ticket == op.ticket
  {
  }

  lemma SameStaged(h: Host, h': Host)
    requires h'.staged == h.staged && h'.nextLoad == h.nextLoad
    ensures Tickets(h) ==> Tickets(h')
    ensures forall t: nat :: Lookup(h', t) == Lookup(h, t)
  {
  }

  lemma BeginKeeps(h: Host, index: nat, channels: nat, rate: real, frames: nat)
    requires Tickets(h)
    ensures var (h', r) := Begin(h, index, channels, rate, frames);
            && Tickets(h') && h'.pool == h.pool
            && (forall t: nat :: t <= h.nextLoad ==> Lookup(h', t) == Lookup(h, t))
            && (r.Ok? ==> r.value == h'.nextLoad == h.nextLoad + 1
                          && Lookup(h', r.value) ==
                             Some(Load(r.value, index, Contents(Zeros(frames * channels), channels, frames, rate, 0))))
  {
    var (h', r) := Begin(h, index, channels, rate, frames);
    forall t: nat | t <= h.nextLoad ensures Lookup(h', t) == Lookup(h, t) {
      var j, j' := Find(h.staged, t, 0), Find(h'.staged, t, 0);
      if j < |h.staged| { assert h'.staged[j] == h.staged[j]; }
      if j' < |h.staged| { assert h.staged[j'] == h'.staged[j']; }
    }
    if r.Ok? {
      forall j | 0 <= j < |h.staged| ensures h'.staged[j].ticket != r.value {
        assert h'.staged[j] == h.staged[j];
      }
      assert h'.staged[|h.staged|].ticket == r.value;
    }
  }

  lemma ChunkKeeps(h: Host, ticket: nat, at: nat, data: seq<real>)
    requires Tickets(h)
    ensures var h' := Chunk(h, ticket, at, data).0;
            && Tickets(h')
            && (forall t: nat :: Lookup(h', t) ==
                 if Lookup(h, t).None? then None else Effect(Lookup(h, t).value, OpChunk(ticket, at, data)))
  {
    var h' := Chunk(h, ticket, at, data).0;
    forall t: nat
      ensures Lookup(h', t) == if Lookup(h, t).None? then None else Effect(Lookup(h, t).value, OpChunk(ticket, at, data))
    {
      var j, j' := Find(h.staged, t, 0), Find(h'.staged, t, 0);
      if j < |h.staged| { assert h'.staged[j].ticket == h.staged[j].ticket; }
      if j' < |h'.staged| { assert h.staged[j'].ticket == h'.staged[j'].ticket; }
    }
  }

  /** In any run, tickets stay distinct, and one that has left flight never
      comes back: what it names stays nothing. */
  lemma {:induction false} TicketsNeverReused(h: Host, ops: seq<Op>, ticket: nat)
    requires Tickets(h) && ticket <= h.nextLoad && Lookup(h, ticket).None?
    ensures Tickets(Run(h, ops)) && Lookup(Run(h, ops), ticket).None?
    decreases |ops|
  {
    if ops != [] {
      DoKeeps(h, ops[0]);
      TicketsNeverReused(Do(h, ops[0]), ops[1..], ticket);
    }
  }

  /** The pool changes only at a whole load and at an end. */
  lemma {:induction false} PoolChangesAtEnds(h: Host, ops: seq<Op>)
    requires Tickets(h) && forall i :: 0 <= i < |ops| ==> !ops[i].OpLoad? && !ops[i].OpEnd?
    ensures Run(h, ops).pool == h.pool
    decreases |ops|
  {
    if ops != [] {
      DoKeeps(h, ops[0]);
      PoolChangesAtEnds(Do(h, ops[0]), ops[1..]);
    }
  }

  // ---- what each call answers ----

  ghost predicate InFlight(h: Host, ticket: nat) { exists i :: 0 <= i < |h.staged| && h.staged[i].ticket == ticket }

  /** A whole load is refused when its samples are no whole number of frames, or its
      place is none of the pool's, and then changes nothing; else it is in its place,
      each sample where it was, and a full command queue is an error even so. */
  lemma LoadExactly(h: Host, index: nat, channels: nat, rate: real, data: seq<real>, room: bool)
    ensures var (h', r) := LoadWhole(h, index, channels, rate, data, room);
            if channels == 0 || |data| % channels != 0 then h' == h && r == Err(NotWhole)
            else if index >= |h.pool| then h' == h && r == Err(OutOfRange)
            else
              && h'.staged == h.staged && h'.nextLoad == h.nextLoad && |h'.pool| == |h.pool|
              && (forall i :: 0 <= i < |h.pool| && i != index ==> h'.pool[i] == h.pool[i])
              && h'.pool[index].Some?
              && (var b := h'.pool[index].value;
                  b.cells == data && b.channels == channels && b.frames * channels == |data| && b.rate == rate && b.written == 0)
              && r == if room then Ok(()) else Err(FifoFull)
  {
    assert channels > 0 && |data| % channels == 0 ==> |data| / channels * channels == |data|;
  }

  /** A staged load needs a channel, and is a new ticket for silence of its shape. */
  lemma BeginExactly(h: Host, index: nat, channels: nat, rate: real, frames: nat)
    ensures var (h', r) := Begin(h, index, channels, rate, frames);
            if channels == 0 then h' == h && r == Err(NoChannel)
            else
              && r == Ok(h.nextLoad + 1) && h'.nextLoad == h.nextLoad + 1 && h'.pool == h.pool
              && |h'.staged| == |h.staged| + 1 && h'.staged[..|h.staged|] == h.staged
              && (var load := h'.staged[|h.staged|];
                  && load.ticket == h.nextLoad + 1 && load.index == index
                  && load.buffer.channels == channels && load.buffer.frames == frames
                  && load.buffer.rate == rate && load.buffer.written == 0
                  && |load.buffer.cells| == frames * channels
                  && forall k :: 0 <= k < |load.buffer.cells| ==> load.buffer.cells[k] == 0.0)
  {
    assert (h.staged + [Load(h.nextLoad + 1, index, Contents(Zeros(frames * channels), channels, frames, rate, 0))])[..|h.staged|]
        == h.staged;
  }

  /** A chunk for no load in flight, or past its load's end, is refused and changes
      nothing; else each sample it covers is its own, and every other sample, load
      and pool place is as it was. */
  lemma ChunkExactly(h: Host, ticket: nat, at: nat, data: seq<real>, i: nat)
    requires Tickets(h)
    ensures var (h', r) := Chunk(h, ticket, at, data);
            && (!InFlight(h, ticket) ==> h' == h && r == Err(NoSuchLoad))
            && (i < |h.staged| && h.staged[i].ticket == ticket ==>
                  var cells := h.staged[i].buffer.cells;
                  if at + |data| > |cells| then h' == h && r == Err(PastTheEnd)
                  else
                    && r == Ok(()) && |h'.staged| == |h.staged| && h' == h.(staged := h'.staged)
                    && (forall j :: 0 <= j < |h.staged| && j != i ==> h'.staged[j] == h.staged[j])
                    && (var cells' := h'.staged[i].buffer.cells;
                        && h'.staged[i] == h.staged[i].(buffer := h.staged[i].buffer.(cells := cells'))
                        && |cells'| == |cells|
                        && forall k :: 0 <= k < |cells| ==>
                             cells'[k] == if at <= k < at + |data| then data[k - at] else cells[k]))
  {
  }

  /** An end for no load in flight is refused and changes nothing. Else the load
      leaves flight whatever comes of it: it is in its place with at least all its
      frames written, or lost where the pool has no such place. */
  lemma EndExactly(h: Host, ticket: nat, room: bool, i: nat)
    requires Tickets(h)
    ensures var (h', r) := End(h, ticket, room);
            && (!InFlight(h, ticket) ==> h' == h && r == Err(NoSuchLoad))
            && (i < |h.staged| && h.staged[i].ticket == ticket ==>
                  var load := h.staged[i];
                  && h'.staged == h.staged[..i] + h.staged[i + 1..] && h'.nextLoad == h.nextLoad
                  && if load.index >= |h.pool| then h'.pool == h.pool && r == Err(OutOfRange)
                     else
                       && |h'.pool| == |h.pool|
                       && (forall j :: 0 <= j < |h.pool| && j != load.index ==> h'.pool[j] == h.pool[j])
                       && h'.pool[load.index].Some?
                       && (var b := h'.pool[load.index].value;
                           && b == load.buffer.(written := b.written)
                           && b.written >= load.buffer.frames && b.written >= load.buffer.written
                           && (b.written == load.buffer.frames || b.written == load.buffer.written))
                       && r == if room then Ok(()) else Err(FifoFull))
  {
  }

  /** A cancel takes its load out of flight, if it is there, and does nothing else. */
  lemma CancelExactly(h: Host, ticket: nat, i: nat)
    requires Tickets(h)
    ensures !InFlight(h, ticket) ==> Cancel(h, ticket) == h
    ensures i < |h.staged| && h.staged[i].ticket == ticket ==>
              Cancel(h, ticket) == h.(staged := h.staged[..i] + h.staged[i + 1..])
  {
    WithoutIs(h.staged, ticket);
  }

  // ---- refinement ----

  /** A chunk of this ticket that fits a buffer of `n` samples. */
  predicate Fits(op: Op, ticket: nat, n: nat) {
    op.OpChunk? && op.ticket == ticket && op.at + |op.data| <= n
  }

  /** Whether some chunk of the run writes sample `k` of the ticket. */
  predicate Covers(ops: seq<Op>, ticket: nat, n: nat, k: nat) {
    exists i :: 0 <= i < |ops| && Fits(ops[i], ticket, n) && ops[i].at <= k < ops[i].at + |ops[i].data|
  }

  /** The run neither ends nor cancels the ticket, and each chunk of it that fits
      holds the right samples for where it goes. */
  ghost predicate Fills(ops: seq<Op>, ticket: nat, data: seq<real>) {
    && (forall i :: 0 <= i < |ops| && Names(ops[i], ticket) ==> ops[i].OpChunk?)
    && (forall i :: 0 <= i < |ops| && Fits(ops[i], ticket, |data|) ==>
         ops[i].data == data[ops[i].at..ops[i].at + |ops[i].data|])
  }

  /** What the chunks of a run made of a load: the right samples where they
      reach, and what was there elsewhere. */
  ghost predicate Filled(before: Load, after: Load, ops: seq<Op>, data: seq<real>) {
    && after == before.(buffer := before.buffer.(cells := after.buffer.cells))
    && |after.buffer.cells| == |before.buffer.cells| == |data|
    && forall k :: 0 <= k < |data| ==>
         after.buffer.cells[k] ==
         if Covers(ops, before.ticket, |data|, k) then data[k] else before.buffer.cells[k]
  }

  lemma FilledStep(before: Load, middle: Load, after: Load, ops: seq<Op>, data: seq<real>)
    requires ops != [] && Fills(ops, before.ticket, data) && |before.buffer.cells| == |data|
    requires Effect(before, ops[0]) == Some(middle) && Filled(middle, after, ops[1..], data)
    ensures Filled(before, after, ops, data)
  {
    var op := ops[0];
    forall k | 0 <= k < |data|
      ensures after.buffer.cells[k] ==
              if Covers(ops, before.ticket, |data|, k) then data[k] else before.buffer.cells[k]
    {
      CoversFirst(ops, before.ticket, |data|, k);
      hide Covers;
      var here := Fits(op, before.ticket, |data|) && op.at <= k < op.at + |op.data|;
      assert middle.buffer.cells[k] == if here then data[k] else before.buffer.cells[k];
    }
  }

  lemma FillsFirst(load: Load, ops: seq<Op>, data: seq<real>)
    requires ops != [] && Fills(ops, load.ticket, data)
    ensures Fills(ops[1..], load.ticket, data)
    ensures var e := Effect(load, ops[0]);
            && e.Some? && e.value.ticket == load.ticket
            && |e.value.buffer.cells| == |load.buffer.cells|
  {
  }

  lemma {:induction false} RunFills(h: Host, ops: seq<Op>, ticket: nat, data: seq<real>)
    requires Tickets(h) && ticket <= h.nextLoad && Lookup(h, ticket).Some?
    requires |Lookup(h, ticket).value.buffer.cells| == |data| && Fills(ops, ticket, data)
    ensures var h' := Run(h, ops);
            && Tickets(h') && Lookup(h', ticket).Some?
            && Filled(Lookup(h, ticket).value, Lookup(h', ticket).value, ops, data)
    decreases |ops|
  {
    if ops != [] {
      var h1 := Do(h, ops[0]);
      DoKeeps(h, ops[0]);
      var before := Lookup(h, ticket).value;
      assert before.ticket == ticket;
      FillsFirst(before, ops, data);
      hide Fills, Effect, Do, Tickets;
      assert Lookup(h1, ticket) == Effect(before, ops[0]);
      RunFills(h1, ops[1..], ticket, data);
      FilledStep(before, Lookup(h1, ticket).value, Lookup(Run(h, ops), ticket).value, ops, data);
    }
  }

  lemma CoversFirst(ops: seq<Op>, ticket: nat, n: nat, k: nat)
    requires ops != []
    ensures Covers(ops, ticket, n, k) <==>
            (Fits(ops[0], ticket, n) && ops[0].at <= k < ops[0].at + |ops[0].data|) || Covers(ops[1..], ticket, n, k)
  {
    if Covers(ops[1..], ticket, n, k) {
      var i :| 0 <= i < |ops[1..]| && Fits(ops[1..][i], ticket, n) && ops[1..][i].at <= k < ops[1..][i].at + |ops[1..][i].data|;
      assert ops[i + 1] == ops[1..][i];
    }
    if Covers(ops, ticket, n, k) {
      var i :| 0 <= i < |ops| && Fits(ops[i], ticket, n) && ops[i].at <= k < ops[i].at + |ops[i].data|;
      if i > 0 { assert ops[1..][i - 1] == ops[i]; }
    }
  }

  /** A staged load, its chunks in any order and interleaved with anything that
      neither ends nor cancels it, installs the samples and shape one whole load
      of the same data installs if and only if every sample that is not zero is
      covered by a chunk. What it says was written differs: all its frames, where
      a whole load says none. */
  lemma StagedRefinesWhole(h: Host, index: nat, channels: nat, rate: real, data: seq<real>, ops: seq<Op>, room: bool)
    requires Tickets(h) && channels > 0 && |data| % channels == 0 && index < |h.pool|
    requires var (h1, r) := Begin(h, index, channels, rate, |data| / channels); r.Ok? && Fills(ops, r.value, data)
    ensures var (h1, r) := Begin(h, index, channels, rate, |data| / channels);
            var staged := End(Run(h1, ops), r.value, room).0.pool;
            var whole := LoadWhole(h, index, channels, rate, data, room).0.pool;
            && |staged| == |h.pool| && staged[index].Some? && whole[index].Some?
            && staged[index].value == whole[index].value.(cells := staged[index].value.cells, written := |data| / channels)
            && (staged[index].value.cells == whole[index].value.cells <==>
                forall k :: 0 <= k < |data| ==> data[k] == 0.0 || Covers(ops, r.value, |data|, k))
  {
    var frames := |data| / channels;
    var (h1, r) := Begin(h, index, channels, rate, frames);
    BeginKeeps(h, index, channels, rate, frames);
    assert frames * channels == |data|;
    RunFills(h1, ops, r.value, data);
    PoolSize(h1, ops);
    var h2 := Run(h1, ops);
    var load := Lookup(h2, r.value).value;
    var staged := End(h2, r.value, room).0.pool;
    assert staged[index] == Some(Raise(load.buffer));
    if forall k :: 0 <= k < |data| ==> data[k] == 0.0 || Covers(ops, r.value, |data|, k) {
      assert load.buffer.cells == data;
    }
  }

  lemma {:induction false} PoolSize(h: Host, ops: seq<Op>)
    requires Tickets(h)
    ensures |Run(h, ops).pool| == |h.pool|
    decreases |ops|
  {
    if ops != [] {
      DoKeeps(h, ops[0]);
      PoolSize(Do(h, ops[0]), ops[1..]);
    }
  }
}
