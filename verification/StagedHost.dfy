/** The staged loads in place (src/embed.rs): buffers are objects whose cells the
    chunks overwrite, and an end hands the very object to the pool. Every method
    is proved equal to its function in StagedLoad. */
module StagedHost {
  import opened Wrappers
  import L = StagedLoad

  /** A sample buffer (src/dsp/buffer.rs). */
  class Buffer {
    const cells: array<real>
    const channels: nat
    const frames: nat
    const rate: real
    var written: nat

    constructor (data: seq<real>, channels: nat, frames: nat, rate: real)
      ensures fresh(cells) && Contents() == L.Contents(data, channels, frames, rate, 0)
    {
      this.cells := new real[|data|](i requires 0 <= i < |data| => data[i]);
      this.channels, this.frames, this.rate, this.written := channels, frames, rate, 0;
    }

    function Contents(): L.Contents
      reads this, cells
    {
      L.Contents(cells[..], channels, frames, rate, written)
    }

    /** Sets the cells from `at` on, one by one. */
    method SetRun(at: nat, data: seq<real>)
      requires at + |data| <= cells.Length
      modifies cells
      ensures cells[..] == L.Written(old(cells[..]), at, data)
    {
      for k := 0 to |data|
        invariant cells[..] == L.Written(old(cells[..]), at, data[..k])
      {
        cells[at + k] := data[k];
        assert data[..k + 1] == data[..k] + [data[k]];
      }
      assert data[..|data|] == data;
    }

    method RaiseFrontier(frame: nat)
      modifies this
      ensures written == if old(written) < frame then frame else old(written)
    {
      if written < frame { written := frame; }
    }
  }

  datatype Staged = Staged(ticket: nat, index: nat, buffer: Buffer)

  /** The value of a staged load, and of several. */
  function ValueOf(load: Staged): L.Load
    reads load.buffer, load.buffer.cells
  {
    L.Load(load.ticket, load.index, load.buffer.Contents())
  }

  function Values(loads: seq<Staged>): seq<L.Load>
    reads set i | 0 <= i < |loads| :: loads[i].buffer
    reads set i | 0 <= i < |loads| :: loads[i].buffer.cells
  {
    seq(|loads|, i requires 0 <= i < |loads|
        reads set i | 0 <= i < |loads| :: loads[i].buffer
        reads set i | 0 <= i < |loads| :: loads[i].buffer.cells
        => ValueOf(loads[i]))
  }

  lemma ValuesRemove(loads: seq<Staged>, pos: nat)
    requires pos < |loads|
    ensures Values(loads[..pos] + loads[pos + 1..]) == Values(loads)[..pos] + Values(loads)[pos + 1..]
  {
  }

  function ValueOfSlot(slot: Option<Buffer>): Option<L.Contents>
    reads if slot.Some? then {slot.value, slot.value.cells} else {}
  {
    if slot.Some? then Some(slot.value.Contents()) else None
  }

  class Host {
    var staged: seq<Staged>
    var nextLoad: nat
    var pool: seq<Option<Buffer>>

    ghost function Repr(): set<object>
      reads this
    {
      (set i | 0 <= i < |staged| :: staged[i].buffer as object)
      + (set i | 0 <= i < |staged| :: staged[i].buffer.cells as object)
      + (set i | 0 <= i < |pool| && pool[i].Some? :: pool[i].value as object)
      + (set i | 0 <= i < |pool| && pool[i].Some? :: pool[i].value.cells as object)
    }

    /** No two staged loads share a buffer or its cells, and none shares them with
        the pool: what a chunk writes, nobody else sees. */
    ghost predicate Valid()
      reads this
    {
      && (forall i, j :: 0 <= i < j < |staged| ==>
           staged[i].buffer != staged[j].buffer && staged[i].buffer.cells != staged[j].buffer.cells)
      && (forall i, j :: 0 <= i < |staged| && 0 <= j < |pool| && pool[j].Some? ==>
           staged[i].buffer != pool[j].value && staged[i].buffer.cells != pool[j].value.cells)
    }

    ghost function View(): L.Host
      reads this, Repr()
    {
      L.Host(
        Values(staged),
        nextLoad,
        seq(|pool|, i requires 0 <= i < |pool| reads this, Repr() => ValueOfSlot(pool[i])))
    }

    constructor (slots: nat)
      ensures Valid() && View() == L.Host([], 0, seq(slots, _ => None))
    {
      staged, nextLoad, pool := [], 0, seq(slots, _ => None);
    }

    /** The place of a ticket among the staged loads, or their number. */
    method Position(ticket: nat) returns (i: nat)
      ensures View() == old(View())
      ensures i <= |staged| && i == L.Find(View().staged, ticket, 0)
    {
      i := 0;
      while i < |staged| && staged[i].ticket != ticket
        invariant i <= |staged|
        invariant L.Find(View().staged, ticket, i) == L.Find(View().staged, ticket, 0)
      {
        i := i + 1;
      }
    }

    method Install(index: nat, buffer: Buffer, room: bool) returns (r: Result<(), L.Error>)
      requires Valid()
      requires forall i :: 0 <= i < |staged| ==> staged[i].buffer != buffer && staged[i].buffer.cells != buffer.cells
      modifies this`pool
      ensures Valid() && staged == old(staged)
      ensures (View(), r) == L.Install(old(View()), index, old(buffer.Contents()), room)
    {
      if index >= |pool| { return Err(L.OutOfRange); }
      pool := pool[index := Some(buffer)];
      assert View().staged == old(View().staged);
      assert View().pool == old(View().pool)[index := Some(old(buffer.Contents()))];
      r := if room then Ok(()) else Err(L.FifoFull);
    }

    method BufferLoad(index: nat, channels: nat, rate: real, data: seq<real>, room: bool) returns (r: Result<(), L.Error>)
      requires Valid()
      modifies this`pool
      ensures Valid() && (View(), r) == L.LoadWhole(old(View()), index, channels, rate, data, room)
    {
      if channels == 0 || |data| % channels != 0 { return Err(L.NotWhole); }
      var frames := |data| / channels;
      var buffer := new Buffer(data, channels, frames, rate);
      assert View().staged == old(View().staged) && View().pool == old(View().pool);
      r := Install(index, buffer, room);
    }

    method BufferLoadBegin(index: nat, channels: nat, rate: real, frames: nat) returns (r: Result<nat, L.Error>)
      requires Valid()
      modifies this`staged, this`nextLoad
      ensures Valid() && (View(), r) == L.Begin(old(View()), index, channels, rate, frames)
    {
      if channels == 0 { return Err(L.NoChannel); }
      var buffer := new Buffer(L.Zeros(frames * channels), channels, frames, rate);
      nextLoad := nextLoad + 1;
      var ticket := nextLoad;
      staged := staged + [Staged(ticket, index, buffer)];
      assert View().pool == old(View().pool);
      assert View().staged == old(View().staged) + [ValueOf(Staged(ticket, index, buffer))];
      return Ok(ticket);
    }

    /** What a change to one staged buffer alone does to the value of the whole. */
    twostate lemma OthersKept(i: nat)
      requires old(Valid()) && staged == old(staged) && pool == old(pool) && nextLoad == old(nextLoad)
      requires i < |staged|
      requires unchanged(Repr() - {staged[i].buffer, staged[i].buffer.cells})
      ensures View() == old(View()).(staged := old(View()).staged[i := ValueOf(staged[i])])
    {
      forall j | 0 <= j < |staged| && j != i ensures ValueOf(staged[j]) == old(ValueOf(staged[j])) {
        assert staged[j].buffer in Repr() && staged[j].buffer.cells in Repr();
      }
      forall j | 0 <= j < |pool| ensures ValueOfSlot(pool[j]) == old(ValueOfSlot(pool[j])) {
        assert pool[j].Some? ==> pool[j].value in Repr() && pool[j].value.cells in Repr();
      }
      assert View().pool == old(View().pool);
      assert View().staged == old(View().staged)[i := ValueOf(staged[i])];
    }

    method BufferLoadChunk(ticket: nat, at: nat, data: seq<real>) returns (r: Result<(), L.Error>)
      requires Valid()
      modifies set i | 0 <= i < |staged| :: staged[i].buffer.cells
      ensures Valid() && (View(), r) == L.Chunk(old(View()), ticket, at, data)
    {
      var i := Position(ticket);
      if i == |staged| { return Err(L.NoSuchLoad); }
      var buffer := staged[i].buffer;
      assert View().staged[i].buffer.cells == buffer.cells[..];
      if at + |data| > buffer.cells.Length { return Err(L.PastTheEnd); }
      buffer.SetRun(at, data);
      OthersKept(i);
      ghost var load := old(ValueOf(staged[i]));
      ghost var after := ValueOf(staged[i]);
      assert after == load.(buffer := load.buffer.(cells := L.Written(load.buffer.cells, at, data)));
      return Ok(());
    }

    /** Takes the staged load in place `pos` out of flight. */
    method Remove(pos: nat) returns (load: Staged)
      requires Valid() && pos < |staged|
      modifies this`staged
      ensures load == old(staged[pos])
      ensures Valid() && View() == old(View()).(staged := old(View().staged)[..pos] + old(View().staged)[pos + 1..])
      ensures load.buffer !in Repr() && load.buffer.cells !in Repr()
      ensures forall i :: 0 <= i < |staged| ==> staged[i].buffer != load.buffer && staged[i].buffer.cells != load.buffer.cells
    {
      load := staged[pos];
      ValuesRemove(staged, pos);
      staged := staged[..pos] + staged[pos + 1..];
      assert View().pool == old(View().pool);
    }

    method BufferLoadEnd(ticket: nat, room: bool) returns (r: Result<(), L.Error>)
      requires Valid()
      modifies this`staged, this`pool, set i | 0 <= i < |staged| :: staged[i].buffer
      ensures Valid() && (View(), r) == L.End(old(View()), ticket, room)
    {
      var pos := Position(ticket);
      if pos == |staged| { return Err(L.NoSuchLoad); }
      var load := Remove(pos);
      assert old(View().staged[pos]) == old(ValueOf(load));
      hide L.Find;
      load.buffer.RaiseFrontier(load.buffer.frames);
      r := Install(load.index, load.buffer, room);
    }

    /** Picking staged loads in order keeps them apart. */
    lemma Sublist(kept: seq<Staged>, from: seq<nat>)
      requires Valid() && |from| == |kept|
      requires forall k :: 0 <= k < |kept| ==> from[k] < |staged| && kept[k] == staged[from[k]]
      requires forall k, m :: 0 <= k < m < |kept| ==> from[k] < from[m]
      ensures forall k, m :: 0 <= k < m < |kept| ==>
                kept[k].buffer != kept[m].buffer && kept[k].buffer.cells != kept[m].buffer.cells
      ensures forall k, j :: 0 <= k < |kept| && 0 <= j < |pool| && pool[j].Some? ==>
                kept[k].buffer != pool[j].value && kept[k].buffer.cells != pool[j].value.cells
      ensures forall k :: 0 <= k < |kept| ==> kept[k].buffer in Repr() && kept[k].buffer.cells in Repr()
    {
      forall k, m | 0 <= k < m < |kept|
        ensures kept[k].buffer != kept[m].buffer && kept[k].buffer.cells != kept[m].buffer.cells
      {
        assert staged[from[k]].buffer != staged[from[m]].buffer;
      }
      forall k, j | 0 <= k < |kept| && 0 <= j < |pool| && pool[j].Some?
        ensures kept[k].buffer != pool[j].value && kept[k].buffer.cells != pool[j].value.cells
      {
        assert staged[from[k]].buffer != pool[j].value;
      }
    }

    ghost function Picked(all: seq<L.Load>, from: seq<nat>): seq<L.Load>
      requires forall k :: 0 <= k < |from| ==> from[k] < |all|
    {
      seq(|from|, k requires 0 <= k < |from| => all[from[k]])
    }

    lemma WithoutNothing(ticket: nat)
      ensures L.Without([], ticket) == []
    {
    }

    lemma WithoutFirst(all: seq<L.Load>, ticket: nat, i: nat)
      requires i < |all|
      ensures L.Without(all[i..], ticket) ==
              (if all[i].ticket == ticket then [] else [all[i]]) + L.Without(all[i + 1..], ticket)
    {
      assert all[i..][1..] == all[i + 1..];
    }

    method Retained(ticket: nat) returns (kept: seq<Staged>, ghost from: seq<nat>)
      ensures |from| == |kept|
      ensures forall k :: 0 <= k < |kept| ==> from[k] < |staged| && kept[k] == staged[from[k]]
      ensures forall k, m :: 0 <= k < m < |kept| ==> from[k] < from[m]
      ensures View() == old(View()) && Values(kept) == L.Without(View().staged, ticket)
    {
      hide L.Without;
      WithoutNothing(ticket);
      kept, from := [], [];
      ghost var all := Values(staged);
      for i := 0 to |staged|
        invariant |from| == |kept|
        invariant forall k :: 0 <= k < |kept| ==> from[k] < i && kept[k] == staged[from[k]]
        invariant forall k, m :: 0 <= k < m < |kept| ==> from[k] < from[m]
        invariant L.Without(all, ticket) == Picked(all, from) + L.Without(all[i..], ticket)
      {
        WithoutFirst(all, ticket, i);
        assert all[i] == ValueOf(staged[i]);
        if staged[i].ticket != ticket {
          assert Picked(all, from + [i]) == Picked(all, from) + [all[i]];
          kept, from := kept + [staged[i]], from + [i];
        }
      }
      assert all[|staged|..] == [];
      assert Values(kept) == Picked(all, from);
    }

    method BufferLoadCancel(ticket: nat)
      requires Valid()
      modifies this`staged
      ensures Valid() && View() == L.Cancel(old(View()), ticket)
    {
      hide L.Without;
      var kept, from := Retained(ticket);
      Sublist(kept, from);
      staged := kept;
      assert View().staged == Values(kept);
      assert View().pool == old(View().pool);
    }
  }
}
