/** The consolidation script over the two tables it changes, call by call, proved equal to the
    functions of ManifestConsolidation. */
module ManifestTables {
  import opened Prelude
  import M = ManifestConsolidation

  class Tables {
    var slots: seq<M.Slot>
    var oldRecord: Option<string>
    var newRecord: bool
    var turns: seq<M.Turn>

    ghost function Abs(): M.State reads this { M.State(M.World(slots, oldRecord, newRecord), turns) }

    constructor (s: M.State)
      ensures Abs() == s
    {
      slots, oldRecord, newRecord, turns := s.world.slots, s.world.oldRecord, s.world.newRecord, s.turns;
    }

    /** The other writers' turn before a call, and what becomes of the call. */
    method Arrive() returns (fault: M.Fault)
      modifies this
      ensures Abs() == M.Arrive(old(Abs())) && fault == M.FaultOf(old(Abs()))
      ensures |slots| == |old(slots)|
    {
      fault := M.Fine;
      if turns != [] {
        var turn := turns[0];
        M.SlotsStay(M.World(slots, oldRecord, newRecord), turn.writes);
        var w := M.PerformAll(M.World(slots, oldRecord, newRecord), turn.writes);
        slots, oldRecord, newRecord, turns, fault := w.slots, w.oldRecord, w.newRecord, turns[1..], turn.fault;
      }
    }

    method NewManifestExists() returns (r: Reply<bool>)
      modifies this
      ensures (Abs(), r) == M.NewManifestExists(old(Abs()))
    {
      var fault := Arrive();
      r := if fault.Crash? then Raise else Ok(fault.Fine? && newRecord);
    }

    method OldManifestExists() returns (r: Reply<bool>)
      modifies this
      ensures (Abs(), r) == M.OldManifestExists(old(Abs()))
    {
      var fault := Arrive();
      r := if fault.Crash? then Raise else Ok(fault.Fine? && oldRecord.Some?);
    }

    /** One filtered page of the scan, with the cursor of the next one. */
    method ScanPage(from: nat) returns (r: Reply<(seq<nat>, Option<nat>)>)
      requires from <= |slots|
      modifies this
      ensures (Abs(), r) == M.ScanPage(old(Abs()), from) && |slots| == |old(slots)|
    {
      var to := M.PageEnd(M.State(M.World(slots, oldRecord, newRecord), turns), from);
      var fault := Arrive();
      if !fault.Fine? { return Raise; }
      var ids: seq<nat> := [];
      var i := from;
      ghost var w := Abs().world;
      while i < to
        invariant from <= i <= to <= |slots| && w.slots == slots
        invariant M.Referents(w, from, to) == ids + M.Referents(w, i, to)
      {
        if M.NamesOld(slots[i]) { ids := ids + [i]; }
        i := i + 1;
      }
      assert ids + [] == ids;
      return Ok((ids, if to < |slots| then Some(to) else None));
    }

    method ScanReferents() returns (r: Reply<seq<nat>>)
      modifies this
      ensures (Abs(), r) == M.ScanFrom(old(Abs()), 0) && |slots| == |old(slots)|
    {
      ghost var whole := M.ScanFrom(Abs(), 0);
      var rows: seq<nat> := [];
      var cursor := 0;
      Nothing(whole);
      while true
        invariant cursor <= |slots| == |old(slots)|
        invariant whole == After(rows, M.ScanFrom(Abs(), cursor))
        decreases |slots| - cursor
      {
        ghost var before := Abs();
        var page := ScanPage(cursor);
        if page.Raise? {
          assert M.ScanFrom(before, cursor) == (Abs(), Raise);
          return Raise;
        }
        if page.value.1.None? {
          assert M.ScanFrom(before, cursor) == (Abs(), Ok(page.value.0));
          return Ok(rows + page.value.0);
        }
        ghost var rest := M.ScanFrom(Abs(), page.value.1.value);
        assert M.ScanFrom(before, cursor) == After(page.value.0, rest);
        Extend(rows, page.value.0, rest);
        rows := rows + page.value.0;
        cursor := page.value.1.value;
      }
    }

    ghost static function After(rows: seq<nat>, rest: (M.State, Reply<seq<nat>>)): (M.State, Reply<seq<nat>>) {
      (rest.0, if rest.1.Raise? then Raise else Ok(rows + rest.1.value))
    }

    static lemma Nothing(rest: (M.State, Reply<seq<nat>>))
      ensures After([], rest) == rest
    {
      if rest.1.Ok? { assert [] + rest.1.value == rest.1.value; }
    }

    static lemma Extend(rows: seq<nat>, more: seq<nat>, rest: (M.State, Reply<seq<nat>>))
      ensures After(rows, After(more, rest)) == After(rows + more, rest)
    {
      if rest.1.Ok? { assert rows + (more + rest.1.value) == rows + more + rest.1.value; }
    }

    /** Beside the other writers' changes, only this vehicle may change, and only from the old name
        to the new one: "moved" says it did, "already migrated" that it no longer named the old. */
    method MoveOne(id: nat, apply: bool) returns (r: Reply<M.Move>)
      modifies this
      ensures (Abs(), r) == M.MoveOne(old(Abs()), id, apply)
      ensures !apply ==> r == Ok(M.WouldMove) && Abs() == old(Abs())
      ensures apply ==>
                var others := M.Arrive(old(Abs())).world;
                && |slots| == |others.slots| && oldRecord == others.oldRecord && newRecord == others.newRecord
                && (forall i :: 0 <= i < |slots| && i != id ==> slots[i] == others.slots[i])
                && (r == Ok(M.Moved) <==> id < |slots| && slots[id] != others.slots[id])
                && (r == Ok(M.Moved) ==> M.NamesOld(others.slots[id]) && slots[id] == M.Vehicle(Some(M.NEW)))
                && (r.Ok? && id < |slots| ==> !M.NamesOld(slots[id]))
    {
      if !apply { return Ok(M.WouldMove); }
      var fault := Arrive();
      if !fault.Fine? { return Raise; }
      if id < |slots| && M.NamesOld(slots[id]) {
        slots := slots[id := M.Vehicle(Some(M.NEW))];
        return Ok(M.Moved);
      }
      return Ok(M.AlreadyMigrated);
    }

    method DeleteOldRecord() returns (r: Reply<M.Deletion>)
      modifies this
      ensures (Abs(), r) == M.DeleteOldRecord(old(Abs()))
    {
      var fault := Arrive();
      if fault.Crash? { return Raise; }
      if fault.ClientError? { return Ok(M.Refused); }
      if oldRecord == Some(M.OLD) {
        oldRecord := None;
        return Ok(M.Deleted);
      }
      return Ok(M.Skipped);
    }

    method FinalVerify(apply: bool) returns (r: Reply<nat>)
      modifies this
      ensures (Abs(), r) == M.FinalVerify(old(Abs()), apply)
    {
      var rows := ScanReferents();
      if rows.Raise? { return Raise; }
      var exists_ := OldManifestExists();
      if exists_.Raise? { return Raise; }
      if apply && (rows.value != [] || exists_.value) { return Ok(M.EXIT_LIVE_STILL_HAS_REFERENTS); }
      return Ok(M.EXIT_OK);
    }

    method Retire(apply: bool) returns (r: Reply<nat>)
      modifies this
      ensures (Abs(), r) == M.Retire(old(Abs()), apply)
    {
      var exists_ := OldManifestExists();
      if exists_.Raise? { return Raise; }
      if exists_.value && apply {
        var deletion := DeleteOldRecord();
        if deletion.Raise? { return Raise; }
        if deletion.value.Refused? { return Ok(M.EXIT_AWS_ERROR); }
      }
      r := FinalVerify(apply);
    }

    /** No vehicle is left naming a record that is gone, and exit code 0 means none names the old
        manifest at all. */
    method Consolidate(prod: bool, apply: bool, confirmed: bool) returns (r: Reply<nat>)
      modifies this
      ensures (Abs(), r) == M.Consolidate(old(Abs()), prod, apply, confirmed)
      ensures M.Onward(old(Abs().world), Abs().world)
      ensures M.Safe(old(Abs().world)) ==> M.Safe(Abs().world)
      ensures apply && r == Ok(M.EXIT_OK) ==> M.Unused(Abs().world) && newRecord
    {
      M.ConsolidateOnward(Abs(), prod, apply, confirmed);
      if prod && apply && !confirmed { return Ok(M.EXIT_ARGS); }
      var target := NewManifestExists();
      if target.Raise? { return Raise; }
      if !target.value { return Ok(M.EXIT_NEW_MANIFEST_MISSING); }
      var rows := ScanReferents();
      if rows.Raise? { return Raise; }
      var moved := MoveAll(rows.value, apply);
      if moved.Raise? { return Raise; }
      var left := ScanReferents();
      if left.Raise? { return Raise; }
      if apply && left.value != [] { return Ok(M.EXIT_LIVE_STILL_HAS_REFERENTS); }
      r := Retire(apply);
    }

    method MoveAll(ids: seq<nat>, apply: bool) returns (r: Reply<()>)
      modifies this
      ensures (Abs(), r) == M.MoveAll(old(Abs()), ids, apply)
    {
      var i := 0;
      while i < |ids|
        invariant 0 <= i <= |ids|
        invariant M.MoveAll(Abs(), ids[i..], apply) == M.MoveAll(old(Abs()), ids, apply)
      {
        assert ids[i..][0] == ids[i] && ids[i..][1..] == ids[i + 1..];
        var outcome := MoveOne(ids[i], apply);
        if outcome.Raise? { return Raise; }
        i := i + 1;
      }
      return Ok(());
    }
  }
}
