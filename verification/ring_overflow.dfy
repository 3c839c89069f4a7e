/** Runs of the ring, clean up to their last action, after which bytes are overwritten or granted that must not be. */
module DtvRingOverflow {
  import opened Bytes
  import opened DtvRing
  import opened DtvRingTheorems

  /** Half of the buffer is read at a time. */
  const HALF: nat := SIZE / 2

  function Same(n: nat, b: byte): (r: seq<byte>)
    ensures |r| == n && forall i :: 0 <= i < n ==> r[i] == b
  {
    seq(n, _ => b)
  }

  lemma RunOn(s: State, a: Action, rest: seq<Action>)
    requires Inv(s) && Enabled(s, a, HALF) && Clean(s, a)
    ensures Inv(Next(s, a, HALF)) && Run(s, [a] + rest, HALF) == Run(Next(s, a, HALF), rest, HALF)
  {
    hide Inv, Next, Clean;
    NextKeeps(s, a, HALF);
    assert ([a] + rest)[1..] == rest;
  }

  /** Where the pointers are, nothing being under way. */
  predicate At(s: State, read: nat, write: nat, space: nat) {
    s.ring.read == read && s.ring.write == write && s.ring.space == space && s.arrived == 0 && s.pending == 0
  }

  /** A read and its accounting, before it is time for a table. */
  lemma ReadAndCommit(s: State, data: seq<byte>, rest: seq<Action>) returns (t: State)
    requires Inv(s) && s.arrived == 0 && s.pending == 0
    requires 0 < |data| <= ReadLimit(s.ring, HALF) && |data| <= s.ring.space
    ensures Inv(t) && Run(s, [Read(data), Commit(s.pat.stamp)] + rest, HALF) == Run(t, rest, HALF)
    ensures At(t, s.ring.read, Moved(s.ring.write, |data|), s.ring.space - |data|) && t.pat == s.pat
  {
    hide Erased, Inserted, Circular, Plain, Overlaid, Held, Ordered, TablesNumbered, Run;
    var u := Next(s, Read(data), HALF);
    RunOn(s, Read(data), [Commit(s.pat.stamp)] + rest);
    assert [Read(data), Commit(s.pat.stamp)] + rest == [Read(data)] + ([Commit(s.pat.stamp)] + rest);
    RunOn(u, Commit(s.pat.stamp), rest);
    t := Next(u, Commit(s.pat.stamp), HALF);
  }

  lemma GrantAndAdvance(s: State, rest: seq<Action>) returns (t: State)
    requires Inv(s) && At(s, 0, HALF, HALF)
    ensures Inv(t) && Run(s, [Grant, Advance] + rest, HALF) == Run(t, rest, HALF)
    ensures At(t, HALF, HALF, SIZE) && t.pat == s.pat
  {
    hide Erased, Inserted, Circular, Plain, Held, Ordered, TablesNumbered, Run;
    assert Available(s.ring) == HALF && GrantSize(HALF, HALF) == HALF;
    var u := Next(s, Grant, HALF);
    RunOn(s, Grant, [Advance] + rest);
    assert [Grant, Advance] + rest == [Grant] + ([Advance] + rest);
    RunOn(u, Advance, rest);
    t := Next(u, Advance, HALF);
  }

  /** From any start, a clean run to a state in which the write pointer is one byte past the beginning and the read
      pointer in the middle. */
  lemma AlmostFull(s: State) returns (actions: seq<Action>, t: State)
    requires Start(s) && Inv(s)
    ensures Run(s, actions, HALF) == Some(t) && Inv(t) && At(t, HALF, 1, HALF - 1)
  {
    hide Inv, Run, Start, Same;
    AtStart(s);
    var half, one, stamp := Same(HALF, 0), Same(1, 0), s.pat.stamp;
    var rest3 := [Read(one), Commit(stamp)] + [];
    var rest2 := [Read(half), Commit(stamp)] + rest3;
    var rest1 := [Grant, Advance] + rest2;
    actions := [Read(half), Commit(stamp)] + rest1;
    var t1 := ReadAndCommit(s, half, rest1);
    var t2 := GrantAndAdvance(t1, rest2);
    var t3 := ReadAndCommit(t2, half, rest3);
    t := ReadAndCommit(t3, one, []);
    NothingLeft(t);
  }

  lemma AtStart(s: State)
    requires Start(s)
    ensures At(s, 0, 0, SIZE)
  {
  }

  lemma NothingLeft(s: State)
    requires Inv(s)
    ensures Run(s, [], HALF) == Some(s)
  {
    hide Inv;
  }

  lemma OccupiedBy(s: State)
    requires Inv(s)
    ensures Counted(s) && Occupied(s) == SIZE - s.ring.space
  {
  }

  /** A read and a grant that the code may make next, the read into too little space: the accounting will see nothing,
      and the first byte handed out is not the first unread one. */
  ghost predicate Overruns(s: State, data: seq<byte>)
    requires Inv(s)
  {
    Parts(s);
    && Enabled(s, Read(data), HALF) && s.ring.space < |data| && s.pending == 0 && Clean(s, Grant)
    && CleanGrantFits(s)
    && var s2 := DoGrant(DoRead(s, data), GrantSize(Available(s.ring), HALF));
    && s2.arrived <= s2.ring.space && s.past.granted < |s.past.written| && |s.past.delivered| < |s2.past.delivered|
    && s2.past.delivered[|s.past.delivered|] != s.past.written[s.past.granted].b
  }

  predicate CleanGrantFits(s: State)
    requires Shaped(s)
  {
    s.ring.read + GrantSize(Available(s.ring), HALF) <= SIZE
  }

  lemma OverflowHere(s: State, data: seq<byte>)
    requires Inv(s) && At(s, HALF, 1, HALF - 1) && |data| == HALF && data[HALF - 1] != s.ring.mem[HALF]
    ensures Overruns(s, data)
  {
    hide Inv, Plain, Overlaid;
    OccupiedBy(s);
    assert Available(s.ring) == HALF && GrantSize(HALF, HALF) == HALF;
    OverflowUnnoticed(s, data, HALF);
    FirstUnread(s.past.written, s.past.granted);
  }

  lemma FirstUnread(written: seq<Cell>, granted: nat)
    requires granted < |written|
    ensures Plain(written[granted..])[0] == written[granted].b
  {
  }

  /** So the overflow is real: there is such a read after a clean run from any start. */
  lemma OverflowHappens(s0: State) returns (actions: seq<Action>, data: seq<byte>)
    requires Start(s0)
    ensures Inv(s0) && Run(s0, actions, HALF).Some?
    ensures Overruns(Run(s0, actions, HALF).value, data)
  {
    hide Inv, Run, Start, Overruns;
    StartHolds(s0);
    var s;
    actions, s := AlmostFull(s0);
    OccupiedBy(s);
    data := Same(HALF, if s.ring.mem[HALF] == 0 then 1 else 0);
    OverflowHere(s, data);
  }

  // ------------------------------------------------------------- wrong grants

  /** A create whose wait returns before anything is written takes the whole buffer: equal pointers count as full. */
  lemma EmptyGrantTakesBytes(s: State, blocksize: nat)
    requires Start(s) && blocksize > 0
    ensures Inv(s) && Enabled(s, Grant, blocksize)
    ensures Occupied(s) == 0 && Available(s.ring) == SIZE && GrantSize(Available(s.ring), blocksize) > 0
  {
    StartHolds(s);
    hide Inv;
    GrantSizeFits(SIZE, blocksize);
  }

  /** From any start, a clean run fills the buffer with the pointers in the middle, and the grant that is possible then
      crosses the end. */
  lemma FullGrantCrossesEnd(s0: State) returns (actions: seq<Action>, t: State)
    requires Start(s0)
    ensures Inv(s0) && Run(s0, actions, HALF) == Some(t) && Inv(t) && Enabled(t, Grant, HALF)
    ensures Occupied(t) == SIZE && t.ring.read + GrantSize(Available(t.ring), HALF) > SIZE
  {
    hide Inv, Run, Start, Same;
    StartHolds(s0);
    AtStart(s0);
    var half, stamp := Same(HALF, 0), s0.pat.stamp;
    var rest3 := [Read(half), Commit(stamp)] + [];
    var rest2 := [Read(half), Commit(stamp)] + rest3;
    var rest1 := [Grant, Advance] + rest2;
    actions := [Read(half), Commit(stamp)] + rest1;
    var t1 := ReadAndCommit(s0, half, rest1);
    var t2 := GrantAndAdvance(t1, rest2);
    var t3 := ReadAndCommit(t2, half, rest3);
    t := ReadAndCommit(t3, half, []);
    NothingLeft(t);
    OccupiedBy(t);
    assert Available(t.ring) == SIZE && GrantSize(SIZE, HALF) == SIZE;
  }
}
