/** Which bytes of a stream of packets dtcpencrypt changes: over a whole buffer, and over a run of buffers. */
module PsiStreams {
  import opened Bytes
  import opened Psi
  import opened PmtPrint
  import opened PmtParse
  import opened PsiTracker
  import opened PsiTheorems

  /** A buffer of whole packets, packet by packet. */
  function Packets(d: seq<byte>, ts: packetsize): (r: seq<seq<byte>>)
    requires Whole(|d|, ts)
    ensures forall k :: 0 <= k < |r| ==> |r[k]| == ts
    decreases |d|
  {
    if d == [] then []
    else
      WholeLess(|d|, ts);
      [d[..ts]] + Packets(d[ts..], ts)
  }

  /** The fields when packet k is looked at; they stay as they are once the function has given up. */
  function TrackerAt(tr: Tracker, d: seq<byte>, ts: packetsize, cci: byte, k: nat): Tracker
    requires Sized(tr) && Whole(|d|, ts)
    decreases |d|
  {
    if k == 0 || d == [] then tr
    else
      WholeLess(|d|, ts);
      match Examine(tr, d, ts, cci)
      case Sent(tr1, _) =>
        ExamineKeepsSize(tr, d, ts, cci);
        TrackerAt(tr1, d[ts..], ts, cci, k - 1)
      case _ => tr
  }

  /** The only way a packet may change: the start of a table on the tracked PID becomes a table of the tracked
      program that passes the decoder of Annex A, with the stamp, the PID, the start flag and the byte with the
      continuity counter it had; that byte's adaptation control decides whether a parser, or a receiver, finds the
      table. */
  predicate BecomesTable(tr: Tracker, a: seq<byte>, b: seq<byte>, ts: packetsize)
    requires |a| == ts
  {
    var t := Stamp(ts);
    && |b| == ts && PidOf(a, t) == tr.pat.pmtPid && PayloadStart(a[t + 1])
    && b[..t] == a[..t] && b[t + 3] == a[t + 3] && PidOf(b, t) == PidOf(a, t) && PayloadStart(b[t + 1])
    && b[t + 5] == 0x02 && Program16(b[t + 8], b[t + 9]) == tr.pat.program
    && t + 8 + LengthField(b, t) <= ts && Checks(b[t + 5..t + 8 + LengthField(b, t)])
    && (PassesGuards(b, t, tr.pat.program) <==> AdaptationControl(a[t + 3]) == 1)
    && (SectionAt(b, t) == Some(t + 5) <==> AdaptationControl(a[t + 3]) == 1)
  }

  lemma PacketChanges(tr: Tracker, d: seq<byte>, ts: packetsize, cci: byte)
    requires Consistent(tr, ts) && ts <= |d| && Examine(tr, d, ts, cci).Sent?
    ensures var p := Examine(tr, d, ts, cci).packet; p == d[..ts] || BecomesTable(tr, d[..ts], p, ts)
  {
    hide Examine, Pid, PayloadStart, Checks, CacheMatches, Program16, PassesGuards, SectionAt, AdaptationControl;
    OnlyTablesChange(tr, d, ts, cci);
    var t := Stamp(ts);
    assert d[..ts][..t] == d[..t] && d[..ts][t + 1] == d[t + 1] && d[..ts][t + 2] == d[t + 2] && d[..ts][t + 3] == d[t + 3];
    if Examine(tr, d, ts, cci).packet != d[..ts] {
      SentTable(tr, d, ts, cci);
    }
  }

  /** Every packet of a buffer leaves as it came or becomes a table in that way. */
  lemma {:induction false} BufferChanges(tr: Tracker, d: seq<byte>, ts: packetsize, cci: byte, k: nat)
    requires Consistent(tr, ts) && Whole(|d|, ts) && ExamineAll(tr, d, ts, cci).Done?
    requires k < |Packets(d, ts)|
    ensures var out := ExamineAll(tr, d, ts, cci).out;
      && |out| == |d| && |Packets(out, ts)| == |Packets(d, ts)|
      && var a, b := Packets(d, ts)[k], Packets(out, ts)[k];
      a == b || BecomesTable(TrackerAt(tr, d, ts, cci, k), a, b, ts)
    decreases |d|
  {
    hide Examine, Consistent, BecomesTable, Whole;
    SizedWhenConsistent(tr, ts);
    WholeLess(|d|, ts);
    BufferKeeps(tr, d, ts, cci);
    ExamineKeepsSize(tr, d, ts, cci);
    match Examine(tr, d, ts, cci)
    case GivesUp(_) =>
    case OutOfModel =>
    case Sent(tr1, p) =>
      PacketChanges(tr, d, ts, cci);
      ExamineKeeps(tr, d, ts, cci);
      BufferKeeps(tr1, d[ts..], ts, cci);
      FirstSent(p, ExamineAll(tr1, d[ts..], ts, cci).out, ts);
      if k > 0 {
        BufferChanges(tr1, d[ts..], ts, cci, k - 1);
      } else {
        SameCount(d[ts..], ExamineAll(tr1, d[ts..], ts, cci).out, ts);
      }
  }

  lemma FirstSent(p: seq<byte>, rest: seq<byte>, ts: packetsize)
    requires |p| == ts && Whole(|rest|, ts) && Whole(|p + rest|, ts)
    ensures Packets(p + rest, ts) == [p] + Packets(rest, ts)
  {
    assert (p + rest)[..ts] == p && (p + rest)[ts..] == rest;
  }

  lemma {:induction false} SameCount(a: seq<byte>, b: seq<byte>, ts: packetsize)
    requires |a| == |b| && Whole(|a|, ts)
    ensures |Packets(a, ts)| == |Packets(b, ts)|
    decreases |a|
  {
    if a != [] {
      WholeLess(|a|, ts);
      SameCount(a[ts..], b[ts..], ts);
    }
  }

  /** The same for the buffer of any call in a run since the element was made: a buffer that is not whole aligned
      packets is not touched, and of any other only starts of tables on the PID tracked at that moment change. */
  lemma RunChanges(tr: Tracker, calls: seq<Call>, ts: packetsize, i: nat, k: nat)
    requires Fresh(tr) && i < |calls| && forall j :: 0 <= j < |calls| ==> Stamp(ts) < |calls[j].data|
    requires Run(tr, calls[..i], ts).Some?
    requires Sized(Run(tr, calls[..i], ts).value)
    requires ExamineBuffer(Run(tr, calls[..i], ts).value, calls[i].data, ts, calls[i].cci).Done?
    ensures
      var before, d, cci := Run(tr, calls[..i], ts).value, calls[i].data, calls[i].cci;
      var out := ExamineBuffer(before, d, ts, cci).out;
      && (!Aligned(d, ts) ==> out == d)
      && (Aligned(d, ts) && k < |Packets(d, ts)| ==>
            && |out| == |d| && |Packets(out, ts)| == |Packets(d, ts)|
            && var a, b := Packets(d, ts)[k], Packets(out, ts)[k];
            a == b || BecomesTable(TrackerAt(before, d, ts, cci, k), a, b, ts))
  {
    hide Run, ExamineAll, BecomesTable, Packets, TrackerAt, CacheMatches;
    FreshIsConsistent(tr, ts);
    RunKeeps(tr, calls[..i], ts);
    var before, d, cci := Run(tr, calls[..i], ts).value, calls[i].data, calls[i].cci;
    if Aligned(d, ts) && k < |Packets(d, ts)| {
      BufferChanges(before, d, ts, cci, k);
    }
  }

  lemma FreshIsConsistent(tr: Tracker, ts: packetsize)
    requires Fresh(tr)
    ensures Consistent(tr, ts)
  {
  }
}
