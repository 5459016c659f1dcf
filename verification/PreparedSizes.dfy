/** The payload size of a batch is the sum over the slots that it carries. */
module PreparedSizes {
  import opened Gradients
  import opened PreparedSpec
  import opened PreparedRuns
  import opened Sums
  import PreparedSafety

  ghost function Size(p: Plan, payloads: map<Slot, Chunk>): Slot -> int {
    slot => if slot in payloads then p.byteSize(payloads[slot]) as int else 0
  }

  /** The slots of the first n members of a group. */
  ghost function MemberSlots(p: Plan, t: Ticket, n: nat): set<Slot>
    requires t.group < |p.groups| && n <= |p.groups[t.group]|
  {
    set l | l in p.groups[t.group][..n] :: Slot(t.round, l)
  }

  ghost function BatchSlots(p: Plan, batch: seq<Ticket>): set<Slot>
    requires forall t | t in batch :: t.group < |p.groups|
  {
    set t, l | t in batch && l in p.groups[t.group] :: Slot(t.round, l)
  }

  lemma {:induction false} MembersSum(p: Plan, payloads: map<Slot, Chunk>, t: Ticket, n: nat)
    requires PlanOk(p) && t.group < |p.groups| && n <= |p.groups[t.group]| && Ready(p, payloads, t)
    ensures PayloadBytes(p, payloads, t, n) == Sum(MemberSlots(p, t, n), Size(p, payloads))
  {
    if n > 0 {
      var l := p.groups[t.group][n-1];
      MembersSum(p, payloads, t, n - 1);
      NewMember(p, t.group, n - 1);
      assert MemberSlots(p, t, n) == MemberSlots(p, t, n - 1) + {Slot(t.round, l)};
      assert Slot(t.round, l) !in MemberSlots(p, t, n - 1);
      SumSplit(MemberSlots(p, t, n), Size(p, payloads), Slot(t.round, l));
      assert MemberSlots(p, t, n) - {Slot(t.round, l)} == MemberSlots(p, t, n - 1);
    } else {
      assert MemberSlots(p, t, n) == {};
    }
  }

  lemma InOneGroup(p: Plan, g: nat, h: nat, l: nat)
    requires PlanOk(p) && g < |p.groups| && h < |p.groups| && l in p.groups[g] && l in p.groups[h]
    ensures g == h
  {
    PreparedSafety.MemberOf(p, g, l);
    PreparedSafety.MemberOf(p, h, l);
  }

  lemma SlotsApart(p: Plan, before: seq<Ticket>, t: Ticket)
    requires PlanOk(p) && t !in before && t.group < |p.groups| && forall u | u in before :: u.group < |p.groups|
    ensures BatchSlots(p, before) !! MemberSlots(p, t, |p.groups[t.group]|)
    ensures BatchSlots(p, before + [t]) == BatchSlots(p, before) + MemberSlots(p, t, |p.groups[t.group]|)
  {
    assert p.groups[t.group][..|p.groups[t.group]|] == p.groups[t.group];
    forall slot | slot in BatchSlots(p, before) && slot in MemberSlots(p, t, |p.groups[t.group]|) ensures false {
      var u, l :| u in before && l in p.groups[u.group] && slot == Slot(u.round, l);
      InOneGroup(p, u.group, t.group, l);
    }
    assert forall u :: u in before + [t] <==> u in before || u == t;
  }

  lemma {:induction false} BatchSum(p: Plan, payloads: map<Slot, Chunk>, batch: seq<Ticket>)
    requires PlanOk(p) && NoRepeats(batch) && forall t | t in batch :: t.group < |p.groups| && Ready(p, payloads, t)
    ensures BatchBytes(p, payloads, batch) == Sum(BatchSlots(p, batch), Size(p, payloads))
    decreases |batch|
  {
    if batch == [] {
      assert BatchSlots(p, batch) == {};
    } else {
      var last := |batch| - 1;
      var before, t := batch[..last], batch[last];
      assert before + [t] == batch;
      BatchSum(p, payloads, before);
      MembersSum(p, payloads, t, |p.groups[t.group]|);
      SlotsApart(p, before, t);
      SumUnion(BatchSlots(p, before), MemberSlots(p, t, |p.groups[t.group]|), Size(p, payloads));
    }
  }
}
