/** The failure detector over whole runs of heartbeats, checks and membership changes. */
module Detection {
  import opened Lists
  import opened Federation

  datatype Input =
    | Beat(hb: Heartbeat, at: int)
    | Check(now: int)
    | Join(id: string, peer: Peer, at: int)
    | Leave(id: string)

  /** What never changes during a run: configuration, own id, and the kernel's policy version. */
  datatype Host = Host(cfg: Config, nodeID: string, policy: Option<string>)

  function React(h: Host, d: Detector, input: Input): Detector {
    match input
    case Beat(hb, at) => Heard(h.cfg, h.nodeID, h.policy, at, d, hb)
    case Check(now) => Checked(h.cfg, h.nodeID, now, d)
    case Join(id, peer, at) => if id == h.nodeID then d else d.(peers := d.peers[id := peer.(joinedAt := at)])
    case Leave(id) => d.(peers := d.peers - {id})
  }

  function Watch(h: Host, d: Detector, inputs: seq<Input>): Detector {
    if inputs == [] then d else React(h, Watch(h, d, inputs[..|inputs| - 1]), inputs[|inputs| - 1])
  }

  // ------------------------------------------------------------------ conflicts

  function SplitBrains(conflicts: seq<Conflict>): nat {
    if conflicts == [] then 0
    else SplitBrains(conflicts[..|conflicts| - 1]) + (if conflicts[|conflicts| - 1].kind.SplitBrain? then 1 else 0)
  }

  function RisingEdges(h: Host, d: Detector, inputs: seq<Input>): nat {
    if inputs == [] then 0
    else
      var n := |inputs| - 1;
      RisingEdges(h, d, inputs[..n])
      + (if !Watch(h, d, inputs[..n]).splitBrain && Watch(h, d, inputs).splitBrain then 1 else 0)
  }

  lemma OneMoreConflict(conflicts: seq<Conflict>, c: Conflict)
    ensures SplitBrains(conflicts + [c]) == SplitBrains(conflicts) + (if c.kind.SplitBrain? then 1 else 0)
  {
    assert (conflicts + [c])[..|conflicts|] == conflicts;
  }

  /** Over any run, the number of split-brain conflicts recorded is the number of times the flag went up. */
  lemma {:induction false} ConflictsAreRisingEdges(h: Host, d: Detector, inputs: seq<Input>)
    ensures SplitBrains(Watch(h, d, inputs).conflicts) == SplitBrains(d.conflicts) + RisingEdges(h, d, inputs)
  {
    hide AgedPeers, Majority, Known, SplitBrains;
    if inputs != [] {
      var n := |inputs| - 1;
      var before := Watch(h, d, inputs[..n]);
      ConflictsAreRisingEdges(h, d, inputs[..n]);
      match inputs[n]
      case Beat(hb, at) => OneMoreConflict(before.conflicts, Conflict(DivergentPolicy, at, h.nodeID, hb.nodeID));
      case Check(now) => OneMoreConflict(before.conflicts, Conflict(SplitBrain, now, h.nodeID, "multiple"));
      case _ =>
    }
  }

  // ------------------------------------------------------------------ what decides the state of a peer

  predicate IsBeat(input: Input, id: string) {
    input.Beat? && input.hb.nodeID == id
  }

  predicate Concerns(input: Input, id: string) {
    (input.Join? && input.id == id) || (input.Leave? && input.id == id)
  }

  /** The timestamp of the last heartbeat of a peer, or the one it had before the run. */
  function LastHeard(start: int, inputs: seq<Input>, id: string): int {
    if inputs == [] then start
    else if IsBeat(inputs[|inputs| - 1], id) then inputs[|inputs| - 1].hb.timestamp
    else LastHeard(start, inputs[..|inputs| - 1], id)
  }

  predicate QuietFrom(inputs: seq<Input>, id: string, i: nat) {
    forall j :: i <= j < |inputs| ==> !IsBeat(inputs[j], id)
  }

  /** So many missed heartbeats, in seconds; an interval of zero stands for thirty. */
  function Silence(cfg: Config, missed: int): int {
    (if cfg.heartbeatIntervalSeconds == 0 then 30 else cfg.heartbeatIntervalSeconds) * missed
  }

  /** The i-th input is a check that found the peer silent for longer than that, and it has not been heard since. */
  predicate FoundSilent(start: int, inputs: seq<Input>, id: string, silence: int, i: nat)
    requires i < |inputs|
  {
    && inputs[i].Check?
    && inputs[i].now - LastHeard(start, inputs[..i], id) > silence
    && QuietFrom(inputs, id, i)
  }

  ghost predicate EverFoundSilent(start: int, inputs: seq<Input>, id: string, silence: int) {
    exists i :: 0 <= i < |inputs| && FoundSilent(start, inputs, id, silence, i)
  }

  lemma NeverFoundWithoutInput(start: int, id: string, silence: int)
    ensures !EverFoundSilent(start, [], id, silence)
  {
  }

  lemma FoundSilentGrows(start: int, inputs: seq<Input>, id: string, silence: int)
    requires inputs != []
    ensures var n := |inputs| - 1;
            EverFoundSilent(start, inputs, id, silence) <==>
              && !IsBeat(inputs[n], id)
              && (EverFoundSilent(start, inputs[..n], id, silence)
                  || (inputs[n].Check? && inputs[n].now - LastHeard(start, inputs[..n], id) > silence))
  {
    var n := |inputs| - 1;
    var front := inputs[..n];
    if i :| 0 <= i < |inputs| && FoundSilent(start, inputs, id, silence, i) {
      if i < n {
        assert front[..i] == inputs[..i];
        assert FoundSilent(start, front, id, silence, i);
      }
    }
    if !IsBeat(inputs[n], id) {
      if i :| 0 <= i < n && FoundSilent(start, front, id, silence, i) {
        assert front[..i] == inputs[..i];
        assert FoundSilent(start, inputs, id, silence, i);
      } else if inputs[n].Check? && inputs[n].now - LastHeard(start, front, id) > silence {
        assert FoundSilent(start, inputs, id, silence, n);
      }
    }
  }

  lemma QuietGrows(inputs: seq<Input>, id: string)
    requires inputs != []
    ensures var n := |inputs| - 1;
      QuietFrom(inputs, id, 0) <==> QuietFrom(inputs[..n], id, 0) && !IsBeat(inputs[n], id)
  {
  }

  /** The state a peer must be in after a run, from the state and the inputs alone. */
  ghost predicate StateFits(cfg: Config, p: Peer, inputs: seq<Input>, id: string, now: PeerState) {
    var unheard := QuietFrom(inputs, id, 0);
    var suspect := EverFoundSilent(p.lastSeen, inputs, id, Silence(cfg, cfg.suspectAfterMissed));
    var partition := EverFoundSilent(p.lastSeen, inputs, id, Silence(cfg, cfg.partitionAfterMissed));
    var retired := p.state.Decommission? && unheard;
    && (now == Decommission <==> retired)
    && (now == Partitioned <==> !retired && (partition || (p.state.Partitioned? && unheard)))
    && (now == Active <==> (p.state.Active? || !unheard) && !suspect && !partition)
    && (now == Suspected <==>
          !partition && ((p.state.Suspected? && unheard) || ((p.state.Active? || !unheard) && suspect)))
    && (now == Unknown <==> p.state.Unknown? && unheard && !partition)
  }

  lemma OneMoreInput(h: Host, d: Detector, input: Input, id: string)
    requires id in d.peers && !Concerns(input, id)
    ensures var e := React(h, d, input); var p := d.peers[id];
      && id in e.peers
      && (IsBeat(input, id) ==> e.peers[id].lastSeen == input.hb.timestamp && e.peers[id].state == Active)
      && (!IsBeat(input, id) ==> e.peers[id].lastSeen == p.lastSeen)
      && (!IsBeat(input, id) && !input.Check? ==> e.peers[id] == p)
      && (input.Check? ==>
            e.peers[id].state ==
            if p.state.Decommission? then Decommission
            else if input.now - p.lastSeen > Silence(h.cfg, h.cfg.partitionAfterMissed) then Partitioned
            else if input.now - p.lastSeen > Silence(h.cfg, h.cfg.suspectAfterMissed) && p.state.Active? then Suspected
            else p.state)
  {
  }

  /**
   * The detector has no memory but its rule. Over any run, a peer that neither joins nor leaves is at the end: partitioned
   * if and only if a check since its last heartbeat found it silent beyond the partition threshold, or it began so and
   * was never heard; active if and only if it began so or was heard and no such check found it beyond either threshold;
   * suspected, unknown and decommissioned as exactly.
   */
  lemma {:induction false} StateIff(h: Host, d: Detector, inputs: seq<Input>, id: string)
    requires id in d.peers
    requires forall input :: input in inputs ==> !Concerns(input, id)
    ensures var e := Watch(h, d, inputs);
      && id in e.peers && e.peers[id].lastSeen == LastHeard(d.peers[id].lastSeen, inputs, id)
      && StateFits(h.cfg, d.peers[id], inputs, id, e.peers[id].state)
  {
    hide EverFoundSilent, FoundSilent, React, Silence, QuietFrom;
    var start := d.peers[id].lastSeen;
    var suspect, partition := Silence(h.cfg, h.cfg.suspectAfterMissed), Silence(h.cfg, h.cfg.partitionAfterMissed);
    NeverFoundWithoutInput(start, id, suspect);
    NeverFoundWithoutInput(start, id, partition);
    if inputs == [] {
      assert QuietFrom([], id, 0) by {
        QuietAtFirst(id);
      }
    } else {
      var n := |inputs| - 1;
      StateIff(h, d, inputs[..n], id);
      FoundSilentGrows(start, inputs, id, suspect);
      FoundSilentGrows(start, inputs, id, partition);
      QuietGrows(inputs, id);
      assert inputs[n] in inputs;
      OneMoreInput(h, Watch(h, d, inputs[..n]), inputs[n], id);
    }
  }

  lemma QuietAtFirst(id: string)
    ensures QuietFrom([], id, 0)
  {
  }

  /** In particular for a peer that was not decommissioned. */
  lemma PartitionedIff(h: Host, d: Detector, inputs: seq<Input>, id: string)
    requires id in d.peers && !d.peers[id].state.Decommission?
    requires forall input :: input in inputs ==> !Concerns(input, id)
    ensures var e := Watch(h, d, inputs);
            && id in e.peers && !e.peers[id].state.Decommission?
            && e.peers[id].lastSeen == LastHeard(d.peers[id].lastSeen, inputs, id)
            && (e.peers[id].state.Partitioned? <==>
                  EverFoundSilent(d.peers[id].lastSeen, inputs, id, Silence(h.cfg, h.cfg.partitionAfterMissed))
                  || (d.peers[id].state.Partitioned? && QuietFrom(inputs, id, 0)))
  {
    hide EverFoundSilent, QuietFrom, Silence, Watch;
    StateIff(h, d, inputs, id);
  }

  // ------------------------------------------------------------------ right after a check

  /** The last input of a run reacts to what the run before it left. */
  lemma WatchSnoc(h: Host, d: Detector, inputs: seq<Input>, input: Input)
    ensures Watch(h, d, inputs + [input]) == React(h, Watch(h, d, inputs), input)
  {
    assert (inputs + [input])[..|inputs|] == inputs;
  }

  lemma SeenAfterCheck(h: Host, d: Detector, inputs: seq<Input>, now: int, id: string)
    requires id in d.peers && !d.peers[id].state.Decommission?
    requires forall input :: input in inputs ==> !Concerns(input, id)
    ensures var e := Watch(h, d, inputs + [Check(now)]); var heard := LastHeard(d.peers[id].lastSeen, inputs, id);
      && id in e.peers && e.peers[id].lastSeen == heard
      && (now - heard > Silence(h.cfg, h.cfg.partitionAfterMissed) ==> e.peers[id].state.Partitioned?)
      && (e.peers[id].state.Active? ==> now - heard <= Silence(h.cfg, h.cfg.suspectAfterMissed))
  {
    PartitionedIff(h, d, inputs, id);
    WatchSnoc(h, d, inputs, Check(now));
  }

  /**
   * After any run that ends with a check: the flag says whether a strict majority of the known peers is partitioned, and
   * a peer that was a member throughout is partitioned when its last heartbeat is older than the partition threshold,
   * and active only when it is no older than the suspect threshold.
   */
  lemma CheckIsAccurate(h: Host, d: Detector, inputs: seq<Input>, now: int)
    ensures var e := Watch(h, d, inputs + [Check(now)]);
      && (e.splitBrain <==> 2 * |set id | id in e.peers && e.peers[id].state.Partitioned?| > |e.peers|)
      && forall id :: id in d.peers && !d.peers[id].state.Decommission? && (forall input :: input in inputs ==> !Concerns(input, id)) ==>
           var heard := LastHeard(d.peers[id].lastSeen, inputs, id);
           && id in e.peers && e.peers[id].lastSeen == heard
           && (now - heard > Silence(h.cfg, h.cfg.partitionAfterMissed) ==> e.peers[id].state.Partitioned?)
           && (e.peers[id].state.Active? ==> now - heard <= Silence(h.cfg, h.cfg.suspectAfterMissed))
  {
    hide PartitionThreshold, SuspectThreshold, Silence, Aged;
    WatchSnoc(h, d, inputs, Check(now));
    var e := Watch(h, d, inputs + [Check(now)]);
    assert (set id | id in e.peers && e.peers[id].state.Partitioned?) == PartitionedIds(e.peers);
    forall id | id in d.peers && !d.peers[id].state.Decommission? && (forall input :: input in inputs ==> !Concerns(input, id))
      ensures var heard := LastHeard(d.peers[id].lastSeen, inputs, id);
           && id in e.peers && e.peers[id].lastSeen == heard
           && (now - heard > Silence(h.cfg, h.cfg.partitionAfterMissed) ==> e.peers[id].state.Partitioned?)
           && (e.peers[id].state.Active? ==> now - heard <= Silence(h.cfg, h.cfg.suspectAfterMissed))
    {
      SeenAfterCheck(h, d, inputs, now, id);
    }
  }

  // ------------------------------------------------------------------ who is a member

  /** A heartbeat makes its sender a member, and so does registering it, unless it is this node. */
  predicate Adds(h: Host, input: Input, id: string) {
    IsBeat(input, id) || (input.Join? && input.id == id && id != h.nodeID)
  }

  predicate StaysFrom(inputs: seq<Input>, id: string, i: nat) {
    forall j :: i <= j < |inputs| ==> !(inputs[j].Leave? && inputs[j].id == id)
  }

  predicate AddedAt(h: Host, inputs: seq<Input>, id: string, i: nat)
    requires i < |inputs|
  {
    Adds(h, inputs[i], id) && StaysFrom(inputs, id, i)
  }

  /** A peer is a member after a run exactly when it was one or was added, and has not been removed since. */
  lemma {:induction false} MemberIff(h: Host, d: Detector, inputs: seq<Input>, id: string)
    ensures id in Watch(h, d, inputs).peers <==>
        (id in d.peers && StaysFrom(inputs, id, 0)) || exists i :: 0 <= i < |inputs| && AddedAt(h, inputs, id, i)
  {
    hide Known, Majority, AgedPeers;
    if inputs != [] {
      var n := |inputs| - 1;
      var front := inputs[..n];
      MemberIff(h, d, front, id);
      if i :| 0 <= i < n && AddedAt(h, front, id, i) {
        assert inputs[i] == front[i];
        assert !(inputs[n].Leave? && inputs[n].id == id) ==> AddedAt(h, inputs, id, i);
      }
      if i :| 0 <= i < n && AddedAt(h, inputs, id, i) {
        assert AddedAt(h, front, id, i);
      }
      assert AddedAt(h, inputs, id, n) <==> Adds(h, inputs[n], id);
      assert StaysFrom(inputs, id, 0) <==> StaysFrom(front, id, 0) && !(inputs[n].Leave? && inputs[n].id == id);
    }
  }

  /** Registering and removing a peer touch nothing but its entry. */
  lemma MembershipRecords(h: Host, d: Detector, id: string, peer: Peer, at: int)
    requires id != h.nodeID
    ensures React(h, d, Join(id, peer, at)) == d.(peers := d.peers[id := peer.(joinedAt := at)])
    ensures React(h, d, Leave(id)) == d.(peers := map k | k in d.peers && k != id :: d.peers[k])
  {
    assert d.peers - {id} == map k | k in d.peers && k != id :: d.peers[k];
  }

  // ------------------------------------------------------------------ what one input records

  /** A check records a conflict exactly when it raises the flag. */
  lemma CheckRecords(h: Host, d: Detector, now: int)
    ensures var e := React(h, d, Check(now));
      e.conflicts == if !d.splitBrain && e.splitBrain
                     then d.conflicts + [Conflict(SplitBrain, now, h.nodeID, "multiple")] else d.conflicts
  {
    hide Majority, AgedPeers;
  }

  /**
   * A heartbeat makes its sender active and nothing else of it, registers an unknown one with trust 1, the default scope
   * and cursor 0, and records a conflict when both sides have a policy version and they differ.
   */
  lemma BeatRecords(h: Host, d: Detector, hb: Heartbeat, at: int)
    ensures var e := React(h, d, Beat(hb, at));
      && e.splitBrain == d.splitBrain && e.actions == d.actions
      && (hb.nodeID in d.peers ==>
            e.peers == d.peers[hb.nodeID := d.peers[hb.nodeID].(lastSeen := hb.timestamp, state := Active)])
      && (hb.nodeID !in d.peers ==>
            e.peers == d.peers[hb.nodeID := Peer(hb.region, Active, hb.timestamp, 0, 1, h.cfg.defaultSyncScope, at)])
      && e.conflicts ==
         if h.policy.Some? && h.policy.value != "" && hb.policyVersion != "" && h.policy.value != hb.policyVersion
         then d.conflicts + [Conflict(DivergentPolicy, at, h.nodeID, hb.nodeID)] else d.conflicts
  {
  }
}
