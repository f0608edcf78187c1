/** Opening a node's range on a stream and proposing what was scanned, against a run's session. */
module ChangeRange {
  import opened ChannelGraph
  import opened CommitLog
  import opened ChangePages
  import opened Checkpoints

  datatype Range = Range(spot: Spot, after: Option<Position>, bound: nat)

  datatype Refusal = LogOff | CheckpointInvalid

  datatype OpenResult = Open(range: Range) | Refuse(reason: Refusal)

  /** After the durable cursor or the run's own proposal, whichever is later; after the proposal alone when
      checkpoints are ignored. */
  ghost function StartOf(session: RunCheckpoints, spot: Spot, ignoring: bool): Option<Position>
    reads session, session.store
  {
    if ignoring then Get(session.proposals, spot)
    else MaxPosition(Get(session.store.rows, Key(session.channel, spot)), Get(session.proposals, spot))
  }

  /** `recording`, `mark` and `latest` are what the log answers when asked. */
  method OpenChangeRange(session: RunCheckpoints, spot: Spot, ignoring: bool, recording: bool, mark: Option<Position>,
                         latest: nat)
      returns (result: OpenResult)
    requires session.Valid()
    modifies session`bounds
    ensures session.Valid()
    ensures result == Refuse(LogOff) <==> !recording
    ensures result == Refuse(CheckpointInvalid) <==>
      recording && !ignoring && Refused(Get(session.store.rows, Key(session.channel, spot)), mark)
    ensures result.Open? ==> result.range.spot == spot && result.range.after == StartOf(session, spot, ignoring)
    ensures result.Open? ==> spot in session.bounds && result.range.bound == session.bounds[spot]
    ensures session.bounds == if result.Open? && spot !in old(session.bounds) then old(session.bounds)[spot := latest]
        else old(session.bounds)
  {
    if !recording {
      return Refuse(LogOff);
    }
    if !ignoring {
      var durable := session.Durable(spot);
      if durable.Some? && mark.Some? && Before(durable.value, mark.value) {
        return Refuse(CheckpointInvalid);
      }
    }
    var after;
    if ignoring {
      after := session.Proposed(spot);
    } else {
      after := session.Stored(spot);
    }
    var bound := session.Bound(spot, latest);
    return Open(Range(spot, after, bound));
  }

  /** An empty scan proposes nothing; otherwise the last entry scanned, which only moves the proposal up. */
  method ProposeChangeRange(session: RunCheckpoints, range: Range, scanned: seq<Position>)
    requires session.Valid()
    modifies session`proposals, session`row
    ensures session.Valid()
    ensures session.proposals == if scanned == [] then old(session.proposals)
        else Raise(old(session.proposals), range.spot, scanned[|scanned| - 1])
  {
    if scanned == [] {
      return;
    }
    session.Propose(range.spot, scanned[|scanned| - 1]);
  }
}
