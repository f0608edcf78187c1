/** One inbound call waiting for the first Respond of its job: the API thread reads, waits, closes and reads
    a last time, a closer thread closes at the deadline, and workers claim, all on one expiring slot. */
module InboundResponse {
  import opened Digraph
  import opened ChannelGraph

  /** What a worker answers with. */
  datatype Payload = Payload(json: string)

  datatype SlotState = IsOpen | IsAnswered | IsClosed

  datatype Slot = Slot(state: SlotState, payload: Option<Payload>, expiresAt: int)

  /** A slot past its expiry is gone. */
  function Current(slot: Option<Slot>, now: int): Option<Slot> {
    if slot.Some? && slot.value.expiresAt <= now then None else slot
  }

  function Opened(slot: Option<Slot>, now: int, ttl: int): Option<Slot> {
    var s := Current(slot, now);
    if s.Some? then s else Some(Slot(IsOpen, None, now + ttl))
  }

  predicate Claimable(slot: Option<Slot>, now: int) {
    var s := Current(slot, now);
    s.Some? && s.value.state.IsOpen?
  }

  function Claimed(slot: Option<Slot>, now: int, payload: Payload): Option<Slot> {
    var s := Current(slot, now);
    if Claimable(slot, now) then Some(s.value.(state := IsAnswered, payload := Some(payload))) else s
  }

  function Closed(slot: Option<Slot>, now: int): Option<Slot> {
    var s := Current(slot, now);
    if Claimable(slot, now) then Some(s.value.(state := IsClosed)) else s
  }

  function Answer(slot: Option<Slot>, now: int): Option<Payload> {
    var s := Current(slot, now);
    if s.Some? && s.value.state.IsAnswered? then s.value.payload else None
  }

  class MemoryInboundResponseStore {
    var slots: map<Id, Slot>

    function At(job: Id): Option<Slot>
      reads this
    {
      if job in slots then Some(slots[job]) else None
    }

    twostate predicate Only(job: Id)
      reads this
    {
      forall j :: j != job ==> At(j) == old(At(j))
    }

    /** Drops the slot when it has expired. */
    method Look(job: Id, now: int) returns (slot: Option<Slot>)
      modifies this
      ensures slot == Current(old(At(job)), now) && At(job) == slot && Only(job)
    {
      if job !in slots {
        return None;
      }
      if slots[job].expiresAt <= now {
        slots := slots - {job};
        return None;
      }
      return Some(slots[job]);
    }

    method Open(job: Id, ttl: int, now: int)
      modifies this
      ensures At(job) == Opened(old(At(job)), now, ttl) && Only(job)
    {
      var slot := Look(job, now);
      if slot.Some? {
        return;
      }
      slots := slots[job := Slot(IsOpen, None, now + ttl)];
    }

    method Claim(job: Id, payload: Payload, now: int) returns (won: bool)
      modifies this
      ensures At(job) == Claimed(old(At(job)), now, payload) && Only(job)
      ensures won <==> Claimable(old(At(job)), now)
    {
      var slot := Look(job, now);
      if slot.None? || !slot.value.state.IsOpen? {
        return false;
      }
      slots := slots[job := slot.value.(state := IsAnswered, payload := Some(payload))];
      return true;
    }

    method Read(job: Id, now: int) returns (payload: Option<Payload>)
      modifies this
      ensures At(job) == Current(old(At(job)), now) && Only(job)
      ensures payload == Answer(old(At(job)), now)
    {
      var slot := Look(job, now);
      if slot.None? || !slot.value.state.IsAnswered? {
        return None;
      }
      return slot.value.payload;
    }

    method Close(job: Id, now: int)
      modifies this
      ensures At(job) == Closed(old(At(job)), now) && Only(job)
    {
      var slot := Look(job, now);
      if slot.None? || !slot.value.state.IsOpen? {
        return;
      }
      slots := slots[job := slot.value.(state := IsClosed)];
    }
  }

  // ---------- the call ----------

  /** Where the API thread is. `Replied` holds what the client got; no payload is the fallback. */
  datatype Api =
    | Arriving
    | SlotOpen
    | Dispatched
    | Waiting
    | Closing
    | LastLook
    | Replied(payload: Option<Payload>)

  /** `wait` and `margin` are the configured wait and what the slot outlives it by. `claims` remembers the
      payloads whose claim returned true, `readAt` the moment of the thread's latest read. */
  datatype Call = Call(now: int, slot: Option<Slot>, api: Api, wait: int, margin: int, openedAt: int, deadline: int,
                       closerDone: bool, cancelled: bool, claims: seq<Payload>, readAt: int)

  function Fresh(now: int, wait: int, margin: int): Call {
    Call(now, None, Arriving, wait, margin, now, now + wait, false, false, [], now)
  }

  datatype Move =
    | Tick(span: nat)
    | ApiOpens
    | ApiDispatches
    | ApiReads
    | ApiWakes
    | ApiCloses
    | ApiReadsLast
    | CloserCloses
    | CloserQuits
    | WorkerClaims(payload: Payload)

  predicate Can(c: Call, m: Move) {
    match m
    case Tick(_) => true
    case ApiOpens => c.api.Arriving?
    case ApiDispatches => c.api.SlotOpen?
    case ApiReads => c.api.Dispatched?
    case ApiWakes => c.api.Waiting?
    case ApiCloses => c.api.Closing?
    case ApiReadsLast => c.api.LastLook?
    case CloserCloses => !c.api.Arriving? && !c.api.SlotOpen? && !c.closerDone && c.deadline <= c.now
    case CloserQuits => c.cancelled && !c.closerDone
    case WorkerClaims(_) => true
  }

  /** The thread read the slot: a payload is sent at once, otherwise it goes on. */
  function Looked(c: Call, next: Api): Call {
    var payload := Answer(c.slot, c.now);
    var d := c.(slot := Current(c.slot, c.now), readAt := c.now);
    if payload.Some? then d.(api := Replied(payload), cancelled := true) else d.(api := next)
  }

  function Do(c: Call, m: Move): Call {
    match m
    case Tick(span) => c.(now := c.now + span)
    case ApiOpens => c.(slot := Opened(c.slot, c.now, c.wait + c.margin), api := SlotOpen, openedAt := c.now)
    case ApiDispatches => c.(deadline := c.now + c.wait, api := Dispatched)
    case ApiReads => Looked(c, if c.deadline <= c.now then Closing else Waiting)
    case ApiWakes => Looked(c, Closing)
    case ApiCloses => c.(slot := Closed(c.slot, c.now), api := LastLook, cancelled := true)
    case ApiReadsLast => Looked(c, Replied(None))
    case CloserCloses => c.(slot := Closed(c.slot, c.now), closerDone := true)
    case CloserQuits => c.(closerDone := true)
    case WorkerClaims(payload) =>
      var d := c.(slot := Claimed(c.slot, c.now, payload));
      if Claimable(c.slot, c.now) then d.(claims := c.claims + [payload]) else d
  }

  ghost predicate Step(c: Call, d: Call) {
    exists m :: Can(c, m) && d == Do(c, m)
  }

  ghost predicate IsHistory(calls: seq<Call>) {
    && |calls| > 0 && calls[0] == Fresh(calls[0].now, calls[0].wait, calls[0].margin)
    && forall i :: 0 <= i < |calls| - 1 ==> Step(calls[i], calls[i + 1])
  }

  /** The slot, when there, expires when promised, and is answered exactly by the one claim that won. */
  ghost predicate SlotTellsClaims(c: Call) {
    && |c.claims| <= 1
    && (c.api.Arriving? ==> c.slot.None? && c.claims == [])
    && (c.slot.Some? ==>
          && c.slot.value.expiresAt == c.openedAt + c.wait + c.margin
          && (c.slot.value.state.IsAnswered? <==> c.claims != [])
          && c.slot.value.payload == if c.claims == [] then None else Some(c.claims[0]))
    && (!c.api.Arriving? && c.slot.None? ==> Expired(c))
  }

  predicate Expired(c: Call) {
    c.openedAt + c.wait + c.margin <= c.now
  }

  /** Once the thread has closed the slot, nothing can claim it. */
  ghost predicate ShutMeansShut(c: Call) {
    c.api.LastLook? || c.api.Replied? ==> !Claimable(c.slot, c.now)
  }

  /** What the client was sent, against what was claimed. */
  ghost predicate ReplyTellsClaims(c: Call) {
    c.api.Replied? ==>
      && (c.api.payload.Some? ==> c.claims == [c.api.payload.value])
      && (c.api.payload.None? && c.claims != [] ==> c.openedAt + c.wait + c.margin <= c.readAt)
      && (c.api.payload.Some? ==> c.readAt < c.openedAt + c.wait + c.margin)
  }

  ghost predicate Sound(c: Call) {
    SlotTellsClaims(c) && ShutMeansShut(c) && ReplyTellsClaims(c)
  }

  /** The same call goes on: nothing claimed is forgotten, and a reply is final. */
  ghost predicate GoesOn(c: Call, d: Call) {
    && c.claims <= d.claims
    && (c.api.Replied? ==>
          && d.api == c.api && d.claims == c.claims && d.readAt == c.readAt
          && d.openedAt == c.openedAt && d.wait == c.wait && d.margin == c.margin)
  }

  lemma LookKeepsSound(c: Call, next: Api)
    requires Sound(c) && !c.api.Arriving? && !c.api.Replied?
    requires next == Closing || next == Waiting || (next == Replied(None) && c.api.LastLook?)
    ensures Sound(Looked(c, next)) && GoesOn(c, Looked(c, next))
  {
  }

  lemma CloseKeepsSound(c: Call, m: Move)
    requires Sound(c) && Can(c, m) && (m.ApiCloses? || m.CloserCloses?)
    ensures Sound(Do(c, m)) && GoesOn(c, Do(c, m))
  {
  }

  lemma ClaimKeepsSound(c: Call, payload: Payload)
    requires Sound(c)
    ensures Sound(Do(c, WorkerClaims(payload))) && GoesOn(c, Do(c, WorkerClaims(payload)))
  {
  }

  lemma QuietMoveKeepsSound(c: Call, m: Move)
    requires Sound(c) && Can(c, m) && (m.Tick? || m.ApiOpens? || m.ApiDispatches? || m.CloserQuits?)
    ensures Sound(Do(c, m)) && GoesOn(c, Do(c, m))
  {
  }

  lemma MoveKeepsSound(c: Call, m: Move)
    requires Sound(c) && Can(c, m)
    ensures Sound(Do(c, m)) && GoesOn(c, Do(c, m))
  {
    match m
    case WorkerClaims(payload) => ClaimKeepsSound(c, payload);
    case ApiCloses => CloseKeepsSound(c, m);
    case CloserCloses => CloseKeepsSound(c, m);
    case ApiReads => LookKeepsSound(c, if c.deadline <= c.now then Closing else Waiting);
    case ApiWakes => LookKeepsSound(c, Closing);
    case ApiReadsLast => LookKeepsSound(c, Replied(None));
    case _ => QuietMoveKeepsSound(c, m);
  }

  lemma StepKeepsSound(c: Call, d: Call)
    requires Sound(c) && Step(c, d)
    ensures Sound(d) && GoesOn(c, d)
  {
    var m :| Can(c, m) && d == Do(c, m);
    MoveKeepsSound(c, m);
  }

  lemma {:induction false} HistoryIsSound(calls: seq<Call>, i: nat)
    requires IsHistory(calls) && i < |calls|
    ensures Sound(calls[i])
  {
    if i > 0 {
      HistoryIsSound(calls, i - 1);
      StepKeepsSound(calls[i - 1], calls[i]);
    }
  }

  lemma GoesOnTwice(c: Call, d: Call, e: Call)
    requires GoesOn(c, d) && GoesOn(d, e)
    ensures GoesOn(c, e)
  {}

  lemma GoesOnFromItself(c: Call)
    ensures GoesOn(c, c)
  {}

  lemma {:induction false} HistoryGoesOn(calls: seq<Call>, i: nat, j: nat)
    requires IsHistory(calls) && i <= j < |calls|
    ensures GoesOn(calls[i], calls[j])
  {
    hide Sound, Step, GoesOn;
    if i == j {
      GoesOnFromItself(calls[i]);
    } else {
      HistoryGoesOn(calls, i, j - 1);
      HistoryIsSound(calls, j - 1);
      assert Step(calls[j - 1], calls[j - 1 + 1]);
      StepKeepsSound(calls[j - 1], calls[j]);
      GoesOnTwice(calls[i], calls[j - 1], calls[j]);
    }
  }

  /** In every interleaving at most one claim ever succeeds, and none after the reply. The client gets the
      claimed payload exactly when a claim succeeded and the thread's last read came before the slot expired. */
  lemma ClientGetsTheClaimedAnswer(calls: seq<Call>, i: nat, j: nat)
    requires IsHistory(calls) && i <= j < |calls| && calls[i].api.Replied?
    ensures |calls[j].claims| <= 1 && calls[j].claims == calls[i].claims
    ensures var c := calls[i];
      c.api.payload == if c.claims != [] && c.readAt < c.openedAt + c.wait + c.margin then Some(c.claims[0]) else None
  {
    HistoryIsSound(calls, i);
    HistoryGoesOn(calls, i, j);
  }

  lemma OneMoreMove(calls: seq<Call>, m: Move)
    requires IsHistory(calls) && Can(calls[|calls| - 1], m)
    ensures IsHistory(calls + [Do(calls[|calls| - 1], m)])
  {
    var n, more := |calls| - 1, calls + [Do(calls[|calls| - 1], m)];
    assert Step(calls[n], Do(calls[n], m));
    forall i | 0 <= i < n + 1 ensures Step(more[i], more[i + 1]) {
      assert i < n ==> Step(calls[i], calls[i + 1]);
    }
  }

  lemma ClaimedInTime(payload: Payload) returns (calls: seq<Call>)
    ensures IsHistory(calls)
    ensures calls[|calls| - 1] == Call(0, Some(Slot(IsAnswered, Some(payload), 125)), Dispatched, 5, 120, 0, 5, false,
        false, [payload], 0)
  {
    var a := Fresh(0, 5, 120);
    var b := Do(a, ApiOpens);
    var c := Do(b, ApiDispatches);
    calls := [a];
    OneMoreMove(calls, ApiOpens);
    calls := calls + [b];
    OneMoreMove(calls, ApiDispatches);
    calls := calls + [c];
    OneMoreMove(calls, WorkerClaims(payload));
    calls := calls + [Do(c, WorkerClaims(payload))];
  }

  /** The condition is needed: a thread that wakes only after the slot expired sends the fallback although
      the worker's claim returned true. */
  lemma LateReadLosesTheAnswer(payload: Payload) returns (calls: seq<Call>)
    ensures IsHistory(calls)
    ensures calls[|calls| - 1].api == Replied(None) && calls[|calls| - 1].claims == [payload]
  {
    calls := ClaimedInTime(payload);
    var e := Call(125, Some(Slot(IsAnswered, Some(payload), 125)), Dispatched, 5, 120, 0, 5, false, false, [payload],
        0);
    OneMoreMove(calls, Tick(125));
    calls := calls + [e];
    var f := e.(slot := None, api := Closing, readAt := 125);
    OneMoreMove(calls, ApiReads);
    calls := calls + [f];
    var g := f.(api := LastLook, cancelled := true);
    OneMoreMove(calls, ApiCloses);
    calls := calls + [g];
    OneMoreMove(calls, ApiReadsLast);
    calls := calls + [g.(api := Replied(None))];
  }
}
