/** What the intake side of the outbox keeps: every record is in exactly one place, and in order. */
module OutboxIntake {
  import opened Storage
  import opened Outbox

  function HandOf(p: Persist): seq<nat> {
    match p
    case PHolding(c) => [c]
    case _ => []
  }

  /** Acceptance numbers split, in order, into disposed of, in the persist worker's hand, and queued. */
  ghost predicate QueueInv(i: Intake) {
    && |i.logCh| <= LOG_BUFFER_SIZE
    && |i.outcomes| <= |i.accepted|
    && i.accepted[|i.outcomes|..] == HandOf(i.persist) + i.logCh
    && (forall k :: 0 <= k < |i.accepted| ==> i.accepted[k] < |i.calls| && i.calls[i.accepted[k]].fate == Accepted(k))
    && (forall c :: 0 <= c < |i.calls| && i.calls[c].fate.Accepted? ==>
          i.calls[c].fate.number < |i.accepted| && i.accepted[i.calls[c].fate.number] == c)
  }

  /** Row id was made by call c, by way of the queue or not. */
  ghost predicate MadeBy(i: Intake, id: nat, c: nat, viaQueue: bool) {
    1 <= id <= |i.origins| && i.origins[id - 1].call == c && i.origins[id - 1].viaQueue == viaQueue
  }

  /** Rows and the calls that made them are in one-to-one correspondence. */
  ghost predicate OriginInv(i: Intake) {
    && |i.outcomes| <= |i.accepted|
    && (forall k :: 0 <= k < |i.outcomes| && i.outcomes[k].Saved? ==> MadeBy(i, i.outcomes[k].id, i.accepted[k], true))
    && (forall c :: 0 <= c < |i.calls| && i.calls[c].fate.SavedDirectly? ==> MadeBy(i, i.calls[c].fate.id, c, false))
    && (forall j :: 0 <= j < |i.origins| ==> i.origins[j].call < |i.calls| && MakerKnows(i, j))
  }

  /** The call that made row j + 1 is on record as having made it. */
  ghost predicate MakerKnows(i: Intake, j: nat)
    requires j < |i.origins| && i.origins[j].call < |i.calls|
  {
    var fate := i.calls[i.origins[j].call].fate;
    if i.origins[j].viaQueue
    then fate.Accepted? && fate.number < |i.outcomes| && i.outcomes[fate.number] == Saved(j + 1)
    else fate == SavedDirectly(j + 1)
  }

  /** Queue-origin rows are in acceptance order, and a row made directly by an emitLog caller has
      overtaken only records that were in the channel or in the persist worker's hand. */
  ghost predicate OrderInv(i: Intake) {
    && (forall k :: 0 <= k < |i.outcomes| && i.outcomes[k].Saved? ==> 1 <= i.outcomes[k].id <= |i.origins|)
    && (forall k, k' :: 0 <= k < k' < |i.outcomes| && i.outcomes[k].Saved? && i.outcomes[k'].Saved? ==>
          i.outcomes[k].id < i.outcomes[k'].id)
    && (forall j :: 0 <= j < |i.origins| ==>
          && i.origins[j].disposedBefore <= |i.outcomes|
          && i.origins[j].disposedBefore <= i.origins[j].acceptedBefore
          && i.origins[j].acceptedBefore <= i.origins[j].disposedBefore + LOG_BUFFER_SIZE + 1)
    && (forall j, k :: 0 <= j < |i.origins| && 0 <= k < |i.outcomes| && i.outcomes[k].Saved? ==>
          (i.outcomes[k].id <= j <==> k < i.origins[j].disposedBefore))
  }

  ghost predicate IntakeInv(i: Intake) {
    QueueInv(i) && OriginInv(i) && OrderInv(i)
  }

  lemma AcceptKeeps(i: Intake, rec: LogRecord)
    requires IntakeInv(i) && |i.logCh| < LOG_BUFFER_SIZE
    ensures IntakeInv(Accept(i, rec))
  {
    AcceptQueue(i, rec);
    AcceptOrigin(i, rec);
  }

  lemma AcceptQueue(i: Intake, rec: LogRecord)
    requires QueueInv(i) && |i.logCh| < LOG_BUFFER_SIZE
    ensures QueueInv(Accept(i, rec))
  {
    assert Accept(i, rec).accepted[|i.outcomes|..] == i.accepted[|i.outcomes|..] + [|i.calls|];
  }

  lemma AcceptOrigin(i: Intake, rec: LogRecord)
    requires QueueInv(i) && OriginInv(i)
    ensures OriginInv(Accept(i, rec))
  {
    assert forall j :: 0 <= j < |i.origins| ==> MakerKnows(i, j) ==> MakerKnows(Accept(i, rec), j);
  }

  lemma RejectKeeps(i: Intake, rec: LogRecord)
    requires IntakeInv(i)
    ensures IntakeInv(Reject(i, rec))
  {
    assert forall j :: 0 <= j < |i.origins| ==> MakerKnows(i, j) ==> MakerKnows(Reject(i, rec), j);
  }

  lemma SaveRejectedKeeps(i: Intake, c: nat)
    requires IntakeInv(i) && c < |i.calls| && i.calls[c].fate == Rejected
    ensures IntakeInv(SaveRejected(i, c))
  {
    SaveRejectedQueue(i, c);
    SaveRejectedOrigin(i, c);
    SaveRejectedOrder(i, c);
  }

  lemma SaveRejectedQueue(i: Intake, c: nat)
    requires QueueInv(i) && c < |i.calls| && i.calls[c].fate == Rejected
    ensures QueueInv(SaveRejected(i, c))
  {
  }

  lemma SaveRejectedOrigin(i: Intake, c: nat)
    requires QueueInv(i) && OriginInv(i) && c < |i.calls| && i.calls[c].fate == Rejected
    ensures OriginInv(SaveRejected(i, c))
  {
    var i' := SaveRejected(i, c);
    assert forall j :: 0 <= j < |i.origins| ==> MakerKnows(i, j) ==> MakerKnows(i', j);
    assert MakerKnows(i', |i.origins|);
  }

  lemma SaveRejectedOrder(i: Intake, c: nat)
    requires QueueInv(i) && OrderInv(i) && c < |i.calls| && i.calls[c].fate == Rejected
    ensures OrderInv(SaveRejected(i, c))
  {
    HeldCount(i);
  }

  lemma LoseRejectedKeeps(i: Intake, c: nat)
    requires IntakeInv(i) && c < |i.calls| && i.calls[c].fate == Rejected
    ensures IntakeInv(LoseRejected(i, c))
  {
    assert forall j :: 0 <= j < |i.origins| ==> MakerKnows(i, j) ==> MakerKnows(LoseRejected(i, c), j);
  }

  lemma TakeKeeps(i: Intake)
    requires IntakeInv(i) && i.persist == PIdle && i.logCh != []
    ensures IntakeInv(Take(i))
  {
    var i' := Take(i);
    assert HandOf(i'.persist) + i'.logCh == i.logCh;
    assert forall j :: 0 <= j < |i.origins| ==> MakerKnows(i, j) ==> MakerKnows(i', j);
  }

  lemma SaveHeldKeeps(i: Intake)
    requires IntakeInv(i) && i.persist.PHolding?
    ensures IntakeInv(SaveHeld(i))
  {
    SaveHeldQueue(i);
    SaveHeldOrigin(i);
    SaveHeldOrder(i);
  }

  lemma SaveHeldQueue(i: Intake)
    requires QueueInv(i) && i.persist.PHolding?
    ensures QueueInv(SaveHeld(i))
  {
    HeldIsNext(i);
    assert SaveHeld(i).accepted[|i.outcomes| + 1..] == i.logCh;
  }

  lemma SaveHeldOrigin(i: Intake)
    requires QueueInv(i) && OriginInv(i) && i.persist.PHolding?
    ensures OriginInv(SaveHeld(i))
  {
    var i' := SaveHeld(i);
    HeldIsNext(i);
    assert forall j :: 0 <= j < |i.origins| ==> MakerKnows(i, j) ==> MakerKnows(i', j);
    assert MakerKnows(i', |i.origins|);
  }

  lemma SaveHeldOrder(i: Intake)
    requires QueueInv(i) && OrderInv(i) && i.persist.PHolding?
    ensures OrderInv(SaveHeld(i))
  {
    HeldIsNext(i);
    HeldCount(i);
  }

  /** At most a full channel and one record in hand lie between acceptance and disposal. */
  lemma HeldCount(i: Intake)
    requires QueueInv(i)
    ensures |i.accepted| <= |i.outcomes| + LOG_BUFFER_SIZE + 1
  {
    assert |i.accepted[|i.outcomes|..]| == |HandOf(i.persist)| + |i.logCh|;
  }

  lemma HeldIsNext(i: Intake)
    requires QueueInv(i) && i.persist.PHolding?
    ensures |i.outcomes| < |i.accepted| && i.accepted[|i.outcomes|] == i.persist.call && i.persist.call < |i.calls|
    ensures i.accepted[|i.outcomes| + 1..] == i.logCh
  {
    assert i.accepted[|i.outcomes|..] == [i.persist.call] + i.logCh;
    assert i.accepted[|i.outcomes|..][0] == i.persist.call;
    assert i.accepted[|i.outcomes|..][1..] == i.logCh;
  }

  lemma DropHeldKeeps(i: Intake)
    requires IntakeInv(i) && i.persist.PHolding?
    ensures IntakeInv(DropHeld(i))
  {
    DropHeldQueue(i);
    DropHeldOrigin(i);
    DropHeldOrder(i);
  }

  lemma DropHeldQueue(i: Intake)
    requires QueueInv(i) && i.persist.PHolding?
    ensures QueueInv(DropHeld(i))
  {
    HeldIsNext(i);
  }

  lemma DropHeldOrigin(i: Intake)
    requires QueueInv(i) && OriginInv(i) && i.persist.PHolding?
    ensures OriginInv(DropHeld(i))
  {
    HeldIsNext(i);
    assert forall j :: 0 <= j < |i.origins| ==> MakerKnows(i, j) ==> MakerKnows(DropHeld(i), j);
  }

  lemma DropHeldOrder(i: Intake)
    requires QueueInv(i) && OrderInv(i) && i.persist.PHolding?
    ensures OrderInv(DropHeld(i))
  {
  }

  lemma PersistIdleKeeps(i: Intake, p: Persist)
    requires IntakeInv(i) && !i.persist.PHolding? && !p.PHolding?
    ensures IntakeInv(i.(persist := p))
  {
    assert forall j :: 0 <= j < |i.origins| ==> MakerKnows(i, j) ==> MakerKnows(i.(persist := p), j);
  }

  lemma RestartIntakeKeeps(i: Intake)
    requires IntakeInv(i)
    ensures IntakeInv(RestartIntake(i))
  {
    RestartIntakeQueue(i);
    RestartIntakeOrigin(i);
    RestartIntakeOrder(i);
  }

  lemma RestartIntakeQueue(i: Intake)
    requires QueueInv(i)
    ensures QueueInv(RestartIntake(i))
  {
    assert RestartIntake(i).accepted[|i.accepted|..] == [];
  }

  lemma RestartIntakeOrigin(i: Intake)
    requires QueueInv(i) && OriginInv(i)
    ensures OriginInv(RestartIntake(i))
  {
    var i' := RestartIntake(i);
    assert forall j :: 0 <= j < |i.origins| ==> MakerKnows(i, j) ==> MakerKnows(i', j);
  }

  lemma RestartIntakeOrder(i: Intake)
    requires QueueInv(i) && OrderInv(i)
    ensures OrderInv(RestartIntake(i))
  {
  }
}
