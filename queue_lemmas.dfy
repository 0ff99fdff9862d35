/** What the sender loop, its transports and the inReach slot guarantee. */
module QueueProperties {
  import opened Wrappers
  import opened MessageStore
  import opened SuccinctDataQueue

  /**
   * What the two availability checks decide. Without a connected network the upload is
   * not attempted; SMS is skipped only for a known, empty operator name (a null one
   * counts as available); with neither, the row goes to inReach if that is ready.
   */
  lemma AvailabilityGovernsDispatch(env: Env, inReachReady: bool)
    ensures env.activeNetwork != Some(true) ==>
      !DispatchRow(env, inReachReady).cellularTried && DispatchRow(env, inReachReady).sentVia != Some(Cellular)
    ensures env.operator == Some("") ==>
      !DispatchRow(env, inReachReady).smsTried && DispatchRow(env, inReachReady).sentVia != Some(Sms)
    ensures env.operator.None? && env.http != HttpStatus(HttpOk) ==> DispatchRow(env, inReachReady).smsTried
    ensures env.activeNetwork != Some(true) && env.operator == Some("") ==>
      DispatchRow(env, inReachReady).sentVia.None? &&
      (DispatchRow(env, inReachReady).inReachTried <==> inReachReady)
  {
  }

  /** Transports are offered strictly in preference order, and none after one confirmed. */
  lemma TransportPriority(env: Env, inReachReady: bool)
    ensures var d := DispatchRow(env, inReachReady); var t := d.Tried();
      (forall i, j :: 0 <= i < j < |t| ==> Rank(t[i]) < Rank(t[j])) &&
      (d.sentVia.Some? ==> t != [] && t[|t| - 1] == d.sentVia.value)
  {
  }

  /** With a working data connection only the cellular transport is used. */
  lemma CellularFirst(env: Env, inReachReady: bool)
    requires IsInternetAvailable(env.activeNetwork) && env.http == HttpStatus(HttpOk)
    ensures DispatchRow(env, inReachReady).Tried() == [Cellular]
    ensures DispatchRow(env, inReachReady).sentVia == Some(Cellular)
  {
  }

  /** A failed HTTP upload falls back to SMS, and inReach is not tried once SMS confirmed. */
  lemma FallbackToSms(env: Env, inReachReady: bool)
    requires IsInternetAvailable(env.activeNetwork) && env.http != HttpStatus(HttpOk)
    requires IsSmsAvailable(env.operator) && SmsCode(env.smsSendThrows, env.smsFlag) == 0
    ensures DispatchRow(env, inReachReady).Tried() == [Cellular, Sms]
    ensures DispatchRow(env, inReachReady).sentVia == Some(Sms)
  {
  }

  /** `sendSMS` confirms iff the send call did not throw and one of the 60 polls saw RESULT_OK. */
  lemma SmsConfirmedIff(sendThrows: bool, flag: nat -> int)
    ensures SmsCode(sendThrows, flag) == 0 <==>
      !sendThrows && exists i :: 0 <= i < SmsPollLimit && flag(i) == ResultOk
  {
    if !sendThrows && FirstOkPoll(flag, 0).Some? {
      var k := FirstOkPoll(flag, 0).value;
      assert 0 <= k < SmsPollLimit && flag(k) == ResultOk;
    }
  }

  /** A row whose only option was inReach stays queued; its piece goes into the slot. */
  lemma InReachDispatchKeepsRow(st: QueueState, row: Row, env: Env, inReachReady: bool)
    requires DispatchRow(env, inReachReady).inReachTried
    ensures RowStep(st, row, env, inReachReady).queue == st.queue
    ensures RowStep(st, row, env, inReachReady).updates == st.updates
    ensures RowStep(st, row, env, inReachReady).pendingId == InReachPlaceholderId
    ensures RowStep(st, row, env, inReachReady).pendingPiece == Some(row.piece)
  {
  }

  /** ... and it is retired by the confirmation that carries the slot's id. */
  lemma InReachConfirmationRetires(st: QueueState, row: Row, env: Env, inReachReady: bool)
    requires DispatchRow(env, inReachReady).inReachTried
    ensures Confirm(RowStep(st, row, env, inReachReady), InReachPlaceholderId).queue == Delete(st.queue, row.piece)
  {
    InReachDispatchKeepsRow(st, row, env, inReachReady);
  }

  /** A confirmation for any id but the remembered one changes nothing. */
  lemma ConfirmationMismatchIgnored(st: QueueState, id: int)
    requires id != st.pendingId
    ensures Confirm(st, id) == st
  {
  }

  /** A repeated confirmation deletes nothing more. */
  lemma ConfirmationIdempotent(st: QueueState, id: int)
    ensures Confirm(Confirm(st, id), id).queue == Confirm(st, id).queue
  {
    if id == st.pendingId && st.pendingPiece.Some? {
      DeleteIdempotent(st.queue, st.pendingPiece.value);
    }
  }

  /** The slot holds one message: remembering a second one forgets the first. */
  lemma SecondDispatchOverwritesSlot(st: QueueState, id1: int, piece1: string, id2: int, piece2: string)
    requires id1 != id2
    ensures Confirm(Remember(Remember(st, id1, piece1), id2, piece2), id1).queue == st.queue
  {
  }

  /** A piece is in SentPieces iff some row among the first n holds it and was confirmed. */
  lemma {:induction false} SentPiecesMembers(s: seq<Row>, env: nat -> Env, inReachReady: bool, n: nat)
    requires n <= |s|
    ensures forall p :: p in SentPieces(s, env, inReachReady, n) <==>
      exists i :: 0 <= i < n && s[i].piece == p && Sent(env(i), inReachReady)
  {
    if n > 0 {
      SentPiecesMembers(s, env, inReachReady, n - 1);
    }
  }

  /** One row changes the queue only by deleting its own piece, and only when it was confirmed. */
  lemma RowStepQueue(st: QueueState, row: Row, env: Env, inReachReady: bool)
    ensures RowStep(st, row, env, inReachReady).queue ==
      if Sent(env, inReachReady) then Delete(st.queue, row.piece) else st.queue
  {
  }

  /** After n rows, the queue is the starting queue without every piece confirmed so far. */
  lemma {:induction false} PassQueue(st: QueueState, s: seq<Row>, env: nat -> Env, inReachReady: bool, n: nat)
    requires n <= |s|
    ensures PassState(st, s, env, inReachReady, n).queue == Without(st.queue, SentPieces(s, env, inReachReady, n))
  {
    if n == 0 {
      WithoutNothing(st.queue);
    } else {
      PassQueue(st, s, env, inReachReady, n - 1);
      var previous := PassState(st, s, env, inReachReady, n - 1);
      assert PassState(st, s, env, inReachReady, n) == RowStep(previous, s[n - 1], env(n - 1), inReachReady);
      RowStepQueue(previous, s[n - 1], env(n - 1), inReachReady);
      var before := SentPieces(s, env, inReachReady, n - 1);
      if Sent(env(n - 1), inReachReady) {
        var piece := s[n - 1].piece;
        assert SentPieces(s, env, inReachReady, n) == before + {piece};
        assert PassState(st, s, env, inReachReady, n).queue == Without(Without(st.queue, before), {piece});
        WithoutWithout(st.queue, before, {piece});
      } else {
        assert SentPieces(s, env, inReachReady, n) == before;
      }
    }
  }

  /**
   * A cycle deletes exactly the rows whose piece some transport confirmed: every copy
   * of an unconfirmed row stays, and the rows left keep their insertion order.
   */
  lemma CycleRetiresExactlySent(st: QueueState, env: nat -> Env, inReachReady: bool)
    ensures var after := CycleResult(st, env, inReachReady).queue;
      var sent := SentPieces(st.queue, env, inReachReady, |st.queue|);
      (forall x :: x in after <==> x in st.queue && x.piece !in sent) &&
      (forall x :: multiset(after)[x] == if x.piece in sent then 0 else multiset(st.queue)[x]) &&
      IsSubsequence(after, st.queue)
  {
    PassQueue(st, st.queue, env, inReachReady, |st.queue|);
    WithoutIsSubsequence(st.queue, SentPieces(st.queue, env, inReachReady, |st.queue|));
    WithoutCounts(st.queue, SentPieces(st.queue, env, inReachReady, |st.queue|));
  }

  /** The next sleep is long exactly when some row of the snapshot was not confirmed. */
  lemma CycleBackoff(st: QueueState, env: nat -> Env, inReachReady: bool)
    ensures Backoff(CycleResult(st, env, inReachReady).queue) ==
      if exists x :: x in st.queue && x.piece !in SentPieces(st.queue, env, inReachReady, |st.queue|)
      then LongTimeoutMs else ShortTimeoutMs
  {
    var after := CycleResult(st, env, inReachReady).queue;
    CycleRetiresExactlySent(st, env, inReachReady);
    if after != [] {
      assert after[0] in after;
    }
  }

  /** With no transport confirming anything, a cycle keeps every row and backs off. */
  lemma NothingConfirmedKeepsQueue(st: QueueState, env: nat -> Env, inReachReady: bool)
    requires forall i :: 0 <= i < |st.queue| ==> !Sent(env(i), inReachReady)
    ensures CycleResult(st, env, inReachReady).queue == st.queue
  {
    var sent := SentPieces(st.queue, env, inReachReady, |st.queue|);
    SentPiecesMembers(st.queue, env, inReachReady, |st.queue|);
    assert sent == {};
    PassQueue(st, st.queue, env, inReachReady, |st.queue|);
    WithoutNothing(st.queue);
  }

  /** With a working data connection for every row, a cycle empties the queue. */
  lemma CellularEverywhereEmptiesQueue(st: QueueState, env: nat -> Env, inReachReady: bool)
    requires forall i :: 0 <= i < |st.queue| ==>
      IsInternetAvailable(env(i).activeNetwork) && env(i).http == HttpStatus(HttpOk)
    ensures CycleResult(st, env, inReachReady).queue == []
    ensures Backoff(CycleResult(st, env, inReachReady).queue) == ShortTimeoutMs
  {
    var sent := SentPieces(st.queue, env, inReachReady, |st.queue|);
    SentPiecesMembers(st.queue, env, inReachReady, |st.queue|);
    forall x | x in st.queue
      ensures x.piece in sent
    {
      var i :| 0 <= i < |st.queue| && st.queue[i] == x;
      CellularFirst(env(i), inReachReady);
    }
    PassQueue(st, st.queue, env, inReachReady, |st.queue|);
    WithoutEverything(st.queue, sent);
  }
}
