/**
 * The succinct-data delivery service: it queues the encoded pieces of a completed
 * survey and, one cycle at a time, offers every queued piece to the transports in
 * a fixed order (HTTP over the cellular data network, then SMS, then the inReach
 * satellite messenger), retiring a piece only once a transport confirmed it.
 *
 * What the Android platform supplies (network state, the operator name, the HTTP
 * reply, the SMS result code written by a broadcast receiver) is an input here:
 * one `Env` per row of the cycle's snapshot.
 */
module SuccinctDataQueue {
  import opened Wrappers
  import opened JavaText
  import opened MessageStore

  /** A queue row's prefix is the first ten characters of its piece. */
  const PrefixLength: nat := 10
  /** Sleep before the next cycle when the queue is empty. */
  const ShortTimeoutMs: nat := 5000
  /** Sleep before the next cycle when rows could not be sent. */
  const LongTimeoutMs: nat := 120000
  /** Number of one-second polls of the SMS result flag. */
  const SmsPollLimit: nat := 60
  /** Sentinel the SMS result flag holds until the platform reports. */
  const SmsPending: int := 0xBEEF
  /** `Activity.RESULT_OK`. */
  const ResultOk: int := -1
  const HttpOk: int := 200
  /** The message id dispatchViaInReach records: a placeholder for a real satellite id. */
  const InReachPlaceholderId: int := 99
  /** The initial value of the pending inReach message id. */
  const NoPendingId: int := -1

  datatype Transport = Cellular | Sms | InReach

  /** Preference of a transport: lower is tried first. */
  function Rank(t: Transport): nat {
    match t
    case Cellular => 0
    case Sms => 1
    case InReach => 2
  }

  /** What `httpclient.execute` did: threw, or answered with a status code. */
  datatype HttpReply = HttpThrew | HttpStatus(code: int)

  /**
   * The environment one row of a cycle meets.
   * activeNetwork: None when there is no active network, else its `isConnected()`.
   * operator: `getNetworkOperator()`, None for null.
   * smsFlag(i): the value of the SMS result flag at the i-th poll.
   */
  datatype Env = Env(
    activeNetwork: Option<bool>,
    operator: Option<string>,
    http: HttpReply,
    smsSendThrows: bool,
    smsFlag: nat -> int)

  /** `isInternetAvailable`: an active network that is connected. */
  function IsInternetAvailable(activeNetwork: Option<bool>): bool {
    activeNetwork.Some? && activeNetwork.value
  }

  /** `isSMSAvailable`: unavailable only for a non-null, empty operator name. */
  function IsSmsAvailable(operator: Option<string>): bool {
    !(operator.Some? && operator.value == "")
  }

  /** The code `sendViaCellular` returns for an HTTP exchange. */
  function CellularCode(reply: HttpReply): (code: int)
    ensures code == 0 || code == -1
    ensures code == 0 <==> reply == HttpStatus(HttpOk)
  {
    match reply
    case HttpThrew => -1
    case HttpStatus(status) => if status != HttpOk then -1 else 0
  }

  /** The first poll, from the i-th on and before the limit, that sees `Activity.RESULT_OK`. */
  function FirstOkPoll(flag: nat -> int, i: nat): (r: Option<nat>)
    decreases SmsPollLimit - i
    ensures r.Some? ==> i <= r.value < SmsPollLimit && flag(r.value) == ResultOk
    ensures forall j :: i <= j < (if r.Some? then r.value else SmsPollLimit) ==> flag(j) != ResultOk
  {
    if i >= SmsPollLimit then None
    else if flag(i) == ResultOk then Some(i)
    else FirstOkPoll(flag, i + 1)
  }

  /** The code `sendSMS` returns. */
  function SmsCode(sendThrows: bool, flag: nat -> int): (code: int)
    ensures code == 0 || code == -1
  {
    if sendThrows then -1
    else if FirstOkPoll(flag, 0).Some? then 0
    else -1
  }

  /** The value the SMS result flag holds when `sendSMS` returns: the last value polled. */
  function SmsFlagAfter(sendThrows: bool, flag: nat -> int): int {
    if sendThrows then SmsPending
    else match FirstOkPoll(flag, 0)
      case Some(k) => flag(k)
      case None => flag(SmsPollLimit - 1)
  }

  /** Which transports one row was offered to, and which one confirmed it. */
  datatype Dispatch = Dispatch(cellularTried: bool, smsTried: bool, inReachTried: bool, sentVia: Option<Transport>)
  {
    /** The transports offered the row, in the order they were offered it. */
    function Tried(): seq<Transport> {
      (if cellularTried then [Cellular] else []) + (if smsTried then [Sms] else [])
        + (if inReachTried then [InReach] else [])
    }
  }

  /** The transport choice the sender loop makes for one row. */
  function DispatchRow(env: Env, inReachReady: bool): (d: Dispatch)
    ensures d.cellularTried <==> IsInternetAvailable(env.activeNetwork)
    ensures d.sentVia == Some(Cellular) <==> d.cellularTried && CellularCode(env.http) == 0
    ensures d.smsTried <==> d.sentVia != Some(Cellular) && IsSmsAvailable(env.operator)
    ensures d.sentVia == Some(Sms) <==> d.smsTried && SmsCode(env.smsSendThrows, env.smsFlag) == 0
    ensures d.inReachTried <==> d.sentVia.None? && inReachReady
    ensures d.sentVia != Some(InReach)
  {
    var cellularOk := IsInternetAvailable(env.activeNetwork) && CellularCode(env.http) == 0;
    var smsTried := !cellularOk && IsSmsAvailable(env.operator);
    var smsOk := smsTried && SmsCode(env.smsSendThrows, env.smsFlag) == 0;
    Dispatch(
      IsInternetAvailable(env.activeNetwork),
      smsTried,
      !cellularOk && !smsOk && inReachReady,
      if cellularOk then Some(Cellular) else if smsOk then Some(Sms) else None)
  }

  /** The row met `env` and a transport confirmed it. */
  predicate Sent(env: Env, inReachReady: bool) {
    DispatchRow(env, inReachReady).sentVia.Some?
  }

  /** The form identity stored with each row: `formname + "/" + formversion`. */
  function FormIdentity(formName: Option<string>, formVersion: Option<string>): string {
    ConcatOperand(formName) + "/" + ConcatOperand(formVersion)
  }

  /**
   * The rows `onStartCommand` inserts for `pieces`: one per piece, in order, until the
   * first piece shorter than the prefix, whose `substring` throws and ends the insertion.
   */
  function EnqueuedRows(pieces: seq<string>, form: string, xml: string): (rows: seq<Row>)
    ensures |rows| <= |pieces|
    ensures forall i :: 0 <= i < |rows| ==>
      |pieces[i]| >= PrefixLength &&
      rows[i] == Row(pieces[i][..PrefixLength], pieces[i], form, xml)
    ensures |rows| < |pieces| ==> |pieces[|rows|]| < PrefixLength
  {
    if pieces == [] || |pieces[0]| < PrefixLength then []
    else [Row(pieces[0][..PrefixLength], pieces[0], form, xml)] + EnqueuedRows(pieces[1..], form, xml)
  }

  /**
   * The part of the service state the operations change: the queue, the single
   * pending inReach slot, the SMS result flag and the number of queue-updated
   * broadcasts sent so far.
   */
  datatype QueueState = QueueState(
    queue: seq<Row>,
    pendingId: int,
    pendingPiece: Option<string>,
    smsFlag: int,
    updates: nat)

  /** `rememberPendingInReachMessage`: the single slot is overwritten. */
  function Remember(st: QueueState, id: int, piece: string): QueueState {
    st.(pendingId := id, pendingPiece := Some(piece))
  }

  /**
   * `sawInReachMessageConfirmation`: a confirmation whose id is the remembered one
   * deletes the remembered piece and broadcasts; any other id changes nothing.
   */
  function Confirm(st: QueueState, id: int): QueueState {
    if id != st.pendingId then st
    else
      var q := if st.pendingPiece.Some? then Delete(st.queue, st.pendingPiece.value) else st.queue;
      st.(queue := q, updates := st.updates + 1)
  }

  /**
   * The state after `row` has been offered to the transports, before any deletion:
   * an SMS attempt leaves its result flag, an inReach attempt fills the pending slot.
   */
  function Offered(st: QueueState, row: Row, env: Env, inReachReady: bool): QueueState {
    var d := DispatchRow(env, inReachReady);
    var afterSms := if d.smsTried then st.(smsFlag := SmsFlagAfter(env.smsSendThrows, env.smsFlag)) else st;
    if d.inReachTried then Remember(afterSms, InReachPlaceholderId, row.piece) else afterSms
  }

  /** One row of the sender loop's pass over its snapshot. */
  function RowStep(st: QueueState, row: Row, env: Env, inReachReady: bool): QueueState {
    var offered := Offered(st, row, env, inReachReady);
    if Sent(env, inReachReady) then offered.(queue := Delete(offered.queue, row.piece), updates := offered.updates + 1)
    else offered
  }

  /** The state after the first `n` rows of the snapshot `s`; row i meets `env(i)`. */
  function PassState(st: QueueState, s: seq<Row>, env: nat -> Env, inReachReady: bool, n: nat): QueueState
    requires n <= |s|
  {
    if n == 0 then st else RowStep(PassState(st, s, env, inReachReady, n - 1), s[n - 1], env(n - 1), inReachReady)
  }

  /** One cycle: a pass over a snapshot of the whole queue. */
  function CycleResult(st: QueueState, env: nat -> Env, inReachReady: bool): QueueState {
    PassState(st, st.queue, env, inReachReady, |st.queue|)
  }

  /** The sleep chosen for the next cycle from the queue left after this one. */
  function Backoff(q: seq<Row>): nat {
    if q == [] then ShortTimeoutMs else LongTimeoutMs
  }

  /** The pieces confirmed among the first `n` rows of the snapshot. */
  function SentPieces(s: seq<Row>, env: nat -> Env, inReachReady: bool, n: nat): (sent: set<string>)
    requires n <= |s|
  {
    if n == 0 then {}
    else
      SentPieces(s, env, inReachReady, n - 1)
        + (if Sent(env(n - 1), inReachReady) then {s[n - 1].piece} else {})
  }

  class SuccinctDataQueueService {
    var queue: seq<Row>
    var inReachReadyAndAvailable: bool
    var pendingInReachMessageId: int
    var pendingInReachMessagePiece: Option<string>
    var smsTxResult: int
    /** The sender loop's `next_timeout`, carried from one cycle to the next. */
    var nextTimeout: nat
    /** How many "SD_MESSAGE_QUEUE_UPDATED" broadcasts were sent. */
    var queueUpdates: nat

    function State(): QueueState
      reads this`queue, this`pendingInReachMessageId, this`pendingInReachMessagePiece,
        this`smsTxResult, this`queueUpdates
    {
      QueueState(queue, pendingInReachMessageId, pendingInReachMessagePiece, smsTxResult, queueUpdates)
    }

    /** A service over a store already holding `stored`, with the fields' initial values. */
    constructor (stored: seq<Row>)
      ensures queue == stored
      ensures !inReachReadyAndAvailable
      ensures pendingInReachMessageId == NoPendingId && pendingInReachMessagePiece == None
      ensures smsTxResult == -1
      ensures nextTimeout == ShortTimeoutMs
      ensures queueUpdates == 0
    {
      queue := stored;
      inReachReadyAndAvailable := false;
      pendingInReachMessageId := NoPendingId;
      pendingInReachMessagePiece := None;
      smsTxResult := -1;
      nextTimeout := ShortTimeoutMs;
      queueUpdates := 0;
    }

    /**
     * The queueing part of `onStartCommand`. A null piece array inserts nothing; a
     * piece shorter than the prefix throws, which is caught: the rows before it stay
     * inserted and no broadcast is sent.
     */
    method Enqueue(pieces: Option<seq<string>>, xml: string, formName: Option<string>, formVersion: Option<string>)
      modifies this`queue, this`queueUpdates
      ensures pieces.None? ==> queue == old(queue) && queueUpdates == old(queueUpdates)
      ensures pieces.Some? ==>
        var rows := EnqueuedRows(pieces.value, FormIdentity(formName, formVersion), xml);
        queue == old(queue) + rows &&
        queueUpdates == old(queueUpdates) + (if |rows| == |pieces.value| then 1 else 0)
    {
      if pieces.None? {
        return;
      }
      var ps := pieces.value;
      var form := FormIdentity(formName, formVersion);
      ghost var rows := EnqueuedRows(ps, form, xml);
      var i := 0;
      while i < |ps|
        invariant 0 <= i <= |ps| && i <= |rows|
        invariant queue == old(queue) + rows[..i]
        invariant queueUpdates == old(queueUpdates)
      {
        var piece := ps[i];
        if |piece| < PrefixLength {
          assert i == |rows| && rows[..i] == rows;
          return;
        }
        var prefix := piece[..PrefixLength];
        assert i < |rows|;
        assert rows[i] == Row(prefix, piece, form, xml);
        queue := queue + [Row(prefix, piece, form, xml)];
        assert rows[..i + 1] == rows[..i] + [rows[i]];
        i := i + 1;
      }
      assert rows[..i] == rows;
      queueUpdates := queueUpdates + 1;
    }

    /**
     * `sendSMS`: reset the result flag to the sentinel, hand the text to the platform,
     * then poll the flag at most SmsPollLimit times, sleeping while it still holds the
     * sentinel. `sleeps` counts the one-second sleeps.
     */
    method SendSms(sendThrows: bool, flag: nat -> int) returns (code: int, sleeps: nat)
      modifies this`smsTxResult
      ensures code == SmsCode(sendThrows, flag)
      ensures smsTxResult == SmsFlagAfter(sendThrows, flag)
      ensures sleeps <= SmsPollLimit
      ensures code == 0 ==> !sendThrows
    {
      smsTxResult := SmsPending;
      sleeps := 0;
      if sendThrows {
        code := -1;
        return;
      }
      var i := 0;
      while i < SmsPollLimit
        invariant 0 <= i <= SmsPollLimit
        invariant sleeps <= i
        invariant FirstOkPoll(flag, 0) == FirstOkPoll(flag, i)
        invariant 0 < i ==> smsTxResult == flag(i - 1)
      {
        smsTxResult := flag(i);
        if smsTxResult == SmsPending {
          sleeps := sleeps + 1;
        } else if smsTxResult == ResultOk {
          code := 0;
          return;
        }
        i := i + 1;
      }
      code := -1;
    }

    /** `rememberPendingInReachMessage`. */
    method RememberPendingInReachMessage(id: int, piece: string)
      modifies this`pendingInReachMessageId, this`pendingInReachMessagePiece
      ensures State() == Remember(old(State()), id, piece)
    {
      pendingInReachMessageId := id;
      pendingInReachMessagePiece := Some(piece);
    }

    /** `dispatchViaInReach`: records the piece under the placeholder id and reports failure. */
    method DispatchViaInReach(piece: string) returns (code: int)
      modifies this`pendingInReachMessageId, this`pendingInReachMessagePiece
      ensures code == -1
      ensures State() == Remember(old(State()), InReachPlaceholderId, piece)
    {
      RememberPendingInReachMessage(InReachPlaceholderId, piece);
      code := -1;
    }

    /** `sawInReachMessageConfirmation`. */
    method SawInReachMessageConfirmation(id: int)
      modifies this`queue, this`queueUpdates
      ensures State() == Confirm(old(State()), id)
    {
      if id == pendingInReachMessageId {
        if pendingInReachMessagePiece.Some? {
          queue := Delete(queue, pendingInReachMessagePiece.value);
        }
        queueUpdates := queueUpdates + 1;
      }
    }

    /**
     * The transport attempts of the sender loop for one row (the source writes them
     * inline): cellular if the internet is up, else SMS if there is an operator, else
     * inReach if it is ready.
     */
    method OfferToTransports(row: Row, e: Env) returns (messageSent: bool)
      modifies this`smsTxResult, this`inReachReadyAndAvailable,
        this`pendingInReachMessageId, this`pendingInReachMessagePiece
      ensures inReachReadyAndAvailable == old(inReachReadyAndAvailable)
      ensures messageSent <==> Sent(e, inReachReadyAndAvailable)
      ensures State() == Offered(old(State()), row, e, inReachReadyAndAvailable)
    {
      ghost var d := DispatchRow(e, inReachReadyAndAvailable);
      messageSent := false;
      if !messageSent && IsInternetAvailable(e.activeNetwork) {
        if CellularCode(e.http) == 0 {
          messageSent := true;
        }
      }
      assert messageSent <==> d.sentVia == Some(Cellular);
      if !messageSent && IsSmsAvailable(e.operator) {
        var code, sleeps := SendSms(e.smsSendThrows, e.smsFlag);
        if code == 0 {
          messageSent := true;
        }
      }
      assert messageSent <==> d.sentVia.Some?;
      if !messageSent && inReachReadyAndAvailable {
        var code := DispatchViaInReach(row.piece);
        // the source marks inReach busy on a zero code, which this dispatch never returns
        inReachReadyAndAvailable := inReachReadyAndAvailable && code != 0;
      }
    }

    /**
     * The body of the sender loop for one row: the transport attempts, then the piece
     * is deleted only after a confirmed send.
     */
    method OfferRow(row: Row, e: Env)
      modifies this`queue, this`queueUpdates, this`smsTxResult, this`inReachReadyAndAvailable,
        this`pendingInReachMessageId, this`pendingInReachMessagePiece
      ensures inReachReadyAndAvailable == old(inReachReadyAndAvailable)
      ensures State() == RowStep(old(State()), row, e, inReachReadyAndAvailable)
    {
      var messageSent := OfferToTransports(row, e);
      if messageSent {
        queue := Delete(queue, row.piece);
        queueUpdates := queueUpdates + 1;
      }
    }

    /**
     * One cycle of `messageSenderLoop` after its sleep: snapshot the queue, offer each
     * row to the transports in order, then choose the next sleep from what is left.
     */
    method SenderCycle(env: nat -> Env)
      modifies this
      ensures inReachReadyAndAvailable == old(inReachReadyAndAvailable)
      ensures State() == CycleResult(old(State()), env, inReachReadyAndAvailable)
      ensures nextTimeout == Backoff(queue)
    {
      var snapshot := queue;
      if |snapshot| == 0 {
        nextTimeout := ShortTimeoutMs;
        return;
      }
      ghost var start := State();
      var i := 0;
      while i < |snapshot|
        invariant 0 <= i <= |snapshot|
        invariant inReachReadyAndAvailable == old(inReachReadyAndAvailable)
        invariant State() == PassState(start, snapshot, env, inReachReadyAndAvailable, i)
      {
        OfferRow(snapshot[i], env(i));
        i := i + 1;
      }
      nextTimeout := if |queue| == 0 then ShortTimeoutMs else LongTimeoutMs;
    }
  }
}
