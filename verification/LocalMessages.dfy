/**
 * The in-memory message service. Each send calls every handler of the queue and of the events log;
 * a handler validates the message and then starts its listener without waiting for it.
 */
module LocalMessages {
  import opened Wrappers

  datatype Address = Requests | Signatures | Finalizations
  datatype Queue = EventsLog | Of(address: Address)

  /** Listeners: the three offline services, and other consumers, which publish nothing. */
  datatype Handler = Signer | Submitter | Recorder | Consumer

  /** One handler of one send: validation, then the listener started in the background. */
  datatype Progress = Waiting | Refused | Running | Ended

  /** One call of `sendMessage`; `root` is the request whose processing caused it. */
  datatype Call = Call(
    root: nat, address: Address, body: string, handlers: seq<Handler>, progress: seq<Progress>, receipt: Option<nat>)

  /** `recorded`: the calls whose message the recorder was handed, in order. */
  datatype State = State(listeners: map<Queue, seq<Handler>>, calls: seq<Call>, recorded: seq<nat>, nextId: nat)

  datatype Step =
    | Register(queue: Queue, handler: Handler)
    | Request(body: string)
    | Validated(c: nat, h: nat, ok: bool)
    | Resolved(c: nat)
    | Publish(c: nat, h: nat, body: string)
    | Stop(c: nat, h: nat)

  function ListenersOf(s: State, q: Queue): seq<Handler> {
    if q in s.listeners then s.listeners[q] else []
  }

  function Handlers(s: State, a: Address): seq<Handler> {
    ListenersOf(s, Of(a)) + ListenersOf(s, EventsLog)
  }

  function NewCall(s: State, root: nat, a: Address, body: string): Call {
    Call(root, a, body, Handlers(s, a), seq(|Handlers(s, a)|, _ => Waiting), None)
  }

  /** What a listener publishes when it is through: the signer a signature, the submitter a finalization. */
  function Output(call: Call, h: Handler): Option<Address> {
    if h.Signer? && call.address.Requests? then Some(Signatures)
    else if h.Submitter? && call.address.Signatures? then Some(Finalizations)
    else None
  }

  predicate At(s: State, c: nat, h: nat, p: Progress) {
    c < |s.calls| && h < |s.calls[c].handlers| && |s.calls[c].progress| == |s.calls[c].handlers|
      && s.calls[c].progress[h] == p
  }

  /** The recorder's model accepts any message. */
  predicate Enabled(s: State, x: Step) {
    match x
    case Register(_, _) => true
    case Request(_) => true
    case Validated(c, h, ok) => At(s, c, h, Waiting) && (s.calls[c].handlers[h].Recorder? ==> ok)
    case Resolved(c) =>
      c < |s.calls| && s.calls[c].receipt.None? && forall p :: p in s.calls[c].progress ==> p != Waiting && p != Refused
    case Publish(c, h, _) => At(s, c, h, Running) && Output(s.calls[c], s.calls[c].handlers[h]).Some?
    case Stop(c, h) => At(s, c, h, Running)
  }

  function Advance(s: State, c: nat, h: nat, p: Progress): State
    requires c < |s.calls| && h < |s.calls[c].progress|
  {
    s.(calls := s.calls[c := s.calls[c].(progress := s.calls[c].progress[h := p])])
  }

  function Apply(s: State, x: Step): State
    requires Enabled(s, x)
  {
    match x
    case Register(q, handler) => s.(listeners := s.listeners[q := ListenersOf(s, q) + [handler]])
    case Request(body) => s.(calls := s.calls + [NewCall(s, |s.calls|, Requests, body)])
    case Validated(c, h, ok) =>
      var s' := Advance(s, c, h, if ok then Running else Refused);
      if s.calls[c].handlers[h].Recorder? then s'.(recorded := s.recorded + [c]) else s'
    case Resolved(c) => s.(calls := s.calls[c := s.calls[c].(receipt := Some(s.nextId))], nextId := s.nextId + 1)
    case Publish(c, h, body) =>
      var a := Output(s.calls[c], s.calls[c].handlers[h]).value;
      var s' := Advance(s, c, h, Ended);
      s'.(calls := s'.calls + [NewCall(s, s.calls[c].root, a, body)])
    case Stop(c, h) => Advance(s, c, h, Ended)
  }

  /** The constructor makes an empty list for each queue. */
  const START :=
    State(map[EventsLog := [], Of(Requests) := [], Of(Signatures) := [], Of(Finalizations) := []], [], [], 1)

  datatype Run = Run(states: seq<State>, steps: seq<Step>)

  ghost predicate IsRun(r: Run) {
    && |r.states| == |r.steps| + 1 && r.states[0] == START
    && forall i :: 0 <= i < |r.steps| ==>
                     Enabled(r.states[i], r.steps[i]) && r.states[i + 1] == Apply(r.states[i], r.steps[i])
  }

  // ---- what the recorder gets ----

  predicate Started(p: Progress) {
    p.Running? || p.Ended?
  }

  /** How many recorders among the first `k` handlers of a call have been started. */
  function Recorders(call: Call, k: nat): nat
    requires k <= |call.handlers| && |call.progress| == |call.handlers|
  {
    if k == 0 then 0
    else Recorders(call, k - 1) + if call.handlers[k - 1].Recorder? && Started(call.progress[k - 1]) then 1 else 0
  }

  ghost predicate Shaped(s: State) {
    && (forall c :: 0 <= c < |s.calls| ==> |s.calls[c].progress| == |s.calls[c].handlers|)
    && (forall c, h :: 0 <= c < |s.calls| && 0 <= h < |s.calls[c].handlers| && s.calls[c].handlers[h].Recorder? ==>
                         s.calls[c].progress[h] != Refused)
    && (forall i :: 0 <= i < |s.recorded| ==> s.recorded[i] < |s.calls|)
  }

  /** Each call is in the record once for each of its recorders that was started. */
  ghost predicate RecordOk(s: State) {
    && Shaped(s)
    && forall c :: 0 <= c < |s.calls| ==> multiset(s.recorded)[c] == Recorders(s.calls[c], |s.calls[c].handlers|)
  }

  lemma {:induction false} RecordersAfter(call: Call, h: nat, p: Progress, k: nat)
    requires |call.progress| == |call.handlers| && h < |call.handlers| && k <= |call.handlers|
    ensures var call' := call.(progress := call.progress[h := p]);
      Recorders(call', k) == Recorders(call, k) +
      (if h < k && call.handlers[h].Recorder?
       then (if Started(p) then 1 else 0) - (if Started(call.progress[h]) then 1 else 0) else 0)
  {
    if k > 0 {
      RecordersAfter(call, h, p, k - 1);
    }
  }

  lemma {:induction false} RecordersSame(a: Call, b: Call, k: nat)
    requires |a.progress| == |a.handlers| && a.handlers == b.handlers && a.progress == b.progress && k <= |a.handlers|
    ensures Recorders(a, k) == Recorders(b, k)
  {
    if k > 0 {
      RecordersSame(a, b, k - 1);
    }
  }

  lemma {:induction false} RecordersWaiting(call: Call, k: nat)
    requires |call.progress| == |call.handlers| && k <= |call.handlers|
    requires forall i :: 0 <= i < k ==> call.progress[i] == Waiting
    ensures Recorders(call, k) == 0
  {
    if k > 0 {
      RecordersWaiting(call, k - 1);
    }
  }

  lemma ShapeKept(s: State, x: Step)
    requires Shaped(s) && Enabled(s, x)
    ensures Shaped(Apply(s, x))
  {
  }

  /** A step on call `d` counts for `d` alone. */
  lemma RecordStep(s: State, x: Step, c: nat)
    requires RecordOk(s) && Enabled(s, x) && Shaped(Apply(s, x)) && c < |s.calls|
    ensures c < |Apply(s, x).calls|
    ensures multiset(Apply(s, x).recorded)[c] == Recorders(Apply(s, x).calls[c], |Apply(s, x).calls[c].handlers|)
  {
    var call, n := s.calls[c], |s.calls[c].handlers|;
    match x
    case Validated(d, h, ok) => if c == d { RecordersAfter(call, h, if ok then Running else Refused, n); }
    case Publish(d, h, _) => if c == d { RecordersAfter(call, h, Ended, n); }
    case Stop(d, h) => if c == d { RecordersAfter(call, h, Ended, n); }
    case Resolved(d) => RecordersSame(call, call.(receipt := Some(s.nextId)), n);
    case _ =>
  }

  lemma RecordKept(s: State, x: Step)
    requires RecordOk(s) && Enabled(s, x)
    ensures RecordOk(Apply(s, x))
  {
    var s' := Apply(s, x);
    ShapeKept(s, x);
    forall c | 0 <= c < |s'.calls| ensures multiset(s'.recorded)[c] == Recorders(s'.calls[c], |s'.calls[c].handlers|) {
      if c < |s.calls| {
        RecordStep(s, x, c);
      } else {
        RecordersWaiting(s'.calls[c], |s'.calls[c].handlers|);
        assert c !in s.recorded;
      }
    }
  }

  lemma {:induction false} RunRecord(r: Run, i: nat)
    requires IsRun(r) && i < |r.states|
    ensures RecordOk(r.states[i])
  {
    if i > 0 {
      hide Enabled, Apply, RecordOk;
      RunRecord(r, i - 1);
      RecordKept(r.states[i - 1], r.steps[i - 1]);
    }
  }

  lemma {:induction false} OneRecorder(call: Call, h: nat, k: nat)
    requires |call.progress| == |call.handlers| && h < |call.handlers| && k <= |call.handlers|
    requires forall i :: 0 <= i < |call.handlers| ==> (call.handlers[i].Recorder? <==> i == h)
    ensures Recorders(call, k) == if h < k && Started(call.progress[h]) then 1 else 0
  {
    if k > 0 {
      OneRecorder(call, h, k - 1);
    }
  }

  /**
   * A call made with one recorder registered hands it exactly one copy of the message: none while its
   * validation waits, one from then on, whatever the other handlers of the call did.
   */
  lemma RecordedExactlyOnce(r: Run, i: nat, c: nat, h: nat)
    requires IsRun(r) && i < |r.states| && c < |r.states[i].calls| && h < |r.states[i].calls[c].handlers|
    requires forall j :: 0 <= j < |r.states[i].calls[c].handlers| ==>
             (r.states[i].calls[c].handlers[j].Recorder? <==> j == h)
    ensures h < |r.states[i].calls[c].progress|
    ensures multiset(r.states[i].recorded)[c] == if r.states[i].calls[c].progress[h].Waiting? then 0 else 1
  {
    hide IsRun;
    RunRecord(r, i);
    OneRecorder(r.states[i].calls[c], h, |r.states[i].calls[c].handlers|);
  }

  // ---- receipts ----

  ghost predicate ReceiptsOk(s: State) {
    && (forall c :: 0 <= c < |s.calls| && s.calls[c].receipt.Some? ==> 1 <= s.calls[c].receipt.value < s.nextId)
    && (forall c, d :: 0 <= c < d < |s.calls| && s.calls[c].receipt.Some? && s.calls[d].receipt.Some? ==>
                         s.calls[c].receipt.value != s.calls[d].receipt.value)
    && 1 <= s.nextId
  }

  lemma ReceiptsKept(s: State, x: Step)
    requires ReceiptsOk(s) && Enabled(s, x)
    ensures ReceiptsOk(Apply(s, x))
  {
  }

  /** Receipt ids are unique. */
  lemma {:induction false} ReceiptsUnique(r: Run, i: nat)
    requires IsRun(r) && i < |r.states|
    ensures ReceiptsOk(r.states[i])
  {
    if i > 0 {
      hide Enabled, Apply, ReceiptsOk;
      ReceiptsUnique(r, i - 1);
      ReceiptsKept(r.states[i - 1], r.steps[i - 1]);
    }
  }

  // ---- what is sent ----

  /** What a request, and a listener that publishes, send: the body they are given, to everybody registered. */
  lemma SentAs(r: Run, k: nat)
    requires IsRun(r) && k < |r.steps|
    ensures var s, s', n := r.states[k], r.states[k + 1], |r.states[k].calls|;
      match r.steps[k]
      case Request(body) =>
        && |s'.calls| == n + 1 && s'.calls[n].body == body && s'.calls[n].address == Requests && s'.calls[n].root == n
        && s'.calls[n].handlers == ListenersOf(s, Of(Requests)) + ListenersOf(s, EventsLog)
      case Publish(c, h, body) =>
        && c < n && h < |s.calls[c].handlers| && |s'.calls| == n + 1
        && s'.calls[n].body == body && s'.calls[n].root == s.calls[c].root
        && (if s.calls[c].address.Requests? then s.calls[c].handlers[h].Signer? && s'.calls[n].address == Signatures
            else s.calls[c].handlers[h].Submitter? && s'.calls[n].address == Finalizations)
        && s'.calls[n].handlers == ListenersOf(s, Of(s'.calls[n].address)) + ListenersOf(s, EventsLog)
      case _ => |s'.calls| == n
  {
  }

  /** What the other steps do: a listener is appended; one handler goes on; a receipt is given; nothing else. */
  lemma HandlersDecide(r: Run, k: nat)
    requires IsRun(r) && k < |r.steps|
    ensures var s, s' := r.states[k], r.states[k + 1];
      match r.steps[k]
      case Register(q, handler) =>
        && ListenersOf(s', q) == ListenersOf(s, q) + [handler] && s'.calls == s.calls && s'.recorded == s.recorded
        && forall q' :: q' != q ==> ListenersOf(s', q') == ListenersOf(s, q')
      case Validated(c, h, ok) =>
        && At(s, c, h, Waiting) && s'.listeners == s.listeners && s'.nextId == s.nextId
        && s'.calls == s.calls[c := s.calls[c].(progress := s.calls[c].progress[h := if ok then Running else Refused])]
        && s'.recorded == s.recorded + if s.calls[c].handlers[h].Recorder? then [c] else []
      case Resolved(c) =>
        && c < |s.calls| && s.calls[c].receipt.None? && s'.nextId == s.nextId + 1 && s'.recorded == s.recorded
        && s'.calls == s.calls[c := s.calls[c].(receipt := Some(s.nextId))]
      case Stop(c, h) =>
        && At(s, c, h, Running) && s'.recorded == s.recorded
        && s'.calls == s.calls[c := s.calls[c].(progress := s.calls[c].progress[h := Ended])]
      case Publish(c, h, _) => At(s, c, h, Running) && At(s', c, h, Ended) && s'.recorded == s.recorded
      case Request(_) => s'.recorded == s.recorded && s'.calls[..|s.calls|] == s.calls
  {
  }

  /** What was sent stays what it was, and whom it was sent to. */
  ghost predicate SameMessage(a: Call, b: Call) {
    a.root == b.root && a.address == b.address && a.body == b.body && a.handlers == b.handlers
  }

  lemma {:induction false} MessagesStay(r: Run, i: nat, j: nat, c: nat)
    requires IsRun(r) && i <= j < |r.states| && c < |r.states[i].calls|
    ensures c < |r.states[j].calls| && SameMessage(r.states[i].calls[c], r.states[j].calls[c])
  {
    hide Enabled, Apply;
    if i < j {
      MessagesStay(r, i, j - 1, c);
      StepKeepsMessage(r.states[j - 1], r.steps[j - 1], c);
    }
  }

  lemma StepKeepsMessage(s: State, x: Step, c: nat)
    requires Enabled(s, x) && c < |s.calls|
    ensures c < |Apply(s, x).calls| && SameMessage(s.calls[c], Apply(s, x).calls[c])
  {
  }

  /** A send that was answered with a receipt was accepted by every handler. */
  ghost predicate ReceiptIsTrue(call: Call) {
    call.receipt.Some? ==>
      forall h :: 0 <= h < |call.progress| ==> call.progress[h] == Running || call.progress[h] == Ended
  }

  lemma StepKeepsReceipt(s: State, x: Step, c: nat)
    requires Enabled(s, x) && (forall d :: 0 <= d < |s.calls| ==> ReceiptIsTrue(s.calls[d])) && c < |Apply(s, x).calls|
    ensures ReceiptIsTrue(Apply(s, x).calls[c])
  {
    assert c < |s.calls| ==> ReceiptIsTrue(s.calls[c]);
    if x.Resolved? && x.c == c {
      assert forall h :: 0 <= h < |s.calls[c].progress| ==> s.calls[c].progress[h] in s.calls[c].progress;
    }
  }

  lemma {:induction false} ReceiptsAreTrue(r: Run, i: nat)
    requires IsRun(r) && i < |r.states|
    ensures forall c :: 0 <= c < |r.states[i].calls| ==> ReceiptIsTrue(r.states[i].calls[c])
  {
    if i > 0 {
      hide Enabled, Apply, ReceiptIsTrue;
      ReceiptsAreTrue(r, i - 1);
      forall c | 0 <= c < |r.states[i].calls| ensures ReceiptIsTrue(r.states[i].calls[c]) {
        StepKeepsReceipt(r.states[i - 1], r.steps[i - 1], c);
      }
    }
  }

  // ---- the services as objects ----

  class OfflineRecorderService {
    var recorded: seq<nat>

    constructor ()
      ensures recorded == []
    {
      recorded := [];
    }

    method RecordEvent(c: nat)
      modifies this
      ensures recorded == old(recorded) + [c]
    {
      recorded := recorded + [c];
    }
  }

  class LocalMessageService {
    const recorder: OfflineRecorderService
    var listeners: map<Queue, seq<Handler>>
    var calls: seq<Call>
    var nextId: nat

    ghost function Abs(): State
      reads this, recorder
    {
      State(listeners, calls, recorder.recorded, nextId)
    }

    twostate predicate Took(x: Step)
      reads this, recorder
    {
      Enabled(old(Abs()), x) && Abs() == Apply(old(Abs()), x)
    }

    constructor ()
      ensures Abs() == START && fresh(recorder)
    {
      listeners := map[EventsLog := [], Of(Requests) := [], Of(Signatures) := [], Of(Finalizations) := []];
      calls, nextId := [], 1;
      recorder := new OfflineRecorderService();
    }

    method RegisterListener(q: Queue, handler: Handler)
      modifies this`listeners
      ensures Took(Register(q, handler))
    {
      var registered := if q in listeners then listeners[q] else [];
      listeners := listeners[q := registered + [handler]];
    }

    /** The synchronous part of `sendMessage`: every handler is called and waits for its validation. */
    method SendMessage(root: nat, a: Address, body: string)
      modifies this`calls
      ensures calls == old(calls) + [NewCall(old(Abs()), root, a, body)]
    {
      var handlers := (if Of(a) in listeners then listeners[Of(a)] else []) +
        (if EventsLog in listeners then listeners[EventsLog] else []);
      var progress: seq<Progress> := [];
      for i := 0 to |handlers|
        invariant progress == seq(i, _ => Waiting)
      {
        progress := progress + [Waiting];
      }
      calls := calls + [Call(root, a, body, handlers, progress, None)];
    }

    method BeginRequest(body: string)
      modifies this`calls
      ensures Took(Request(body))
    {
      SendMessage(|calls|, Requests, body);
    }

    /** A handler's validation returns: it throws, or starts its listener and does not wait for it. */
    method Validate(c: nat, h: nat, ok: bool)
      requires Enabled(Abs(), Validated(c, h, ok))
      modifies this`calls, recorder
      ensures Took(Validated(c, h, ok))
    {
      var call := calls[c];
      if !ok {
        call := call.(progress := call.progress[h := Refused]);
      } else {
        if call.handlers[h].Recorder? {
          recorder.RecordEvent(c);
        }
        call := call.(progress := call.progress[h := Running]);
      }
      calls := calls[c := call];
    }

    /** All handlers of the call returned: the sender gets its receipt. */
    method Resolve(c: nat) returns (id: nat)
      requires Enabled(Abs(), Resolved(c))
      modifies this`calls, this`nextId
      ensures Took(Resolved(c)) && calls[c].receipt == Some(id)
    {
      id := nextId;
      nextId := nextId + 1;
      calls := calls[c := calls[c].(receipt := Some(id))];
    }

    /** A listener in the background publishes its message and is through. */
    method ListenerPublishes(c: nat, h: nat, body: string)
      requires Enabled(Abs(), Publish(c, h, body))
      modifies this`calls
      ensures Took(Publish(c, h, body))
    {
      var a := Output(calls[c], calls[c].handlers[h]).value;
      var root := calls[c].root;
      calls := calls[c := calls[c].(progress := calls[c].progress[h := Ended])];
      SendMessage(root, a, body);
    }
  }
}
