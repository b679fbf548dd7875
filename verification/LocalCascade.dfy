/**
 * The cascade of one request through the in-memory service: how many messages it causes, for every
 * table of listeners, and exactly which tables keep it to three, or to one per address.
 */
module LocalCascade {
  import opened LocalMessages

  function Rank(a: Address): nat {
    match a
    case Requests => 0
    case Signatures => 1
    case Finalizations => 2
  }

  /** Signers that hear of requests, and submitters that hear of signatures, on either of their queues. */
  function Signers(s: State): nat {
    multiset(Handlers(s, Requests))[Signer]
  }

  function Submitters(s: State): nat {
    multiset(Handlers(s, Signatures))[Submitter]
  }

  predicate Publishes(call: Call, h: nat) {
    h < |call.handlers| && Output(call, call.handlers[h]).Some?
  }

  /** How many of the first `k` handlers of a call can publish and have ended. */
  function Done(call: Call, k: nat): nat {
    if k == 0 then 0
    else
      Done(call, k - 1) +
      if Publishes(call, k - 1) && k - 1 < |call.progress| && call.progress[k - 1].Ended? then 1 else 0
  }

  function AllDone(call: Call): nat {
    Done(call, |call.handlers|)
  }

  /** How many of the first `n` calls come from request `root` and are on address `a`. */
  function Sends(calls: seq<Call>, n: nat, root: nat, a: Address): nat
    requires n <= |calls|
  {
    if n == 0 then 0
    else Sends(calls, n - 1, root, a) + if calls[n - 1].root == root && calls[n - 1].address == a then 1 else 0
  }

  /** How many submitters of signatures of the request have ended. */
  function Submitted(calls: seq<Call>, n: nat, root: nat): nat
    requires n <= |calls|
  {
    if n == 0 then 0
    else
      Submitted(calls, n - 1, root) +
      if calls[n - 1].root == root && calls[n - 1].address.Signatures? then AllDone(calls[n - 1]) else 0
  }

  /** How many of the first `n` calls come from request `root`. */
  function Caused(calls: seq<Call>, n: nat, root: nat): nat
    requires n <= |calls|
  {
    if n == 0 then 0 else Caused(calls, n - 1, root) + if calls[n - 1].root == root then 1 else 0
  }

  // ---- counting ----

  /** The call has gone on: what had ended has ended. */
  ghost predicate Older(a: Call, a': Call) {
    && a' == a.(progress := a'.progress, receipt := a'.receipt) && |a'.progress| == |a.progress|
    && forall h :: 0 <= h < |a.progress| && a.progress[h].Ended? ==> a'.progress[h].Ended?
  }

  lemma {:induction false} DoneGrows(a: Call, a': Call, k: nat)
    requires Older(a, a')
    ensures Done(a, k) <= Done(a', k)
  {
    if k > 0 {
      DoneGrows(a, a', k - 1);
      assert Publishes(a, k - 1) == Publishes(a', k - 1);
    }
  }

  lemma {:induction false} DoneEnds(call: Call, h: nat, k: nat)
    requires h < |call.progress| && Publishes(call, h) && !call.progress[h].Ended?
    ensures Done(call.(progress := call.progress[h := Ended]), k) == Done(call, k) + if h < k then 1 else 0
  {
    if k > 0 {
      DoneEnds(call, h, k - 1);
    }
  }

  lemma {:induction false} DoneWaiting(call: Call, k: nat)
    requires forall h :: 0 <= h < |call.progress| ==> call.progress[h].Waiting?
    ensures Done(call, k) == 0
  {
    if k > 0 {
      DoneWaiting(call, k - 1);
    }
  }

  /** The handlers of a call that can publish. */
  function Publishers(call: Call): nat {
    match call.address
    case Requests => multiset(call.handlers)[Signer]
    case Signatures => multiset(call.handlers)[Submitter]
    case Finalizations => 0
  }

  lemma {:induction false} DoneBound(call: Call, k: nat)
    requires k <= |call.handlers|
    ensures Done(call, k) <= Publishers(call.(handlers := call.handlers[..k]))
  {
    if k > 0 {
      DoneBound(call, k - 1);
      assert call.handlers[..k] == call.handlers[..k - 1] + [call.handlers[k - 1]];
    }
  }

  lemma AllDoneBound(call: Call)
    ensures AllDone(call) <= Publishers(call)
  {
    DoneBound(call, |call.handlers|);
    assert call.handlers[..|call.handlers|] == call.handlers;
  }

  ghost predicate AllOlder(calls: seq<Call>, calls': seq<Call>, n: nat) {
    n <= |calls| && n <= |calls'| && forall c :: 0 <= c < n ==> Older(calls[c], calls'[c])
  }

  lemma {:induction false} SendsSame(calls: seq<Call>, calls': seq<Call>, n: nat, root: nat, a: Address)
    requires AllOlder(calls, calls', n)
    ensures Sends(calls', n, root, a) == Sends(calls, n, root, a)
  {
    if n > 0 {
      assert Older(calls[n - 1], calls'[n - 1]);
      SendsSame(calls, calls', n - 1, root, a);
    }
  }

  /** Submitters that ended stay so; one more ends if the call `c` is a signature of the request. */
  lemma {:induction false} SubmittedGrows(calls: seq<Call>, calls': seq<Call>, n: nat, root: nat, c: nat)
    requires AllOlder(calls, calls', n)
    ensures Submitted(calls', n, root) >= Submitted(calls, n, root)
    ensures c < n && AllDone(calls'[c]) > AllDone(calls[c]) && calls[c].root == root && calls[c].address.Signatures? ==>
              Submitted(calls', n, root) > Submitted(calls, n, root)
  {
    if n > 0 {
      assert Older(calls[n - 1], calls'[n - 1]);
      DoneGrows(calls[n - 1], calls'[n - 1], |calls[n - 1].handlers|);
      SubmittedGrows(calls, calls', n - 1, root, c);
    }
  }

  /** No call comes from a request that was not made yet. */
  lemma {:induction false} NoneBefore(calls: seq<Call>, n: nat, root: nat, a: Address)
    requires n <= |calls| && n <= root && forall c :: 0 <= c < n ==> calls[c].root <= c
    ensures Sends(calls, n, root, a) == 0
  {
    if n > 0 {
      NoneBefore(calls, n - 1, root, a);
    }
  }

  lemma {:induction false} OneRequest(calls: seq<Call>, n: nat, root: nat)
    requires n <= |calls| && forall c :: 0 <= c < n && calls[c].address.Requests? ==> calls[c].root == c
    ensures Sends(calls, n, root, Requests) <= if root < n then 1 else 0
  {
    if n > 0 {
      OneRequest(calls, n - 1, root);
    }
  }

  lemma {:induction false} SubmittedBound(calls: seq<Call>, n: nat, root: nat, most: nat)
    requires n <= |calls| && forall c :: 0 <= c < n && calls[c].address.Signatures? ==> AllDone(calls[c]) <= most
    ensures Submitted(calls, n, root) <= Sends(calls, n, root, Signatures) * most
  {
    if n > 0 {
      SubmittedBound(calls, n - 1, root, most);
      var before := Sends(calls, n - 1, root, Signatures);
      assert (before + 1) * most == before * most + most;
      hide AllDone;
    }
  }

  // ---- invariant ----

  ghost predicate CallOk(s: State, c: nat)
    requires c < |s.calls|
  {
    var call := s.calls[c];
    && |call.progress| == |call.handlers|
    && call.root <= c && s.calls[call.root].address.Requests?
    && (call.address.Requests? ==> call.root == c)
    && (call.address.Finalizations? ==> exists b :: call.root < b < c && SignatureOf(s.calls, b, call.root))
    && Publishers(call) <= Publishers(NewCall(s, 0, call.address, ""))
  }

  predicate SignatureOf(calls: seq<Call>, b: nat, root: nat) {
    b < |calls| && calls[b].root == root && calls[b].address.Signatures?
  }

  ghost predicate CallsOk(s: State) {
    forall c :: 0 <= c < |s.calls| ==> CallOk(s, c)
  }

  /** Every message above a request was published by a handler of the message below it. */
  ghost predicate CountsOk(s: State, root: nat)
    requires root < |s.calls|
  {
    && Sends(s.calls, |s.calls|, root, Signatures) <= AllDone(s.calls[root])
    && Sends(s.calls, |s.calls|, root, Finalizations) <= Submitted(s.calls, |s.calls|, root)
  }

  ghost predicate CascadeOk(s: State) {
    CallsOk(s) && forall root :: 0 <= root < |s.calls| ==> CountsOk(s, root)
  }

  lemma StepOlder(s: State, x: Step)
    requires Enabled(s, x)
    ensures |s.calls| <= |Apply(s, x).calls| && AllOlder(s.calls, Apply(s, x).calls, |s.calls|)
  {
  }

  /** Listeners are never removed. */
  lemma HandlersGrow(s: State, x: Step, a: Address)
    requires Enabled(s, x)
    ensures multiset(Handlers(s, a)) <= multiset(Handlers(Apply(s, x), a))
  {
    var s' := Apply(s, x);
    if x.Register? {
      assert ListenersOf(s, Of(a)) <= ListenersOf(s', Of(a)) && ListenersOf(s, EventsLog) <= ListenersOf(s', EventsLog);
      PrefixCounts(ListenersOf(s, Of(a)), ListenersOf(s', Of(a)));
      PrefixCounts(ListenersOf(s, EventsLog), ListenersOf(s', EventsLog));
    }
  }

  lemma PrefixCounts(a: seq<Handler>, b: seq<Handler>)
    requires a <= b
    ensures multiset(a) <= multiset(b)
  {
    assert b == a + b[|a|..];
  }

  lemma TableGrows(s: State, x: Step, a: Address)
    requires Enabled(s, x)
    ensures Publishers(NewCall(s, 0, a, "")) <= Publishers(NewCall(Apply(s, x), 0, a, ""))
  {
    HandlersGrow(s, x, a);
    hide Apply, Enabled, Handlers;
  }

  lemma OldCallKept(s: State, x: Step, c: nat)
    requires CallsOk(s) && Enabled(s, x) && c < |s.calls|
    ensures c < |Apply(s, x).calls| && CallOk(Apply(s, x), c)
  {
    assert CallOk(s, c);
    StepOlder(s, x);
    TableGrows(s, x, s.calls[c].address);
    hide Apply, Enabled, Publishers;
    var s' := Apply(s, x);
    assert Older(s.calls[c], s'.calls[c]) && Older(s.calls[s.calls[c].root], s'.calls[s.calls[c].root]);
    if s.calls[c].address.Finalizations? {
      var b :| s.calls[c].root < b < c && SignatureOf(s.calls, b, s.calls[c].root);
      assert Older(s.calls[b], s'.calls[b]) && SignatureOf(s'.calls, b, s'.calls[c].root);
    }
    assert Publishers(s'.calls[c]) == Publishers(s.calls[c]) by { SamePublishers(s.calls[c], s'.calls[c]); }
  }

  lemma SamePublishers(a: Call, a': Call)
    requires a'.handlers == a.handlers && a'.address == a.address
    ensures Publishers(a') == Publishers(a)
  {
  }

  lemma NewCallKept(s: State, x: Step)
    requires CallsOk(s) && Enabled(s, x) && |Apply(s, x).calls| > |s.calls|
    ensures CallOk(Apply(s, x), |s.calls|)
  {
    var s', n := Apply(s, x), |s.calls|;
    var call := s'.calls[n];
    if x.Publish? {
      assert CallOk(s, x.c);
      assert s'.calls[x.c].root == s.calls[x.c].root && s'.calls[x.c].address == s.calls[x.c].address;
      assert call.address.Finalizations? ==> SignatureOf(s'.calls, x.c, call.root);
    }
    SamePublishers(call, NewCall(s', 0, call.address, ""));
  }

  lemma CallsKept(s: State, x: Step)
    requires CallsOk(s) && Enabled(s, x)
    ensures CallsOk(Apply(s, x))
  {
    hide CallOk;
    var s' := Apply(s, x);
    assert |s'.calls| <= |s.calls| + 1;
    forall c | 0 <= c < |s'.calls| ensures CallOk(s', c) {
      if c < |s.calls| { OldCallKept(s, x, c); } else { NewCallKept(s, x); }
    }
  }

  /** The counts over the calls that were there before; `c` is a call one more of whose publishers ended. */
  lemma OldCounts(s: State, calls': seq<Call>, root: nat, c: nat)
    requires root < |s.calls| && CountsOk(s, root) && AllOlder(s.calls, calls', |s.calls|) && c < |s.calls|
    ensures var n := |s.calls|; var more := AllDone(calls'[c]) > AllDone(s.calls[c]);
      && Sends(calls', n, root, Signatures) + (if more && c == root then 1 else 0) <= AllDone(calls'[root])
      && Sends(calls', n, root, Finalizations) +
         (if more && SignatureOf(s.calls, c, root) then 1 else 0) <= Submitted(calls', n, root)
  {
    var n := |s.calls|;
    SendsSame(s.calls, calls', n, root, Signatures);
    SendsSame(s.calls, calls', n, root, Finalizations);
    SubmittedGrows(s.calls, calls', n, root, c);
    assert Older(s.calls[root], calls'[root]);
    DoneGrows(s.calls[root], calls'[root], |s.calls[root].handlers|);
    hide Done, Sends, Submitted;
  }

  lemma PublishIs(s: State, c: nat, h: nat, body: string)
    requires Enabled(s, Publish(c, h, body))
    ensures var calls', n := Apply(s, Publish(c, h, body)).calls, |s.calls|;
      && |calls'| == n + 1 && AllOlder(s.calls, calls', n) && AllDone(calls'[c]) == AllDone(s.calls[c]) + 1
      && calls'[n].root == s.calls[c].root && Rank(calls'[n].address) == Rank(s.calls[c].address) + 1
      && AllDone(calls'[n]) == 0
  {
    StepOlder(s, Publish(c, h, body));
    DoneEnds(s.calls[c], h, |s.calls[c].handlers|);
    var call := Apply(s, Publish(c, h, body)).calls[|s.calls|];
    DoneWaiting(call, |call.handlers|);
    hide Done, AllOlder;
  }

  lemma PublishCounts(s: State, c: nat, h: nat, body: string, root: nat)
    requires CascadeOk(s) && Enabled(s, Publish(c, h, body)) && root < |s.calls|
    ensures root < |Apply(s, Publish(c, h, body)).calls| && CountsOk(Apply(s, Publish(c, h, body)), root)
  {
    assert CallOk(s, c) && CountsOk(s, root);
    PublishIs(s, c, h, body);
    hide Apply, AllDone, AllOlder, CallsOk, CountsOk, Rank;
    AddedCounts(s, Apply(s, Publish(c, h, body)), c, root);
  }

  lemma AddedCounts(s: State, s': State, c: nat, root: nat)
    requires c < |s.calls| && root < |s.calls| && CountsOk(s, root) && |s'.calls| == |s.calls| + 1
    requires s.calls[c].address.Requests? ==> s.calls[c].root == c
    requires AllOlder(s.calls, s'.calls, |s.calls|) && AllDone(s'.calls[c]) == AllDone(s.calls[c]) + 1
    requires s'.calls[|s.calls|].root == s.calls[c].root && AllDone(s'.calls[|s.calls|]) == 0
    requires Rank(s'.calls[|s.calls|].address) == Rank(s.calls[c].address) + 1
    ensures CountsOk(s', root)
  {
    OldCounts(s, s'.calls, root, c);
    hide AllDone, AllOlder;
  }

  lemma Roots(s: State)
    requires CallsOk(s)
    ensures forall c :: 0 <= c < |s.calls| ==> s.calls[c].root <= c
    ensures forall c :: 0 <= c < |s.calls| && s.calls[c].address.Requests? ==> s.calls[c].root == c
  {
    forall c | 0 <= c < |s.calls|
      ensures s.calls[c].root <= c && (s.calls[c].address.Requests? ==> s.calls[c].root == c)
    {
      assert CallOk(s, c);
    }
  }

  /** Nothing has come yet from the last call. */
  lemma LastCounts(s: State)
    requires CallsOk(s) && s.calls != []
    ensures CountsOk(s, |s.calls| - 1)
  {
    var n := |s.calls| - 1;
    Roots(s);
    assert CallOk(s, n);
    NoneBefore(s.calls, n, n, Signatures);
    NoneBefore(s.calls, n, n, Finalizations);
    hide CallOk, Done, AllDone, Submitted;
  }

  lemma QuietCounts(s: State, x: Step, root: nat)
    requires Enabled(s, x) && !x.Publish? && root < |s.calls| && CountsOk(s, root)
    ensures root < |Apply(s, x).calls| && CountsOk(Apply(s, x), root)
  {
    var s', n := Apply(s, x), |s.calls|;
    StepOlder(s, x);
    OldCounts(s, s'.calls, root, root);
    assert |s'.calls| == n || (|s'.calls| == n + 1 && s'.calls[n].root == n);
    hide Done, AllDone, Enabled, Apply;
  }

  lemma CountsKept(s: State, x: Step, root: nat)
    requires CascadeOk(s) && Enabled(s, x) && CallsOk(Apply(s, x)) && root < |Apply(s, x).calls|
    ensures CountsOk(Apply(s, x), root)
  {
    assert |Apply(s, x).calls| <= |s.calls| + 1;
    hide Apply, Enabled, CallsOk, CountsOk;
    if root == |s.calls| {
      LastCounts(Apply(s, x));
    } else if x.Publish? {
      PublishCounts(s, x.c, x.h, x.body, root);
    } else {
      QuietCounts(s, x, root);
    }
  }

  lemma CascadeKept(s: State, x: Step)
    requires CascadeOk(s) && Enabled(s, x)
    ensures CascadeOk(Apply(s, x))
  {
    hide CallsOk, CountsOk;
    CallsKept(s, x);
    forall root | 0 <= root < |Apply(s, x).calls| ensures CountsOk(Apply(s, x), root) {
      CountsKept(s, x, root);
    }
  }

  lemma {:induction false} RunCascade(r: Run, i: nat)
    requires IsRun(r) && i < |r.states|
    ensures CascadeOk(r.states[i])
  {
    hide Enabled, Apply, CallsOk, CountsOk;
    if i == 0 {
      StartCascade();
    } else {
      RunCascade(r, i - 1);
      CascadeKept(r.states[i - 1], r.steps[i - 1]);
    }
  }

  lemma StartCascade()
    ensures CascadeOk(START)
  {
  }

  // ---- how many messages one request causes ----

  /**
   * In every run, whoever is registered: a request causes at most one message for itself, one for each
   * signer, and one for each signer and submitter.
   */
  lemma CascadeBound(r: Run, i: nat, root: nat)
    requires IsRun(r) && i < |r.states|
    ensures var s := r.states[i];
      && Sends(s.calls, |s.calls|, root, Requests) <= 1
      && Sends(s.calls, |s.calls|, root, Signatures) <= Signers(s)
      && Sends(s.calls, |s.calls|, root, Finalizations) <= Signers(s) * Submitters(s)
  {
    RunCascade(r, i);
    StateBound(r.states[i], root);
  }

  lemma StateBound(s: State, root: nat)
    requires CascadeOk(s)
    ensures Sends(s.calls, |s.calls|, root, Requests) <= 1
    ensures Sends(s.calls, |s.calls|, root, Signatures) <= Signers(s)
    ensures Sends(s.calls, |s.calls|, root, Finalizations) <= Signers(s) * Submitters(s)
  {
    var n := |s.calls|;
    Roots(s);
    OneRequest(s.calls, n, root);
    hide CallsOk, Signers, Submitters, Sends, CountsOk;
    if root < n {
      RootSigners(s, root);
      RootSubmitters(s, root);
      Scaled(Sends(s.calls, n, root, Finalizations), Sends(s.calls, n, root, Signatures), Signers(s), Submitters(s));
    } else {
      NoneBefore(s.calls, n, root, Signatures);
      NoneBefore(s.calls, n, root, Finalizations);
      Scaled(0, 0, Signers(s), Submitters(s));
    }
  }

  lemma Scaled(x: nat, a: nat, b: nat, most: nat)
    requires x <= a * most && a <= b
    ensures x <= b * most
  {
    assert a * most <= b * most;
  }

  lemma RootSubmitters(s: State, root: nat)
    requires CascadeOk(s) && root < |s.calls|
    ensures Sends(s.calls, |s.calls|, root, Finalizations) <=
            Sends(s.calls, |s.calls|, root, Signatures) * Submitters(s)
  {
    var n, most := |s.calls|, Submitters(s);
    assert CountsOk(s, root);
    forall c | 0 <= c < n && s.calls[c].address.Signatures? ensures AllDone(s.calls[c]) <= most {
      assert CallOk(s, c);
      AllDoneBound(s.calls[c]);
    }
    hide CallsOk, AllDone, Submitters, Sends, Submitted;
    SubmittedBound(s.calls, n, root, most);
  }

  /** If the index is not that of a request, nothing comes from it. */
  lemma RootSigners(s: State, root: nat)
    requires CascadeOk(s) && root < |s.calls|
    ensures Sends(s.calls, |s.calls|, root, Signatures) <= Signers(s)
  {
    assert CallOk(s, root) && CountsOk(s, root);
    if s.calls[root].address.Requests? {
      AllDoneBound(s.calls[root]);
    } else {
      assert forall c :: 0 <= c < |s.calls| ==> CallOk(s, c);
      NoneFrom(s, |s.calls|, root, Signatures);
    }
  }

  lemma {:induction false} NoneFrom(s: State, n: nat, root: nat, a: Address)
    requires n <= |s.calls| && root < |s.calls| && !s.calls[root].address.Requests?
    requires forall c :: 0 <= c < |s.calls| ==> CallOk(s, c)
    ensures Sends(s.calls, n, root, a) == 0
  {
    if n > 0 {
      assert CallOk(s, n - 1);
      NoneFrom(s, n - 1, root, a);
    }
  }

  // ---- which tables of listeners keep it small ----

  /** One request causes at most three messages. */
  ghost predicate AtMostThree(s: State) {
    forall root: nat :: Caused(s.calls, |s.calls|, root) <= 3
  }

  /** One request causes at most one message on each address, a later one on a later address. */
  ghost predicate Rising(s: State) {
    forall c, d :: 0 <= c < d < |s.calls| && s.calls[c].root == s.calls[d].root ==>
                     Rank(s.calls[c].address) < Rank(s.calls[d].address)
  }

  lemma {:induction false} CausedIsSends(calls: seq<Call>, n: nat, root: nat)
    requires n <= |calls|
    ensures Caused(calls, n, root) ==
            Sends(calls, n, root, Requests) + Sends(calls, n, root, Signatures) + Sends(calls, n, root, Finalizations)
  {
    if n > 0 {
      CausedIsSends(calls, n - 1, root);
    }
  }

  lemma ThreeIfSmall(s: State)
    requires CascadeOk(s) && Signers(s) + Signers(s) * Submitters(s) <= 2
    ensures AtMostThree(s)
  {
    hide CascadeOk, Signers, Submitters, Sends, Caused;
    forall root: nat ensures Caused(s.calls, |s.calls|, root) <= 3 {
      StateBound(s, root);
      CausedIsSends(s.calls, |s.calls|, root);
    }
  }

  lemma {:induction false} TwoSends(calls: seq<Call>, n: nat, c: nat, d: nat)
    requires c < d < n <= |calls| && calls[c].root == calls[d].root && calls[c].address == calls[d].address
    ensures Sends(calls, n, calls[c].root, calls[c].address) >= 2
  {
    if d == n - 1 {
      OneSend(calls, n - 1, c);
    } else {
      TwoSends(calls, n - 1, c, d);
    }
  }

  lemma {:induction false} OneSend(calls: seq<Call>, n: nat, c: nat)
    requires c < n <= |calls|
    ensures Sends(calls, n, calls[c].root, calls[c].address) >= 1
  {
    if c < n - 1 {
      OneSend(calls, n - 1, c);
    }
  }

  lemma RisingIfTidy(s: State)
    requires CascadeOk(s) && Signers(s) <= 1 && Signers(s) * Submitters(s) <= 1
    ensures Rising(s)
  {
    forall c, d | 0 <= c < d < |s.calls| && s.calls[c].root == s.calls[d].root
      ensures Rank(s.calls[c].address) < Rank(s.calls[d].address)
    {
      assert CallOk(s, c) && CallOk(s, d);
      StateBound(s, s.calls[c].root);
      OneOfAKind(s, s.calls[c].root, c, d);
      if s.calls[c].address.Finalizations? && s.calls[d].address.Signatures? {
        var b :| s.calls[c].root < b < c && SignatureOf(s.calls, b, s.calls[c].root);
        OneOfAKind(s, s.calls[c].root, b, d);
      }
    }
  }

  lemma OneOfAKind(s: State, root: nat, c: nat, d: nat)
    requires c < d < |s.calls| && s.calls[c].root == s.calls[d].root == root
    requires forall a :: Sends(s.calls, |s.calls|, root, a) <= 1
    ensures s.calls[c].address != s.calls[d].address
  {
    if s.calls[c].address == s.calls[d].address {
      TwoSends(s.calls, |s.calls|, c, d);
    }
  }

  // ---- how the others exceed it ----

  ghost function Last(r: Run): State
    requires IsRun(r)
  {
    r.states[|r.states| - 1]
  }

  /** `q` goes on from `r`, and nobody registers any more. */
  ghost predicate GoesOn(r: Run, q: Run) {
    && IsRun(q) && r.states <= q.states && r.steps <= q.steps
    && forall k :: |r.steps| <= k < |q.steps| ==> !q.steps[k].Register?
  }

  lemma GoesOneFurther(r: Run, q: Run, x: Step) returns (q': Run)
    requires GoesOn(r, q) && Enabled(Last(q), x) && !x.Register?
    ensures GoesOn(r, q') && Last(q') == Apply(Last(q), x)
  {
    q' := Run(q.states + [Apply(Last(q), x)], q.steps + [x]);
    hide Enabled, Apply;
  }

  /** The table of listeners stands. */
  lemma {:induction false} TableStays(r: Run, q: Run, k: nat)
    requires IsRun(r) && GoesOn(r, q) && |r.steps| <= k < |q.states|
    ensures q.states[k].listeners == Last(r).listeners
  {
    if k > |r.steps| {
      TableStays(r, q, k - 1);
      assert Enabled(q.states[k - 1], q.steps[k - 1]) && q.states[k] == Apply(q.states[k - 1], q.steps[k - 1]);
    }
  }

  /** Handler `h` of call `c` accepts the message, and its listener publishes: call `n` is new, the others stand. */
  ghost predicate Published(s: State, s': State, c: nat, h: nat) {
    var n := |s.calls|;
    && At(s, c, h, Waiting) && Publishes(s.calls[c], h) && s'.listeners == s.listeners && |s'.calls| == n + 1
    && s'.calls[n] == NewCall(s, s.calls[c].root, Output(s.calls[c], s.calls[c].handlers[h]).value, "")
    && s'.calls[c] == s.calls[c].(progress := s.calls[c].progress[h := Ended])
    && forall d :: 0 <= d < n && d != c ==> s'.calls[d] == s.calls[d]
  }

  lemma OnePublishes(r: Run, q: Run, c: nat, h: nat) returns (q': Run)
    requires GoesOn(r, q) && At(Last(q), c, h, Waiting) && Publishes(Last(q).calls[c], h)
    ensures GoesOn(r, q') && Published(Last(q), Last(q'), c, h)
  {
    hide GoesOn, IsRun;
    q' := GoesOneFurther(r, q, Validated(c, h, true));
    q' := GoesOneFurther(r, q', Publish(c, h, ""));
  }

  lemma Requested(r: Run) returns (q: Run)
    requires IsRun(r)
    ensures GoesOn(r, q) && Last(q) == Apply(Last(r), Request(""))
  {
    assert GoesOn(r, r);
    q := GoesOneFurther(r, r, Request(""));
  }

  /** As many places of `x` in the list as it is there times. */
  lemma {:induction false} Places(hs: seq<Handler>, x: Handler, k: nat) returns (places: seq<nat>)
    requires k <= multiset(hs)[x]
    ensures |places| == k && forall i :: 0 <= i < k ==> places[i] < |hs| && hs[places[i]] == x
    ensures forall i, j :: 0 <= i < j < k ==> places[i] < places[j]
  {
    if k == 0 {
      places := [];
    } else {
      var n := |hs| - 1;
      assert hs == hs[..n] + [hs[n]];
      if hs[n] == x {
        places := Places(hs[..n], x, k - 1);
        places := places + [n];
      } else {
        places := Places(hs[..n], x, k);
      }
    }
  }

  lemma FourCaused(s: State, n: nat)
    requires FourFrom(s, n)
    ensures !AtMostThree(s)
  {
    CausedMonotone(s.calls, n + 4, |s.calls|, n);
    assert Caused(s.calls, n + 4, n) == Caused(s.calls, n + 3, n) + 1;
    assert Caused(s.calls, n + 2, n) == Caused(s.calls, n + 1, n) + 1;
  }

  lemma {:induction false} CausedMonotone(calls: seq<Call>, m: nat, n: nat, root: nat)
    requires m <= n <= |calls|
    ensures Caused(calls, m, root) <= Caused(calls, n, root)
  {
    if m < n {
      CausedMonotone(calls, m, n - 1, root);
    }
  }

  predicate Hears(s: State, a: Address, h: nat, x: Handler) {
    h < |Handlers(s, a)| && Handlers(s, a)[h] == x
  }

  /** The state after a new request whose signer `h` has published. */
  ghost predicate OneSigned(s: State, s': State, h: nat) {
    var n := |s.calls|;
    && s'.listeners == s.listeners && |s'.calls| == n + 2
    && s'.calls[n] == Ending(NewCall(s, n, Requests, ""), h) && s'.calls[n + 1] == NewCall(s, n, Signatures, "")
  }

  function Ending(call: Call, h: nat): Call {
    if h < |call.progress| then call.(progress := call.progress[h := Ended]) else call
  }

  lemma SignerPublishes(r: Run, h: nat) returns (q: Run)
    requires IsRun(r) && Hears(Last(r), Requests, h, Signer)
    ensures GoesOn(r, q) && OneSigned(Last(r), Last(q), h)
  {
    q := Requested(r);
    hide GoesOn, IsRun;
    q := OnePublishes(r, q, |Last(r).calls|, h);
  }

  /** Two signers: two messages of one request on Signatures. */
  lemma SignersPublish(r: Run, h: nat, h': nat) returns (q: Run)
    requires IsRun(r) && Hears(Last(r), Requests, h, Signer) && Hears(Last(r), Requests, h', Signer) && h != h'
    ensures var s, n := Last(r), |Last(r).calls|;
      && GoesOn(r, q) && Last(q).listeners == s.listeners && |Last(q).calls| == n + 3
      && Last(q).calls[n] == Ending(Ending(NewCall(s, n, Requests, ""), h), h')
      && Last(q).calls[n + 1] == Last(q).calls[n + 2] == NewCall(s, n, Signatures, "")
  {
    q := SignerPublishes(r, h);
    hide GoesOn, IsRun;
    q := OnePublishes(r, q, |Last(r).calls|, h');
  }

  /** Two submitters of a signature: two messages of one request on Finalizations. */
  lemma SubmittersPublish(r: Run, h: nat, g: nat, g': nat) returns (q: Run)
    requires IsRun(r) && Hears(Last(r), Requests, h, Signer)
    requires Hears(Last(r), Signatures, g, Submitter) && Hears(Last(r), Signatures, g', Submitter) && g != g'
    ensures var n := |Last(r).calls|;
      && GoesOn(r, q) && |Last(q).calls| == n + 4
      && (forall c :: n <= c < n + 4 ==> Last(q).calls[c].root == n)
      && Last(q).calls[n + 2].address == Last(q).calls[n + 3].address == Finalizations
  {
    q := SignerPublishes(r, h);
    hide GoesOn, IsRun;
    q := OnePublishes(r, q, |Last(r).calls| + 1, g);
    q := OnePublishes(r, q, |Last(r).calls| + 1, g');
  }

  /** Calls `n` to `n + 3` come from the request that is call `n`. */
  ghost predicate FourFrom(s: State, n: nat) {
    n + 4 <= |s.calls| && forall c :: n <= c < n + 4 ==> s.calls[c].root == n
  }

  lemma TwoSignersOneSubmitter(r: Run, h: nat, h': nat, g: nat) returns (q: Run)
    requires IsRun(r) && Hears(Last(r), Requests, h, Signer) && Hears(Last(r), Requests, h', Signer) && h != h'
    requires Hears(Last(r), Signatures, g, Submitter)
    ensures GoesOn(r, q) && FourFrom(Last(q), |Last(r).calls|) && !Rising(Last(q))
  {
    var n := |Last(r).calls|;
    q := SignersPublish(r, h, h');
    hide GoesOn, IsRun;
    q := OnePublishes(r, q, n + 1, g);
    assert Last(q).calls[n + 1].root == Last(q).calls[n + 2].root;
  }

  lemma ThreeSigners(r: Run, h: nat, h': nat, h'': nat) returns (q: Run)
    requires IsRun(r) && Hears(Last(r), Requests, h, Signer) && Hears(Last(r), Requests, h', Signer) && h < h' < h''
    requires Hears(Last(r), Requests, h'', Signer)
    ensures GoesOn(r, q) && FourFrom(Last(q), |Last(r).calls|)
  {
    q := SignersPublish(r, h, h');
    hide GoesOn, IsRun;
    q := OnePublishes(r, q, |Last(r).calls|, h'');
  }

  lemma FourSends(r: Run) returns (q: Run)
    requires IsRun(r) && Signers(Last(r)) + Signers(Last(r)) * Submitters(Last(r)) > 2
    ensures GoesOn(r, q) && !AtMostThree(Last(q))
  {
    var s, n := Last(r), |Last(r).calls|;
    hide GoesOn, IsRun, AtMostThree;
    if Signers(s) == 1 {
      var h := Places(Handlers(s, Requests), Signer, 1);
      var g := Places(Handlers(s, Signatures), Submitter, 2);
      q := SubmittersPublish(r, h[0], g[0], g[1]);
    } else if Signers(s) == 2 {
      assert Submitters(s) > 0;
      var h := Places(Handlers(s, Requests), Signer, 2);
      var g := Places(Handlers(s, Signatures), Submitter, 1);
      q := TwoSignersOneSubmitter(r, h[0], h[1], g[0]);
    } else {
      var h := Places(Handlers(s, Requests), Signer, 3);
      q := ThreeSigners(r, h[0], h[1], h[2]);
    }
    FourCaused(Last(q), n);
  }

  lemma NotRising(r: Run) returns (q: Run)
    requires IsRun(r) && (Signers(Last(r)) > 1 || Signers(Last(r)) * Submitters(Last(r)) > 1)
    ensures GoesOn(r, q) && !Rising(Last(q))
  {
    var s, n := Last(r), |Last(r).calls|;
    if Signers(s) > 1 {
      var h := Places(Handlers(s, Requests), Signer, 2);
      q := SignersPublish(r, h[0], h[1]);
      assert Last(q).calls[n + 1].root == Last(q).calls[n + 2].root;
    } else {
      var h := Places(Handlers(s, Requests), Signer, 1);
      var g := Places(Handlers(s, Signatures), Submitter, 2);
      q := SubmittersPublish(r, h[0], g[0], g[1]);
      assert Last(q).calls[n + 2].root == Last(q).calls[n + 3].root;
    }
  }

  // ---- exactly when ----

  /**
   * From any point of any run, as long as nobody registers: one request causes at most three messages
   * if and only if the signers, and the submitters once for each signer, are at most two.
   */
  lemma AtMostThreeIff(r: Run)
    requires IsRun(r)
    ensures Signers(Last(r)) + Signers(Last(r)) * Submitters(Last(r)) <= 2 <==>
            forall q :: GoesOn(r, q) ==> AtMostThree(Last(q))
  {
    if Signers(Last(r)) + Signers(Last(r)) * Submitters(Last(r)) <= 2 {
      forall q | GoesOn(r, q) ensures AtMostThree(Last(q)) {
        SameTable(r, q);
        RunCascade(q, |q.states| - 1);
        hide CascadeOk, AtMostThree, IsRun, Signers, Submitters;
        ThreeIfSmall(Last(q));
      }
    } else {
      var q := FourSends(r);
    }
  }

  /**
   * From any point of any run, as long as nobody registers: one request causes at most one message on
   * each address, in the order of the addresses, if and only if there is at most one signer and, if
   * there is one, at most one submitter.
   */
  lemma RisingIff(r: Run)
    requires IsRun(r)
    ensures Signers(Last(r)) <= 1 && Signers(Last(r)) * Submitters(Last(r)) <= 1 <==>
            forall q :: GoesOn(r, q) ==> Rising(Last(q))
  {
    if Signers(Last(r)) <= 1 && Signers(Last(r)) * Submitters(Last(r)) <= 1 {
      forall q | GoesOn(r, q) ensures Rising(Last(q)) {
        SameTable(r, q);
        RunCascade(q, |q.states| - 1);
        hide CascadeOk, Rising, IsRun, Signers, Submitters;
        RisingIfTidy(Last(q));
      }
    } else {
      var q := NotRising(r);
    }
  }

  lemma SameTable(r: Run, q: Run)
    requires IsRun(r) && GoesOn(r, q)
    ensures Signers(Last(q)) == Signers(Last(r)) && Submitters(Last(q)) == Submitters(Last(r))
  {
    TableStays(r, q, |q.states| - 1);
    hide IsRun;
  }

  lemma TwoSignersRegistered() returns (r: Run)
    ensures IsRun(r) && Handlers(Last(r), Requests) == [Signer, Signer] && Handlers(Last(r), Signatures) == [Submitter]
  {
    var s1 := Apply(START, Register(Of(Requests), Signer));
    var s2 := Apply(s1, Register(Of(Requests), Signer));
    var s3 := Apply(s2, Register(Of(Signatures), Submitter));
    r := Run([START, s1, s2, s3],
             [Register(Of(Requests), Signer), Register(Of(Requests), Signer), Register(Of(Signatures), Submitter)]);
    assert Last(r) == s3;
  }

  /** A run from the start: with two signers and a submitter, one request causes four messages. */
  lemma TwoSignersSendFour() returns (q: Run)
    ensures IsRun(q) && !AtMostThree(Last(q)) && !Rising(Last(q))
  {
    hide IsRun, AtMostThree, Rising;
    var r := TwoSignersRegistered();
    q := TwoSignersOneSubmitter(r, 0, 1, 0);
    FourCaused(Last(q), |Last(r).calls|);
  }
}
