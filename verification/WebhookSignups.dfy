/** Subscriptions and the signups they come from; when a transaction may report its first status. */
module WebhookSignups {
  import opened Payloads
  import opened WebhookState
  import opened WebhookSteps
  import opened WebhookDelivery
  import opened WebhookEvolution

  /** A transaction starts when its initial signup is complete. */
  ghost predicate ScopeOk(s: State, u: Signup) {
    && u.scope in s.txs
    && (u.phase.SettingNonce? ==> u.initial)
    && (u.initial && !u.phase.Complete? ==> !s.txs[u.scope].launched)
  }

  ghost predicate InitialsDistinct(signups: map<Id, Signup>) {
    forall g, g' ::
      (g in signups && g' in signups && signups[g].initial && signups[g'].initial
        && signups[g].scope == signups[g'].scope)
      ==> g == g'
  }

  /** Every stored subscription belongs to the signup that created it. */
  ghost predicate OriginOk(s: State, i: Id) {
    && i in s.subs && s.subs[i].origin in s.signups
    && var u := s.signups[s.subs[i].origin];
       && s.subs[i].scope == u.scope
       && !u.phase.Storing?
       && (u.phase.Broken? || u.phase.sub == i)
  }

  ghost predicate ScopesOk(s: State) {
    && (forall tx :: tx in s.txs <==> 1 <= tx <= s.currentTx)
    && (forall g :: g in s.signups ==> ScopeOk(s, s.signups[g]))
    && InitialsDistinct(s.signups)
    && (forall i :: i in s.subs ==> OriginOk(s, i))
  }

  // ---- newborn tasks stay newborn until their own signup schedules them ----

  ghost predicate NewbornsStay(s: State, s': State) {
    forall i :: i in s.subs && FlightOf(s, Handshake(i)).newborn ==> FlightOf(s', Handshake(i)).newborn
  }

  lemma SignupsStay(s: State, s': State)
    requires SignupsOk(s) && Evolves(s, s') && NewbornsStay(s, s') && s'.signups == s.signups
    ensures SignupsOk(s')
  {
  }

  lemma SigningSignups(s: State, g: Id, x: Signing)
    requires SignupsOk(s) && SigningEnabled(s, g, x) && Evolves(s, ApplySigning(s, g, x))
    ensures SignupsOk(ApplySigning(s, g, x))
  {
  }

  lemma HandlingNewborns(s: State, e: Id, x: Handling)
    requires HandlingEnabled(s, e, x)
    ensures NewbornsStay(s, ApplyHandling(s, e, x))
  {
  }

  lemma PerformNewborns(s: State, t: Task, k: nat, eff: Effect)
    requires k < |FlightOf(s, t).attempts|
    ensures NewbornsStay(s, Perform(s, t, k, eff))
  {
  }

  lemma SignupsKept(s: State, x: Step)
    requires SignupsOk(s) && Enabled(s, x) && Evolves(s, Apply(s, x))
    ensures SignupsOk(Apply(s, x))
  {
    hide Evolves, EffectOf, Perform, ApplyHandling, HandlingEnabled, ApplySigning, SigningEnabled, PayloadOf;
    match x
    case Sign(g, signing) => SigningSignups(s, g, signing);
    case Handle(e, handling) => HandlingNewborns(s, e, handling); SignupsStay(s, Apply(s, x));
    case Go(t, k, move) =>
      var eff := EffectOf(s, t, FlightOf(s, t).attempts[k], move);
      PerformNewborns(s, t, k, eff);
      SignupsStay(s, Perform(s, t, k, eff));
    case StatusChange(tx, snap) => SignupsStay(s, ApplyStatusChange(s, tx, snap));
    case Fire(t, h) => SignupsStay(s, Ring(s, t, h));
    case Tick(ms) => SignupsStay(s, Apply(s, x));
    case Submit(g, url) =>
    case Subscribe(g, scope, url) =>
  }

  // ---- scopes and origins ----

  lemma ScopesStay(s: State, s': State)
    requires ScopesOk(s) && Evolves(s, s')
    requires s'.signups == s.signups && s'.currentTx == s.currentTx && s'.subs.Keys == s.subs.Keys
    requires s'.txs.Keys == s.txs.Keys
    requires forall tx :: tx in s.txs ==> s'.txs[tx].launched == s.txs[tx].launched
    ensures ScopesOk(s')
  {
  }

  lemma SigningOrigins(s: State, g: Id, x: Signing)
    requires ScopesOk(s) && SignupsOk(s) && SigningEnabled(s, g, x) && Evolves(s, ApplySigning(s, g, x))
    ensures forall i :: i in ApplySigning(s, g, x).subs ==> OriginOk(ApplySigning(s, g, x), i)
  {
  }

  lemma SigningScope(s: State, g: Id, x: Signing, g': Id)
    requires SigningEnabled(s, g, x) && g' in s.signups
    requires ScopeOk(s, s.signups[g']) && ScopeOk(s, s.signups[g]) && InitialsDistinct(s.signups)
    ensures ScopeOk(ApplySigning(s, g, x), ApplySigning(s, g, x).signups[g'])
  {
  }

  lemma SigningBooks(s: State, g: Id, x: Signing)
    requires SigningEnabled(s, g, x)
    ensures ApplySigning(s, g, x).txs.Keys == s.txs.Keys
    ensures ApplySigning(s, g, x).signups.Keys == s.signups.Keys
    ensures InitialsDistinct(s.signups) ==> InitialsDistinct(ApplySigning(s, g, x).signups)
  {
  }

  lemma SigningScopes(s: State, g: Id, x: Signing)
    requires ScopesOk(s) && SignupsOk(s) && SigningEnabled(s, g, x) && Evolves(s, ApplySigning(s, g, x))
    ensures ScopesOk(ApplySigning(s, g, x))
  {
    assert g in s.signups;
    hide InitialsDistinct, SignupsOk, Evolves, OriginOk, ScopeOk, ApplySigning, SigningEnabled;
    var s' := ApplySigning(s, g, x);
    SigningOrigins(s, g, x);
    SigningBooks(s, g, x);
    assert forall tx :: tx in s'.txs <==> tx in s.txs;
    forall g' | g' in s'.signups ensures ScopeOk(s', s'.signups[g']) {
      SigningScope(s, g, x, g');
    }
  }

  lemma SubmitScopes(s: State, g: Id, url: string)
    requires ScopesOk(s) && g !in s.signups
    ensures ScopesOk(ApplySubmit(s, g, url))
  {
  }

  lemma SubscribeScopes(s: State, g: Id, scope: Id, url: string)
    requires ScopesOk(s) && Enabled(s, Subscribe(g, scope, url))
    ensures ScopesOk(Apply(s, Subscribe(g, scope, url)))
  {
  }

  lemma HandlingScopes(s: State, e: Id, x: Handling)
    requires ScopesOk(s) && HandlingEnabled(s, e, x) && Evolves(s, ApplyHandling(s, e, x))
    ensures ScopesOk(ApplyHandling(s, e, x))
  {
  }

  lemma PerformScopes(s: State, t: Task, k: nat, eff: Effect)
    requires ScopesOk(s) && k < |FlightOf(s, t).attempts| && Evolves(s, Perform(s, t, k, eff))
    ensures ScopesOk(Perform(s, t, k, eff))
  {
  }

  lemma ScopesKept(s: State, x: Step)
    requires ScopesOk(s) && SignupsOk(s) && Enabled(s, x) && Evolves(s, Apply(s, x))
    ensures ScopesOk(Apply(s, x))
  {
    hide ScopesOk, SignupsOk, Evolves, EffectOf, Perform, ApplyHandling, HandlingEnabled, ApplySigning,
      SigningEnabled, PayloadOf;
    match x
    case Sign(g, signing) => SigningScopes(s, g, signing);
    case Handle(e, handling) => HandlingScopes(s, e, handling);
    case Go(t, k, move) => PerformScopes(s, t, k, EffectOf(s, t, FlightOf(s, t).attempts[k], move));
    case StatusChange(tx, snap) => ScopesStay(s, ApplyStatusChange(s, tx, snap));
    case Fire(t, h) => ScopesStay(s, Ring(s, t, h));
    case Tick(ms) => ScopesStay(s, Apply(s, x));
    case Submit(g, url) => SubmitScopes(s, g, url);
    case Subscribe(g, scope, url) => SubscribeScopes(s, g, scope, url);
  }
}
