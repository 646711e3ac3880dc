/**
 * What a sync publishes: the customer ID and the two conditions an acknowledged patch leaves on
 * the account's StripeCustomer, by what Stripe last answered the pass.
 */
module CustomerStatus {
  import opened Wrappers
  import opened KeyLocks
  import opened CustomerProtocol
  import opened CustomerInvariants
  import opened CustomerTheorems
  import opened Remote

  /** Pass t is there or not, and in the same frame, as before. */
  predicate SamePass(s: State, s': State, t: Tid) {
    (t in s.passes <==> t in s'.passes) && (t in s.passes ==> s'.passes[t] == s.passes[t])
  }

  lemma EnteringIsQuiet(s: State, a: Action, t: Tid)
    requires Enabled(s, a) && !ActsFor(a, t) && (a.Begin? || a.Lock?)
    ensures SamePass(s, Apply(s, a), t)
  {
    if a.Begin? { BeginEnters(s, a.t, a.account); } else { LockAdvances(s, a.t); }
  }

  lemma LeavingIsQuiet(s: State, a: Action, t: Tid)
    requires Enabled(s, a) && !ActsFor(a, t) && (a.Return? || a.Abandon?)
    ensures SamePass(s, Apply(s, a), t)
  {
    if a.Return? { ReturnLeaves(s, a.t); } else { AbandonLeaves(s, a.t); }
  }

  /** A pass is moved by its own actions only. */
  lemma OthersLeave(s: State, a: Action, t: Tid)
    requires CoreInv(s) && Enabled(s, a) && !ActsFor(a, t)
    ensures SamePass(s, Apply(s, a), t)
  {
    if a.Begin? || a.Lock? {
      EnteringIsQuiet(s, a, t);
    } else if a.Return? || a.Abandon? {
      LeavingIsQuiet(s, a, t);
    } else if !a.DeleteObject? && !a.RecordSibling? {
      HolderStays(s, a);
    }
  }

  lemma {:induction false} PassWaits(states: seq<State>, acts: seq<Action>, i: nat, j: nat, t: Tid)
    requires Execution(states, acts) && i <= j <= |acts|
    requires forall k :: i <= k < j ==> !ActsFor(acts[k], t)
    ensures SamePass(states[i], states[j], t)
  {
    if i < j {
      PassWaits(states, acts, i, j - 1, t);
      RunInv(states, acts, j - 1);
      OthersLeave(states[j - 1], acts[j - 1], t);
    }
  }

  /** A search, a create or an update that Stripe failed, or whose answer got lost. */
  predicate StripeFails(a: Action) {
    if a.SearchUid? || a.SearchName? then !a.ok
    else (a.Create? || a.Update?) && a.effect != Done
  }

  /** A pass comes to its patch from the tax IDs, or from a call that Stripe failed. */
  lemma ComesToPublish(s: State, a: Action, t: Tid)
    requires Enabled(s, a) && ActsFor(a, t) && At(Apply(s, a), t, Publishing)
    ensures if a.SyncTaxIds? then Apply(s, a).passes[t].error == (if a.ok then NoError else TaxIdError)
            else StripeFails(a) && Apply(s, a).passes[t].error.StripeFailed?
  {}

  /** The status a patch leaves when it gets through, or would have changed nothing. */
  lemma PatchShows(s: State, t: Tid, effect: Effect)
    requires Enabled(s, Publish(t, effect)) && PassInv(s, s.passes[t]) && !effect.Refused?
    requires s.passes[t].account.key in DoPublish(s, t, effect).objects
    ensures var p, k := s.passes[t], s.passes[t].account.key;
      k in s.objects && DoPublish(s, t, effect).objects[k].status ==
        if p.error.StripeFailed? then
          Status(p.existing, Some(Condition(false, StripeError)), s.objects[k].status.taxIds)
        else Status(p.target, Some(Condition(true, CustomerSynced)),
                    Some(if p.error.NoError? then Condition(true, Synced) else Condition(false, StripeRejected)))
    ensures var p, k := s.passes[t], s.passes[t].account.key;
      s.objects[k].status.id != "" ==> DoPublish(s, t, effect).objects[k].status.id == s.objects[k].status.id
  {
    if Lands(s.passes[t], effect) { PatchLands(s, t, effect); } else { PatchMisses(s, t, effect); }
  }

  /** At its patch a pass knows what Stripe answered last. */
  lemma KnowsAnswer(states: seq<State>, acts: seq<Action>, last: nat, i: nat, t: Tid)
    requires Execution(states, acts) && last < i <= |acts| && At(states[i], t, Publishing)
    requires ActsFor(acts[last], t) && forall k :: last < k < i ==> !ActsFor(acts[k], t)
    ensures if acts[last].SyncTaxIds? then states[i].passes[t].error == (if acts[last].ok then NoError else TaxIdError)
            else StripeFails(acts[last]) && states[i].passes[t].error.StripeFailed?
  {
    PassWaits(states, acts, last + 1, i, t);
    ComesToPublish(states[last], acts[last], t);
  }

  /**
   * In every run: Ready is True exactly when the pass got as far as the tax IDs, and then
   * TaxIDsApplied says whether Stripe took them. A Stripe failure turns Ready False and leaves the
   * tax-ID condition. No ID that was there is ever replaced.
   */
  lemma SyncPublishes(states: seq<State>, acts: seq<Action>, last: nat, i: nat, t: Tid, effect: Effect)
    requires Execution(states, acts) && last < i < |acts| && acts[i] == Publish(t, effect) && !effect.Refused?
    requires ActsFor(acts[last], t) && forall k :: last < k < i ==> !ActsFor(acts[k], t)
    requires t in states[i].passes && states[i].passes[t].account.key in states[i + 1].objects
    ensures var p, k := states[i].passes[t], states[i].passes[t].account.key;
      k in states[i].objects && states[i + 1].objects[k].status ==
        if !acts[last].SyncTaxIds? then
          Status(p.existing, Some(Condition(false, StripeError)), states[i].objects[k].status.taxIds)
        else
          Status(p.target, Some(Condition(true, CustomerSynced)),
                 Some(if acts[last].ok then Condition(true, Synced) else Condition(false, StripeRejected)))
    ensures var k := states[i].passes[t].account.key;
      states[i].objects[k].status.id != "" ==> states[i + 1].objects[k].status.id == states[i].objects[k].status.id
    ensures acts[last].SyncTaxIds? || StripeFails(acts[last])
  {
    KnowsAnswer(states, acts, last, i, t);
    RunInv(states, acts, i);
    assert PassInv(states[i], states[i].passes[t]);
    PatchShows(states[i], t, effect);
  }

  /** And the call comes back with the ID exactly when the pass got that far and the patch was acknowledged. */
  lemma SyncAnswers(states: seq<State>, acts: seq<Action>, last: nat, i: nat, t: Tid, effect: Effect)
    requires Execution(states, acts) && last < i < |acts| && acts[i] == Publish(t, effect)
    requires ActsFor(acts[last], t) && forall k :: last < k < i ==> !ActsFor(acts[k], t)
    ensures t in states[i].passes && t in states[i + 1].passes
    ensures states[i + 1].passes[t].result ==
              if acts[last].SyncTaxIds? && effect.Done? then Ensured(states[i].passes[t].target, !acts[last].ok)
              else Failed
  {
    KnowsAnswer(states, acts, last, i, t);
    PublishMoves(states[i], t, effect);
  }

  /** A write that is not refused takes effect, whether or not its caller hears of it. */
  lemma WritesTakeEffect(s: State, a: Action)
    requires Enabled(s, a) && (a.Make? || a.Create? || a.Update?) && !a.effect.Refused?
    ensures var account := s.passes[a.t].account;
      a.Make? ==> (account.key !in s.objects && Apply(s, a).objects ==
        var made := Object(account.key, s.nextSerial);
        s.objects[account.key := StripeCustomer(made, Some(account.uid), Status("", None, None))])
    ensures var account := s.passes[a.t].account;
      a.Create? || a.Update? ==> (Apply(s, a).customers ==
        var id := if a.Create? then a.id else s.passes[a.t].target;
        s.customers[id := Customer(account.key.name, account.uid, [account.key.namespace])])
    ensures a.Create? ==> a.id !in s.customers
    ensures a.Update? ==> s.passes[a.t].target in s.customers
  {}
}
