/** The consent-preference change detector of `AppProviders`
    (apps/web/app/AppProviders.tsx:76-91): a one-slot holder that remembers the
    latest preference and asks for a full reload when the consent categories
    change between two consecutive updates. */
module ConsentGovernance {
  import opened Wrappers
  import opened ConsentDiff

  /** A consent-manager preference; the detector reads only its `consent` list. */
  datatype TrackingPreference<C> = TrackingPreference(consent: seq<C>)

  /** What one update leaves behind: the holder's new value and whether
      `window.location.reload()` is called. */
  datatype Outcome<C> = Outcome(holder: Option<TrackingPreference<C>>, reload: bool)

  /** One call of `setTrackingPreference` from holder value `prior`. The prior
      consent is read first, the holder is overwritten unconditionally, an
      undefined prior returns early, and otherwise the two scans decide. An
      empty prior list is still a defined (truthy) value and gets compared. */
  function Step<C(==)>(prior: Option<TrackingPreference<C>>, newPreference: TrackingPreference<C>)
    : (o: Outcome<C>)
    ensures o.holder == Some(newPreference)
    ensures o.reload <==> prior.Some? && Changed(prior.value.consent, newPreference.consent)
  {
    var priorConsent := if prior.Some? then Some(prior.value.consent) else None;
    if priorConsent.None? then Outcome(Some(newPreference), false)
    else Outcome(Some(newPreference), PreferencesChanged(priorConsent.value, newPreference.consent))
  }

  /** The holder after feeding `updates`, in order, starting from `prior`. */
  function Holder<C(==)>(prior: Option<TrackingPreference<C>>, updates: seq<TrackingPreference<C>>)
    : Option<TrackingPreference<C>>
    decreases |updates|
  {
    if updates == [] then prior else Holder(Step(prior, updates[0]).holder, updates[1..])
  }

  /** The reload flag of each update in `updates`, starting from `prior`. */
  function Reloads<C(==)>(prior: Option<TrackingPreference<C>>, updates: seq<TrackingPreference<C>>)
    : (flags: seq<bool>)
    ensures |flags| == |updates|
    decreases |updates|
  {
    if updates == [] then []
    else [Step(prior, updates[0]).reload] + Reloads(Step(prior, updates[0]).holder, updates[1..])
  }

  /** Two preferences grant the same categories. */
  ghost predicate SameConsent<C>(p: TrackingPreference<C>, q: TrackingPreference<C>)
  {
    Elems(p.consent) == Elems(q.consent)
  }

  /** After a non-empty run the holder is the last preference received,
      whether or not any update reloaded. */
  lemma {:induction false} HolderTracksLast<C>(prior: Option<TrackingPreference<C>>, updates: seq<TrackingPreference<C>>)
    requires updates != []
    ensures Holder(prior, updates) == Some(updates[|updates| - 1])
    decreases |updates|
  {
    if |updates| > 1 {
      HolderTracksLast(Step(prior, updates[0]).holder, updates[1..]);
    }
  }

  /** Appending one update extends the run by exactly one `Step` from the
      holder the run had reached. */
  lemma {:induction false} RunSnoc<C>(prior: Option<TrackingPreference<C>>, updates: seq<TrackingPreference<C>>, p: TrackingPreference<C>)
    ensures Holder(prior, updates + [p]) == Step(Holder(prior, updates), p).holder
    ensures Reloads(prior, updates + [p]) == Reloads(prior, updates) + [Step(Holder(prior, updates), p).reload]
    decreases |updates|
  {
    if updates == [] {
      assert updates + [p] == [p];
    } else {
      assert (updates + [p])[1..] == updates[1..] + [p];
      RunSnoc(Step(prior, updates[0]).holder, updates[1..], p);
    }
  }

  /** Each update is compared with the one immediately before it, never an
      older one or a default; the first is compared with `prior`. */
  lemma {:induction false} ReloadAt<C>(prior: Option<TrackingPreference<C>>, updates: seq<TrackingPreference<C>>, k: nat)
    requires k < |updates|
    ensures Reloads(prior, updates)[k] <==>
      if k == 0 then prior.Some? && Changed(prior.value.consent, updates[0].consent)
      else Changed(updates[k - 1].consent, updates[k].consent)
    decreases k
  {
    if k > 0 {
      ReloadAt(Step(prior, updates[0]).holder, updates[1..], k - 1);
    }
  }

  /** The first update after mount never reloads, whatever it grants. */
  lemma FirstUpdateNeverReloads<C>(updates: seq<TrackingPreference<C>>)
    requires updates != []
    ensures !Reloads(None, updates)[0]
  {
  }

  /** Idempotence: if no update changes the categories of the one before it
      (nor of `prior`), no update reloads. */
  lemma {:induction false} UnchangedRunNeverReloads<C>(prior: Option<TrackingPreference<C>>, updates: seq<TrackingPreference<C>>)
    requires updates != [] && prior.Some? ==> SameConsent(prior.value, updates[0])
    requires forall k :: 0 < k < |updates| ==> SameConsent(updates[k - 1], updates[k])
    ensures forall k :: 0 <= k < |updates| ==> !Reloads(prior, updates)[k]
  {
    forall k | 0 <= k < |updates|
      ensures !Reloads(prior, updates)[k]
    {
      ReloadAt(prior, updates, k);
      if k == 0 {
        if prior.Some? { ChangedIffElemsDiffer(prior.value.consent, updates[0].consent); }
      } else {
        ChangedIffElemsDiffer(updates[k - 1].consent, updates[k].consent);
      }
    }
  }

  /** The `trackingPreference` ref of one mounted `AppProviders`. */
  class PreferenceHolder<C(==)> {
    /** `trackingPreference.current`: undefined on mount, then the latest preference. */
    var current: Option<TrackingPreference<C>>
    /** Every preference received since mount, in order. */
    ghost var History: seq<TrackingPreference<C>>
    /** Whether each of those updates called `window.location.reload()`. */
    ghost var ReloadFlags: seq<bool>

    /** The ref holds what the run of all updates so far leaves behind. */
    ghost predicate Valid()
      reads this
    {
      current == Holder(None, History) && ReloadFlags == Reloads(None, History)
    }

    /** A fresh mount: the ref is undefined and nothing has been received. */
    constructor ()
      ensures Valid()
      ensures current == None && History == [] && ReloadFlags == []
    {
      current := None;
      History := [];
      ReloadFlags := [];
    }

    /** `setTrackingPreference(newPreference)`; `reload` reports whether the
        page reload is requested. */
    method SetTrackingPreference(newPreference: TrackingPreference<C>) returns (reload: bool)
      requires Valid()
      modifies this
      ensures Valid()
      ensures current == Some(newPreference)
      ensures History == old(History) + [newPreference]
      ensures ReloadFlags == old(ReloadFlags) + [reload]
      ensures reload <==> old(current).Some? && Changed(old(current).value.consent, newPreference.consent)
    {
      var priorConsent := if current.Some? then Some(current.value.consent) else None;
      current := Some(newPreference);
      if priorConsent.None? {
        reload := false;
      } else {
        var newConsent := newPreference.consent;
        var preferencesChanged := PreferencesChanged(priorConsent.value, newConsent);
        reload := preferencesChanged;
      }
      RunSnoc(None, History, newPreference);
      History := History + [newPreference];
      ReloadFlags := ReloadFlags + [reload];
    }
  }
}
