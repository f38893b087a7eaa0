/** Delayed recovery of systemd incidents: what one observation does to one key, and
    the log of everything the collector observed and published. */
module SystemdRecovery {
  import opened Items
  import opened SystemdRules

  /** The policy of the condition that opened the incident, and the latest severity. */
  datatype Incident = Incident(policy: Option<Resolve>, severity: ItemState)

  datatype Pending = Pending(item: Item, generation: nat)

  datatype Deferred = Deferred(state: string, subState: string)

  /** What the collector's maps hold for one key. */
  datatype KeyState = KeyState(incident: Option<Incident>, pending: Option<Pending>, deferred: Option<Deferred>)

  const CLEAR := KeyState(None, None, None)

  datatype Armed = Armed(generation: nat, after: nat)

  datatype Outcome = Outcome(next: KeyState, published: Option<Item>, armed: Option<Armed>)

  /** One observation of a unit; `generation` is the one a new window would take. */
  function Observe(format: Format, ks: KeyState, unit: Unit, r: Reading, generation: nat): Outcome {
    if !r.item.state.OK? then
      var policy := if ks.incident.Some? then ks.incident.value.policy else r.resolve;
      Outcome(KeyState(Some(Incident(policy, r.item.state)), None, None), Some(r.item), None)
    else if ks.incident.None? || ks.incident.value.policy.None? then
      Outcome(CLEAR, Some(r.item), None)
    else
      Defer(format, ks, unit, r.item, ks.incident.value.policy.value, generation)
  }

  /** An OK observation of an incident that has a recovery policy. */
  function Defer(format: Format, ks: KeyState, unit: Unit, item: Item, policy: Resolve, generation: nat): Outcome
    requires ks.incident.Some?
  {
    var deferred := Some(Deferred(unit.state, unit.subState));
    var severity := ks.incident.value.severity;
    if unit.state in policy.states then
      var published := if ks.deferred == deferred then None
                       else Some(Item(item.key, severity, format.pending(item.details, policy)));
      if ks.pending.Some? then
        Outcome(KeyState(ks.incident, Some(Pending(item, ks.pending.value.generation)), deferred), published, None)
      else
        Outcome(KeyState(ks.incident, Some(Pending(item, generation)), deferred), published,
                Some(Armed(generation, policy.after)))
    else
      var published := if ks.deferred == deferred then None
                       else Some(Item(item.key, severity, format.unresolved(item.details, unit.state, policy)));
      Outcome(KeyState(ks.incident, None, deferred), published, None)
  }

  /** The severity consumers must see for a key. */
  function SeverityOf(ks: KeyState): Option<ItemState> {
    if ks.incident.Some? then Some(ks.incident.value.severity) else None
  }

  function Shown(item: Item): Option<ItemState> {
    if item.state.OK? then None else Some(item.state)
  }

  /** What is published for a key is its new severity, and silence means no change. */
  lemma ObservePublishesSeverity(format: Format, ks: KeyState, unit: Unit, r: Reading, generation: nat)
    requires ks.incident.Some? ==> !ks.incident.value.severity.OK?
    ensures var out := Observe(format, ks, unit, r, generation);
            && (out.published.Some? ==>
                  out.published.value.key == r.item.key && Shown(out.published.value) == SeverityOf(out.next))
            && (out.published.None? ==> SeverityOf(out.next) == SeverityOf(ks))
  {
  }

  // ---------- The log, and what it says without the collector's maps ----------

  /** One processed observation, or one resolution published by the timer branch. */
  datatype Entry =
    | Observed(at: nat, unit: Unit, item: Item, resolve: Option<Resolve>, published: Option<Item>, armed: Option<Armed>)
    | Resolved(at: nat, generation: nat, item: Item)

  function Published(e: Entry): Option<Item> {
    if e.Observed? then e.published else Some(e.item)
  }

  /** The last item published for `k`: what a consumer believes about it. */
  function LastPublished(log: seq<Entry>, k: string): Option<Item> {
    if log == [] then None
    else if log[|log| - 1].item.key == k && Published(log[|log| - 1]).Some? then Published(log[|log| - 1])
    else LastPublished(log[..|log| - 1], k)
  }

  function LastObserved(log: seq<Entry>, k: string): (last: Option<Entry>)
    ensures last.Some? ==> last.value.Observed? && last.value.item.key == k
  {
    if log == [] then None
    else if log[|log| - 1].item.key == k && log[|log| - 1].Observed? then Some(log[|log| - 1])
    else LastObserved(log[..|log| - 1], k)
  }

  predicate Unhealthy(item: Option<Item>) {
    item.Some? && !item.value.state.OK?
  }

  /** Entry `o` opened the incident that consumers still see for `k`. */
  ghost predicate OpenSince(log: seq<Entry>, k: string, o: int) {
    && 0 <= o < |log| && log[o].Observed? && log[o].item.key == k
    && !log[o].item.state.OK? && log[o].published == Some(log[o].item)
    && !Unhealthy(LastPublished(log[..o], k))
    && forall i :: o <= i < |log| && log[i].item.key == k && Published(log[i]).Some? ==>
         !Published(log[i]).value.state.OK?
  }

  /** Since entry `w`, which armed `generation`, every observation of `k` was OK and
      in a state that counts, and nothing resolved it. */
  ghost predicate WindowSince(log: seq<Entry>, k: string, w: int, policy: Resolve, generation: nat) {
    && 0 <= w < |log| && log[w].Observed? && log[w].item.key == k
    && log[w].armed == Some(Armed(generation, policy.after))
    && forall i :: w <= i < |log| && log[i].item.key == k ==>
         log[i].Observed? && log[i].item.state.OK? && log[i].unit.state in policy.states
  }

  /** What justifies the resolution at entry `p`: an incident opened by a condition with
      a policy, and a window of that policy that lasted long enough. */
  ghost predicate Justified(log: seq<Entry>, p: int, o: int, w: int)
    requires 0 <= p < |log| && log[p].Resolved?
  {
    var before, k := log[..p], log[p].item.key;
    && o < w && OpenSince(before, k, o) && log[o].resolve.Some?
    && WindowSince(before, k, w, log[o].resolve.value, log[p].generation)
    && log[w].at + log[o].resolve.value.after <= log[p].at
    && log[p].item.state.OK?
    && (var last := LastObserved(before, k); last.Some? && last.value.item == log[p].item)
  }

  /** Consumers never see two incidents of one key at once. */
  lemma OpenSinceUnique(log: seq<Entry>, k: string, o1: int, o2: int)
    requires OpenSince(log, k, o1) && OpenSince(log, k, o2)
    ensures o1 == o2
  {
    if o1 < o2 {
      PublishedSince(log[..o2], k, o1);
    } else if o2 < o1 {
      PublishedSince(log[..o1], k, o2);
    }
  }

  lemma {:induction false} PublishedSince(log: seq<Entry>, k: string, o: int)
    requires 0 <= o < |log| && log[o].item.key == k && Unhealthy(Published(log[o]))
    requires forall i :: o <= i < |log| && log[i].item.key == k && Published(log[i]).Some? ==>
               !Published(log[i]).value.state.OK?
    ensures Unhealthy(LastPublished(log, k))
  {
    var last := |log| - 1;
    if !(log[last].item.key == k && Published(log[last]).Some?) {
      PublishedSince(log[..last], k, o);
    }
  }

  // ---------- One key against the log ----------

  /** The maps agree with the log about `k`; `opener` and `window` are the entries at
      which its incident and its recovery window began. */
  ghost predicate KeyAgrees(log: seq<Entry>, k: string, ks: KeyState, opener: Option<nat>, window: Option<nat>) {
    if ks.incident.None? then
      ks == CLEAR && opener.None? && !Unhealthy(LastPublished(log, k))
    else
      var inc := ks.incident.value;
      && opener.Some? && OpenSince(log, k, opener.value) && log[opener.value].resolve == inc.policy
      && !inc.severity.OK? && (var shown := LastPublished(log, k); shown.Some? && shown.value.state == inc.severity)
      && (ks.deferred.Some? ==>
            && inc.policy.Some?
            && var last := LastObserved(log, k);
               && last.Some? && last.value.item.state.OK?
               && ks.deferred.value == Deferred(last.value.unit.state, last.value.unit.subState))
      && (ks.pending.Some? <==>
            ks.deferred.Some? && inc.policy.Some? && ks.deferred.value.state in inc.policy.value.states)
      && (ks.pending.Some? ==>
            && window.Some? && opener.value < window.value
            && WindowSince(log, k, window.value, inc.policy.value, ks.pending.value.generation)
            && LastObserved(log, k).Some? && LastObserved(log, k).value.item == ks.pending.value.item
            && ks.pending.value.item.key == k && ks.pending.value.item.state.OK?)
  }

  lemma Append(log: seq<Entry>, e: Entry, k: string)
    ensures (log + [e])[..|log|] == log
    ensures LastPublished(log + [e], k) == if e.item.key == k && Published(e).Some? then Published(e)
                                           else LastPublished(log, k)
    ensures LastObserved(log + [e], k) == if e.item.key == k && e.Observed? then Some(e) else LastObserved(log, k)
  {
    assert (log + [e])[..|log|] == log;
  }

  lemma OpenSinceAppend(log: seq<Entry>, e: Entry, k: string, o: int)
    requires OpenSince(log, k, o)
    requires e.item.key == k && Published(e).Some? ==> !Published(e).value.state.OK?
    ensures OpenSince(log + [e], k, o)
  {
    assert (log + [e])[..o] == log[..o];
  }

  /** An entry about another key changes nothing for `k`. */
  lemma OtherKey(log: seq<Entry>, e: Entry, k: string, ks: KeyState, opener: Option<nat>, window: Option<nat>)
    requires KeyAgrees(log, k, ks, opener, window) && e.item.key != k
    ensures KeyAgrees(log + [e], k, ks, opener, window)
  {
    Append(log, e, k);
    if ks.incident.Some? {
      OpenSinceAppend(log, e, k, opener.value);
    }
  }

  /** What the collector records about an observation. */
  function Entered(at: nat, unit: Unit, r: Reading, out: Outcome): Entry {
    Observed(at, unit, r.item, r.resolve, out.published, out.armed)
  }

  function OpenedAfter(ks: KeyState, r: Reading, out: Outcome, opener: Option<nat>, here: nat): Option<nat> {
    if out.next.incident.None? then None else if ks.incident.None? then Some(here) else opener
  }

  function WindowAfter(out: Outcome, window: Option<nat>, here: nat): Option<nat> {
    if out.armed.Some? then Some(here) else window
  }

  /** Every observation keeps the maps in agreement with the log. */
  lemma ObserveAgrees(format: Format, log: seq<Entry>, ks: KeyState, unit: Unit, r: Reading, generation: nat, at: nat,
                      opener: Option<nat>, window: Option<nat>)
    requires KeyAgrees(log, r.item.key, ks, opener, window)
    ensures var out := Observe(format, ks, unit, r, generation);
            KeyAgrees(log + [Entered(at, unit, r, out)], r.item.key, out.next,
                      OpenedAfter(ks, r, out, opener, |log|), WindowAfter(out, window, |log|))
  {
    var out := Observe(format, ks, unit, r, generation);
    var k, e := r.item.key, Entered(at, unit, r, out);
    Append(log, e, k);
    if !r.item.state.OK? {
      if ks.incident.Some? {
        OpenSinceAppend(log, e, k, opener.value);
      } else {
        assert OpenSince(log + [e], k, |log|);
      }
    } else if ks.incident.Some? && ks.incident.value.policy.Some? {
      OpenSinceAppend(log, e, k, opener.value);
    }
  }

  /** An OK item ends an incident at once only if its opener had no policy. */
  lemma NoEarlyRecovery(format: Format, log: seq<Entry>, ks: KeyState, unit: Unit, r: Reading, generation: nat,
                        opener: Option<nat>, window: Option<nat>, o: int)
    requires KeyAgrees(log, r.item.key, ks, opener, window) && OpenSince(log, r.item.key, o)
    requires var published := Observe(format, ks, unit, r, generation).published;
             published.Some? && published.value.state.OK?
    ensures log[o].resolve.None?
  {
    if ks.incident.Some? {
      OpenSinceUnique(log, r.item.key, o, opener.value);
    } else {
      PublishedSince(log, r.item.key, o);
    }
  }

  /** The timer branch resolves only what a full window justifies. */
  lemma ResolveJustified(log: seq<Entry>, k: string, ks: KeyState, opener: Option<nat>, window: Option<nat>, at: nat)
    requires KeyAgrees(log, k, ks, opener, window) && ks.pending.Some?
    requires log[window.value].at + ks.incident.value.policy.value.after <= at
    ensures var e := Resolved(at, ks.pending.value.generation, ks.pending.value.item);
            && Justified(log + [e], |log|, opener.value, window.value)
            && KeyAgrees(log + [e], k, CLEAR, None, None)
  {
    var e := Resolved(at, ks.pending.value.generation, ks.pending.value.item);
    Append(log, e, k);
  }
}
