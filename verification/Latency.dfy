/** Cancels that take effect after a latency: each has the time from which it is due. */
module Latency {
  function Due(cancels: map<nat, int>, ts: int): set<nat> {
    set id | id in cancels && cancels[id] <= ts
  }

  /** A cancel asked for at `now` is due exactly when the latency has passed, whatever other cancels are
      under way; and what is due stays due until it is carried out. */
  lemma {:induction false} DueAfterLatency(cancels: map<nat, int>, id: nat, now: int, latency: int, ts: int, later: int)
    requires ts <= later
    ensures var due := Due(cancels[id := now + latency], ts);
      && (id in due <==> ts - now >= latency)
      && (forall d :: d != id ==> (d in due <==> d in Due(cancels, ts)))
      && due <= Due(cancels[id := now + latency], later)
  {
  }

  /** Once the due cancels are carried out, none is due before more time has passed. */
  lemma {:induction false} NoneDueTwice(cancels: map<nat, int>, ts: int)
    ensures Due(cancels - Due(cancels, ts), ts) == {}
  {
  }
}
