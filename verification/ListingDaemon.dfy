/** The daemon's side as an object (internal/daemon/gate.go): what runs under the listing lock,
and the deferred steps of a refresh. */
module ListingDaemon {
  import opened Types
  import opened Listing

  class Refresher {
    const maxBlockMS: nat
    /** The refresh that runs now; its done-channel goes by the number of the listing that
    leads it. */
    var listingRun: Option<nat>
    var closed: set<nat>
    var waiters: map<nat, Waiter>
    var now: nat

    ghost function View(): Daemon
      reads this
    {
      Daemon(listingRun, closed, waiters, now)
    }

    constructor (maxBlockMS: nat)
      ensures this.maxBlockMS == maxBlockMS && View() == IDLE && Valid(View(), maxBlockMS)
    {
      this.maxBlockMS := maxBlockMS;
      listingRun, closed, waiters, now := None, {}, map[], 0;
      new;
      RunValid(maxBlockMS, []);
    }

    /** Join the refresh that is running, or start one with a bounded context. */
    method Enter(w: nat)
      requires Valid(View(), maxBlockMS) && w in waiters && waiters[w].phase.Entering?
      modifies this`listingRun, this`waiters
      ensures View() == After(old(View()), maxBlockMS, Listing.Enter(w)) && Valid(View(), maxBlockMS)
    {
      StepValid(View(), maxBlockMS, Listing.Enter(w));
      if listingRun.Some? {
        waiters := waiters[w := waiters[w].(phase := Joined(listingRun.value))];
        return;
      }
      listingRun := Some(w);
      var budget := maxBlockMS * MILLISECOND;
      budget := budget - budget / 10;
      waiters := waiters[w := waiters[w].(phase := Running(now + budget))];
    }

    /** The refresh has returned: make room for the next one. */
    method Clear(w: nat)
      requires Valid(View(), maxBlockMS) && w in waiters && waiters[w].phase.Ending?
      modifies this`listingRun, this`waiters
      ensures View() == After(old(View()), maxBlockMS, Listing.Clear(w)) && Valid(View(), maxBlockMS)
      ensures old(listingRun) == Some(w) && listingRun.None?
    {
      StepValid(View(), maxBlockMS, Listing.Clear(w));
      assert WaiterOk(View(), Budget(maxBlockMS), w);
      listingRun := None;
      waiters := waiters[w := waiters[w].(phase := Closing)];
    }

    /** Let those go that joined. The channel was not closed before. */
    method CloseDone(w: nat)
      requires Valid(View(), maxBlockMS) && w in waiters && waiters[w].phase.Closing?
      modifies this`closed, this`waiters
      ensures View() == After(old(View()), maxBlockMS, Listing.CloseDone(w)) && Valid(View(), maxBlockMS)
      ensures w !in old(closed)
    {
      StepValid(View(), maxBlockMS, Listing.CloseDone(w));
      assert WaiterOk(View(), Budget(maxBlockMS), w);
      closed := closed + {w};
      waiters := waiters[w := waiters[w].(phase := Acking)];
    }

    /** The acknowledgement goes out, in time. */
    method Ack(w: nat)
      requires Valid(View(), maxBlockMS) && w in waiters && waiters[w].phase.Acking?
      modifies this`waiters
      ensures View() == After(old(View()), maxBlockMS, Listing.Ack(w)) && Valid(View(), maxBlockMS)
      ensures waiters[w].phase.Acked? && waiters[w].phase.at <= waiters[w].since + Budget(maxBlockMS)
    {
      StepValid(View(), maxBlockMS, Listing.Ack(w));
      assert WaiterOk(View(), Budget(maxBlockMS), w);
      waiters := waiters[w := waiters[w].(phase := Acked(now))];
    }
  }
}
