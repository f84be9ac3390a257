/** The pairing window and its failure accounting (crates/sessiontap-hub/src/service.rs:86-105, 392-495). */
module Pairing {
  import opened Common
  import opened Tally

  const PAIR_TRIES_PER_CLIENT: nat := 3
  const PAIR_TRIES_PER_ADDRESS: nat := 5
  const PAIR_TRIES_TOTAL: nat := 20

  type Client = nat
  type Address = nat

  datatype Window = Window(generation: nat, scopes: seq<string>, expires: Time)

  datatype Attempt = Claimed(scopes: seq<string>) | Closed | Failed | Locked

  /**
   * The hub's pairing state. Opening takes a generation first and installs its window later, so
   * concurrent openings may install in any order; `taken` are generations not installed yet.
   */
  class PairingState {
    var window: Option<Window>
    var byClient: map<nat, nat>
    var byAddress: map<nat, nat>
    var total: nat
    var generation: nat
    ghost var taken: set<nat>
    ghost var installed: set<nat>
    ghost var claimed: seq<nat>

    /** Accounting: totals agree, no counter passes its limit, an open window is not burnt. */
    ghost predicate Accounts()
      reads this
    {
      && Sum(byClient) == total && Sum(byAddress) == total
      && (forall k :: k in byClient ==> byClient[k] <= 3)
      && (forall k :: k in byAddress ==> byAddress[k] <= 5)
      && total <= 20
      && (window.Some? ==> total < 20)
    }

    /** Generations are installed at most once and claimed at most once. */
    ghost predicate Generations()
      reads this
    {
      && (forall g :: g in taken ==> g <= generation)
      && (forall g :: g in installed ==> g <= generation)
      && taken !! installed
      && (window.Some? ==> window.value.generation in installed && window.value.generation !in claimed)
      && (forall i :: 0 <= i < |claimed| ==> claimed[i] in installed)
      && (forall i, j :: 0 <= i < j < |claimed| ==> claimed[i] != claimed[j])
    }

    ghost predicate Valid()
      reads this
    {
      Accounts() && Generations()
    }

    constructor ()
      ensures Valid() && window.None? && total == 0 && claimed == []
    {
      window, byClient, byAddress, total, generation := None, map[], map[], 0, 0;
      taken, installed, claimed := {}, {}, [];
    }

    method TakeGeneration() returns (g: nat)
      requires Valid()
      modifies this`generation, this`taken
      ensures Valid() && g == old(generation) + 1 == generation
      ensures taken == old(taken) + {g} && g !in old(taken) + installed
    {
      generation := generation + 1;
      g := generation;
      taken := taken + {g};
    }

    /** Opens the window of a taken generation, replacing any open one and forgiving failures. */
    method Install(g: nat, scopes: seq<string>, expires: Time) returns (previous: Option<Window>)
      requires Valid() && g in taken
      modifies this
      ensures Valid() && previous == old(window)
      ensures window == Some(Window(g, scopes, expires)) && total == 0 && byClient == map[] && byAddress == map[]
      ensures generation == old(generation) && claimed == old(claimed)
      ensures installed == old(installed) + {g} && taken == old(taken) - {g}
    {
      previous := window;
      byClient, byAddress, total := map[], map[], 0;
      window := Some(Window(g, scopes, expires));
      taken, installed := taken - {g}, installed + {g};
    }

    /** A later generation's window is left open. */
    method ClosePairing(g: nat)
      requires Valid()
      modifies this`window
      ensures Valid()
      ensures window == if old(window).Some? && old(window).value.generation == g then None else old(window)
    {
      if window.Some? && window.value.generation == g {
        window := None;
      }
    }

    /**
     * One pairing attempt. `verifies` is the outcome of the MAC check against the open window's
     * secret, which is only looked at when the attempt gets that far.
     */
    method AttemptPairing(remote: bool, client: Client, address: Address, now: Time, verifies: bool)
      returns (r: Attempt)
      requires Valid()
      modifies this`window, this`byClient, this`byAddress, this`total, this`claimed
      ensures Valid()
      ensures var locked := Count(old(byClient), client) >= 3 || Count(old(byAddress), address) >= 5;
              var open := old(window).Some? && now < old(window).value.expires;
              && (r == Closed <==> !remote || (!locked && !open))
              && (r == Locked <==> remote && locked)
              && (r.Claimed? <==> remote && !locked && open && verifies)
              && (r == Failed <==> remote && !locked && open && !verifies)
      ensures r == Failed ==>
                && total == old(total) + 1
                && byClient == old(byClient)[client := Count(old(byClient), client) + 1]
                && byAddress == old(byAddress)[address := Count(old(byAddress), address) + 1]
                && window == (if total >= 20 then None else old(window))
      ensures r != Failed ==> total == old(total) && byClient == old(byClient) && byAddress == old(byAddress)
      ensures r.Claimed? ==>
                && window.None? && r.scopes == old(window).value.scopes
                && claimed == old(claimed) + [old(window).value.generation]
      ensures !r.Claimed? ==> claimed == old(claimed)
      ensures r == Locked ==> window == old(window)
      ensures r == Closed ==> window == if remote then None else old(window)
    {
      if !remote {
        return Closed;
      }
      if Count(byClient, client) >= PAIR_TRIES_PER_CLIENT || Count(byAddress, address) >= PAIR_TRIES_PER_ADDRESS {
        return Locked;
      }
      if window.None? {
        return Closed;
      }
      var w := window.value;
      if now >= w.expires {
        window := None;
        return Closed;
      }
      if verifies {
        window := None;
        claimed := claimed + [w.generation];
        return Claimed(w.scopes);
      }
      CountFailure(client, address);
      r := Failed;
    }

    /** Counts one invalid MAC three ways; the last one allowed burns the window. */
    method CountFailure(client: Client, address: Address)
      requires Valid() && window.Some?
      requires Count(byClient, client) < 3 && Count(byAddress, address) < 5
      modifies this`window, this`byClient, this`byAddress, this`total
      ensures Valid() && total == old(total) + 1
      ensures byClient == old(byClient)[client := Count(old(byClient), client) + 1]
      ensures byAddress == old(byAddress)[address := Count(old(byAddress), address) + 1]
      ensures window == if total >= 20 then None else old(window)
    {
      SumBumps(byClient, client);
      SumBumps(byAddress, address);
      byClient := byClient[client := Count(byClient, client) + 1];
      byAddress := byAddress[address := Count(byAddress, address) + 1];
      total := total + 1;
      if total >= PAIR_TRIES_TOTAL {
        window := None;
      }
    }
  }
}
