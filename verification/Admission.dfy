/**
 * Connection admission (crates/sessiontap-hub/src/remote.rs:89-176): a global cap, a cap on
 * unauthenticated connections, and one per peer address, with tickets that give their place back.
 */
module Admission {
  import opened Common
  import opened Tally

  /** An IPv4 address as 32 bits, an IPv6 address as 128 bits. */
  datatype Peer = V4(bits: nat) | V6(bits: nat)

  datatype AddressKey = Address(v4: nat) | Prefix(high: nat)

  /** IPv4-mapped IPv6 addresses count as IPv4; other IPv6 addresses count by their /64. */
  function KeyOf(peer: Peer): AddressKey {
    match peer
    case V4(bits) => Address(bits)
    case V6(bits) =>
      if bits / 0x1_0000_0000 == 0xffff then Address(bits % 0x1_0000_0000)
      else Prefix(bits / 0x1_0000_0000_0000_0000)
  }

  datatype Limits = Limits(connections: nat, unauthenticated: nat, perAddress: nat)

  /** An unauthenticated permit: not counted yet, a ticket, or a ticket already uncounted. */
  datatype Slot = Held | Ticket(key: AddressKey) | Uncounted

  /**
   * `free` and `unauthFree` are the semaphores, `counts` the table. `conns`, `arriving` and
   * `slots` are the permits and tickets others hold; no operation looks at them.
   */
  datatype Gate = Gate(
    limits: Limits,
    free: nat,
    unauthFree: nat,
    counts: map<AddressKey, nat>,
    conns: set<nat>,
    arriving: set<nat>,
    slots: map<nat, Slot>)

  // ---- Steps of admission, in the order one connection takes them ----

  function TakeConnection(g: Gate, c: nat): Gate {
    if g.free == 0 || c in g.conns || c in g.slots then g
    else g.(free := g.free - 1, conns := g.conns + {c}, arriving := g.arriving + {c})
  }

  /** Without an unauthenticated permit the connection permit goes back. */
  function TakePermit(g: Gate, c: nat): Gate {
    if c !in g.arriving || c in g.slots then g
    else
      var arrived := g.(arriving := g.arriving - {c});
      if g.unauthFree == 0 then arrived.(free := g.free + 1, conns := g.conns - {c})
      else arrived.(unauthFree := g.unauthFree - 1, slots := g.slots[c := Held])
  }

  /** Looking the address up inserts it; a refused connection gives both permits back. */
  function CountAddress(g: Gate, c: nat, key: AddressKey): Gate {
    if c !in g.slots || g.slots[c] != Held || c !in g.conns then g
    else
      var n := Count(g.counts, key);
      if n >= g.limits.perAddress
      then g.(counts := g.counts[key := n], free := g.free + 1, unauthFree := g.unauthFree + 1,
              conns := g.conns - {c}, slots := g.slots - {c})
      else g.(counts := g.counts[key := n + 1], slots := g.slots[c := Ticket(key)])
  }

  /** Dropping a ticket uncounts its address, and then frees its permit. */
  function Uncount(g: Gate, c: nat): Gate {
    if c !in g.slots || !g.slots[c].Ticket? then g
    else
      var key := g.slots[c].key;
      var n := Count(g.counts, key);
      g.(slots := g.slots[c := Uncounted],
         counts := if key !in g.counts then g.counts
                   else if n <= 1 then g.counts - {key} else g.counts[key := n - 1])
  }

  function FreePermit(g: Gate, c: nat): Gate {
    if c !in g.slots || g.slots[c] != Uncounted then g
    else g.(unauthFree := g.unauthFree + 1, slots := g.slots - {c})
  }

  /** The connection ends; a ticket it still has may outlive it. */
  function Leave(g: Gate, c: nat): Gate {
    if c !in g.conns || c in g.arriving || (c in g.slots && g.slots[c] == Held) then g
    else g.(free := g.free + 1, conns := g.conns - {c})
  }

  function Admit(g: Gate, c: nat, key: AddressKey): Gate {
    CountAddress(TakePermit(TakeConnection(g, c), c), c, key)
  }

  function DropTicket(g: Gate, c: nat): Gate {
    FreePermit(Uncount(g, c), c)
  }

  // ---- Runs: any interleaving of those steps by any connections ----

  datatype Step =
    | ConnectionStep(conn: nat)
    | PermitStep(conn: nat)
    | AddressStep(conn: nat, key: AddressKey)
    | UncountStep(conn: nat)
    | FreeStep(conn: nat)
    | LeaveStep(conn: nat)

  function After(g: Gate, step: Step): Gate {
    match step
    case ConnectionStep(c) => TakeConnection(g, c)
    case PermitStep(c) => TakePermit(g, c)
    case AddressStep(c, key) => CountAddress(g, c, key)
    case UncountStep(c) => Uncount(g, c)
    case FreeStep(c) => FreePermit(g, c)
    case LeaveStep(c) => Leave(g, c)
  }

  function Start(limits: Limits): Gate {
    Gate(limits, limits.connections, limits.unauthenticated, map[], {}, {}, map[])
  }

  function Run(limits: Limits, steps: seq<Step>): Gate {
    if steps == [] then Start(limits)
    else After(Run(limits, steps[..|steps| - 1]), steps[|steps| - 1])
  }

  // ---- Accounting ----

  /** The live tickets of an address. */
  function TicketsOf(slots: map<nat, Slot>, key: AddressKey): set<nat> {
    set c | c in slots && slots[c] == Ticket(key)
  }

  function Tickets(slots: map<nat, Slot>): set<nat> {
    set c | c in slots && slots[c].Ticket?
  }

  ghost predicate Tallied(counts: map<AddressKey, nat>, slots: map<nat, Slot>) {
    && (forall key :: Count(counts, key) == |TicketsOf(slots, key)|)
    && Sum(counts) == |Tickets(slots)|
  }

  predicate Capped(g: Gate) {
    && (forall key :: key in g.counts ==> g.counts[key] <= g.limits.perAddress)
    && (g.limits.perAddress > 0 ==> forall key :: key in g.counts ==> g.counts[key] > 0)
  }

  predicate Permits(g: Gate) {
    && g.free + |g.conns| == g.limits.connections
    && g.unauthFree + |g.slots| == g.limits.unauthenticated
    && g.arriving <= g.conns && g.arriving !! g.slots.Keys
    && (forall c :: c in g.slots && g.slots[c] == Held ==> c in g.conns)
  }

  ghost predicate Accounted(g: Gate) {
    Permits(g) && Capped(g) && Tallied(g.counts, g.slots)
  }

  lemma SlotsGrow(slots: map<nat, Slot>, c: nat, x: Slot)
    ensures |slots[c := x]| == |slots| + (if c in slots then 0 else 1)
    ensures c in slots ==> |slots - {c}| == |slots| - 1
  {
    assert slots[c := x].Keys == slots.Keys + {c};
    assert (slots - {c}).Keys == slots.Keys - {c};
  }

  /** Slots that are not tickets do not matter to the tally. */
  lemma OtherSlots(counts: map<AddressKey, nat>, slots: map<nat, Slot>, slots': map<nat, Slot>)
    requires Tallied(counts, slots)
    requires forall c :: c in slots && slots[c].Ticket? ==> c in slots' && slots'[c] == slots[c]
    requires forall c :: c in slots' && slots'[c].Ticket? ==> c in slots && slots[c] == slots'[c]
    ensures Tallied(counts, slots')
  {
    assert Tickets(slots') == Tickets(slots);
    forall key ensures Count(counts, key) == |TicketsOf(slots', key)| {
      assert TicketsOf(slots', key) == TicketsOf(slots, key);
    }
  }

  lemma TicketsGrow(slots: map<nat, Slot>, c: nat, key: AddressKey, k: AddressKey)
    requires c in slots && !slots[c].Ticket?
    ensures |TicketsOf(slots[c := Ticket(key)], k)| == |TicketsOf(slots, k)| + (if k == key then 1 else 0)
  {
    assert TicketsOf(slots[c := Ticket(key)], k) == TicketsOf(slots, k) + (if k == key then {c} else {});
  }

  lemma TicketAdds(counts: map<AddressKey, nat>, slots: map<nat, Slot>, c: nat, key: AddressKey)
    requires Tallied(counts, slots) && c in slots && !slots[c].Ticket?
    ensures Tallied(counts[key := Count(counts, key) + 1], slots[c := Ticket(key)])
  {
    hide Sum;
    var slots', counts' := slots[c := Ticket(key)], counts[key := Count(counts, key) + 1];
    assert Sum(counts') == |Tickets(slots')| by {
      SumBumps(counts, key);
      assert Tickets(slots') == Tickets(slots) + {c};
    }
    hide Tickets, TicketsOf;
    forall k ensures Count(counts', k) == |TicketsOf(slots', k)| {
      TicketsGrow(slots, c, key, k);
    }
  }

  lemma TicketsShrink(slots: map<nat, Slot>, c: nat, key: AddressKey, k: AddressKey)
    requires c in slots && slots[c] == Ticket(key)
    ensures |TicketsOf(slots, k)| == |TicketsOf(slots[c := Uncounted], k)| + (if k == key then 1 else 0)
  {
    assert TicketsOf(slots, k) == TicketsOf(slots[c := Uncounted], k) + (if k == key then {c} else {});
  }

  lemma TicketDrops(counts: map<AddressKey, nat>, slots: map<nat, Slot>, c: nat, key: AddressKey)
    requires Tallied(counts, slots) && c in slots && slots[c] == Ticket(key)
    ensures key in counts && counts[key] > 0
    ensures Tallied(if counts[key] == 1 then counts - {key} else counts[key := counts[key] - 1], slots[c := Uncounted])
  {
    hide Sum;
    TicketsShrink(slots, c, key, key);
    var slots' := slots[c := Uncounted];
    var counts' := if counts[key] == 1 then counts - {key} else counts[key := counts[key] - 1];
    SumDrops(counts, key, counts[key] - 1);
    assert |Tickets(slots')| == |Tickets(slots)| - 1 by {
      assert Tickets(slots') == Tickets(slots) - {c};
    }
    hide Tickets, TicketsOf;
    forall k ensures Count(counts', k) == |TicketsOf(slots', k)| {
      TicketsShrink(slots, c, key, k);
    }
  }

  /** The zero entry a refused lookup may leave does not matter to the tally. */
  lemma ZeroEntry(counts: map<AddressKey, nat>, slots: map<nat, Slot>, key: AddressKey)
    requires Tallied(counts, slots)
    ensures Tallied(counts[key := Count(counts, key)], slots)
  {
    var counts' := counts[key := Count(counts, key)];
    if key in counts {
      assert counts' == counts;
    } else {
      SumSplits(counts', key);
      assert counts' - {key} == counts;
    }
    forall k ensures Count(counts', k) == |TicketsOf(slots, k)| {
      assert Count(counts', k) == Count(counts, k);
    }
  }

  lemma ConnectionKeeps(g: Gate, c: nat)
    requires Accounted(g)
    ensures Accounted(TakeConnection(g, c))
  {
    assert c !in g.conns ==> |g.conns + {c}| == |g.conns| + 1;
  }

  lemma PermitKeeps(g: Gate, c: nat)
    requires Accounted(g)
    ensures Accounted(TakePermit(g, c))
  {
    if c in g.arriving && c !in g.slots {
      SlotsGrow(g.slots, c, Held);
      OtherSlots(g.counts, g.slots, g.slots[c := Held]);
    }
  }

  lemma AddressKeeps(g: Gate, c: nat, key: AddressKey)
    requires Accounted(g)
    ensures Accounted(CountAddress(g, c, key))
  {
    hide Tallied;
    if c in g.slots && g.slots[c] == Held {
      SlotsGrow(g.slots, c, Ticket(key));
      if Count(g.counts, key) >= g.limits.perAddress {
        OtherSlots(g.counts, g.slots, g.slots - {c});
        ZeroEntry(g.counts, g.slots - {c}, key);
      } else {
        TicketAdds(g.counts, g.slots, c, key);
      }
    }
  }

  lemma DropKeeps(g: Gate, c: nat)
    requires Accounted(g)
    ensures Accounted(Uncount(g, c)) && Accounted(FreePermit(g, c)) && Accounted(Leave(g, c))
  {
    SlotsGrow(g.slots, c, Uncounted);
    if c in g.slots && g.slots[c].Ticket? {
      TicketDrops(g.counts, g.slots, c, g.slots[c].key);
    }
    if c in g.slots && g.slots[c] == Uncounted {
      OtherSlots(g.counts, g.slots, g.slots - {c});
    }
  }

  /**
   * Over every run, however admissions and drops interleave: each address count is the number of
   * its live tickets, the counts sum to the tickets, both semaphores account for every permit held,
   * and no cap is exceeded.
   */
  lemma {:induction false} RunIsAccounted(limits: Limits, steps: seq<Step>)
    ensures Accounted(Run(limits, steps)) && Run(limits, steps).limits == limits
  {
    if steps == [] {
      var g := Start(limits);
      assert Tickets(g.slots) == {};
      forall key ensures Count(g.counts, key) == |TicketsOf(g.slots, key)| {
        assert TicketsOf(g.slots, key) == {};
      }
    } else {
      RunIsAccounted(limits, steps[..|steps| - 1]);
      var g := Run(limits, steps[..|steps| - 1]);
      match steps[|steps| - 1]
      case ConnectionStep(c) => ConnectionKeeps(g, c);
      case PermitStep(c) => PermitKeeps(g, c);
      case AddressStep(c, key) => AddressKeeps(g, c, key);
      case UncountStep(c) => DropKeeps(g, c);
      case FreeStep(c) => DropKeeps(g, c);
      case LeaveStep(c) => DropKeeps(g, c);
    }
  }

  /** While nobody is between two steps, the address counts sum to the unauthenticated permits in use. */
  lemma CountsSumToPermits(limits: Limits, steps: seq<Step>)
    requires forall c :: c in Run(limits, steps).slots ==> Run(limits, steps).slots[c].Ticket?
    ensures var g := Run(limits, steps); Sum(g.counts) == limits.unauthenticated - g.unauthFree
  {
    RunIsAccounted(limits, steps);
    var g := Run(limits, steps);
    assert Tickets(g.slots) == g.slots.Keys;
    assert |g.slots| == |g.slots.Keys|;
  }

  /** When a connection is admitted, in terms of what was free before. */
  predicate HasRoom(g: Gate, key: AddressKey) {
    g.free > 0 && g.unauthFree > 0 && Count(g.counts, key) < g.limits.perAddress
  }

  /** The one refusal that changes something: a per-address limit of zero leaves a zero entry. */
  predicate LeavesAnEntry(g: Gate, key: AddressKey) {
    g.free > 0 && g.unauthFree > 0 && g.limits.perAddress == 0 && key !in g.counts
  }

  /**
   * An uninterrupted admission takes one permit of each kind and one count, exactly when there is
   * room; refused, it changes nothing, unless the per-address limit is zero.
   */
  lemma AdmitOutcome(limits: Limits, steps: seq<Step>, c: nat, key: AddressKey)
    requires c !in Run(limits, steps).conns && c !in Run(limits, steps).slots
    ensures var g := Run(limits, steps);
            AdmitFacts(g, Admit(g, c, key), c, key) && g.limits == limits
  {
    RunIsAccounted(limits, steps);
    assert c !in Run(limits, steps).arriving;
    hide Accounted, Run, AdmitFacts;
    AdmitHasFacts(Run(limits, steps), c, key);
  }

  predicate AdmitFacts(g: Gate, p: Gate, c: nat, key: AddressKey) {
    && (c in p.conns <==> HasRoom(g, key))
    && (c in p.conns ==>
          && p.slots == g.slots[c := Ticket(key)] && p.conns == g.conns + {c}
          && p.free == g.free - 1 && p.unauthFree == g.unauthFree - 1
          && p.counts == g.counts[key := Count(g.counts, key) + 1])
    && (c !in p.conns ==> (p == g <==> !LeavesAnEntry(g, key)))
    && (c !in p.conns && g.limits.perAddress >= 1 ==> p == g)
  }

  lemma AdmitHasFacts(g: Gate, c: nat, key: AddressKey)
    requires c !in g.arriving && c !in g.conns && c !in g.slots
    ensures AdmitFacts(g, Admit(g, c, key), c, key)
  {
    hide Admit;
    AdmitCases(g, c, key);
  }

  /** With a per-address limit of zero, the first refusal leaves an entry behind. */
  lemma AZeroLimitLeavesAnEntry(connections: nat, unauthenticated: nat, c: nat, key: AddressKey)
    requires connections > 0 && unauthenticated > 0
    ensures var g := Start(Limits(connections, unauthenticated, 0));
            var p := Admit(g, c, key);
            c !in p.conns && p == g.(counts := map[key := 0]) && p != g
  {
    hide Admit;
    AdmitCases(Start(Limits(connections, unauthenticated, 0)), c, key);
  }

  lemma AdmitCases(g: Gate, c: nat, key: AddressKey)
    requires c !in g.arriving && c !in g.conns && c !in g.slots
    ensures var p := Admit(g, c, key);
            if HasRoom(g, key) then
              p == g.(slots := g.slots[c := Ticket(key)], conns := g.conns + {c},
                      free := g.free - 1, unauthFree := g.unauthFree - 1,
                      counts := g.counts[key := Count(g.counts, key) + 1])
            else if LeavesAnEntry(g, key) then p == g.(counts := g.counts[key := 0])
            else p == g
  {
    if g.free > 0 {
      var g1 := TakeConnection(g, c);
      assert g1.arriving - {c} == g.arriving && g1.conns - {c} == g.conns;
      if g.unauthFree > 0 {
        PermittedCases(g, TakePermit(g1, c), c, key);
      }
    }
  }

  lemma PermittedCases(g: Gate, g2: Gate, c: nat, key: AddressKey)
    requires c !in g.conns && c !in g.slots && g.free > 0 && g.unauthFree > 0
    requires g2 == g.(free := g.free - 1, unauthFree := g.unauthFree - 1, conns := g.conns + {c}, slots := g.slots[c := Held])
    ensures var n, p := Count(g.counts, key), CountAddress(g2, c, key);
            if n < g.limits.perAddress
            then p == g2.(slots := g.slots[c := Ticket(key)], counts := g.counts[key := n + 1])
            else p == g.(counts := if key in g.counts then g.counts else g.counts[key := 0])
  {
    assert g.slots[c := Held] - {c} == g.slots && g.conns + {c} - {c} == g.conns;
    assert g.slots[c := Held][c := Ticket(key)] == g.slots[c := Ticket(key)];
    assert key in g.counts ==> g.counts[key := g.counts[key]] == g.counts;
  }

  /** Admitting a connection and dropping its ticket leaves every counter but the connection's own as it was. */
  lemma TicketRoundTrip(limits: Limits, steps: seq<Step>, c: nat, key: AddressKey)
    requires c !in Run(limits, steps).conns && c !in Run(limits, steps).slots && HasRoom(Run(limits, steps), key)
    ensures var g := Run(limits, steps);
            var p := DropTicket(Admit(g, c, key), c);
            p == g.(free := g.free - 1, conns := g.conns + {c}) && Leave(p, c) == g
  {
    RunIsAccounted(limits, steps);
    var g := Run(limits, steps);
    assert c !in g.arriving && Capped(g);
    hide Accounted, Run, Admit, Capped, DropTicket, Leave;
    DroppedAgain(g, c, key);
  }

  lemma DroppedAgain(g: Gate, c: nat, key: AddressKey)
    requires c !in g.arriving && c !in g.conns && c !in g.slots && Capped(g) && HasRoom(g, key)
    ensures var p := DropTicket(Admit(g, c, key), c);
            p == g.(free := g.free - 1, conns := g.conns + {c}) && Leave(p, c) == g
  {
    hide Admit, DropTicket, Capped;
    AdmitCases(g, c, key);
    DropUndoes(g, Admit(g, c, key), c, key);
    assert g.conns + {c} - {c} == g.conns;
  }

  lemma DropUndoes(g: Gate, p: Gate, c: nat, key: AddressKey)
    requires Capped(g) && g.limits.perAddress > 0 && c !in g.slots && g.unauthFree > 0
    requires p.counts == g.counts[key := Count(g.counts, key) + 1] && p.unauthFree == g.unauthFree - 1
    requires p.slots == g.slots[c := Ticket(key)]
    ensures DropTicket(p, c) == p.(counts := g.counts, unauthFree := g.unauthFree, slots := g.slots)
  {
    var n := Count(g.counts, key);
    assert key !in g.counts ==> p.counts - {key} == g.counts;
    assert key in g.counts ==> p.counts[key := n] == g.counts;
    assert p.slots[c := Uncounted] - {c} == g.slots;
  }

  /** The shared gate, updated in place; the ghost fields are the permits and tickets others hold. */
  class RemoteGate {
    const limits: Limits
    var free: nat
    var unauthFree: nat
    var counts: map<AddressKey, nat>
    ghost var conns: set<nat>
    ghost var arriving: set<nat>
    ghost var slots: map<nat, Slot>

    constructor (limits: Limits)
      ensures View() == Start(limits)
    {
      this.limits := limits;
      free, unauthFree, counts := limits.connections, limits.unauthenticated, map[];
      conns, arriving, slots := {}, {}, map[];
    }

    ghost function View(): Gate
      reads this
    {
      Gate(limits, free, unauthFree, counts, conns, arriving, slots)
    }

    method AdmitPeer(c: nat, peer: Peer) returns (admitted: bool)
      requires c !in arriving && c !in conns && c !in slots
      modifies this
      ensures View() == Admit(old(View()), c, KeyOf(peer))
      ensures admitted == HasRoom(old(View()), KeyOf(peer))
    {
      hide Admit, KeyOf;
      var key := KeyOf(peer);
      AdmitCases(View(), c, key);
      if free == 0 {
        return false;
      }
      free := free - 1;
      if unauthFree == 0 {
        free := free + 1;
        return false;
      }
      unauthFree := unauthFree - 1;
      if key !in counts {
        counts := counts[key := 0];
      }
      if counts[key] >= limits.perAddress {
        free, unauthFree := free + 1, unauthFree + 1;
        return false;
      }
      counts := counts[key := counts[key] + 1];
      conns, slots := conns + {c}, slots[c := Ticket(key)];
      return true;
    }

    method DropTicketOf(c: nat, key: AddressKey)
      requires c in slots && slots[c] == Ticket(key) && Tallied(counts, slots)
      modifies this
      ensures View() == DropTicket(old(View()), c)
    {
      CountedTicket(View(), c, key);
      if key in counts {
        counts := counts[key := counts[key] - 1];
        if counts[key] == 0 {
          counts := counts - {key};
        }
      }
      unauthFree := unauthFree + 1;
      slots := slots - {c};
    }
  }

  lemma CountedTicket(g: Gate, c: nat, key: AddressKey)
    requires c in g.slots && g.slots[c] == Ticket(key) && Tallied(g.counts, g.slots)
    ensures key in g.counts && g.counts[key] > 0
    ensures var n := g.counts[key] - 1;
            DropTicket(g, c) ==
            g.(slots := g.slots - {c}, unauthFree := g.unauthFree + 1,
               counts := if n == 0 then g.counts[key := n] - {key} else g.counts[key := n])
  {
    assert c in TicketsOf(g.slots, key);
    assert |TicketsOf(g.slots, key)| > 0;
    assert g.slots[c := Uncounted] - {c} == g.slots - {c};
    assert g.counts[key := 0] - {key} == g.counts - {key};
  }

  /** Mapped IPv6 addresses group with their IPv4 address, and only with it. */
  lemma MappedPeersGroup(v4: nat, other: nat)
    requires v4 < 0x1_0000_0000 && other < 0x1_0000_0000
    ensures KeyOf(V6(0xffff * 0x1_0000_0000 + v4)) == KeyOf(V4(v4))
    ensures KeyOf(V4(v4)) == KeyOf(V4(other)) <==> v4 == other
  {
    assert (0xffff * 0x1_0000_0000 + v4) / 0x1_0000_0000 == 0xffff;
    assert (0xffff * 0x1_0000_0000 + v4) % 0x1_0000_0000 == v4;
  }

  /** Other IPv6 addresses group exactly by their first 64 bits. */
  lemma NetworksGroup(high: nat, low: nat, high': nat, low': nat)
    requires low < 0x1_0000_0000_0000_0000 && low' < 0x1_0000_0000_0000_0000
    requires (high > 0 || low / 0x1_0000_0000 != 0xffff) && (high' > 0 || low' / 0x1_0000_0000 != 0xffff)
    ensures KeyOf(V6(high * 0x1_0000_0000_0000_0000 + low)) == KeyOf(V6(high' * 0x1_0000_0000_0000_0000 + low'))
            <==> high == high'
  {
    HighBits(high, low);
    HighBits(high', low');
  }

  lemma HighBits(high: nat, low: nat)
    requires low < 0x1_0000_0000_0000_0000 && (high > 0 || low / 0x1_0000_0000 != 0xffff)
    ensures KeyOf(V6(high * 0x1_0000_0000_0000_0000 + low)) == Prefix(high)
  {
    var bits := high * 0x1_0000_0000_0000_0000 + low;
    assert high > 0 ==> bits / 0x1_0000_0000 >= 0x1_0000_0000;
    assert high == 0 ==> bits == low;
    assert bits / 0x1_0000_0000_0000_0000 == high;
  }
}
