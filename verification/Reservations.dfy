/** Capacity reservations: exact running totals, their limits, and the headroom kept for essential captures. */
module Reservations {
  import opened Totals

  datatype Bounds = Bounds(
    pendingItems: nat, pendingBytes: nat, essentialBytes: nat, protectedBytes: nat,
    batchItems: nat, batchBytes: nat, readerRequests: nat)

  predicate ValidBounds(b: Bounds) {
    && b.pendingItems > 0 && b.essentialBytes > 0 && b.batchItems > 0 && b.batchBytes > 0 && b.readerRequests > 0
    && b.essentialBytes <= b.protectedBytes <= b.pendingBytes && b.batchBytes <= b.pendingBytes
  }

  /** `number` is the publication the reservation was handed to, 0 while its owner still holds it. */
  datatype Reservation = Reservation(size: int, detail: int, cache: bool, number: nat)

  function Sizes(): Reservation -> int { (r: Reservation) => r.size }
  function Details(): Reservation -> int { (r: Reservation) => r.detail }
  function Essentials(b: Bounds): Reservation -> int { (r: Reservation) => if r.cache then 0 else b.essentialBytes }

  /** What the outstanding essential reservations are entitled to. */
  ghost function Essential(b: Bounds, held: map<nat, Reservation>): int {
    Sum(held, Essentials(b))
  }

  /** The running totals are the sums over the live reservations, whose sizes are essential part plus detail. */
  ghost predicate BalancedParts(b: Bounds, held: map<nat, Reservation>, pending: int, detail: int) {
    && pending == Sum(held, Sizes()) && detail == Sum(held, Details()) && pending == Essential(b, held) + detail
    && Sized(b, held)
  }

  ghost predicate Sized(b: Bounds, held: map<nat, Reservation>) {
    forall id :: id in held ==> held[id].size == held[id].detail + Essentials(b)(held[id])
  }

  ghost predicate LookAt(held: map<nat, Reservation>) {
    true
  }

  ghost predicate Balanced(b: Bounds, held: map<nat, Reservation>, pending: int, detail: int) {
    forall t {:trigger LookAt(t)} :: t == held ==> BalancedParts(b, t, pending, detail)
  }

  ghost predicate WithinCapacity(b: Bounds, held: map<nat, Reservation>, pending: int, detail: int) {
    && |held.Keys| <= b.pendingItems && pending <= b.pendingBytes
    && detail <= b.pendingBytes - b.protectedBytes
  }

  ghost predicate Capacity(b: Bounds, held: map<nat, Reservation>, pending: int, detail: int) {
    Balanced(b, held, pending, detail) && WithinCapacity(b, held, pending, detail)
  }

  lemma SumsPut(b: Bounds, held: map<nat, Reservation>, id: nat, r: Reservation, prior: Reservation)
    requires prior == if id in held then held[id] else Reservation(0, 0, true, 0)
    ensures Sum(held[id := r], Sizes()) == Sum(held, Sizes()) + r.size - prior.size
    ensures Sum(held[id := r], Details()) == Sum(held, Details()) + r.detail - prior.detail
    ensures Essential(b, held[id := r]) == Essential(b, held) + Essentials(b)(r) - Essentials(b)(prior)
  {
    SumPut(held, Sizes(), id, r);
    SumPut(held, Details(), id, r);
    SumPut(held, Essentials(b), id, r);
  }

  lemma SizedPut(b: Bounds, held: map<nat, Reservation>, id: nat, r: Reservation)
    requires Sized(b, held) && r.size == r.detail + Essentials(b)(r)
    ensures Sized(b, held[id := r])
  {
  }

  lemma BalancedPut(b: Bounds, held: map<nat, Reservation>, pending: int, detail: int, id: nat, r: Reservation)
    requires Balanced(b, held, pending, detail) && r.size == r.detail + Essentials(b)(r)
    requires id in held ==> held[id].cache == r.cache
    ensures var prior := if id in held then held[id] else Reservation(0, 0, true, 0);
      Balanced(b, held[id := r], pending + r.size - prior.size, detail + r.detail - prior.detail)
  {
    hide Sum;
    assert LookAt(held);
    var prior := if id in held then held[id] else Reservation(0, 0, true, 0);
    SumsPut(b, held, id, r, prior);
    SizedPut(b, held, id, r);
    assert prior.size == prior.detail + Essentials(b)(prior);
    assert BalancedParts(b, held[id := r], pending + r.size - prior.size, detail + r.detail - prior.detail);
  }

  lemma BalancedRemove(b: Bounds, held: map<nat, Reservation>, pending: int, detail: int, id: nat)
    requires Balanced(b, held, pending, detail) && id in held
    ensures Balanced(b, held - {id}, pending - held[id].size, detail - held[id].detail)
  {
    assert LookAt(held);
    SumRemove(held, Sizes(), id);
    SumRemove(held, Details(), id);
    SumRemove(held, Essentials(b), id);
    assert BalancedParts(b, held - {id}, pending - held[id].size, detail - held[id].detail);
  }

  /**
    The protected headroom: as long as the outstanding essential reservations and one more fit the protected bytes,
    that one more fits the pending bytes too, whatever detail and cache bytes were reserved.
   */
  lemma ProtectedHeadroom(b: Bounds, held: map<nat, Reservation>, pending: int, detail: int)
    requires Capacity(b, held, pending, detail)
    requires Essential(b, held) + b.essentialBytes <= b.protectedBytes
    ensures pending + b.essentialBytes <= b.pendingBytes
  {
    assert LookAt(held);
  }
}
