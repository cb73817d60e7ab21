/**
  The lane as the mutable object its owners and its thread share. Every method is one region under its condition. It
  takes the state where the corresponding step says, keeps `Valid`, and says what that means to its caller.
 */
module Database {
  import opened Wrappers
  import opened Totals
  import opened Tables
  import opened Transaction
  import opened Publications
  import opened Reservations
  import opened Barriers
  import opened Acknowledgements
  import opened Lane
  import opened LaneRuns

  class Database {
    const setup: Setup
    var phase: Phase
    var closing: bool
    var unavailable: bool
    var reservations: map<nat, Reservation>
    var nextId: nat
    var pendingBytes: int
    var detailBytes: int
    var admitted: nat
    var settled: nat
    var failed: nat
    var gaps: nat
    var firstFailed: Option<nat>
    var queue: seq<Job>
    var readers: int
    var reading: bool
    var barriers: seq<Barrier>
    var verdicts: map<nat, Verdict>
    var asked: seq<Barrier>
    var current: seq<Work>
    var made: seq<Option<Content>>
    var released: bool
    /** The acknowledgements of the batch; what is owed and was called is its history. */
    var callbacks: Callbacks
    /** What became of every number, for the contracts only. */
    ghost var committed: set<nat>
    ghost var lost: set<nat>
    ghost var failures: set<nat>

    ghost function State(): State
      reads this
    {
      Lane.State(Mode(phase, closing, unavailable), Charges(reservations, nextId, pendingBytes, detailBytes),
                 Books(admitted, settled, failed, gaps, firstFailed, queue, current, made, released, committed, lost, failures, callbacks),
                 Waiting(readers, reading, barriers, verdicts, asked))
    }

    /** What every region finds and leaves. */
    ghost predicate Valid()
      reads this
    {
      ValidBounds(setup.bounds) && Lane.Valid(State(), setup.bounds, setup.config) && WellBatched(State().books, setup.bounds)
    }

    /** The capacity limits; see `Lane.SettleCaptureWithin` for the one way to lose them. */
    ghost predicate Limited()
      reads this
    {
      Within(State().charges, setup.bounds)
    }

    /** One more essential reservation is covered by the protected bytes. */
    ghost predicate Covered()
      reads this
    {
      Essential(setup.bounds, reservations) + setup.bounds.essentialBytes <= setup.bounds.protectedBytes
    }

    constructor (setup: Setup)
      requires ValidBounds(setup.bounds)
      ensures this.setup == setup && State() == START && Valid() && Limited()
    {
      this.setup := setup;
      phase, closing, unavailable := Opening, false, false;
      reservations, nextId, pendingBytes, detailBytes := map[], 0, 0, 0;
      admitted, settled, failed, gaps, firstFailed := 0, 0, 0, 0, None;
      queue, readers, reading, barriers, verdicts, asked := [], 0, false, [], map[], [];
      current, made, released, callbacks := [], [], false, NO_CALLBACKS;
      committed, lost, failures := {}, {}, {};
      new;
      StartIsValid(setup.bounds, setup.config);
    }

    /** A failed startup: a tolerant lane goes on without a store, unless the failure is one that is not retried. */
    method Forgo(error: Error) returns (r: Result<()>)
      requires phase == Opening
      modifies this`closing, this`unavailable, this`firstFailed, this`failed, this`gaps, this`phase, this`barriers, this`verdicts,
               this`readers, this`failures, this`lost
      ensures State() == OpenFailed(old(State()), !setup.strict && error != Contract)
      ensures r == if !setup.strict && error != Contract then Success(()) else Failure(error)
      ensures unavailable && 0 in failures
      ensures if r.Success? then phase == (if closing then Closing else Degraded) else closing
    {
      hide Fail, ReportsBefore, StillWaiting, Judged;
      RecordFailure(0, false, {});
      unavailable := true;
      if !setup.strict && error != Contract {
        phase := if closing then Closing else Degraded;
        return Success(());
      }
      closing := true;
      r := Failure(error);
    }

    /**
      The start of `_run`, with what each attempt to open the store comes to. The lane is open or gave the reason; only
      a tolerant one goes on without a store, and then nothing can be reserved.
     */
    method OpenStore(attempts: seq<Result<()>>) returns (r: Result<()>)
      requires Valid() && phase == Opening && attempts != []
      modifies this`closing, this`unavailable, this`firstFailed, this`failed, this`gaps, this`phase, this`barriers, this`verdicts,
               this`readers, this`failures, this`lost
      ensures State() == match Startup(attempts)
                         case Success(_) => Opened(old(State()))
                         case Failure(error) => OpenFailed(old(State()), !setup.strict && error != Contract)
      ensures Valid() && Final(old(verdicts), verdicts) && (old(Limited()) ==> Limited())
      ensures match Startup(attempts)
              case Success(_) =>
                r.Success? && phase == (if closing then Closing else Open) && unavailable == old(unavailable) && failures == old(failures)
              case Failure(error) =>
                && unavailable && 0 in failures && (r.Success? <==> !setup.strict && error != Contract)
                && if r.Success? then phase == (if closing then Closing else Degraded) else closing && r.error == error
    {
      hide Lane.Valid, WellBatched, Within, OpenFailed, Startup;
      ghost var s := State();
      var answer := FirstAnswer(attempts);
      OpeningKeepsAll(s, answer.Failure? && !setup.strict && answer.error != Contract, setup);
      if answer.Success? {
        phase := if closing then Closing else Open;
        r := Success(());
      } else {
        r := Forgo(answer.error);
      }
    }

    /** Attempts go on as long as they fail in a class that is retried. */
    method FirstAnswer(attempts: seq<Result<()>>) returns (answer: Result<()>)
      requires attempts != []
      ensures answer == Startup(attempts)
    {
      var i := 0;
      while attempts[i].Failure? && attempts[i].error != Contract && i + 1 < |attempts|
        invariant i < |attempts| && Startup(attempts) == Startup(attempts[i..])
      {
        assert attempts[i..][1..] == attempts[i + 1..];
        i := i + 1;
      }
      answer := attempts[i];
    }

    /** `_settle_barriers`: one pass over the waiting barriers. */
    method SettleBarriers()
      modifies this`barriers, this`verdicts, this`readers
      ensures State() == Settle(old(State()))
      ensures forall b :: b in barriers <==> b in old(barriers) && MustWait(b, firstFailed, settled, reservations)
      ensures old(Distinguished(barriers)) ==> forall b :: b in old(barriers) && !MustWait(b, firstFailed, settled, reservations) ==>
                b.id in verdicts && verdicts[b.id] == Barriers.Answer(b, firstFailed)
    {
      hide StillWaiting, Judged, Judge, MustWait;
      WaitingExactly(barriers, firstFailed, settled, reservations);
      if Distinguished(barriers) {
        AnsweredExactly(barriers, verdicts, firstFailed, settled, reservations);
      }
      JudgeBarriers();
    }

    method JudgeBarriers()
      modifies this`barriers, this`verdicts, this`readers
      ensures barriers == StillWaiting(old(barriers), firstFailed, settled, reservations)
      ensures verdicts == Judged(old(barriers), old(verdicts), firstFailed, settled, reservations)
      ensures readers == old(readers) - |old(barriers)| + |barriers|
    {
      ghost var before, told := barriers, verdicts;
      var pending: seq<Barrier> := [];
      for i := 0 to |barriers|
        invariant barriers == before
        invariant pending == StillWaiting(before[..i], firstFailed, settled, reservations)
        invariant verdicts == Judged(before[..i], told, firstFailed, settled, reservations)
        invariant readers == old(readers) - i + |pending|
      {
        var barrier := barriers[i];
        assert before[..i + 1][..i] == before[..i];
        if barrier.report && firstFailed.Some? && firstFailed.value <= barrier.target {
          verdicts := verdicts[barrier.id := Broken(barrier.target, firstFailed.value)];
          readers := readers - 1;
        } else if settled >= barrier.target || (!barrier.report && Released(reservations, barrier.target)) {
          verdicts := verdicts[barrier.id := Flushed(barrier.target)];
          readers := readers - 1;
        } else {
          pending := pending + [barrier];
        }
      }
      assert before[..|before|] == before;
      barriers := pending;
    }

    /** The record of a failure: its number, the counters, and what it loses; an open lane is degraded. */
    method Note(number: nat, gap: bool, ghost missing: set<nat>)
      modifies this`firstFailed, this`failed, this`gaps, this`failures, this`lost, this`phase
      ensures phase == if !closing && old(phase) != Opening then Degraded else old(phase)
      ensures failures == old(failures) + {number} && lost == old(lost) + missing
      ensures firstFailed == Some(Earliest(old(firstFailed), number))
      ensures failed == old(failed) + 1 && gaps == old(gaps) + (if gap then 1 else 0)
    {
      firstFailed := if firstFailed.None? || number < firstFailed.value then Some(number) else firstFailed;
      failed, gaps := failed + 1, gaps + (if gap then 1 else 0);
      failures, lost := failures + {number}, lost + missing;
      if !closing && phase != Opening { phase := Degraded; }
    }

    /** `_failure`: from now on no reporting barrier waits for the number or anything after it. */
    method RecordFailure(number: nat, gap: bool, ghost missing: set<nat>)
      modifies this`firstFailed, this`failed, this`gaps, this`phase, this`barriers, this`verdicts, this`readers,
               this`failures, this`lost
      ensures State() == Fail(old(State()), number, gap, missing)
      ensures firstFailed.Some? && firstFailed.value <= number && number in failures
      ensures ReportsBefore(barriers, firstFailed.value)
    {
      hide Settle, ReportsBefore, Earliest;
      ghost var s := State();
      FailMeans(s, number, gap, missing);
      Note(number, gap, missing);
      assert State() == s.(mode := State().mode, books := Recorded(s.books, number, gap, missing));
      SettleBarriers();
    }

    method Miss(gap: bool)
      modifies this`admitted, this`firstFailed, this`failed, this`gaps, this`phase, this`barriers, this`verdicts,
               this`readers, this`failures, this`lost
      ensures State() == Gap(old(State()), gap)
    {
      admitted := admitted + 1;
      RecordFailure(admitted, gap, {admitted});
    }

    /** `_record_gap`, and the same for failed maintenance: a number is spent that can never be committed. */
    method RecordGap(gap: bool)
      requires Valid()
      modifies this`admitted, this`firstFailed, this`failed, this`gaps, this`phase, this`barriers, this`verdicts,
               this`readers, this`failures, this`lost
      ensures State() == Gap(old(State()), gap)
      ensures Valid() && Final(old(verdicts), verdicts) && (old(Limited()) ==> Limited())
      ensures admitted == old(admitted) + 1 && admitted in lost && admitted in failures && firstFailed.Some?
    {
      ghost var s := State();
      Miss(gap);
      StepKeepsAll(s, OnGap(gap), setup);
    }

    /** A new reservation, charged. */
    method Charge(size: nat, detail: nat, cache: bool) returns (id: nat)
      requires nextId !in reservations
      modifies this`reservations, this`nextId, this`pendingBytes, this`detailBytes
      ensures id == old(nextId) && nextId == id + 1
      ensures reservations == old(reservations)[id := Reservation(size, detail, cache, 0)]
      ensures pendingBytes == old(pendingBytes) + size && detailBytes == old(detailBytes) + detail
    {
      id := nextId;
      reservations := reservations[id := Reservation(size, detail, cache, 0)];
      nextId := nextId + 1;
      pendingBytes, detailBytes := pendingBytes + size, detailBytes + detail;
    }

    /**
      `_reserve`. With the limits kept, protected bytes to spare refuse nothing: only the number of reservations, a
      failed startup, or the earlier failure of a strict lane does.
     */
    method Reserve() returns (r: Result<Option<nat>>)
      requires Valid()
      modifies this
      ensures Answer(State(), r) == Lane.Reserve(old(State()), setup.bounds, setup.strict, setup.notifies)
      ensures Valid() && Final(old(verdicts), verdicts) && (old(Limited()) ==> Limited())
      ensures r.Success? && r.value.Some? ==>
                && r.value.value !in old(reservations) && admitted == old(admitted)
                && reservations == old(reservations)[r.value.value := Reservation(setup.bounds.essentialBytes, 0, false, 0)]
      ensures r.Success? && r.value.None? ==> admitted == old(admitted) + 1 && admitted in lost && reservations == old(reservations)
      ensures r == Failure(Contract) <==> old(closing || phase == Opening)
      ensures old(!closing && phase != Opening) ==>
                var refused := old(unavailable || |reservations.Keys| >= setup.bounds.pendingItems
                                   || pendingBytes + setup.bounds.essentialBytes > setup.bounds.pendingBytes
                                   || (setup.strict && firstFailed.Some?));
                && ((r.Success? && r.value.Some?) <==> !refused) && (r == Success(None) <==> refused && !setup.strict)
                && (r == Failure(Backpressure) <==> refused && setup.strict)
      ensures old(Limited() && Covered() && !closing && phase != Opening) ==>
                ((r.Success? && r.value.Some?)
                 <==> !old(unavailable || |reservations.Keys| >= setup.bounds.pendingItems || (setup.strict && firstFailed.Some?)))
    {
      hide StillWaiting, Judged;
      ghost var s := State();
      ValidFacts(State(), setup.bounds, setup.config);
      r := Grant();
      OwnersKeep(s, setup);
      if Within(s.charges, setup.bounds) && Essential(setup.bounds, s.charges.held) + setup.bounds.essentialBytes <= setup.bounds.protectedBytes
         && !s.mode.closing && s.mode.phase != Opening {
        EssentialsNeverCrowdedOut(s, setup.bounds, setup.config, setup.strict, setup.notifies);
      }
    }

    method Grant() returns (r: Result<Option<nat>>)
      requires nextId !in reservations
      modifies this
      ensures Answer(State(), r) == Lane.Reserve(old(State()), setup.bounds, setup.strict, setup.notifies)
    {
      if closing || phase == Opening {
        return Failure(Contract);
      }
      var b := setup.bounds;
      if unavailable || |reservations.Keys| >= b.pendingItems || pendingBytes + b.essentialBytes > b.pendingBytes
         || (setup.strict && firstFailed.Some?) {
        if setup.strict {
          if setup.notifies {
            RecordFailure(0, false, {});
          }
          return Failure(Backpressure);
        }
        Miss(true);
        return Success(None);
      }
      var id := Charge(b.essentialBytes, 0, false);
      r := Success(Some(id));
    }

    /** `_reserve_cache`: nothing of it comes out of the protected bytes. */
    method ReserveCache(bytes: nat) returns (r: Result<Option<nat>>)
      requires Valid()
      modifies this`reservations, this`nextId, this`pendingBytes, this`detailBytes
      ensures Answer(State(), r) == Lane.ReserveCache(old(State()), bytes, setup.bounds)
      ensures Valid() && (old(Limited()) ==> Limited()) && r.Success?
      ensures r.value.Some? <==>
                && phase == Open && !closing && |old(reservations).Keys| < setup.bounds.pendingItems
                && old(pendingBytes) + bytes <= setup.bounds.pendingBytes
                && old(detailBytes) + bytes <= setup.bounds.pendingBytes - setup.bounds.protectedBytes
      ensures r.value.Some? ==>
                && r.value.value !in old(reservations)
                && reservations == old(reservations)[r.value.value := Reservation(bytes, bytes, true, 0)]
                && pendingBytes == old(pendingBytes) + bytes && detailBytes == old(detailBytes) + bytes
                && detailBytes <= setup.bounds.pendingBytes - setup.bounds.protectedBytes
      ensures old(Limited()) && Covered() ==> pendingBytes + setup.bounds.essentialBytes <= setup.bounds.pendingBytes
      ensures r.value.None? ==> State() == old(State())
    {
      hide Lane.Valid, WellBatched, Final, Within;
      ghost var s := State();
      ValidFacts(State(), setup.bounds, setup.config);
      r := GrantCache(bytes);
      StepKeepsAll(s, OnReserveCache(bytes), setup);
      KeptHeadroom(s, Lane.ReserveCache(s, bytes, setup.bounds).state, setup.bounds, setup.config);
    }

    method GrantCache(bytes: nat) returns (r: Result<Option<nat>>)
      requires nextId !in reservations
      modifies this`reservations, this`nextId, this`pendingBytes, this`detailBytes
      ensures Answer(State(), r) == Lane.ReserveCache(old(State()), bytes, setup.bounds)
    {
      var b := setup.bounds;
      if closing || phase != Open || |reservations.Keys| >= b.pendingItems || pendingBytes + bytes > b.pendingBytes
         || detailBytes + bytes > b.pendingBytes - b.protectedBytes {
        return Success(None);
      }
      var id := Charge(bytes, bytes, true);
      r := Success(Some(id));
    }

    /** Move a reservation and both running totals by the same number of bytes. */
    method Resize(id: nat, bytes: int)
      requires id in reservations && id < nextId
      modifies this`reservations, this`pendingBytes, this`detailBytes
      ensures State() == old(State()).(charges := Held(old(State()).charges, id, Resized(old(reservations)[id], bytes)))
    {
      var r := reservations[id];
      reservations := reservations[id := r.(size := r.size + bytes, detail := r.detail + bytes)];
      pendingBytes, detailBytes := pendingBytes + bytes, detailBytes + bytes;
    }

    /** `_reserve_detail`: granted or refused, the protected bytes stay what they were. */
    method ReserveDetail(id: nat, bytes: nat) returns (r: Result<()>)
      requires Valid()
      modifies this`reservations, this`pendingBytes, this`detailBytes
      ensures Answer(State(), r) == Lane.ReserveDetail(old(State()), id, bytes, setup.bounds)
      ensures Valid() && (old(Limited()) ==> Limited())
      ensures r.Failure? ==> State() == old(State())
      ensures r == Failure(Contract) <==> !(id in old(reservations) && old(reservations)[id].number == 0)
      ensures r.Success? <==>
                && id in old(reservations) && old(reservations)[id].number == 0
                && old(detailBytes) + bytes <= setup.bounds.pendingBytes - setup.bounds.protectedBytes
                && old(pendingBytes) + bytes <= setup.bounds.pendingBytes
      ensures r.Success? ==>
                && reservations.Keys == old(reservations).Keys && reservations - {id} == old(reservations) - {id}
                && reservations[id].size == old(reservations)[id].size + bytes
                && reservations[id].detail == old(reservations)[id].detail + bytes
                && pendingBytes == old(pendingBytes) + bytes && detailBytes == old(detailBytes) + bytes
      ensures r.Failure? ==> r.error == Contract || r.error == Backpressure
      ensures r.Success? && old(Limited()) ==> Lane.ReleaseDetail(State(), id, bytes) == Answer(old(State()), Success(()))
      ensures old(Limited()) && Covered() ==> pendingBytes + setup.bounds.essentialBytes <= setup.bounds.pendingBytes
    {
      ValidFacts(State(), setup.bounds, setup.config);
      StepKeepsAll(State(), OnReserveDetail(id, bytes), setup);
      ghost var after := Lane.ReserveDetail(State(), id, bytes, setup.bounds);
      KeptHeadroom(State(), after.state, setup.bounds, setup.config);
      if after.result.Success? && Limited() {
        DetailRoundTrip(State(), id, bytes, setup.bounds);
      }
      if id !in reservations || reservations[id].number != 0 {
        return Failure(Contract);
      }
      if detailBytes + bytes > setup.bounds.pendingBytes - setup.bounds.protectedBytes
         || pendingBytes + bytes > setup.bounds.pendingBytes {
        return Failure(Backpressure);
      }
      Resize(id, bytes);
      r := Success(());
    }

    /** The end of `_capture_value`: the limits survive exactly when the allowance is still there to be returned. */
    method SettleCapture(id: nat, excess: nat) returns (r: Result<()>)
      requires Valid()
      modifies this`reservations, this`pendingBytes, this`detailBytes
      ensures Answer(State(), r) == Lane.SettleCapture(old(State()), id, excess)
      ensures Valid() && (r.Success? <==> id in old(reservations)) && (r.Failure? ==> r.error == Contract && State() == old(State()))
      ensures r.Success? ==>
                && reservations.Keys == old(reservations).Keys && reservations - {id} == old(reservations) - {id}
                && reservations[id].size == old(reservations)[id].size - excess
                && pendingBytes == old(pendingBytes) - excess && detailBytes == old(detailBytes) - excess
      ensures old(Limited()) ==> (Limited() <==> (id in old(reservations) ==> excess <= old(reservations)[id].detail))
    {
      ValidFacts(State(), setup.bounds, setup.config);
      StepKeepsAll(State(), OnSettleCapture(id, excess), setup);
      if id !in reservations {
        return Failure(Contract);
      }
      Resize(id, -(excess as int));
      r := Success(());
    }

    /** `_release_detail`: never more than the reservation has, never from a publication, never another's bytes. */
    method ReleaseDetail(id: nat, bytes: nat) returns (r: Result<()>)
      requires Valid()
      modifies this`reservations, this`pendingBytes, this`detailBytes
      ensures Answer(State(), r) == Lane.ReleaseDetail(old(State()), id, bytes)
      ensures Valid() && (old(Limited()) ==> Limited())
      ensures r.Failure? ==> State() == old(State())
      ensures r.Success? <==> id in old(reservations) && old(reservations)[id].number == 0 && bytes <= old(reservations)[id].detail
      ensures r.Failure? ==> r.error == Contract
      ensures r.Success? ==> pendingBytes == old(pendingBytes) - bytes && detailBytes == old(detailBytes) - bytes
      ensures r.Success? ==>
                && id in reservations && reservations[id].detail == old(reservations)[id].detail - bytes >= 0 && reservations - {id} == old(reservations) - {id}
                && pendingBytes - detailBytes == old(pendingBytes - detailBytes)
    {
      ValidFacts(State(), setup.bounds, setup.config);
      StepKeepsAll(State(), OnReleaseDetail(id, bytes), setup);
      if id !in reservations || reservations[id].number != 0 || bytes > reservations[id].detail {
        return Failure(Contract);
      }
      Resize(id, -(bytes as int));
      r := Success(());
    }

    /** `_release`. */
    method Release(id: nat)
      requires id in reservations
      modifies this`reservations, this`pendingBytes, this`detailBytes
      ensures State() == old(State()).(charges := Freed(old(State()).charges, id))
    {
      var r := reservations[id];
      reservations := reservations - {id};
      pendingBytes, detailBytes := pendingBytes - r.size, detailBytes - r.detail;
    }

    /** `_discard`: afterwards the reservation is gone and no other is touched; only the lane ends a publication. */
    method Discard(id: nat, gap: bool) returns (r: Result<()>)
      requires Valid()
      modifies this
      ensures Answer(State(), r) == Lane.Discard(old(State()), id, gap)
      ensures Valid() && Final(old(verdicts), verdicts) && (old(Limited()) ==> Limited())
      ensures r.Success? ==> id !in reservations && reservations == old(reservations) - {id}
      ensures r == Failure(Contract) <==> id in old(reservations) && old(reservations)[id].number != 0
      ensures r.Failure? ==> r.error == Contract && State() == old(State())
      ensures r.Success? && id in old(reservations) ==>
                && pendingBytes == old(pendingBytes) - old(reservations)[id].size
                && detailBytes == old(detailBytes) - old(reservations)[id].detail
      ensures r.Success? && !gap ==> failures == old(failures) && lost == old(lost) && admitted == old(admitted)
      ensures r.Success? && gap && id in old(reservations) ==> admitted in lost && admitted == old(admitted) + 1
    {
      StepKeepsAll(State(), OnDiscard(id, gap), setup);
      if id !in reservations {
        return Success(());
      }
      if reservations[id].number != 0 {
        return Failure(Contract);
      }
      if gap {
        RecordGap(true);
      }
      Release(id);
      r := Success(());
    }

    /** The next number goes with the reservation, a profile's callback is owed, and the publication waits its turn. */
    method Place(w: Work)
      requires w.id in reservations
      modifies this`admitted, this`reservations, this`queue, this`callbacks
      ensures admitted == w.number && queue == old(queue) + [Publication(w)]
      ensures reservations == old(reservations)[w.id := old(reservations)[w.id].(number := w.number)]
      ensures callbacks == if w.profile then old(callbacks).(owed := old(callbacks).owed + {w.number}) else old(callbacks)
    {
      admitted := w.number;
      reservations := reservations[w.id := reservations[w.id].(number := w.number)];
      if w.profile {
        callbacks := callbacks.(owed := callbacks.owed + {w.number});
      }
      queue := queue + [Publication(w)];
    }

    method Enqueue(id: nat, bytes: int, items: nat, imports: bool, profile: bool, content: Option<Content>) returns (number: nat)
      requires id in reservations
      modifies this`admitted, this`reservations, this`queue, this`callbacks
      ensures State() == Queued(old(State()), id, bytes, items, imports, profile, content) && number == old(admitted) + 1
      ensures InQueue(queue, number)
    {
      number := admitted + 1;
      Place(Work(id, number, bytes, items, imports, profile, content));
      assert queue[|queue| - 1].work.number == number;
    }

    /** `_publish`: a number of its own, larger than all before, and room in a batch for it. */
    method Submit(id: nat, content: Content) returns (r: Result<nat>)
      requires Valid()
      modifies this`admitted, this`reservations, this`queue, this`callbacks
      ensures Answer(State(), r) == Lane.Submit(old(State()), id, content, setup.bounds, setup.config)
      ensures Valid() && (old(Limited()) ==> Limited())
      ensures r.Failure? ==> State() == old(State())
      ensures var size := ByteSize(content, setup.config);
              var fits := Items(content) <= setup.bounds.batchItems && size <= setup.bounds.batchBytes;
              var free := id in old(reservations) && old(reservations)[id].number == 0;
              && (r.Success? <==> ValidContent(content) && fits && free && !unavailable && size <= old(reservations)[id].size)
              && (r == Failure(Contract) <==> !ValidContent(content) || (fits && !free))
              && (r == Failure(Unavailable) <==> ValidContent(content) && fits && free && unavailable)
              && (r == Failure(Backpressure) <==>
                    ValidContent(content) && (!fits || (free && !unavailable && size > old(reservations)[id].size)))
      ensures r.Success? ==>
                && r.value == admitted == old(admitted) + 1 && r.value !in callbacks.owed && callbacks == old(callbacks)
                && queue == old(queue) + [Publication(Work(id, r.value, ByteSize(content, setup.config), Items(content),
                                                           content.checkpoint.Some?, false, Some(content)))]
                && reservations == old(reservations)[id := old(reservations)[id].(number := r.value)]
    {
      StepKeepsAll(State(), OnSubmit(id, content), setup);
      OwedNumbers(State(), setup.bounds, setup.config);
      var size := ByteSize(content, setup.config);
      if !ValidContent(content) {
        return Failure(Contract);
      }
      if Items(content) > setup.bounds.batchItems || size > setup.bounds.batchBytes {
        return Failure(Backpressure);
      }
      if id !in reservations || reservations[id].number != 0 {
        return Failure(Contract);
      }
      if unavailable {
        return Failure(Unavailable);
      }
      if size > reservations[id].size {
        return Failure(Backpressure);
      }
      var number := Enqueue(id, size, Items(content), content.checkpoint.Some?, false, Some(content));
      r := Success(number);
    }

    /** `_defer_context` and `_defer_profile`: a profile's callback is owed from now on and was not called yet. */
    method Defer(id: nat, profile: bool) returns (r: Result<nat>)
      requires Valid()
      modifies this`admitted, this`reservations, this`queue, this`callbacks
      ensures Answer(State(), r) == Lane.Defer(old(State()), id, profile, setup.bounds)
      ensures Valid() && (old(Limited()) ==> Limited())
      ensures r.Failure? ==> State() == old(State())
      ensures var free := id in old(reservations) && old(reservations)[id].number == 0;
              var refused := unavailable || (profile && closing);
              && (r.Success? <==> free && !refused && old(reservations)[id].size <= setup.bounds.batchBytes)
              && (r == Failure(Contract) <==> !free) && (r == Failure(Unavailable) <==> free && refused)
              && (r == Failure(Backpressure) <==> free && !refused && old(reservations)[id].size > setup.bounds.batchBytes)
      ensures r.Success? ==>
                && r.value == admitted == old(admitted) + 1
                && queue == old(queue) + [Publication(Work(id, r.value, old(reservations)[id].size, 1, false, profile, None))]
                && reservations == old(reservations)[id := old(reservations)[id].(number := r.value)]
      ensures r.Success? ==> (r.value in callbacks.owed <==> profile) && !Called(callbacks.calls, r.value)
    {
      StepKeepsAll(State(), OnDefer(id, profile), setup);
      OwedNumbers(State(), setup.bounds, setup.config);
      if id !in reservations || reservations[id].number != 0 {
        return Failure(Contract);
      }
      if unavailable || (profile && closing) {
        return Failure(Unavailable);
      }
      if reservations[id].size > setup.bounds.batchBytes {
        return Failure(Backpressure);
      }
      var number := Enqueue(id, reservations[id].size, 1, false, profile, None);
      r := Success(number);
    }

    /** `_request`: queued reads, the one being served and waiting barriers share the reader slots. */
    method Request() returns (r: Result<()>)
      requires Valid()
      modifies this`readers, this`queue
      ensures Answer(State(), r) == Lane.Request(old(State()), setup.bounds)
      ensures Valid() && (old(Limited()) ==> Limited())
      ensures r.Failure? ==> State() == old(State())
      ensures r.Success? <==> phase != Opening && !closing && !unavailable && old(readers) < setup.bounds.readerRequests
      ensures r == Failure(Contract) <==> phase == Opening || closing
      ensures r == Failure(Unavailable) <==> phase != Opening && !closing && unavailable
      ensures r.Failure? ==> r.error == Contract || r.error == Unavailable || r.error == Backpressure
      ensures r.Success? ==> queue == old(queue) + [Read] && readers == old(readers) + 1
      ensures r.Success? ==> Reads(queue) + (if reading then 1 else 0) + |barriers| <= setup.bounds.readerRequests
    {
      hide Lane.Valid, WellBatched, Final, Within, Reads;
      ValidFacts(State(), setup.bounds, setup.config);
      OwnersKeep(State(), setup);
      ReadsMore(queue);
      if phase == Opening || closing {
        return Failure(Contract);
      }
      if unavailable {
        return Failure(Unavailable);
      }
      if readers >= setup.bounds.readerRequests {
        return Failure(Backpressure);
      }
      readers := readers + 1;
      queue := queue + [Read];
      r := Success(());
    }

    method Enlist(report: bool) returns (barrier: Barrier)
      modifies this`readers, this`barriers, this`asked
      ensures barrier == Barrier(|old(asked)|, admitted, report)
      ensures asked == old(asked) + [barrier] && barriers == old(barriers) + [barrier] && readers == old(readers) + 1
    {
      readers := readers + 1;
      barrier := Barrier(|asked|, admitted, report);
      asked, barriers := asked + [barrier], barriers + [barrier];
    }

    /** `_barrier`: it covers what was admitted, and waits or has its verdict; a success so far covers only commits. */
    method AskBarrier(report: bool) returns (r: Result<nat>)
      requires Valid()
      modifies this`readers, this`barriers, this`verdicts, this`asked
      ensures Answer(State(), r) == Lane.AskBarrier(old(State()), report, setup.bounds)
      ensures Valid() && (old(Limited()) ==> Limited()) && Final(old(verdicts), verdicts)
      ensures r.Failure? ==> State() == old(State())
      ensures r.Success? <==> phase != Opening && old(readers) < setup.bounds.readerRequests
      ensures r == Failure(Contract) <==> phase == Opening
      ensures r.Failure? ==> r.error == Contract || r.error == Backpressure
      ensures r.Success? ==> r.value == |old(asked)| && asked == old(asked) + [Barrier(r.value, admitted, report)]
      ensures r.Success? ==> r.value in verdicts || Waits(barriers, r.value)
      ensures r.Success? && report && r.value in verdicts && verdicts[r.value].Flushed? ==>
                forall n: nat :: 1 <= n <= admitted ==> n in committed
    {
      ghost var s := State();
      r := Ask(report);
      StepKeepsAll(s, OnBarrier(report), setup);
      BarrierMeans(s, report, setup);
    }

    method Ask(report: bool) returns (r: Result<nat>)
      modifies this`readers, this`barriers, this`verdicts, this`asked
      ensures Answer(State(), r) == Lane.AskBarrier(old(State()), report, setup.bounds)
    {
      hide Settle, MustWait, Distinguished;
      if phase == Opening {
        return Failure(Contract);
      }
      if readers >= setup.bounds.readerRequests {
        return Failure(Backpressure);
      }
      ghost var s := State();
      var barrier := Enlist(report);
      ghost var t := State();
      assert t == s.(waiting := t.waiting);
      SettleBarriers();
      r := Success(barrier.id);
    }

    // ---- the lane's thread ---------------------------------------------------------------------------

    method TakeHead()
      requires queue != [] && queue[0].Publication?
      modifies this`queue, this`current, this`made, this`released
      ensures current == old(current) + [old(queue)[0].work] && queue == old(queue)[1..] && made == [] && !released
    {
      current, queue := current + [queue[0].work], queue[1..];
      made, released := [], false;
    }

    /** The head publication starts a batch. */
    method Absorb()
      requires queue != [] && queue[0].Publication?
      modifies this`queue, this`current, this`made, this`released
      ensures State() == old(State()).(books := Absorbed(old(State()).books.(made := [], released := false)))
    {
      TakeHead();
    }

    /** The head of the queue and nothing else: publications and reads are taken in the order they were handed over. */
    method Take()
      requires Valid()
      modifies this`queue, this`reading, this`current, this`made, this`released
      ensures State() == Lane.Take(old(State()))
      ensures Valid() && (old(Limited()) ==> Limited())
      ensures if old(current == [] && !reading && queue != []) then
                && queue == old(queue)[1..] && reading == old(queue)[0].Read?
                && (old(queue)[0].Publication? ==> current == [old(queue)[0].work] && made == [] && !released)
              else State() == old(State())
    {
      hide Lane.Valid, WellBatched, Final, Within;
      LaneKeeps(State(), setup);
      if current != [] || reading || queue == [] {
        return;
      }
      if queue[0].Read? {
        queue, reading := queue[1..], true;
      } else {
        Absorb();
      }
    }

    /** Batch only ready adjacent publications; never reorder a read past an earlier handoff. */
    method Extend()
      requires current != []
      modifies this`queue, this`current
      ensures State() == old(State()).(books := Coalesced(old(State()).books, setup.bounds))
    {
      ghost var whole := Coalesced(State().books, setup.bounds);
      var size, count := BytesOf(current), ItemsOf(current);
      while !current[0].imports && queue != [] && queue[0].Publication?
        invariant current != [] && size == BytesOf(current) && count == ItemsOf(current)
        invariant whole == Coalesced(State().books, setup.bounds)
        invariant State() == old(State()).(books := State().books)
        decreases |queue|
      {
        var candidate := queue[0].work;
        if candidate.imports || size + candidate.bytes > setup.bounds.batchBytes || count + candidate.items > setup.bounds.batchItems {
          break;
        }
        ghost var k := State().books;
        assert (current + [candidate])[..|current|] == current;
        current, queue := current + [candidate], queue[1..];
        size, count := size + candidate.bytes, count + candidate.items;
        assert State().books == Absorbed(k);
      }
    }

    /** A new batch is extended before anything of it is prepared, and stays within both limits. */
    method Coalesce()
      requires Valid()
      modifies this`queue, this`current
      ensures State() == Lane.Coalesce(old(State()), setup.bounds)
      ensures Valid() && (old(Limited()) ==> Limited())
      ensures current != [] ==> BytesOf(current) <= setup.bounds.batchBytes && ItemsOf(current) <= setup.bounds.batchItems
      ensures if old(current != [] && made == [] && !released) then ExtendedFully(old(State()).books, State().books, setup.bounds)
              else State() == old(State())
    {
      StepKeepsAll(State(), OnCoalesce, setup);
      if current != [] && made == [] && !released {
        CoalescedFully(State().books, setup.bounds);
      }
      if current == [] || made != [] || released {
        return;
      }
      Extend();
    }

    method FinishRead()
      requires Valid()
      modifies this`reading, this`readers
      ensures State() == Lane.FinishRead(old(State()))
      ensures Valid() && (old(Limited()) ==> Limited())
      ensures !reading && readers == old(readers) - (if old(reading) then 1 else 0)
    {
      hide Lane.Valid, WellBatched, Final, Within;
      LaneKeeps(State(), setup);
      if reading {
        reading, readers := false, readers - 1;
      }
    }

    /**
      Prepare one publication. It is prepared exactly if it came with content or its builder returned one context, or one
      profile, that fits what was reserved; what it is prepared with is that. Failed detail cannot discard unrelated ones.
     */
    method Prepare(built: Built)
      requires Valid()
      modifies this`made, this`firstFailed, this`failed, this`gaps, this`phase, this`barriers, this`verdicts,
               this`readers, this`failures, this`lost
      ensures State() == Lane.Prepare(old(State()), built, setup.config)
      ensures Valid() && Final(old(verdicts), verdicts) && (old(Limited()) ==> Limited())
      ensures if released || |old(made)| >= |current| then State() == old(State()) else PreparesNext(old(State()), State(), built, setup.config)
    {
      hide Lane.Valid, WellBatched, Final, Within, PreparesNext, Lane.Prepare;
      ghost var s := State();
      PrepareMeans(s, built, setup.config);
      MakeNext(built);
      LaneKeeps(s, setup);
    }

    method MakeNext(built: Built)
      modifies this`made, this`firstFailed, this`failed, this`gaps, this`phase, this`barriers, this`verdicts,
               this`readers, this`failures, this`lost
      ensures State() == Lane.Prepare(old(State()), built, setup.config)
    {
      if released || |made| >= |current| {
        return;
      }
      var w := current[|made|];
      var content: Option<Content> := w.content;
      if w.content.None? {
        if built.Raised? || w.id !in reservations || !Proper(w, built.content, reservations[w.id].size, setup.config) {
          RecordFailure(w.number, true, {w.number});
        } else {
          if built.gap && !w.profile {
            RecordFailure(w.number, true, {});
          }
          content := Some(built.content);
        }
      }
      made := made + [content];
    }

    /** The batch committed as a whole, or failed as a whole at its first publication. */
    method Resolve(failing: bool)
      requires |made| == |current|
      modifies this`firstFailed, this`failed, this`gaps, this`phase, this`barriers, this`verdicts, this`readers,
               this`failures, this`lost, this`committed, this`released, this`callbacks
      ensures State() == Resolved(old(State()), failing)
    {
      ghost var k := State().books;
      released, callbacks := true, callbacks.(error := failing && Survivors(made) != []);
      if Survivors(made) != [] {
        if failing {
          RecordFailure(current[FirstSome(made)].number, false, Ready(k));
        } else {
          committed := committed + Ready(k);
        }
      }
    }

    /** One region after the write: record a failure, then return the charge of every publication of the batch. */
    method Finish(failing: bool)
      requires Valid()
      modifies this
      ensures State() == Lane.Finish(old(State()), failing)
      ensures Valid() && Final(old(verdicts), verdicts) && (old(Limited()) ==> Limited())
      ensures CurrentDone(State().books, lost)
      ensures if old(released || current == [] || |made| != |current|) then State() == old(State())
              else BatchEnded(old(State()), State(), failing)
    {
      hide Lane.Valid, WellBatched, Final, Within, Resolved, BatchEnded;
      ghost var s, k := State(), State().books;
      FinishMeans(s, failing, setup);
      if !released && current != [] && |made| == |current| {
        FinishEndsBatch(s, failing);
      }
      if released || current == [] || |made| != |current| {
        return;
      }
      Resolve(failing);
      ghost var t := State();
      for i := 0 to |current|
        invariant current == k.current
        invariant State() == t.(charges := ReleaseAll(t.charges, current[..i]))
      {
        assert current[..i + 1][..i] == current[..i];
        if current[i].id in reservations {
          Release(current[i].id);
        }
      }
      assert current[..|current|] == current;
      assert State() == Lane.Finish(s, failing);
    }

    method CallNext(raised: bool)
      modifies this`callbacks, this`firstFailed, this`failed, this`gaps, this`phase, this`barriers, this`verdicts,
               this`readers, this`failures, this`lost
      ensures State() == Lane.Acknowledge(old(State()), raised)
    {
      if released && callbacks.answered < |current| {
        ghost var k := State().books;
        var w := current[callbacks.answered];
        var committing := !callbacks.error && callbacks.answered < |made| && made[callbacks.answered].Some?;
        if w.profile {
          callbacks := callbacks.(calls := callbacks.calls + [Call(w.number, committing)]);
        }
        callbacks := callbacks.(answered := callbacks.answered + 1);
        assert State().books == Told(k);
        if w.profile && raised {
          RecordFailure(w.number, true, {});
        }
      }
    }

    /** The next publication of a finished batch: its callback, if it has one, is called with the truth, once. */
    method Acknowledge(raised: bool)
      requires Valid()
      modifies this`callbacks, this`firstFailed, this`failed, this`gaps, this`phase, this`barriers, this`verdicts,
               this`readers, this`failures, this`lost
      ensures State() == Lane.Acknowledge(old(State()), raised)
      ensures Valid() && Final(old(verdicts), verdicts) && (old(Limited()) ==> Limited())
      ensures if old(released && callbacks.answered < |current|) then
                var w := current[old(callbacks.answered)];
                && callbacks.answered == old(callbacks.answered) + 1
                && callbacks.calls == old(callbacks.calls) + (if w.profile then [Call(w.number, w.number in committed)] else [])
                && failures == old(failures) + (if w.profile && raised then {w.number} else {})
              else State() == old(State())
      ensures callbacks.calls == old(callbacks.calls)
           || (var w := current[old(callbacks.answered)];
               && w.profile && !Called(old(callbacks.calls), w.number)
               && callbacks.calls == old(callbacks.calls) + [Call(w.number, w.number in committed)])
    {
      hide Lane.Valid, WellBatched, Final, Within;
      ghost var s := State();
      CallNext(raised);
      StepKeepsAll(s, OnAcknowledge(raised), setup);
      CallMeans(s, setup.bounds, setup.config);
    }

    method PassBatch()
      requires current != []
      modifies this`settled, this`current, this`made, this`released, this`callbacks
      ensures settled == old(current)[|old(current)| - 1].number && current == [] && made == [] && !released
      ensures callbacks == old(callbacks).(answered := 0)
    {
      settled := current[|current| - 1].number;
      current, made, released, callbacks := [], [], false, callbacks.(answered := 0);
    }

    method EndBatch()
      modifies this`settled, this`current, this`made, this`released, this`callbacks, this`barriers, this`verdicts, this`readers
      ensures State() == Lane.SettleBatch(old(State()))
    {
      hide Settle;
      if released && current != [] && callbacks.answered >= |current| {
        ghost var s := State();
        PassBatch();
        assert State() == s.(books := BatchSettled(s.books));
        SettleBarriers();
      }
    }

    /** Afterwards everything up to the batch is settled: no callback is outstanding and no barrier waits for it. */
    method SettleBatch()
      requires Valid()
      modifies this`settled, this`current, this`made, this`released, this`callbacks, this`barriers, this`verdicts, this`readers
      ensures State() == Lane.SettleBatch(old(State()))
      ensures Valid() && Final(old(verdicts), verdicts) && (old(Limited()) ==> Limited())
      ensures forall n :: n in callbacks.owed && n <= settled ==> Called(callbacks.calls, n)
      ensures old(released && current != [] && callbacks.answered == |current|) ==>
                current == [] && settled == old(current)[|old(current)| - 1].number && Beyond(barriers, settled)
      ensures old(!released || current == [] || callbacks.answered < |current|) ==> State() == old(State())
    {
      hide Lane.Valid, WellBatched, Final, Within;
      ghost var s := State();
      EndBatch();
      StepKeepsAll(s, OnSettleBatch, setup);
      SettledMeans(s, setup.bounds, setup.config);
    }

    method Close()
      requires Valid()
      modifies this`closing, this`phase
      ensures State() == Lane.Close(old(State()))
      ensures Valid() && (old(Limited()) ==> Limited())
      ensures closing && phase == if old(phase) == Opening then Opening else Closing
    {
      OwnersKeep(State(), setup);
      closing := true;
      if phase != Opening { phase := Closing; }
    }

    /** The end of the loop: every barrier has its verdict and every callback was called. */
    method Drain()
      requires Valid()
      modifies this`phase, this`barriers, this`verdicts, this`readers
      ensures State() == Lane.Drain(old(State()))
      ensures Valid() && Final(old(verdicts), verdicts) && (old(Limited()) ==> Limited())
      ensures !old(current == [] && !reading && queue == [] && closing && reservations == map[]) ==> State() == old(State())
      ensures old(current == [] && !reading && queue == [] && closing && reservations == map[]) ==>
                && phase == Closed && barriers == [] && (forall id: nat :: id < |asked| ==> id in verdicts)
                && (forall n :: n in callbacks.owed ==> Called(callbacks.calls, n))
    {
      ghost var s := State();
      EndLoop();
      StepKeepsAll(s, OnDrain, setup);
      if Drained(s) {
        DrainResolvesEverything(s, setup.bounds, setup.config);
      }
    }

    method EndLoop()
      modifies this`phase, this`barriers, this`verdicts, this`readers
      ensures State() == Lane.Drain(old(State()))
    {
      if current == [] && !reading && queue == [] && closing && reservations == map[] {
        phase := Closed;
        SettleBarriers();
      }
    }
  }
}
