/** The reservation service as an object over its Redis keys, run by one caller at a time. */
module BudgetService {
  import opened Basics
  import opened BudgetKeys
  import opened Budget

  class ReservationService {
    var now: nat
    var aggregates: map<string, Aggregate>
    var claims: map<string, Claim>
    var metadata: map<string, Meta>
    var index: seq<Member>
    var locks: set<string>

    ghost function State(): Redis
      reads this
    {
      Redis(now, aggregates, claims, metadata, index)
    }

    /** Between operations no lock is held. */
    ghost predicate Valid()
      reads this
    {
      locks == {}
    }

    constructor (now: nat)
      ensures Valid() && State() == Redis(now, map[], map[], map[], [])
    {
      this.now, aggregates, claims, metadata, index, locks := now, map[], map[], map[], [], {};
    }

    /** SET NX on the session's lock. */
    method Acquire(session: string) returns (acquired: bool)
      modifies this`locks
      ensures acquired <==> session !in old(locks)
      ensures locks == old(locks) + {session}
    {
      acquired := session !in locks;
      locks := locks + {session};
    }

    method ReleaseAmount(session: string, amount: nat) returns (busy: bool)
      requires Valid()
      modifies this`locks, this`aggregates
      ensures Valid() && !busy
      ensures State() == Budget.ReleaseAmount(old(State()), session, amount)
    {
      var acquired := Acquire(session);
      if !acquired {
        return true;
      }
      if session in aggregates && now <= aggregates[session].expiresAt {
        var current := aggregates[session].value;
        var next := current - amount;
        if next < 0 {
          next := 0;
        }
        aggregates := aggregates[session := Aggregate(next, aggregates[session].expiresAt)];
      }
      locks := locks - {session};
      return false;
    }

    /** Releases every reservation whose window has passed. */
    method SweepExpired() returns (busy: bool)
      requires Valid()
      modifies this`locks, this`aggregates, this`metadata, this`index
      ensures Valid() && !busy
      ensures State() == Sweep(old(State()))
    {
      var members := Due(index, now);
      var i := 0;
      while i < |members|
        invariant 0 <= i <= |members| && Valid()
        invariant SweepMembers(old(State()), members) == SweepMembers(State(), members[i..])
      {
        assert members[i..][0] == members[i] && members[i..][1..] == members[i + 1..];
        busy := ReleaseAmount(members[i].session, members[i].amount);
        if busy {
          return;
        }
        metadata := metadata - {members[i].reservationId};
        index := Without(index, members[i].reservationId);
        i := i + 1;
      }
      assert members[i..] == [];
      return false;
    }

    method Reserve(q: Request, newId: string) returns (busy: bool, outcome: Outcome)
      requires Valid()
      modifies this
      ensures Valid() && !busy
      ensures (State(), outcome) == Budget.Reserve(old(State()), q, newId)
    {
      hide Sweep, TermsOf;
      busy := SweepExpired();
      outcome := Rejected(BudgetDenied);
      if busy {
        return;
      }
      var terms := TermsOf(q);
      if terms.Invalid? {
        return false, Rejected(terms.reason);
      }
      var key, amount := terms.key, terms.amount;
      if key in claims && now <= claims[key].expiresAt && claims[key].reservationId != "" {
        return false, Reserved(claims[key].reservationId);
      }
      var acquired := Acquire(q.session);
      if !acquired {
        return true, Rejected(BudgetDenied);
      }
      var current := 0;
      if q.session in aggregates && now <= aggregates[q.session].expiresAt {
        current := aggregates[q.session].value;
      }
      var next := current + amount;
      if next > terms.cap {
        locks := locks - {q.session};
        return false, Rejected(BudgetDenied);
      }
      var ttl := PendingSeconds(q.preSubmitTTL);
      aggregates := aggregates[q.session := Aggregate(next, now + AggregateSeconds(q.sessionAggregateTTL))];
      claims := claims[key := Claim(newId, now + ttl)];
      metadata := metadata[newId := Meta(q.session, amount, now + 2 * ttl)];
      index := index + [Member(newId, q.session, amount, now + ttl)];
      locks := locks - {q.session};
      return false, Reserved(newId);
    }

    /** Looks a reservation's member up in the index and removes it. */
    method DropMember(reservationId: string)
      modifies this`index
      ensures index == Without(old(index), reservationId)
    {
      var members := index;
      var i := 0;
      while i < |members|
        invariant 0 <= i <= |members|
        invariant index == members == old(index)
        invariant Without(members, reservationId) == members[..i] + Without(members[i..], reservationId)
      {
        var rest := members[i + 1..];
        assert members[i..] == [members[i]] + rest;
        if members[i].reservationId == reservationId {
          assert Without(members[i..], reservationId) == rest;
          index := members[..i] + rest;
          return;
        }
        assert Without(members[i..], reservationId) == [members[i]] + Without(rest, reservationId);
        assert members[..i + 1] == members[..i] + [members[i]];
        i := i + 1;
      }
      assert members[i..] == [] && members[..i] == members;
    }

    method CommitReservation(reservationId: string)
      requires Valid()
      modifies this`metadata, this`index
      ensures Valid() && State() == Commit(old(State()), reservationId)
    {
      metadata := metadata - {reservationId};
      DropMember(reservationId);
    }

    method ReleaseReservation(reservationId: string) returns (busy: bool)
      requires Valid()
      modifies this`locks, this`aggregates, this`metadata, this`index
      ensures Valid() && !busy
      ensures State() == Release(old(State()), reservationId)
    {
      if reservationId !in metadata || now > metadata[reservationId].expiresAt {
        return false;
      }
      var meta := metadata[reservationId];
      busy := ReleaseAmount(meta.session, meta.amount);
      if !busy {
        metadata := metadata - {reservationId};
        DropMember(reservationId);
      }
    }
  }
}
