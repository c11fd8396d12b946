/** One server's handle on the store: its trusted deadline, and whether it gave the lease up. */
module Handle {
  import opened Common
  import opened Redis
  import opened Authority

  datatype Refusal = Lost | Stale | Capacity | Uncertain

  class Ownership {
    var deadline: nat
    var lost: bool

    constructor (before: nat, now: nat)
      ensures Contents() == Trusted(Owner(None, false), now, before).(deadline := Some(before + SAFE))
    {
      deadline := before + SAFE;
      lost := now >= before + SAFE;
    }

    function Contents(): Owner
      reads this
    {
      Owner(Some(deadline), lost)
    }

    /** Passes only while the lease is trusted; a failed check gives the lease up for good. */
    method CheckNow(now: nat) returns (ok: bool)
      modifies this`lost
      ensures ok == old(Passes(Contents(), now)) == Passes(Contents(), now)
      ensures lost == !ok
    {
      if lost || now >= deadline {
        lost := true;
        return false;
      }
      ok := true;
    }

    /** The answer to a renewal, which must be confirmed and arrive within the safe time. */
    method Renewed(before: nat, now: nat, code: Option<int>, confirmed: bool) returns (trusted: bool)
      modifies this
      ensures (code == Some(1) && confirmed) ==> Contents().lost == Trusted(old(Contents()), now, before).lost
      ensures !(code == Some(1) && confirmed) ==> lost
      ensures trusted == !lost
      ensures trusted ==> Contents() == Trusted(old(Contents()), now, before)
      ensures !trusted ==> deadline == old(deadline)
    {
      if lost {
        return false;
      }
      if code != Some(1) || !confirmed || now >= before + SAFE {
        lost := true;
        return false;
      }
      deadline := before + SAFE;
      trusted := true;
    }

    /** What a script returned, or nothing when the connection failed while it may have run. */
    method Reply(code: Option<int>) returns (value: Result<int, Refusal>)
      modifies this`lost
      ensures lost == (old(lost) || code == None || code == Some(LOST))
      ensures value.Success? <==> code.Some? && code.value !in {LOST, STALE, REFUSED}
      ensures value.Success? ==> value.value == code.value
      ensures value == Failure(Stale) <==> code == Some(STALE)
      ensures value == Failure(Capacity) <==> code == Some(REFUSED)
    {
      if code == Some(LOST) {
        lost := true;
        return Failure(Lost);
      }
      if code == Some(STALE) {
        return Failure(Stale);
      }
      if code == Some(REFUSED) {
        return Failure(Capacity);
      }
      if code == None {
        lost := true;
        return Failure(Uncertain);
      }
      value := Success(code.value);
    }

    /** A write counts only once it is confirmed, and only if the lease was trusted until then. */
    method Acknowledge(confirmed: bool, now: nat) returns (ok: bool)
      modifies this`lost
      ensures ok <==> confirmed && old(Passes(Contents(), now))
      ensures lost == !ok
    {
      if !confirmed {
        lost := true;
        return false;
      }
      ok := CheckNow(now);
    }

    /**
     A guarded write. It is reported as done exactly when the store ran it with success, confirmed
     it, and the lease was trusted before and after; an uncertain end always gives the lease up. A refused allocation
     may still have counted up.
     */
    method Write(db: Store, token: nat, op: Op, before: nat, executed: nat, after: nat, reached: bool, answered: bool, confirmed: bool)
      returns (value: Result<int, Refusal>)
      requires op.Save? || op.Remove? || op.Reserve? || op.Allocate?
      requires Admissible(op)
      requires before <= executed <= after
      modifies this`lost, db
      ensures var run := Run(old(db.Contents()), executed, token, op);
              && (value.Success? <==>
                   (&& old(Passes(Contents(), before)) && old(Passes(Contents(), after))
                    && reached && answered && confirmed && run.1 >= 0))
              && (value.Success? ==> value.value == run.1)
              && (db.Contents() == old(db.Contents()) || (reached && db.Contents() == run.0))
              && (!lost && value.Failure? ==> db.Contents() == old(db.Contents()).(counter := db.Contents().counter))
              && (!lost && value.Failure? && !op.Allocate? ==> db.Contents() == old(db.Contents()))
              && (value.Success? ==> !lost && db.Contents() == run.0)
    {
      var now := CheckNow(before);
      if !now {
        return Failure(Lost);
      }
      var code := None;
      if reached {
        var returned := Execute(db, token, op, executed);
        if answered {
          code := Some(returned);
        }
      }
      value := Reply(code);
      if value.Success? {
        var sure := Acknowledge(confirmed, after);
        if !sure {
          value := Failure(Uncertain);
        }
      }
    }

    method Execute(db: Store, token: nat, op: Op, now: nat) returns (code: int)
      requires op.Save? || op.Remove? || op.Reserve? || op.Allocate?
      modifies db
      ensures (db.Contents(), code) == Run(old(db.Contents()), now, token, op)
    {
      match op
      case Save(id, expected, payload) => code := db.SaveRecord(now, token, id, expected, payload);
      case Remove(id, expected) => code := db.RemoveRecord(now, token, id, expected);
      case Reserve(id) => code := db.ReserveRecord(now, token, id);
      case Allocate => code := db.AllocateTable(now, token);
    }
  }
}
