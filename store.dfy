/** The user-settings table as the routes see it: `UserSetting.get_value`,
    `UserSetting.set_value` and `db.session.commit()`. Writes go to the
    session (`staged`); a commit makes the staged state durable (`committed`). */
module UserSettings {
  import opened Python

  /** What a call to `UserSetting.set_value` did: it returned normally, or it
      raised `error` after possibly leaving `leftBehind` under the key. */
  datatype WriteAttempt = Written | Raised(error: Exception, leftBehind: Option<Value>)

  /** Python's `None` for an absent key, else the stored value. */
  function Lookup(m: map<string, Value>, key: string): Value
  {
    if key in m then m[key] else NoneValue
  }

  /** The session state after a write attempt of `v` under `key`. */
  function AfterAttempt(m: map<string, Value>, key: string, v: Value, attempt: WriteAttempt): (r: map<string, Value>)
    ensures attempt.Written? ==> Lookup(r, key) == v
    ensures forall k :: k != key ==> Lookup(r, k) == Lookup(m, k)
  {
    match attempt
    case Written => m[key := v]
    case Raised(_, None) => m
    case Raised(_, Some(w)) => m[key := w]
  }

  class Store {
    /** What the session holds, including uncommitted writes. */
    var staged: map<string, Value>
    /** What the database holds durably. */
    var committed: map<string, Value>
    /** How many commits have been issued. */
    ghost var commits: nat

    constructor (durable: map<string, Value>)
      ensures staged == durable && committed == durable && commits == 0
    {
      staged := durable;
      committed := durable;
      commits := 0;
    }

    /** `UserSetting.get_value(key)`: the staged value, `None` when unset. */
    function Get(key: string): (v: Value)
      reads this
      ensures key in staged ==> v == staged[key]
      ensures key !in staged ==> v == NoneValue
    {
      Lookup(staged, key)
    }

    /** `UserSetting.set_value(key, v)` where the write cannot fail. */
    method Set(key: string, v: Value)
      modifies this
      ensures staged == old(staged)[key := v]
      ensures committed == old(committed) && commits == old(commits)
    {
      staged := staged[key := v];
    }

    /** `UserSetting.set_value(key, v)` whose outcome is `attempt`; returns the
        exception it raised, if any. */
    method TrySet(key: string, v: Value, attempt: WriteAttempt) returns (raised: Option<Exception>)
      modifies this
      ensures staged == AfterAttempt(old(staged), key, v, attempt)
      ensures raised == (if attempt.Raised? then Some(attempt.error) else None)
      ensures committed == old(committed) && commits == old(commits)
    {
      staged := AfterAttempt(staged, key, v, attempt);
      raised := if attempt.Raised? then Some(attempt.error) else None;
    }

    /** `db.session.commit()`. */
    method Commit()
      modifies this
      ensures committed == staged == old(staged)
      ensures commits == old(commits) + 1
    {
      committed := staged;
      commits := commits + 1;
    }
  }
}
