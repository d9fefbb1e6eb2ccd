/**
 The four Lua scripts of the loading cache on the two keys that belong to one cache key: a
 lease and a value. Redis runs a script as one atomic step. The functions say what a script
 does to the two keys; the class performs it in place.
 */
module LeaseScripts {
  import opened Wrappers

  type Value = string

  const FAILED_PREFIX: string := "__FAILED__:"
  const IN_PROGRESS_PREFIX: string := "__IN_PROGRESS__:"

  datatype Keys = Keys(lease: Option<string>, value: Option<Value>)

  function Token(uuid: string): string {
    IN_PROGRESS_PREFIX + uuid
  }

  function FailureMark(data: string): string {
    FAILED_PREFIX + data
  }

  /** A token never reads as a failure marker, and no failure marker equals a token. */
  lemma TokensAreNotFailures(uuid: string, data: string)
    ensures !(FAILED_PREFIX <= Token(uuid)) && FailureMark(data) != Token(uuid) && FAILED_PREFIX <= FailureMark(data)
  {
    assert Token(uuid)[2] == 'I' && FailureMark(data)[2] == 'F' && FAILED_PREFIX[2] == 'F';
  }

  /** The lease can be taken: there is none, or the last load failed. */
  predicate Claimable(lease: Option<string>) {
    lease.None? || FAILED_PREFIX <= lease.value
  }

  function AcquireLease(k: Keys, token: string): (Keys, bool) {
    if Claimable(k.lease) then (k.(lease := Some(token)), true) else (k, false)
  }

  function PublishFailure(k: Keys, token: string, failure: string): Keys {
    if k.lease == Some(token) then k.(lease := Some(failure)) else k
  }

  function ReleaseLease(k: Keys, token: string): Keys {
    if k.lease == Some(token) then k.(lease := None) else k
  }

  function PublishValue(k: Keys, token: string, value: Value): Keys {
    if k.lease == Some(token) then Keys(None, if k.value.None? then Some(value) else k.value) else k
  }

  class RedisKeys {
    var lease: Option<string>
    var value: Option<Value>

    function Contents(): Keys
      reads this
    {
      Keys(lease, value)
    }

    constructor ()
      ensures Contents() == Keys(None, None)
    {
      lease, value := None, None;
    }

    method EvalAcquireLease(token: string) returns (acquired: bool)
      modifies this
      ensures (Contents(), acquired) == AcquireLease(old(Contents()), token)
    {
      var current := lease;
      if current.None? || (|FAILED_PREFIX| <= |current.value| && current.value[..|FAILED_PREFIX|] == FAILED_PREFIX) {
        lease := Some(token);
        return true;
      }
      return false;
    }

    method EvalPublishFailure(token: string, failure: string) returns (done: bool)
      modifies this
      ensures Contents() == PublishFailure(old(Contents()), token, failure) && (done <==> old(lease) == Some(token))
    {
      if lease != Some(token) {
        return false;
      }
      lease := Some(failure);
      return true;
    }

    method EvalReleaseLease(token: string) returns (done: bool)
      modifies this
      ensures Contents() == ReleaseLease(old(Contents()), token) && (done <==> old(lease) == Some(token))
    {
      if lease == Some(token) {
        lease := None;
        return true;
      }
      return false;
    }

    method EvalPublishValue(token: string, newValue: Value) returns (done: bool)
      modifies this
      ensures Contents() == PublishValue(old(Contents()), token, newValue) && (done <==> old(lease) == Some(token))
    {
      if lease != Some(token) {
        return false;
      }
      if value.None? {
        value := Some(newValue);
      }
      lease := None;
      return true;
    }
  }
}
