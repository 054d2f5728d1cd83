/** The password gate of src/components/LoginGate.jsx: a session record kept in local storage
    under one key, accepted for thirty days, removed once expired, and written by a login. */
module LoginGate {
  import opened Common

  const STORAGE_KEY := "whitepie_upload_access"
  const ONE_MONTH_MS: int := 1000 * 60 * 60 * 24 * 30

  const INCORRECT := "Incorrect password."

  /** What parsing the stored text under a key yields: a record with a string password and a
      numeric timestamp (None: the timestamp is missing, so `now - timestamp` is NaN), or a
      parsed value the check passes over (null, a non-object, a password that is not a string). */
  datatype StoredValue = SessionRecord(password: string, timestamp: Option<int>) | Unusable

  /** The stored record, if the key holds one. */
  function Saved(storage: map<string, StoredValue>): Option<StoredValue>
  {
    if STORAGE_KEY in storage then Some(storage[STORAGE_KEY]) else None
  }

  /** The stored value carries the configured password. */
  predicate Matches(storage: map<string, StoredValue>, configured: string)
  {
    match Saved(storage)
    case Some(SessionRecord(password, _)) => password == configured
    case _ => false
  }

  /** The stored session lets the operator in at time `now`: the password matches and the
      record is strictly less than a month old. */
  predicate Grants(storage: map<string, StoredValue>, configured: string, now: int)
  {
    Matches(storage, configured)
    && storage[STORAGE_KEY].timestamp.Some?
    && now - storage[STORAGE_KEY].timestamp.value < ONE_MONTH_MS
  }

  /** A record with the configured password that no longer grants entry. */
  predicate Expired(storage: map<string, StoredValue>, configured: string, now: int)
  {
    Matches(storage, configured) && !Grants(storage, configured, now)
  }

  class Gate {
    /** `import.meta.env.VITE_UPLOAD_PASSWORD`. */
    const configured: string
    var entered: bool
    var password: string
    var error: string
    var storage: map<string, StoredValue>

    /** The gate as first rendered, over the browser's storage. */
    constructor (configured: string, storage: map<string, StoredValue>)
      ensures this.configured == configured && this.storage == storage
      ensures !entered && password == "" && error == ""
    {
      this.configured := configured;
      this.storage := storage;
      entered := false;
      password := "";
      error := "";
    }

    /** The mount-time effect, at time `now` (`Date.now()`). */
    method CheckStoredSession(now: int)
      modifies this
      ensures entered == (old(entered) || Grants(old(storage), configured, now))
      ensures storage == if Expired(old(storage), configured, now) then old(storage) - {STORAGE_KEY} else old(storage)
      ensures password == old(password) && error == old(error)
    {
      var saved := Saved(storage);
      if saved.Some? && saved.value.SessionRecord? && saved.value.password == configured {
        if saved.value.timestamp.Some? && now - saved.value.timestamp.value < ONE_MONTH_MS {
          entered := true;
        } else {
          storage := storage - {STORAGE_KEY};
        }
      }
    }

    /** The password input's `onChange`. */
    method SetPassword(value: string)
      modifies this
      ensures password == value
      ensures entered == old(entered) && error == old(error) && storage == old(storage)
    {
      password := value;
    }

    /** `handleLogin` at time `now`: the right password writes a fresh record and enters;
        a wrong one sets the error and leaves entry and storage alone. */
    method HandleLogin(now: int)
      modifies this
      ensures password == configured ==>
                storage == old(storage)[STORAGE_KEY := SessionRecord(configured, Some(now))]
                && entered && error == old(error)
      ensures password != configured ==>
                storage == old(storage) && entered == old(entered) && error == INCORRECT
      ensures password == old(password)
    {
      if password == configured {
        storage := storage[STORAGE_KEY := SessionRecord(password, Some(now))];
        entered := true;
      } else {
        error := INCORRECT;
      }
    }
  }

  /** A record written by a login at `loginTime` lets a reload at `reloadTime` in exactly when
      less than a month has passed (a clock that went back counts as fresh). */
  lemma LoginRecordGrants(storage: map<string, StoredValue>, configured: string, loginTime: int, reloadTime: int)
    ensures Grants(storage[STORAGE_KEY := SessionRecord(configured, Some(loginTime))], configured, reloadTime)
            <==> reloadTime - loginTime < ONE_MONTH_MS
  {
  }

  /** Login, then reload less than a month later: the reloaded gate opens by itself. */
  method ReloadAfterLogin(configured: string, storage: map<string, StoredValue>, loginTime: int, reloadTime: int)
    returns (entered: bool)
    requires reloadTime - loginTime < 2592000000
    ensures entered
  {
    var gate := new Gate(configured, storage);
    gate.SetPassword(configured);
    gate.HandleLogin(loginTime);
    var reloaded := new Gate(configured, gate.storage);
    reloaded.CheckStoredSession(reloadTime);
    entered := reloaded.entered;
  }

  /** Login, then reload a month or more later: the reloaded gate stays shut and the record is
      removed, while every other key of the storage is kept. */
  method ReloadAfterMonth(configured: string, storage: map<string, StoredValue>, loginTime: int, reloadTime: int)
    returns (entered: bool, after: map<string, StoredValue>)
    requires reloadTime - loginTime >= ONE_MONTH_MS
    ensures !entered && STORAGE_KEY !in after
    ensures forall k :: k in storage && k != STORAGE_KEY ==> k in after && after[k] == storage[k]
  {
    var gate := new Gate(configured, storage);
    gate.SetPassword(configured);
    gate.HandleLogin(loginTime);
    var reloaded := new Gate(configured, gate.storage);
    reloaded.CheckStoredSession(reloadTime);
    entered, after := reloaded.entered, reloaded.storage;
  }

  /** A stored record with another password is neither accepted nor removed, and every other
      key of the storage is kept. */
  method ForeignRecordIgnored(configured: string, storage: map<string, StoredValue>, other: string,
                              timestamp: int, now: int)
    returns (entered: bool, after: map<string, StoredValue>)
    requires other != configured
    ensures !entered && after == storage[STORAGE_KEY := SessionRecord(other, Some(timestamp))]
  {
    var gate := new Gate(configured, storage[STORAGE_KEY := SessionRecord(other, Some(timestamp))]);
    gate.CheckStoredSession(now);
    entered, after := gate.entered, gate.storage;
  }
}
