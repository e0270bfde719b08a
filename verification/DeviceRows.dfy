/** Device rows and reconnect credentials, with the triggers that drop a
    credential when its device's password, key or row changes.

    The digest is any function that tells tokens apart and the password format
    check any predicate; both come as parameters. Generated ids and tokens are
    inputs. */
module DeviceRows {
  import opened Ordering
  import opened RoomsSpec

  datatype PasswordRecord = PasswordRecord(salt: string, hash: string)

  datatype Device = Device(password: PasswordRecord, key: string)

  datatype Credential = Credential(digest: string, expires: nat)

  datatype Rows = Rows(devices: map<string, Device>, credentials: map<string, Credential>)

  /** The cryptographic library. */
  datatype Crypto = Crypto(digest: string -> string, current: PasswordRecord -> bool)

  const LIFETIME: nat := 30 * 24 * 60 * 60
  const MAX_RETRIES: nat := 10

  predicate HexDigits(s: string) {
    forall c :: c in s ==> '0' <= c <= '9' || 'a' <= c <= 'f'
  }

  predicate Hex64(s: string) {
    |s| == 64 && HexDigits(s)
  }

  predicate TemporaryKind(id: string) {
    id == "web" || id == "cli"
  }

  predicate Persistent(id: string) {
    && id != "" && !TemporaryKind(id) && |id| <= 128 && '\0' !in id && '@' !in id
    && !Temporary(id) && !Alias(id)
  }

  /** Ids whose password record can be read at all. */
  predicate Readable(id: string) {
    id != "" && |id| <= 128 && '\0' !in id
  }

  /** No two tokens have the same digest. */
  ghost predicate Sound(c: Crypto) {
    forall a, b :: Hex64(a) && Hex64(b) && c.digest(a) == c.digest(b) ==> a == b
  }

  /** There is such a digest, with digests that look like tokens again. */
  lemma SomeIsSound() returns (c: Crypto)
    ensures Sound(c) && forall a :: Hex64(a) ==> Hex64(c.digest(a))
  {
    c := Crypto(a => a, r => true);
  }

  // ------------------------------------------------------------- operations

  function NewId(kind: string, generated: string): string {
    if TemporaryKind(kind) then kind + "-" + generated else generated
  }

  /** The first of the generated ids, up to ten, that is still free. */
  function FirstFree(devices: map<string, Device>, kind: string, generated: seq<string>, attempts: nat): Option<string>
    decreases attempts
  {
    if attempts == 0 || generated == [] || generated[0] == "" then None
    else if NewId(kind, generated[0]) !in devices then Some(NewId(kind, generated[0]))
    else FirstFree(devices, kind, generated[1..], attempts - 1)
  }

  predicate MayRegister(c: Crypto, kind: string, password: string, record: PasswordRecord, key: string) {
    && (kind == "" || TemporaryKind(kind)) && password != "" && c.current(record)
    && (key == "" || (kind == "" && Hex64(key)))
  }

  ghost function Register(c: Crypto, r: Rows, kind: string, generated: seq<string>, password: string, record: PasswordRecord, key: string): (Rows, Option<string>) {
    if !MayRegister(c, kind, password, record, key) then (r, None)
    else
      var id := FirstFree(r.devices, kind, generated, MAX_RETRIES);
      if id.None? then (r, None) else (r.(devices := r.devices[id.value := Device(record, key)]), id)
  }

  ghost function BindKey(r: Rows, id: string, verified: PasswordRecord, key: string): (Rows, bool) {
    if !Hex64(key) || id !in r.devices || r.devices[id] != Device(verified, "") then (r, false)
    else (Rows(r.devices[id := Device(verified, key)], r.credentials - {id}), true)
  }

  ghost function CommitPassword(c: Crypto, r: Rows, id: string, expected: PasswordRecord, replacement: PasswordRecord): (Rows, bool) {
    if !c.current(replacement) || !Readable(id) || id !in r.devices || r.devices[id].password != expected then (r, false)
    else if expected == replacement then (r, true)
    else (Rows(r.devices[id := r.devices[id].(password := replacement)], r.credentials - {id}), true)
  }

  /** The row is deleted: by removal, retention or cleanup of temporaries. */
  ghost function Remove(r: Rows, id: string): Rows {
    if id in r.devices then Rows(r.devices - {id}, r.credentials - {id}) else r
  }

  ghost function Issue(c: Crypto, r: Rows, id: string, token: string, now: nat): (Rows, bool) {
    if !Persistent(id) || id !in r.devices || r.devices[id].key != "" then (r, false)
    else (r.(credentials := r.credentials[id := Credential(c.digest(token), now + LIFETIME)]), true)
  }

  ghost function Verify(c: Crypto, r: Rows, id: string, token: string, now: nat): Option<nat> {
    if !Persistent(id) || !Hex64(token) then None
    else if id !in r.credentials || id !in r.devices || r.devices[id].key != "" then None
    else if r.credentials[id].digest != c.digest(token) || r.credentials[id].expires <= now then None
    else Some(r.credentials[id].expires)
  }

  ghost function Withdraw(r: Rows, id: string): (Rows, bool) {
    if !Persistent(id) then (r, false) else (r.(credentials := r.credentials - {id}), true)
  }

  /** Startup drops expired credentials and those without a device. */
  ghost function Sweep(r: Rows, now: nat): Rows {
    r.(credentials := map id | id in r.credentials && now < r.credentials[id].expires && id in r.devices :: r.credentials[id])
  }

  // --------------------------------------------------------------- the tables

  class DeviceStore {
    const crypto: Crypto
    var devices: map<string, Device>
    var credentials: map<string, Credential>

    ghost function State(): Rows
      reads this
    {
      Rows(devices, credentials)
    }

    constructor (crypto: Crypto)
      ensures this.crypto == crypto && State() == Rows(map[], map[])
    {
      this.crypto := crypto;
      devices, credentials := map[], map[];
    }

    /** Tries generated ids until one is free; ten attempts at most. */
    method RegisterDevice(kind: string, generated: seq<string>, password: string, record: PasswordRecord, key: string)
      returns (id: Option<string>)
      modifies this`devices
      ensures (State(), id) == Register(crypto, old(State()), kind, generated, password, record, key)
    {
      if !MayRegister(crypto, kind, password, record, key) {
        return None;
      }
      var i := 0;
      while i < MAX_RETRIES && i < |generated| && generated[i] != ""
        invariant i <= MAX_RETRIES && i <= |generated| && State() == old(State())
        invariant FirstFree(devices, kind, generated[i..], MAX_RETRIES - i) == FirstFree(devices, kind, generated, MAX_RETRIES)
      {
        assert generated[i..][0] == generated[i] && generated[i..][1..] == generated[i + 1..];
        var candidate := NewId(kind, generated[i]);
        if candidate !in devices {
          devices := devices[candidate := Device(record, key)];
          return Some(candidate);
        }
        i := i + 1;
      }
      id := None;
    }

    method BindLoginPublicKey(id: string, verified: PasswordRecord, key: string) returns (bound: bool)
      modifies this
      ensures (State(), bound) == BindKey(old(State()), id, verified, key)
    {
      if !Hex64(key) || id !in devices || devices[id].key != "" || devices[id].password != verified {
        return false;
      }
      devices := devices[id := devices[id].(key := key)];
      credentials := credentials - {id};  // by trigger
      bound := true;
    }

    method Commit(id: string, expected: PasswordRecord, replacement: PasswordRecord) returns (ok: bool)
      modifies this
      ensures (State(), ok) == CommitPassword(crypto, old(State()), id, expected, replacement)
    {
      if !crypto.current(replacement) || !Readable(id) || id !in devices || devices[id].password != expected {
        return false;
      }
      if expected != replacement {
        devices := devices[id := devices[id].(password := replacement)];
        credentials := credentials - {id};  // by trigger
      }
      ok := true;
    }

    method RemoveDevice(id: string)
      modifies this
      ensures State() == Remove(old(State()), id)
    {
      if id in devices {
        devices := devices - {id};
        credentials := credentials - {id};  // by trigger
      }
    }

    method IssueReconnectCredential(id: string, token: string, now: nat) returns (ok: bool)
      modifies this`credentials
      ensures (State(), ok) == Issue(crypto, old(State()), id, token, now)
    {
      if !Persistent(id) || id !in devices || devices[id].key != "" {
        return false;
      }
      credentials := credentials[id := Credential(crypto.digest(token), now + LIFETIME)];
      ok := true;
    }

    /** Compares with an impossible row when there is none. */
    method VerifyReconnectCredential(id: string, token: string, now: nat) returns (expires: Option<nat>)
      ensures expires == Verify(crypto, State(), id, token, now)
    {
      if !Persistent(id) || |token| != 64 || !HexDigits(token) {
        return None;
      }
      var expected, until := seq(64, _ => '0'), 0;
      if id in credentials && id in devices && devices[id].key == "" {
        expected, until := credentials[id].digest, credentials[id].expires;
      }
      if expected != crypto.digest(token) || until <= now {
        return None;
      }
      expires := Some(until);
    }

    method RevokeReconnectCredential(id: string) returns (ok: bool)
      modifies this`credentials
      ensures (State(), ok) == Withdraw(old(State()), id)
    {
      if !Persistent(id) {
        return false;
      }
      credentials := credentials - {id};
      ok := true;
    }
  }
}
