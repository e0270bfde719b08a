/** Device credentials over whole runs: which tokens verify, and that a bound
    login key stays. */
module DeviceHistory {
  import opened Ordering
  import opened DeviceRows

  datatype Op =
    | Registering(kind: string, generated: seq<string>, password: string, record: PasswordRecord, key: string)
    | Binding(id: string, verified: PasswordRecord, key: string)
    | Committing(id: string, expected: PasswordRecord, replacement: PasswordRecord)
    | Removing(id: string)
    | Issuing(id: string, token: string)
    | Revoking(id: string)
    | Sweeping

  /** An operation, its time, and whether it reported success. */
  datatype Entry = Entry(op: Op, now: nat, ok: bool)

  /** Generated tokens are 64 hexadecimal digits; other input is not an issue. */
  ghost function Do(c: Crypto, r: Rows, op: Op, now: nat): (Rows, bool) {
    match op
    case Registering(kind, generated, password, record, key) =>
      var (s, id) := Register(c, r, kind, generated, password, record, key);
      (s, id.Some?)
    case Binding(id, verified, key) => BindKey(r, id, verified, key)
    case Committing(id, expected, replacement) => CommitPassword(c, r, id, expected, replacement)
    case Removing(id) => (Remove(r, id), true)
    case Issuing(id, token) => if Hex64(token) then Issue(c, r, id, token, now) else (r, false)
    case Revoking(id) => Withdraw(r, id)
    case Sweeping => (Sweep(r, now), true)
  }

  ghost function After(c: Crypto, ops: seq<(Op, nat)>): (Rows, seq<Entry>)
    decreases |ops|
  {
    if ops == [] then (Rows(map[], map[]), [])
    else
      var (r, log) := After(c, ops[..|ops| - 1]);
      var (op, now) := ops[|ops| - 1];
      var (s, ok) := Do(c, r, op, now);
      (s, log + [Entry(op, now, ok)])
  }

  // --------------------------------------------------------------- the reference

  const THIRTY_DAYS: nat := 30 * 24 * 60 * 60

  /** The entry ends a credential of `id` that would last until `expires`. */
  ghost predicate Ends(e: Entry, id: string, expires: nat) {
    e.ok && match e.op
            case Issuing(x, _) => x == id
            case Binding(x, _, _) => x == id
            case Committing(x, expected, replacement) => x == id && expected != replacement
            case Removing(x) => x == id
            case Revoking(x) => x == id
            case Sweeping => expires <= e.now
            case Registering(_, _, _, _, _) => false
  }

  /** Entry `i` issued the token of `id`, and nothing has ended it since. */
  ghost predicate StandsAt(log: seq<Entry>, i: nat, id: string) {
    && i < |log| && log[i].op.Issuing? && log[i].op.id == id && log[i].ok
    && (forall j :: i < j < |log| ==> !Ends(log[j], id, log[i].now + THIRTY_DAYS))
  }

  lemma StandsUnique(log: seq<Entry>, i: nat, j: nat, id: string)
    requires StandsAt(log, i, id) && StandsAt(log, j, id)
    ensures i == j
  {
    if i < j {
      assert Ends(log[j], id, log[i].now + THIRTY_DAYS);
    } else if j < i {
      assert Ends(log[i], id, log[j].now + THIRTY_DAYS);
    }
  }

  lemma StandsSnoc(log: seq<Entry>, e: Entry, i: nat, id: string)
    ensures i < |log| ==> (StandsAt(log + [e], i, id) <==> StandsAt(log, i, id) && !Ends(e, id, log[i].now + THIRTY_DAYS))
    ensures StandsAt(log + [e], |log|, id) <==> e.op.Issuing? && e.op.id == id && e.ok
  {
    var longer := log + [e];
    if i < |log| {
      assert longer[i] == log[i] && longer[|log|] == e;
      if StandsAt(longer, i, id) {
        forall j | i < j < |log|
          ensures !Ends(log[j], id, log[i].now + THIRTY_DAYS)
        {
          assert longer[j] == log[j];
        }
      }
    }
  }

  // ------------------------------------------------------------------ invariant

  /** The row of `id` is the token that stands. */
  ghost predicate RowStands(c: Crypto, r: Rows, log: seq<Entry>, id: string) {
    && (id in r.credentials ==> Persistent(id) && id in r.devices && r.devices[id].key == "")
    && (id in r.credentials ==> exists i: nat :: Holds(c, r, log, i, id))
    && (id !in r.credentials ==> forall i: nat :: !StandsAt(log, i, id))
  }

  ghost predicate Holds(c: Crypto, r: Rows, log: seq<Entry>, i: nat, id: string) {
    StandsAt(log, i, id) && id in r.credentials && Hex64(log[i].op.token)
    && r.credentials[id] == Credential(c.digest(log[i].op.token), log[i].now + THIRTY_DAYS)
  }

  /** What one operation does to the credential of `id`. */
  ghost predicate CredentialStep(c: Crypto, r: Rows, s: Rows, e: Entry, id: string) {
    if e.op.Issuing? && e.op.id == id && e.ok then
      && Hex64(e.op.token) && Persistent(id) && id in s.credentials
      && s.credentials[id] == Credential(c.digest(e.op.token), e.now + THIRTY_DAYS)
    else if id in r.credentials && !Ends(e, id, r.credentials[id].expires) then
      id in s.credentials && s.credentials[id] == r.credentials[id]
    else id !in s.credentials
  }

  lemma DoCredential(c: Crypto, r: Rows, op: Op, now: nat, id: string)
    requires id in r.credentials ==> id in r.devices && r.devices[id].key == "" && Persistent(id)
    ensures var (s, ok) := Do(c, r, op, now);
            && CredentialStep(c, r, s, Entry(op, now, ok), id)
            && (id in s.credentials ==> id in s.devices && s.devices[id].key == "")
  {
    hide Hex64;
    hide Persistent;
    match op
    case Registering(kind, generated, password, record, key) => FreeIsFree(r.devices, kind, generated, MAX_RETRIES);
    case _ =>
  }

  lemma {:induction false} FreeIsFree(devices: map<string, Device>, kind: string, generated: seq<string>, attempts: nat)
    ensures var id := FirstFree(devices, kind, generated, attempts);
            id.Some? ==> id.value !in devices
    decreases attempts
  {
    if attempts > 0 && generated != [] {
      FreeIsFree(devices, kind, generated[1..], attempts - 1);
    }
  }

  lemma StepStands(c: Crypto, r: Rows, log: seq<Entry>, op: Op, now: nat, id: string)
    requires RowStands(c, r, log, id)
    ensures var (s, ok) := Do(c, r, op, now);
            RowStands(c, s, log + [Entry(op, now, ok)], id)
  {
    var (s, ok) := Do(c, r, op, now);
    var e := Entry(op, now, ok);
    DoCredential(c, r, op, now, id);
    hide Do;
    hide Hex64;
    hide Persistent;
    forall i: nat
      ensures i < |log| ==> (StandsAt(log + [e], i, id) <==> StandsAt(log, i, id) && !Ends(e, id, log[i].now + THIRTY_DAYS))
      ensures StandsAt(log + [e], |log|, id) <==> e.op.Issuing? && e.op.id == id && e.ok
    {
      StandsSnoc(log, e, i, id);
    }
    if e.op.Issuing? && e.op.id == id && e.ok {
      assert Holds(c, s, log + [e], |log|, id);
    } else if id in r.credentials {
      var i: nat :| Holds(c, r, log, i, id);
      if id in s.credentials {
        assert Holds(c, s, log + [e], i, id);
      } else {
        forall k: nat | StandsAt(log + [e], k, id)
          ensures false
        {
          assert k < |log|;
          StandsUnique(log, i, k, id);
        }
      }
    } else {
      forall k: nat
        ensures !StandsAt(log + [e], k, id)
      {
      }
    }
  }

  lemma {:induction false} RunStands(c: Crypto, ops: seq<(Op, nat)>, id: string)
    ensures var (r, log) := After(c, ops);
            RowStands(c, r, log, id)
    decreases |ops|
  {
    hide RowStands;
    hide Do;
    if ops == [] {
      assert RowStands(c, Rows(map[], map[]), [], id) by {
        NothingStands(c, id);
      }
    } else {
      var (r, log) := After(c, ops[..|ops| - 1]);
      RunStands(c, ops[..|ops| - 1], id);
      StepStands(c, r, log, ops[|ops| - 1].0, ops[|ops| - 1].1, id);
    }
  }

  lemma NothingStands(c: Crypto, id: string)
    ensures RowStands(c, Rows(map[], map[]), [], id)
  {
  }

  // --------------------------------------------------------------- main results

  /** A reconnect token verifies, until `until`, exactly when it is the one an
      issue to this device returned, unexpired, with no later issue, password
      change, key binding, removal or revocation. */
  lemma TokenVerifiesIff(c: Crypto, ops: seq<(Op, nat)>, id: string, token: string, now: nat, until: nat)
    requires Sound(c)
    ensures var (r, log) := After(c, ops);
            Verify(c, r, id, token, now) == Some(until) <==>
              Hex64(token) && now < until
              && exists i: nat :: StandsAt(log, i, id) && log[i].op.token == token && until == log[i].now + THIRTY_DAYS
  {
    var (r, log) := After(c, ops);
    RunStands(c, ops, id);
    hide After;
    hide Hex64;
    hide Persistent;
    if id in r.credentials {
      var i: nat :| Holds(c, r, log, i, id);
      forall k: nat | StandsAt(log, k, id)
        ensures k == i
      {
        StandsUnique(log, i, k, id);
      }
      hide Ends;
    }
  }

  /** A login key, once bound, is never replaced while the device exists. */
  lemma {:induction false} KeyStays(c: Crypto, ops: seq<(Op, nat)>, n: nat, id: string)
    requires n <= |ops|
    requires var r := After(c, ops[..n]).0;
             id in r.devices && r.devices[id].key != ""
    requires forall j :: n <= j < |ops| ==> ops[j].0 != Removing(id)
    ensures var r, s := After(c, ops[..n]).0, After(c, ops).0;
            id in s.devices && s.devices[id].key == r.devices[id].key
    decreases |ops|
  {
    if n == |ops| {
      assert ops[..n] == ops;
    } else {
      var before := ops[..|ops| - 1];
      assert before[..n] == ops[..n];
      assert forall j :: n <= j < |before| ==> before[j] == ops[j];
      KeyStays(c, before, n, id);
      KeyStep(c, After(c, before).0, ops[|ops| - 1].0, ops[|ops| - 1].1, id);
    }
  }

  lemma KeyStep(c: Crypto, r: Rows, op: Op, now: nat, id: string)
    requires id in r.devices && r.devices[id].key != "" && op != Removing(id)
    ensures var s := Do(c, r, op, now).0;
            id in s.devices && s.devices[id].key == r.devices[id].key
  {
    match op
    case Registering(kind, generated, password, record, key) => FreeIsFree(r.devices, kind, generated, MAX_RETRIES);
    case _ =>
  }
}
