/** The rows of the device table over whole runs, told from what the operations
    were asked and answered: which password and key a device has, and who may
    change them. */
module DevicePasswords {
  import opened Ordering
  import opened DeviceRows
  import opened DeviceHistory

  // ------------------------------------------------------------- registration

  /** The id tried for a generated one. */
  ghost function Proposed(kind: string, generated: string): string {
    if kind == "web" then "web-" + generated else if kind == "cli" then "cli-" + generated else generated
  }

  /** Generated id `i` is the one that is taken: it is among the first ten, all
      before it are taken, and none so far is empty. */
  ghost predicate Chosen(devices: map<string, Device>, kind: string, generated: seq<string>, i: nat) {
    && i < |generated| && i < 10
    && (forall j :: 0 <= j <= i ==> generated[j] != "")
    && (forall j :: 0 <= j < i ==> Proposed(kind, generated[j]) in devices)
    && Proposed(kind, generated[i]) !in devices
  }

  lemma {:induction false} FirstFreeFrom(devices: map<string, Device>, kind: string, generated: seq<string>, attempts: nat)
    ensures var id := FirstFree(devices, kind, generated, attempts);
            && (id.Some? ==> exists i :: 0 <= i < |generated| && i < attempts && NewId(kind, generated[i]) == id.value
                               && id.value !in devices
                               && (forall j :: 0 <= j <= i ==> generated[j] != "")
                               && (forall j :: 0 <= j < i ==> NewId(kind, generated[j]) in devices))
            && (id.None? ==> forall i :: 0 <= i < |generated| && i < attempts && NewId(kind, generated[i]) !in devices ==>
                               exists j :: 0 <= j <= i && generated[j] == "")
    decreases attempts
  {
    hide NewId;
    if attempts > 0 && generated != [] && generated[0] != "" && NewId(kind, generated[0]) in devices {
      var rest := generated[1..];
      FirstFreeFrom(devices, kind, rest, attempts - 1);
      var id := FirstFree(devices, kind, rest, attempts - 1);
      if id.Some? {
        var i :| 0 <= i < |rest| && i < attempts - 1 && NewId(kind, rest[i]) == id.value && id.value !in devices
              && (forall j :: 0 <= j <= i ==> rest[j] != "") && (forall j :: 0 <= j < i ==> NewId(kind, rest[j]) in devices);
        assert generated[i + 1] == rest[i];
        assert forall j :: 1 <= j <= i + 1 ==> generated[j] == rest[j - 1];
      } else {
        forall i | 0 <= i < |generated| && i < attempts && NewId(kind, generated[i]) !in devices
          ensures exists j :: 0 <= j <= i && generated[j] == ""
        {
          assert i > 0 && generated[i] == rest[i - 1];
          var j :| 0 <= j <= i - 1 && rest[j] == "";
          assert generated[j + 1] == "";
        }
      }
    } else if attempts > 0 && generated != [] && generated[0] != "" {
      assert NewId(kind, generated[0]) == FirstFree(devices, kind, generated, attempts).value;
    }
  }

  lemma ChosenOnce(devices: map<string, Device>, kind: string, generated: seq<string>, i: nat, k: nat)
    requires Chosen(devices, kind, generated, i) && Chosen(devices, kind, generated, k)
    ensures i == k
  {
    hide Proposed;
  }

  /** Registration takes the first of at most ten generated ids that is free, and
      fails when there is none. */
  lemma FirstFreeIff(devices: map<string, Device>, kind: string, generated: seq<string>, id: string)
    ensures FirstFree(devices, kind, generated, MAX_RETRIES) == Some(id) <==>
              exists k: nat :: Chosen(devices, kind, generated, k) && Proposed(kind, generated[k]) == id
  {
    FirstFreeFrom(devices, kind, generated, MAX_RETRIES);
    assert forall g :: NewId(kind, g) == Proposed(kind, g);
    var r := FirstFree(devices, kind, generated, MAX_RETRIES);
    hide FirstFree;
    hide NewId;
    hide Proposed;
    if r.Some? {
      var k: nat :| k < |generated| && k < MAX_RETRIES && NewId(kind, generated[k]) == r.value && r.value !in devices
            && (forall j :: 0 <= j <= k ==> generated[j] != "") && (forall j :: 0 <= j < k ==> NewId(kind, generated[j]) in devices);
      assert Chosen(devices, kind, generated, k);
      forall i: nat | Chosen(devices, kind, generated, i)
        ensures i == k
      {
        ChosenOnce(devices, kind, generated, i, k);
      }
    }
  }

  // -------------------------------------------------------------------- the rows

  ghost predicate HexKey(key: string) {
    |key| == 64 && forall i :: 0 <= i < 64 ==> '0' <= key[i] <= '9' || 'a' <= key[i] <= 'f'
  }

  /** A registration that is in order; only an ordinary device may bring a key. */
  ghost predicate Proper(c: Crypto, op: Op) {
    && op.Registering? && op.password != "" && c.current(op.record)
    && match op.kind
       case "" => op.key == "" || HexKey(op.key)
       case _ => (op.kind == "web" || op.kind == "cli") && op.key == ""
  }

  /** A registration after `ops` that takes `id`: the first free of the generated. */
  ghost predicate Created(c: Crypto, ops: seq<(Op, nat)>, op: Op, id: string)
    decreases |ops|, 1
  {
    && Proper(c, op)
    && exists k: nat :: k < |op.generated| && k < 10 && Proposed(op.kind, op.generated[k]) == id
         && (forall j :: 0 <= j <= k ==> op.generated[j] != "")
         && (forall j :: 0 <= j < k ==> RowAfter(c, ops, Proposed(op.kind, op.generated[j])).Some?)
         && RowAfter(c, ops, id) == None
  }

  /** The row of `id` after the operations: what its registration gave it, with
      each change that named what the row then had. */
  ghost function RowAfter(c: Crypto, ops: seq<(Op, nat)>, id: string): Option<Device>
    decreases |ops|, 0
  {
    if ops == [] then None
    else
      var before, op := ops[..|ops| - 1], ops[|ops| - 1].0;
      var row := RowAfter(c, before, id);
      if op.Registering? && Created(c, before, op, id) then Some(Device(op.record, op.key))
      else if op.Removing? && op.id == id then None
      else if Commits(c, row, op, id) then Some(Device(op.replacement, row.value.key))
      else if Binds(row, op, id) then Some(Device(row.value.password, op.key))
      else row
  }

  /** A password change that names the password the device has. */
  ghost predicate Commits(c: Crypto, row: Option<Device>, op: Op, id: string) {
    && op.Committing? && op.id == id && row.Some? && row.value.password == op.expected
    && c.current(op.replacement) && Readable(id)
  }

  /** A key for a device without one, for the password it has. */
  ghost predicate Binds(row: Option<Device>, op: Op, id: string) {
    op.Binding? && op.id == id && row.Some? && row.value.password == op.verified && row.value.key == "" && Hex64(op.key)
  }

  ghost function RowOf(r: Rows, id: string): Option<Device> {
    if id in r.devices then Some(r.devices[id]) else None
  }

  lemma HexKeyIs(key: string)
    ensures HexKey(key) <==> Hex64(key)
  {
    if HexKey(key) {
      forall ch | ch in key
        ensures '0' <= ch <= '9' || 'a' <= ch <= 'f'
      {
        var i :| 0 <= i < |key| && key[i] == ch;
      }
    } else if |key| == 64 {
      var i :| 0 <= i < 64 && !('0' <= key[i] <= '9' || 'a' <= key[i] <= 'f');
      assert key[i] in key;
    }
  }

  lemma ProperIs(c: Crypto, op: Op)
    ensures Proper(c, op) <==> op.Registering? && MayRegister(c, op.kind, op.password, op.record, op.key)
  {
    if op.Registering? {
      HexKeyIs(op.key);
    }
  }

  /** Over every run a registration takes exactly the id that this history says. */
  lemma RegisterWhen(c: Crypto, ops: seq<(Op, nat)>, op: Op, id: string)
    requires op.Registering?
    requires forall x :: RowOf(After(c, ops).0, x) == RowAfter(c, ops, x)
    ensures Register(c, After(c, ops).0, op.kind, op.generated, op.password, op.record, op.key).1 == Some(id) <==> Created(c, ops, op, id)
  {
    var devices := After(c, ops).0.devices;
    ProperIs(c, op);
    FirstFreeIff(devices, op.kind, op.generated, id);
    assert forall x :: x in devices <==> RowAfter(c, ops, x).Some? by {
      forall x
        ensures x in devices <==> RowAfter(c, ops, x).Some?
      {
        assert RowOf(After(c, ops).0, x) == RowAfter(c, ops, x);
      }
    }
    hide RowAfter;
    hide After;
    hide FirstFree;
    hide Proper;
    hide MayRegister;
    hide Proposed;
  }

  /** Over every run each device has the password and the key that this history
      says, and is there exactly when it says so. */
  lemma {:induction false} RunRows(c: Crypto, ops: seq<(Op, nat)>, id: string)
    ensures RowOf(After(c, ops).0, id) == RowAfter(c, ops, id)
    decreases |ops|
  {
    hide Do;
    hide Register;
    hide Created;
    if ops != [] {
      var before, last := ops[..|ops| - 1], ops[|ops| - 1];
      forall x
        ensures RowOf(After(c, before).0, x) == RowAfter(c, before, x)
      {
        RunRows(c, before, x);
      }
      if last.0.Registering? {
        RegisterWhen(c, before, last.0, id);
      }
      DoRow(c, After(c, before).0, last.0, last.1, id, last.0.Registering? && Created(c, before, last.0, id));
    }
  }

  lemma DoRow(c: Crypto, r: Rows, op: Op, now: nat, id: string, created: bool)
    requires if op.Registering? then
               created == (Register(c, r, op.kind, op.generated, op.password, op.record, op.key).1 == Some(id))
             else !created
    ensures var row := RowOf(r, id);
            RowOf(Do(c, r, op, now).0, id) ==
            if created then Some(Device(op.record, op.key))
            else if op.Removing? && op.id == id then None
            else if Commits(c, row, op, id) then Some(Device(op.replacement, row.value.key))
            else if Binds(row, op, id) then Some(Device(row.value.password, op.key))
            else row
  {
    hide Hex64;
    hide Readable;
    hide Persistent;
    hide FirstFree;
    hide MayRegister;
  }

  /** Registration after any run: which id it answers with, if any. */
  lemma RunRegisters(c: Crypto, ops: seq<(Op, nat)>, op: Op, id: string)
    requires op.Registering?
    ensures Register(c, After(c, ops).0, op.kind, op.generated, op.password, op.record, op.key).1 == Some(id) <==> Created(c, ops, op, id)
  {
    forall x
      ensures RowOf(After(c, ops).0, x) == RowAfter(c, ops, x)
    {
      RunRows(c, ops, x);
    }
    RegisterWhen(c, ops, op, id);
  }

  /** An id that is neither a temporary controller's nor an alias. */
  ghost predicate Lasting(id: string) {
    && 1 <= |id| <= 128 && (forall i :: 0 <= i < |id| ==> id[i] != '\0' && id[i] != '@')
    && id != "web" && id != "cli"
    && !(|id| >= 4 && (id[..4] == "web-" || id[..4] == "cli-"))
    && !(id[0] == 'C' && |id| >= 2 && id[1] == '-')
  }

  /** A reconnect credential is issued exactly to a device that is there, lasting,
      and has no key. */
  lemma RunIssues(c: Crypto, ops: seq<(Op, nat)>, op: Op, now: nat)
    requires op.Issuing? && Hex64(op.token)
    ensures Do(c, After(c, ops).0, op, now).1 <==>
              Lasting(op.id) && RowAfter(c, ops, op.id).Some? && RowAfter(c, ops, op.id).value.key == ""
  {
    RunRows(c, ops, op.id);
    LastingIs(op.id);
    hide After;
    hide RowAfter;
    hide Hex64;
    hide Persistent;
    hide Lasting;
  }

  lemma LastingIs(id: string)
    ensures Lasting(id) <==> Persistent(id)
  {
    assert |id| >= 2 ==> id[..2] == [id[0], id[1]];
  }

  /** A password change is answered with success exactly when it names the current
      password of an existing device and a well-formed replacement; a stale one is
      refused. A key is bound exactly when the device has none and the password
      verified is still its own. */
  lemma RunCompareAndSet(c: Crypto, ops: seq<(Op, nat)>, op: Op, now: nat)
    ensures op.Committing? ==> (Do(c, After(c, ops).0, op, now).1 <==> Commits(c, RowAfter(c, ops, op.id), op, op.id))
    ensures op.Binding? ==> (Do(c, After(c, ops).0, op, now).1 <==> Binds(RowAfter(c, ops, op.id), op, op.id))
  {
    if op.Committing? || op.Binding? {
      RunRows(c, ops, op.id);
    }
    hide After;
    hide RowAfter;
    hide Hex64;
    hide Readable;
    hide Register;
    hide Issue;
  }
}
