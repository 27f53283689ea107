/** Where the database key comes from. */
module Keying {
  // A sidecar file, a device key file, and the key the database file is under. The files are written in two
  // steps (created empty, then filled), so a crash can fall between them. Keys are ideal: one derived from a
  // passphrase and a salt is no other derived key and no device key.

  import opened Basics

  const KEY_BYTES := 32
  const SALT_BYTES := 16

  datatype Key = DeviceKey(bytes: Bytes) | Derived(passphrase: string, salt: Bytes)

  datatype KeyingError = Malformed | PassphraseRequired

  datatype Result<+T> = Ok(value: T) | Err(error: KeyingError)

  datatype KeySource = DeviceFile | Passphrase(salt: Bytes)

  /** The disk: the two files beside the database, and the key the database is encrypted under. */
  datatype Disk = Disk(sidecar: Option<Bytes>, keyFile: Option<Bytes>, under: Key)

  datatype Path = Sidecar | KeyFile

  /** One step that reaches the disk. `Rekey` re-encrypts every page or fails and changes none. */
  datatype Effect =
    | Truncate(path: Path)
    | Write(path: Path, bytes: Bytes)
    | Remove(path: Path)
    | Rekey(key: Key, succeeds: bool)

  function Apply(d: Disk, e: Effect): Disk {
    match e
    case Truncate(Sidecar) => d.(sidecar := Some([]))
    case Truncate(KeyFile) => d.(keyFile := Some([]))
    case Write(Sidecar, b) => d.(sidecar := Some(b))
    case Write(KeyFile, b) => d.(keyFile := Some(b))
    case Remove(Sidecar) => d.(sidecar := None)
    case Remove(KeyFile) => d.(keyFile := None)
    case Rekey(key, succeeds) => if succeeds then d.(under := key) else d
  }

  function Run(d: Disk, p: seq<Effect>): Disk
    decreases |p|
  {
    if p == [] then d else Run(Apply(d, p[0]), p[1..])
  }

  lemma {:induction false} RunSnoc(d: Disk, p: seq<Effect>, e: Effect)
    ensures Run(d, p + [e]) == Apply(Run(d, p), e)
    decreases |p|
  {
    if p == [] {
      assert p + [e] == [e] && [e][1..] == [];
    } else {
      assert (p + [e])[0] == p[0] && (p + [e])[1..] == p[1..] + [e];
      RunSnoc(Apply(d, p[0]), p[1..], e);
    }
  }

  // ---- The sidecar -------------------------------------------------------

  /** A missing sidecar means the device file. */
  function SourceOf(sidecar: Option<Bytes>): Result<KeySource> {
    match sidecar
    case None => Ok(DeviceFile)
    case Some(raw) =>
      if raw == [] then Err(Malformed)
      else if raw[0] == 1 && raw[1..] == [] then Ok(DeviceFile)
      else if raw[0] == 2 && |raw[1..]| == SALT_BYTES then Ok(Passphrase(raw[1..]))
      else Err(Malformed)
  }

  function Encoded(source: KeySource): Bytes {
    match source
    case DeviceFile => [1]
    case Passphrase(salt) => [2] + salt
  }

  /** A recorded source reads back, and only a recorded source reads at all. */
  lemma {:induction false} SourceRoundTrip(source: KeySource, raw: Bytes)
    ensures (source.Passphrase? ==> |source.salt| == SALT_BYTES) <==> SourceOf(Some(Encoded(source))) == Ok(source)
    ensures SourceOf(Some(raw)).Ok? <==> exists s :: SourceOf(Some(raw)) == Ok(s) && Encoded(s) == raw
  {
    if SourceOf(Some(raw)).Ok? {
      var s := SourceOf(Some(raw)).value;
      assert raw == [raw[0]] + raw[1..];
      assert Encoded(s) == raw;
    }
    if source.Passphrase? {
      assert ([2] + source.salt)[1..] == source.salt;
    }
  }

  // ---- Unlocking ---------------------------------------------------------

  /** What `unlock` answers; `random` is the key it would make if the device had none. */
  function Unlocked(d: Disk, passphrase: Option<string>, random: Bytes): Result<Key> {
    match SourceOf(d.sidecar)
    case Err(e) => Err(e)
    case Ok(DeviceFile) =>
      (match d.keyFile
       case None => Ok(DeviceKey(random))
       case Some(raw) => if |raw| == KEY_BYTES then Ok(DeviceKey(raw)) else Err(Malformed))
    case Ok(Passphrase(salt)) =>
      match passphrase case None => Err(PassphraseRequired) case Some(p) => Ok(Derived(p, salt))
  }

  /** The bytes a sidecar holds when it names a salt of sixteen bytes. */
  ghost predicate NamesASalt(raw: Bytes) {
    exists salt: Bytes :: |salt| == 16 && raw == [2] + salt
  }

  lemma {:induction false} SaltNamed(raw: Bytes)
    ensures NamesASalt(raw) <==> SourceOf(Some(raw)).Ok? && SourceOf(Some(raw)).value.Passphrase?
  {
    if raw != [] && raw[0] == 2 && |raw| == 17 {
      assert raw == [2] + raw[1..] && |raw[1..]| == 16;
    }
    if salt: Bytes :| |salt| == 16 && raw == [2] + salt {
      assert raw[1..] == salt;
    }
  }

  /**
   Why a database does not unlock: a sidecar names a passphrase's salt and no passphrase was given; or a file beside
   it is malformed, a sidecar that is neither that nor the one byte for the device file, or a key file of another
   length than 32 bytes where the key file is what counts. For no other reason.
  */
  lemma {:induction false} WhyUnlockFails(d: Disk, passphrase: Option<string>, random: Bytes)
    ensures Unlocked(d, passphrase, random) == Err(PassphraseRequired)
            <==> passphrase == None && d.sidecar.Some? && NamesASalt(d.sidecar.value)
    ensures Unlocked(d, passphrase, random) == Err(Malformed)
            <==> || (d.sidecar.Some? && d.sidecar.value != [1] && !NamesASalt(d.sidecar.value))
                 || ((d.sidecar == None || d.sidecar == Some([1])) && d.keyFile.Some? && |d.keyFile.value| != 32)
  {
    if d.sidecar.Some? {
      var raw := d.sidecar.value;
      SaltNamed(raw);
      if raw != [] {
        assert raw == [raw[0]] + raw[1..];
      }
    }
  }

  /** The steps of writing one file. */
  function WriteProgram(path: Path, bytes: Bytes): seq<Effect> {
    [Truncate(path), Write(path, bytes)]
  }

  function KeyFileProgram(d: Disk, random: Bytes): seq<Effect> {
    if d.keyFile.None? then WriteProgram(KeyFile, random) else []
  }

  /** `unlock` writes only when the device file is called for and missing. */
  function UnlockProgram(d: Disk, random: Bytes): seq<Effect> {
    if SourceOf(d.sidecar) == Ok(DeviceFile) then KeyFileProgram(d, random) else []
  }

  // ---- Setting and clearing ----------------------------------------------

  /** `set_passphrase`: sidecar first, then the re-encryption; rolled back if that fails. */
  function SetProgram(d: Disk, passphrase: string, salt: Bytes, rekeys: bool): seq<Effect> {
    match SourceOf(d.sidecar)
    case Err(_) => []
    case Ok(previous) =>
      WriteProgram(Sidecar, Encoded(Passphrase(salt))) + [Rekey(Derived(passphrase, salt), rekeys)] +
      if !rekeys then WriteProgram(Sidecar, Encoded(previous))
      else if d.keyFile.Some? then [Remove(KeyFile)] else []
  }

  /** `clear_passphrase`: a device key first, then the sidecar, then the re-encryption. */
  function ClearProgram(d: Disk, random: Bytes, rekeys: bool): seq<Effect> {
    match SourceOf(d.sidecar)
    case Ok(Passphrase(salt)) =>
      if d.keyFile.Some? && |d.keyFile.value| != KEY_BYTES then []
      else
        var key := if d.keyFile.Some? then d.keyFile.value else random;
        KeyFileProgram(d, random) + WriteProgram(Sidecar, Encoded(DeviceFile)) + [Rekey(DeviceKey(key), rekeys)] +
        if !rekeys then WriteProgram(Sidecar, Encoded(Passphrase(salt))) else []
    case _ => []
  }

  datatype Call =
    | Set(passphrase: string, salt: Bytes, rekeys: bool)
    | Clear(random: Bytes, rekeys: bool)

  function Program(d: Disk, call: Call): seq<Effect> {
    match call
    case Set(passphrase, salt, rekeys) => SetProgram(d, passphrase, salt, rekeys)
    case Clear(random, rekeys) => ClearProgram(d, random, rekeys)
  }

  /** What the random source and the key sizes guarantee: salts and keys have their length, and a salt is new. */
  predicate Fresh(d: Disk, call: Call) {
    match call
    case Set(_, salt, _) => |salt| == SALT_BYTES && (d.under.Derived? ==> d.under.salt != salt)
    case Clear(random, _) => |random| == KEY_BYTES
  }

  // ---- What is in force ----------------------------------------------------

  /** The database is under what the passphrase in force unlocks; `None` is the device file. */
  ghost predicate Keyed(d: Disk, force: Option<string>) {
    match force
    case None =>
      SourceOf(d.sidecar) == Ok(DeviceFile) && d.keyFile.Some? && |d.keyFile.value| == KEY_BYTES
      && d.under == DeviceKey(d.keyFile.value)
    case Some(p) =>
      d.under.Derived? && d.under.passphrase == p && SourceOf(d.sidecar) == Ok(Passphrase(d.under.salt))
      && |d.under.salt| == SALT_BYTES
  }

  /** Nothing anyone types opens the database. */
  ghost predicate LockedOut(d: Disk) {
    forall q, random :: Unlocked(d, q, random) != Ok(d.under)
  }

  lemma {:induction false} KeyedOpens(d: Disk, force: Option<string>, random: Bytes)
    requires Keyed(d, force)
    ensures Unlocked(d, force, random) == Ok(d.under)
    ensures forall q :: Unlocked(d, q, random) == Ok(d.under) ==> force.Some? ==> q == force
    ensures UnlockProgram(d, random) == []
  {
  }

  /** How many of a call's effects must be done before the change has taken hold. */
  function Settled(d: Disk, call: Call): nat {
    match call
    case Set(_, _, _) => 3
    case Clear(_, _) => |KeyFileProgram(d, call.random)| + 3
  }

  /** Where the sidecar first changes. */
  function Opening(d: Disk, call: Call): nat {
    if call.Set? then 0 else |KeyFileProgram(d, call.random)|
  }

  /** The passphrase in force once the first `k` effects of a call are done. */
  function ForceAfter(d: Disk, force: Option<string>, call: Call, k: nat): Option<string> {
    if Program(d, call) == [] || !call.rekeys || k < Settled(d, call) then force
    else if call.Set? then Some(call.passphrase)
    else None
  }

  /** A crash after `k` effects falls where the sidecar no longer says what the database is under. */
  predicate InWindow(d: Disk, call: Call, k: nat) {
    && Program(d, call) != []
    && Opening(d, call) < k
    && (if call.rekeys then k < Settled(d, call) else k < |Program(d, call)|)
  }

  function Prefix(p: seq<Effect>, k: nat): seq<Effect> {
    if k <= |p| then p[..k] else p
  }

  lemma {:induction false} PrefixStep(d: Disk, p: seq<Effect>, k: nat)
    requires k < |p|
    ensures Run(d, p[..k + 1]) == Apply(Run(d, p[..k]), p[k])
  {
    assert p[..k + 1] == p[..k] + [p[k]];
    RunSnoc(d, p[..k], p[k]);
  }

  /** The disk after each effect of setting a passphrase. */
  lemma {:induction false} SetPoints(d: Disk, previous: KeySource, passphrase: string, salt: Bytes, rekeys: bool,
      k: nat)
    requires SourceOf(d.sidecar) == Ok(previous) && k <= |SetProgram(d, passphrase, salt, rekeys)|
    ensures var at := Run(d, SetProgram(d, passphrase, salt, rekeys)[..k]);
            var named := Some(Encoded(Passphrase(salt)));
            at == if k == 0 then d
                  else if k == 1 then d.(sidecar := Some([]))
                  else if k == 2 then d.(sidecar := named)
                  else if rekeys then Disk(named, if k == 3 then d.keyFile else None, Derived(passphrase, salt))
                  else if k == 3 then d.(sidecar := named)
                  else if k == 4 then d.(sidecar := Some([]))
                  else d.(sidecar := Some(Encoded(previous)))
    decreases k
  {
    var p := SetProgram(d, passphrase, salt, rekeys);
    if k == 0 {
      assert p[..0] == [];
    } else {
      SetPoints(d, previous, passphrase, salt, rekeys, k - 1);
      PrefixStep(d, p, k - 1);
    }
  }

  /** The disk after each effect of clearing one, counted from the first change of the sidecar. */
  lemma {:induction false} ClearPoints(d: Disk, salt: Bytes, random: Bytes, rekeys: bool, k: nat)
    requires SourceOf(d.sidecar) == Ok(Passphrase(salt)) && (d.keyFile.Some? ==> |d.keyFile.value| == KEY_BYTES)
    requires k <= |ClearProgram(d, random, rekeys)|
    ensures var first := |KeyFileProgram(d, random)|;
            var key := if d.keyFile.Some? then d.keyFile.value else random;
            var made := d.(keyFile := Some(key));
            var at := Run(d, ClearProgram(d, random, rekeys)[..k]);
            at == if k < first then (if k == 0 then d else d.(keyFile := Some([])))
                  else if k == first then made
                  else if k == first + 1 then made.(sidecar := Some([]))
                  else if k == first + 2 then made.(sidecar := Some([1]))
                  else if rekeys then Disk(Some([1]), Some(key), DeviceKey(key))
                  else if k == first + 3 then made.(sidecar := Some([1]))
                  else if k == first + 4 then made.(sidecar := Some([]))
                  else made.(sidecar := Some(Encoded(Passphrase(salt))))
    decreases k
  {
    var p := ClearProgram(d, random, rekeys);
    if k == 0 {
      assert p[..0] == [];
    } else {
      ClearPoints(d, salt, random, rekeys, k - 1);
      PrefixStep(d, p, k - 1);
    }
  }

  lemma {:induction false} SetOutcome(d: Disk, force: Option<string>, call: Call, k: nat)
    requires Keyed(d, force) && Fresh(d, call) && call.Set? && k <= |Program(d, call)|
    ensures var at := Run(d, Program(d, call)[..k]);
            if InWindow(d, call, k) then LockedOut(at) else Keyed(at, ForceAfter(d, force, call, k))
  {
    var previous := SourceOf(d.sidecar).value;
    SetPoints(d, previous, call.passphrase, call.salt, call.rekeys, k);
    SourceRoundTrip(Passphrase(call.salt), []);
    SourceRoundTrip(previous, []);
  }

  lemma {:induction false} ClearOutcome(d: Disk, force: Option<string>, call: Call, k: nat)
    requires Keyed(d, force) && Fresh(d, call) && call.Clear? && k <= |Program(d, call)|
    ensures var at := Run(d, Program(d, call)[..k]);
            if InWindow(d, call, k) then LockedOut(at) else Keyed(at, ForceAfter(d, force, call, k))
  {
    if Program(d, call) == [] {
      assert Program(d, call)[..k] == [];
    } else {
      ClearPoints(d, d.under.salt, call.random, call.rekeys, k);
      SourceRoundTrip(Passphrase(d.under.salt), []);
      SourceRoundTrip(DeviceFile, []);
    }
  }

  /**
   A crash after any number of a call's effects: outside the window the passphrase in force opens the
   database; inside it nothing that can be typed does. A database under a passphrase key is never opened
   without a passphrase.
  */
  lemma {:induction false} EveryCrashPoint(d: Disk, force: Option<string>, call: Call, k: nat, random: Bytes)
    requires Keyed(d, force) && Fresh(d, call)
    ensures var at := Run(d, Prefix(Program(d, call), k));
            var k' := if k <= |Program(d, call)| then k else |Program(d, call)|;
            && (InWindow(d, call, k') <==> LockedOut(at))
            && (!InWindow(d, call, k') ==> Keyed(at, ForceAfter(d, force, call, k'))
                                           && Unlocked(at, ForceAfter(d, force, call, k'), random) == Ok(at.under))
            && (at.under.Derived? ==> Unlocked(at, None, random) != Ok(at.under))
  {
    var p := Program(d, call);
    var k' := if k <= |p| then k else |p|;
    assert Prefix(p, k) == p[..k'];
    if call.Set? {
      SetOutcome(d, force, call, k');
    } else {
      ClearOutcome(d, force, call, k');
    }
    if !InWindow(d, call, k') {
      KeyedOpens(Run(d, p[..k']), ForceAfter(d, force, call, k'), random);
    }
  }

  /**
   A crash between naming the new source and re-encrypting. Setting a first passphrase leaves the device key
   in its file, so deleting the sidecar repairs it. Changing one has overwritten the only copy of the salt
   the database key was derived with.
  */
  lemma {:induction false} WhatTheWindowLeaves(d: Disk, force: Option<string>, passphrase: string, salt: Bytes,
      random: Bytes)
    requires Keyed(d, force) && Fresh(d, Set(passphrase, salt, true))
    ensures var at := Run(d, SetProgram(d, passphrase, salt, true)[..2]);
            && LockedOut(at)
            && (force.None? ==> Unlocked(at.(sidecar := None), None, random) == Ok(at.under))
            && (force.Some? ==>
                  && at.sidecar == Some([2] + salt) && at.keyFile == d.keyFile
                  && at.under.Derived? && at.under.salt != salt)
  {
    SetOutcome(d, force, Set(passphrase, salt, true), 2);
    SetPoints(d, SourceOf(d.sidecar).value, passphrase, salt, true, 2);
  }

  /** Once a passphrase is set, no key is left on the disk and only that passphrase opens the database. */
  lemma {:induction false} OnlyThePassphraseOpens(d: Disk, force: Option<string>, passphrase: string, salt: Bytes,
      random: Bytes)
    requires Keyed(d, force) && Fresh(d, Set(passphrase, salt, true))
    ensures var at := Run(d, SetProgram(d, passphrase, salt, true));
            at.keyFile == None && forall q :: Unlocked(at, q, random) == Ok(at.under) <==> q == Some(passphrase)
  {
    var p := SetProgram(d, passphrase, salt, true);
    SetPoints(d, SourceOf(d.sidecar).value, passphrase, salt, true, |p|);
    assert p[..|p|] == p;
    SourceRoundTrip(Passphrase(salt), []);
  }

  /** A completed call is never in the window. */
  lemma {:induction false} ReturnsAreOutside(d: Disk, call: Call)
    ensures !InWindow(d, call, |Program(d, call)|)
  {
  }

  /** A call that returns, or a crash after `k` of its effects. */
  datatype Step = Returned(call: Call) | Crashed(call: Call, k: nat)

  function Done(d: Disk, s: Step): nat {
    if s.Crashed? && s.k <= |Program(d, s.call)| then s.k else |Program(d, s.call)|
  }

  function AfterStep(d: Disk, s: Step): Disk {
    Run(d, Prefix(Program(d, s.call), Done(d, s)))
  }

  function AfterSteps(d: Disk, steps: seq<Step>): Disk
    decreases |steps|
  {
    if steps == [] then d else AfterSteps(AfterStep(d, steps[0]), steps[1..])
  }

  function ForceAfterSteps(d: Disk, force: Option<string>, steps: seq<Step>): Option<string>
    decreases |steps|
  {
    if steps == [] then force
    else ForceAfterSteps(AfterStep(d, steps[0]), ForceAfter(d, force, steps[0].call, Done(d, steps[0])), steps[1..])
  }

  /** Fresh randomness throughout, and no crash inside a window. */
  predicate Orderly(d: Disk, steps: seq<Step>)
    decreases |steps|
  {
    steps == []
    || (&& Fresh(d, steps[0].call) && (steps[0].Crashed? ==> !InWindow(d, steps[0].call, Done(d, steps[0])))
        && Orderly(AfterStep(d, steps[0]), steps[1..]))
  }

  /**
   Over every run of setting, changing and clearing, with the re-encryption failing at any call and crashes
   anywhere outside the window, `unlock` with the passphrase in force yields the key the database is under.
  */
  lemma {:induction false} PassphraseInForceOpens(d: Disk, force: Option<string>, steps: seq<Step>, random: Bytes)
    requires Keyed(d, force) && Orderly(d, steps)
    ensures var at := AfterSteps(d, steps);
            var now := ForceAfterSteps(d, force, steps);
            && Keyed(at, now) && Unlocked(at, now, random) == Ok(at.under)
            && (now.Some? ==> forall q :: Unlocked(at, q, random) == Ok(at.under) ==> q == now)
    decreases |steps|
  {
    if steps == [] {
      KeyedOpens(d, force, random);
    } else {
      var s := steps[0];
      ReturnsAreOutside(d, s.call);
      EveryCrashPoint(d, force, s.call, Done(d, s), random);
      PassphraseInForceOpens(AfterStep(d, s), ForceAfter(d, force, s.call, Done(d, s)), steps[1..], random);
    }
  }

  /** First run: a fresh database is under the device key that its first unlock made. */
  lemma {:induction false} FirstUnlockKeys(under: Key, random: Bytes)
    requires |random| == KEY_BYTES
    ensures var empty := Disk(None, None, under);
            var made := Run(empty, UnlockProgram(empty, random));
            && Unlocked(empty, None, random) == Ok(DeviceKey(random))
            && Keyed(made.(under := DeviceKey(random)), None)
  {
    var empty := Disk(None, None, under);
    var p := UnlockProgram(empty, random);
    assert p[1..] == [p[1]] && p[1..][1..] == [];
    assert Run(Apply(empty, p[0]), p[1..]) == Apply(Apply(empty, p[0]), p[1]);
  }

  /**
   A crash inside that first write leaves an empty key file, which every later unlock refuses; before it
   nothing has happened, and after it every unlock returns the key.
  */
  lemma {:induction false} FirstUnlockCutShort(under: Key, random: Bytes, k: nat, q: Option<string>, again: Bytes)
    requires |random| == KEY_BYTES && k <= |UnlockProgram(Disk(None, None, under), random)|
    ensures var empty := Disk(None, None, under);
            var cut := Run(empty, UnlockProgram(empty, random)[..k]);
            && (Unlocked(cut, q, again) == Err(Malformed) <==> k == 1)
            && (k == 0 ==> cut == empty) && (k == 2 ==> Unlocked(cut, q, again) == Ok(DeviceKey(random)))
            && (k > 0 ==> UnlockProgram(cut, again) == [])
  {
    var empty := Disk(None, None, under);
    var p := UnlockProgram(empty, random);
    assert p[..0] == [];
    if k >= 1 {
      PrefixStep(empty, p, 0);
    }
    if k == 2 {
      PrefixStep(empty, p, 1);
    }
  }

  // ---- The files, changed in place -----------------------------------------

  class Keyring {
    var sidecar: Option<Bytes>
    var keyFile: Option<Bytes>
    var under: Key
    ghost var log: seq<Effect>

    ghost function OnDisk(): Disk
      reads this
    {
      Disk(sidecar, keyFile, under)
    }

    constructor (sidecar: Option<Bytes>, keyFile: Option<Bytes>, under: Key)
      ensures OnDisk() == Disk(sidecar, keyFile, under) && log == []
    {
      this.sidecar, this.keyFile, this.under, log := sidecar, keyFile, under, [];
    }

    /** Creates the file empty, then fills it. */
    method WritePrivate(path: Path, bytes: Bytes)
      modifies this
      ensures OnDisk() == Apply(old(OnDisk()), Write(path, bytes))
      ensures log == old(log) + WriteProgram(path, bytes)
    {
      match path {
        case Sidecar => sidecar := Some([]);
        case KeyFile => keyFile := Some([]);
      }
      log := log + [Truncate(path)];
      match path {
        case Sidecar => sidecar := Some(bytes);
        case KeyFile => keyFile := Some(bytes);
      }
      log := log + [Write(path, bytes)];
    }

    method ReadSource() returns (r: Result<KeySource>)
      ensures r == SourceOf(sidecar)
    {
      if sidecar.None? {
        return Ok(DeviceFile);
      }
      var raw := sidecar.value;
      if raw == [1] {
        return Ok(DeviceFile);
      }
      if |raw| == 1 + SALT_BYTES && raw[0] == 2 {
        return Ok(Passphrase(raw[1..]));
      }
      return Err(Malformed);
    }

    /** Made once, written before it is handed out, and read back ever after. */
    method DevelopmentDeviceKey(random: Bytes) returns (r: Result<Bytes>)
      modifies this
      ensures OnDisk() == if old(keyFile).None? then old(OnDisk()).(keyFile := Some(random)) else old(OnDisk())
      ensures log == old(log) + KeyFileProgram(old(OnDisk()), random)
      ensures r == match old(keyFile)
                   case None => Ok(random)
                   case Some(raw) => if |raw| == KEY_BYTES then Ok(raw) else Err(Malformed)
    {
      if keyFile.Some? {
        return if |keyFile.value| == KEY_BYTES then Ok(keyFile.value) else Err(Malformed);
      }
      WritePrivate(KeyFile, random);
      return Ok(random);
    }

    method Unlock(passphrase: Option<string>, random: Bytes) returns (r: Result<Key>)
      modifies this
      ensures r == Unlocked(old(OnDisk()), passphrase, random)
      ensures log == old(log) + UnlockProgram(old(OnDisk()), random)
      ensures OnDisk() == Run(old(OnDisk()), UnlockProgram(old(OnDisk()), random))
    {
      WriteRuns(OnDisk(), KeyFile, random);
      var source := ReadSource();
      if source.Err? {
        return Err(source.error);
      }
      if source.value.DeviceFile? {
        var key := DevelopmentDeviceKey(random);
        return if key.Ok? then Ok(DeviceKey(key.value)) else Err(key.error);
      }
      if passphrase.None? {
        return Err(PassphraseRequired);
      }
      return Ok(Derived(passphrase.value, source.value.salt));
    }

    method RekeyTo(key: Key, succeeds: bool) returns (ok: bool)
      modifies this
      ensures ok == succeeds && OnDisk() == Apply(old(OnDisk()), Rekey(key, succeeds))
      ensures log == old(log) + [Rekey(key, succeeds)]
    {
      log := log + [Rekey(key, succeeds)];
      if succeeds {
        under := key;
      }
      return succeeds;
    }

    method SetPassphrase(passphrase: string, salt: Bytes, rekeys: bool) returns (ok: bool)
      modifies this
      ensures ok == (SourceOf(old(sidecar)).Ok? && rekeys)
      ensures log == old(log) + SetProgram(old(OnDisk()), passphrase, salt, rekeys)
      ensures OnDisk() == Run(old(OnDisk()), SetProgram(old(OnDisk()), passphrase, salt, rekeys))
    {
      ghost var d := OnDisk();
      var previous := ReadSource();
      if previous.Err? {
        return false;
      }
      ghost var p := SetProgram(d, passphrase, salt, rekeys);
      SetPoints(d, previous.value, passphrase, salt, rekeys, |p|);
      assert p[..|p|] == p;
      WritePrivate(Sidecar, [2] + salt);
      var done := RekeyTo(Derived(passphrase, salt), rekeys);
      if !done {
        WritePrivate(Sidecar, if previous.value.DeviceFile? then [1] else [2] + previous.value.salt);
        return false;
      }
      if keyFile.Some? {
        keyFile := None;
        log := log + [Remove(KeyFile)];
      }
      return true;
    }

    method ClearPassphrase(random: Bytes, rekeys: bool) returns (ok: bool)
      requires |random| == KEY_BYTES
      modifies this
      ensures log == old(log) + ClearProgram(old(OnDisk()), random, rekeys)
      ensures OnDisk() == Run(old(OnDisk()), ClearProgram(old(OnDisk()), random, rekeys))
      ensures ok <==> SourceOf(old(sidecar)) == Ok(DeviceFile)
                      || (SourceOf(old(sidecar)).Ok? && rekeys
                          && (old(keyFile).Some? ==> |old(keyFile).value| == KEY_BYTES))
    {
      ghost var d := OnDisk();
      var previous := ReadSource();
      if previous.Err? {
        return false;
      }
      if previous.value.DeviceFile? {
        return true;
      }
      var key := DevelopmentDeviceKey(random);
      if key.Err? {
        return false;
      }
      ghost var p := ClearProgram(d, random, rekeys);
      ClearPoints(d, previous.value.salt, random, rekeys, |p|);
      assert p[..|p|] == p;
      WritePrivate(Sidecar, [1]);
      var done := RekeyTo(DeviceKey(key.value), rekeys);
      if !done {
        WritePrivate(Sidecar, [2] + previous.value.salt);
        return false;
      }
      return true;
    }
  }

  lemma {:induction false} WriteRuns(d: Disk, path: Path, bytes: Bytes)
    ensures Run(d, WriteProgram(path, bytes)) == Apply(d, Write(path, bytes))
  {
    var p := WriteProgram(path, bytes);
    assert p == ([] + [p[0]]) + [p[1]];
    RunSnoc(d, [] + [p[0]], p[1]);
    RunSnoc(d, [], p[0]);
  }
}
