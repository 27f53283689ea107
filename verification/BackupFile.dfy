/** The bytes of a backup file. */
module BackupFile {
  // A fixed header, a salt, a nonce, and everything after that is ciphertext.

  import opened Basics

  /** "POUCHBK1". */
  const MAGIC: Bytes := [0x50, 0x4f, 0x55, 0x43, 0x48, 0x42, 0x4b, 0x31]
  const FORMAT_VERSION: byte := 1
  const SALT_BYTES := 16
  const NONCE_BYTES := 12

  datatype BackupError = NotABackup | UnsupportedVersion | Truncated | WrongKeyOrCorrupted | Malformed

  datatype Result<+T> = Ok(value: T) | Err(error: BackupError)

  datatype Header = Header(salt: Bytes, nonce: Bytes, ciphertext: Bytes)

  predicate WellSized(h: Header) {
    |h.salt| == SALT_BYTES && |h.nonce| == NONCE_BYTES
  }

  function Framed(h: Header): Bytes {
    MAGIC + [FORMAT_VERSION] + h.salt + h.nonce + h.ciphertext
  }

  function ParseHeader(backup: Bytes): Result<Header> {
    if |backup| < |MAGIC| + 1 + SALT_BYTES + NONCE_BYTES then Err(Truncated)
    else if backup[..|MAGIC|] != MAGIC then Err(NotABackup)
    else if backup[|MAGIC|] != FORMAT_VERSION then Err(UnsupportedVersion)
    else
      var salt := |MAGIC| + 1;
      var nonce := salt + SALT_BYTES;
      var ciphertext := nonce + NONCE_BYTES;
      Ok(Header(backup[salt..nonce], backup[nonce..ciphertext], backup[ciphertext..]))
  }

  /** Eight bytes that spell the format's name, a version of 1, the salt, the nonce, the ciphertext. */
  predicate Lays(backup: Bytes, h: Header) {
    && |backup| >= 37 && backup[0..8] == [0x50, 0x4f, 0x55, 0x43, 0x48, 0x42, 0x4b, 0x31] && backup[8] == 1
    && backup[9..25] == h.salt && backup[25..37] == h.nonce && backup[37..] == h.ciphertext
  }

  /** A file reads back to what was framed, and only a framed file reads at all. */
  lemma {:induction false} FramesAndFilesMatch(backup: Bytes, h: Header)
    ensures WellSized(h) ==> ParseHeader(Framed(h)) == Ok(h)
    ensures ParseHeader(backup) == Ok(h) <==> WellSized(h) && backup == Framed(h)
    ensures ParseHeader(backup) == Ok(h) <==> Lays(backup, h)
  {
    if WellSized(h) {
      FrameParses(h);
    }
    if ParseHeader(backup) == Ok(h) {
      assert backup == backup[..8] + [backup[8]] + backup[9..25] + backup[25..37] + backup[37..];
    }
  }

  lemma {:induction false} FrameParses(h: Header)
    requires WellSized(h)
    ensures ParseHeader(Framed(h)) == Ok(h)
  {
    var b := Framed(h);
    assert b[..8] == MAGIC && b[8] == FORMAT_VERSION;
    assert b[9..25] == h.salt;
    assert b[25..37] == h.nonce;
    assert b[37..] == h.ciphertext;
  }

  /** Which error a file that is not one gets. */
  lemma {:induction false} WhyAFileIsRefused(backup: Bytes)
    ensures ParseHeader(backup) == Err(Truncated) <==> |backup| < 37
    ensures ParseHeader(backup) == Err(NotABackup) <==> |backup| >= 37 && !(MAGIC <= backup)
    ensures ParseHeader(backup) == Err(UnsupportedVersion) <==> |backup| >= 37 && MAGIC <= backup && backup[8] != 1
  {
    if |backup| >= 37 && backup[..|MAGIC|] == MAGIC {
      assert MAGIC <= backup;
    }
  }

  // ---- What is inside -------------------------------------------------------

  /** The libraries a backup goes through: key derivation, authenticated encryption, serialisation. */
  datatype Libraries<!T> = Libraries(
    derive: (Bytes, Bytes) -> Bytes,
    seal: (Bytes, Bytes, Bytes) -> Bytes,
    unseal: (Bytes, Bytes, Bytes) -> Option<Bytes>,
    encode: T -> Bytes,
    decode: Bytes -> Option<T>)

  /** Each half undoes the other, and only the sealing key opens a sealed text. */
  ghost predicate Ideal<T(!new)>(l: Libraries<T>) {
    && (forall key, nonce, x :: l.unseal(key, nonce, l.seal(key, nonce, x)) == Some(x))
    && (forall key, other, nonce, x :: other != key ==> l.unseal(other, nonce, l.seal(key, nonce, x)) == None)
    && (forall p :: l.decode(l.encode(p)) == Some(p))
  }

  function Written<T>(l: Libraries<T>, recoveryKey: Bytes, salt: Bytes, nonce: Bytes, payload: T): Bytes {
    Framed(Header(salt, nonce, l.seal(l.derive(recoveryKey, salt), nonce, l.encode(payload))))
  }

  function Read<T>(l: Libraries<T>, recoveryKey: Bytes, backup: Bytes): Result<T> {
    match ParseHeader(backup)
    case Err(e) => Err(e)
    case Ok(h) =>
      match l.unseal(l.derive(recoveryKey, h.salt), h.nonce, h.ciphertext)
      case None => Err(WrongKeyOrCorrupted)
      case Some(plaintext) =>
        match l.decode(plaintext) case None => Err(Malformed) case Some(p) => Ok(p)
  }

  /** The recovery key reads back what was written; a key that derives to another one is told so. */
  lemma {:induction false} WrittenReadsBack<T(!new)>(l: Libraries<T>, recoveryKey: Bytes, salt: Bytes, nonce: Bytes,
      payload: T, other: Bytes)
    requires Ideal(l) && |salt| == SALT_BYTES && |nonce| == NONCE_BYTES
    ensures var file := Written(l, recoveryKey, salt, nonce, payload);
            && Read(l, recoveryKey, file) == Ok(payload)
            && (l.derive(other, salt) != l.derive(recoveryKey, salt) ==>
                  Read(l, other, file) == Err(WrongKeyOrCorrupted))
  {
    FrameParses(Header(salt, nonce, l.seal(l.derive(recoveryKey, salt), nonce, l.encode(payload))));
  }
}
