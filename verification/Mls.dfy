/**
 The MLS library as this repository uses it: two-person groups, idealised. A ciphertext is the sealed
 value itself, so only the right group state opens it; a rejected message changes nothing.
*/
module Mls {
  import opened Basics
  import opened Ratchet

  datatype Payload =
    | Hello(inbox: Ident, displayName: string)
    | Text(body: string)

  /** Unreadable is a plaintext that does not decompress, or does not parse once decompressed. */
  datatype Plaintext = Readable(payload: Payload) | Unreadable

  /** What travels through the relay. `Welcome` opens a group for the holder of one key package. */
  datatype Blob =
    | Welcome(group: Ident, creator: Bytes, keyPackage: nat)
    | Application(group: Ident, sender: Bytes, generation: nat, plaintext: Plaintext)
    | Other(bytes: Bytes)

  /** One group: the other member's credential, the next generation to send, the generations received. */
  datatype Group = Group(peer: Bytes, next: nat, used: set<nat>)

  /** Everything the MLS storage provider holds: the own credential, the groups, the unused key packages. */
  datatype State = State(me: Bytes, groups: map<Ident, Group>, keyPackages: set<nat>)

  predicate CanJoin(s: State, blob: Blob) {
    blob.Welcome? && blob.keyPackage in s.keyPackages && blob.group !in s.groups
  }

  /** Joining spends the key package: a Welcome works once. */
  function Joined(s: State, blob: Blob): State
    requires CanJoin(s, blob)
  {
    s.(groups := s.groups[blob.group := Group(blob.creator, 0, {})], keyPackages := s.keyPackages - {blob.keyPackage})
  }

  /** The other member's credential, or nothing when there is no member but this one. */
  function PeerCredential(s: State, blob: Blob): Bytes
    requires blob.Welcome?
  {
    if blob.creator == s.me then [] else blob.creator
  }

  function Created(s: State, group: Ident, peer: Bytes): State {
    s.(groups := s.groups[group := Group(peer, 0, {})])
  }

  /** The ciphertext of `payload` in group `c`, at the generation the group is at. */
  function Ciphertext(s: State, c: Ident, payload: Payload): Blob
    requires c in s.groups
  {
    Application(c, s.me, s.groups[c].next, Readable(payload))
  }

  /** Encrypting uses up a generation. */
  function Advanced(s: State, c: Ident): State
    requires c in s.groups
  {
    s.(groups := s.groups[c := s.groups[c].(next := s.groups[c].next + 1)])
  }

  predicate CanDecrypt(s: State, c: Ident, blob: Blob) {
    && blob.Application? && blob.group == c && c in s.groups
    && blob.sender == s.groups[c].peer && blob.sender != s.me
    && Accepts(s.groups[c].used, blob.generation)
  }

  /** Decrypting uses up the generation's key. */
  function Decrypted(s: State, c: Ident, generation: nat): State
    requires c in s.groups
  {
    s.(groups := s.groups[c := s.groups[c].(used := s.groups[c].used + {generation})])
  }
}
