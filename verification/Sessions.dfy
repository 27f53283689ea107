/** The MLS provider, the live conversations over it, and the link to the relay. */
module Sessions {
  import opened Basics
  import opened Mls
  import opened Tables
  import opened Client
  import opened Storage

  /** The MLS library's storage, shared by every conversation of the client. */
  class Provider {
    var state: State
    ghost const journal: Journal

    constructor (ghost journal: Journal, state: State)
      ensures this.journal == journal && this.state == state
    {
      this.journal := journal;
      this.state := state;
    }

    /** A key package for an invite code. */
    method NewKeyPackage(number: nat)
      modifies this, journal
      ensures state == old(state).(keyPackages := old(state).keyPackages + {number})
      ensures journal.log == old(journal.log) + [AddKeyPackage(number)]
    {
      state := state.(keyPackages := state.keyPackages + {number});
      journal.Note(AddKeyPackage(number));
    }
  }

  /** A decrypted message and the key its sender proved. */
  datatype Opening = Opening(plaintext: Plaintext, senderKey: Bytes)

  /** A live conversation: its group, and what it was last told about the peer. */
  class LiveConversation {
    const group: Ident
    var peer: Peer
    const provider: Provider
    ghost const journal: Journal

    /** `load`, and the object the other two constructors end with. */
    constructor (group: Ident, peer: Peer, provider: Provider, ghost journal: Journal)
      ensures this.group == group && this.peer == peer && this.provider == provider && this.journal == journal
    {
      this.group, this.peer, this.provider, this.journal := group, peer, provider, journal;
    }

    /** Joins the group a Welcome opens, spending the key package it was made for. */
    static method JoinGroup(blob: Blob, provider: Provider,
        ghost journal: Journal) returns (r: Option<LiveConversation>)
      requires provider.journal == journal
      modifies provider, journal
      ensures r.Some? <==> CanJoin(old(provider.state), blob)
      ensures r.Some? ==>
                && fresh(r.value) && r.value.group == blob.group && r.value.provider == provider
                && r.value.journal == journal
                && provider.state == Joined(old(provider.state), blob)
                && journal.log == old(journal.log) + [Join(blob)]
      ensures r.None? ==> provider.state == old(provider.state) && journal.log == old(journal.log)
    {
      var s := provider.state;
      if !CanJoin(s, blob) {
        return None;
      }
      provider.state := s.(groups := s.groups[blob.group := Group(blob.creator, 0, {})],
                           keyPackages := s.keyPackages - {blob.keyPackage});
      journal.Note(Join(blob));
      var c := new LiveConversation(blob.group, Peer([], []), provider, journal);
      return Some(c);
    }

    /** A new two-person group with the holder of an invite's key package, and the Welcome for it. */
    static method CreateGroup(invite: Invite, group: Ident, provider: Provider,
        ghost journal: Journal) returns (r: LiveConversation, welcome: Blob)
      requires provider.journal == journal && group !in provider.state.groups
      modifies provider, journal
      ensures fresh(r) && r.group == group && r.provider == provider && r.journal == journal
      ensures r.peer == Peer(invite.inbox, invite.publicKey)
      ensures welcome == Welcome(group, old(provider.state).me, invite.keyPackage)
      ensures provider.state == Created(old(provider.state), group, invite.credential)
      ensures journal.log == old(journal.log) + [Create(group, invite.credential)]
    {
      var s := provider.state;
      provider.state := s.(groups := s.groups[group := Group(invite.credential, 0, {})]);
      journal.Note(Create(group, invite.credential));
      welcome := Welcome(group, s.me, invite.keyPackage);
      r := new LiveConversation(group, Peer(invite.inbox, invite.publicKey), provider, journal);
    }

    /** Encrypts at the group's next generation and moves past it. */
    method Encrypt(payload: Payload) returns (blob: Option<Blob>)
      modifies provider, journal
      ensures group in old(provider.state.groups) ==>
                && blob == Some(Ciphertext(old(provider.state), group, payload))
                && provider.state == Advanced(old(provider.state), group)
                && journal.log == old(journal.log) + [Advance(group)]
      ensures group !in old(provider.state.groups) ==>
                blob == None && provider.state == old(provider.state) && journal.log == old(journal.log)
    {
      var s := provider.state;
      if group !in s.groups {
        return None;
      }
      blob := Some(Application(group, s.me, s.groups[group].next, Readable(payload)));
      provider.state := s.(groups := s.groups[group := s.groups[group].(next := s.groups[group].next + 1)]);
      journal.Note(Advance(group));
    }

    /** Opens a blob meant for this group; any other blob is refused and changes nothing. */
    method Decrypt(blob: Blob) returns (r: Option<Opening>)
      modifies provider, journal
      ensures CanDecrypt(old(provider.state), group, blob) ==>
                && r == Some(Opening(blob.plaintext, blob.sender))
                && provider.state == Decrypted(old(provider.state), group, blob.generation)
                && journal.log == old(journal.log) + [Effect.Decrypt(group, blob.generation)]
      ensures !CanDecrypt(old(provider.state), group, blob) ==>
                r == None && provider.state == old(provider.state) && journal.log == old(journal.log)
    {
      var s := provider.state;
      if !CanDecrypt(s, group, blob) {
        return None;
      }
      var row := s.groups[group];
      provider.state := s.(groups := s.groups[group := row.(used := row.used + {blob.generation})]);
      journal.Note(Effect.Decrypt(group, blob.generation));
      return Some(Opening(blob.plaintext, blob.sender));
    }

    /** What the client is told over the authenticated channel about where to reply. */
    method TellPeer(inbox: Ident, key: Bytes)
      modifies this
      ensures peer == Peer(inbox, key)
    {
      peer := Peer(inbox, key);
    }

    /** The other member's credential, read out of the group. */
    method PeerKey(welcome: Blob) returns (key: Bytes)
      requires welcome.Welcome?
      ensures key == PeerCredential(provider.state, welcome)
    {
      key := if welcome.creator == provider.state.me then [] else welcome.creator;
    }
  }

  /** The relay as the client reaches it: a script of the answers it will give. */
  class RelayLink {
    var posts: seq<PostReply>
    const batch: Option<seq<Mail>>
    const ack: AckReply
    ghost const journal: Journal

    constructor (posts: seq<PostReply>, batch: Option<seq<Mail>>, ack: AckReply, ghost journal: Journal)
      ensures this.posts == posts && this.batch == batch && this.ack == ack && this.journal == journal
    {
      this.posts, this.batch, this.ack, this.journal := posts, batch, ack, journal;
    }

    /** The client sees an identifier or an error; it cannot tell a lost answer from a refusal. */
    method Send(inbox: Ident, blob: Blob) returns (id: Option<Ident>, error: string)
      modifies this`posts, journal
      ensures posts == RestReplies(old(posts))
      ensures journal.log == old(journal.log) + [Post(inbox, blob, FirstReply(old(posts)))]
      ensures id.Some? <==> FirstReply(old(posts)).Accepted?
      ensures id.Some? ==> id.value == FirstReply(old(posts)).id
      ensures id.None? ==> error == FirstReply(old(posts)).error
    {
      var reply := FirstReply(posts);
      posts := RestReplies(posts);
      journal.Note(Post(inbox, blob, reply));
      match reply {
        case Accepted(accepted) => id, error := Some(accepted), "";
        case Refused(e) => id, error := None, e;
        case Lost(_, e) => id, error := None, e;
      }
    }

    method Collect() returns (r: Option<seq<Mail>>)
      ensures r == batch
    {
      r := batch;
    }

    /** Asks for nothing when there is nothing to acknowledge. */
    method Acknowledge(ids: seq<Ident>) returns (ok: bool)
      modifies journal
      ensures ok == (ids == [] || ack.Erased?)
      ensures journal.log == old(journal.log) + if ids == [] then [] else [Ack(ids, ack)]
    {
      if ids == [] {
        return true;
      }
      journal.Note(Ack(ids, ack));
      return ack.Erased?;
    }
  }
}
