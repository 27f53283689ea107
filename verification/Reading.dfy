/** What reading one envelope does to the device, in closed form. */
module Reading {
  import opened Basics
  import opened Mls
  import opened Tables
  import opened Client
  import opened Calls
  import opened OutboxRules
  import StoreRules
  import Restarts

  /** The contact after an authenticated payload from `key`. */
  function Touched(x: Contact, key: Bytes, payload: Payload): Contact {
    var seen := Contact(x.displayName, x.inbox, key, x.verified && x.publicKey == key);
    match payload
    case Hello(inbox, name) => seen.(displayName := name, inbox := inbox)
    case Text(_) => seen
  }

  function ContactOf(db: Db, c: Ident): Ident
    requires c in db.conversations
  {
    db.conversations[c].contact
  }

  /** The tables after a handled envelope. */
  function DbAfter(db: Db, mail: Mail, clock: Clock): Db
    requires Integrity(db) && mail.blob.Application? && mail.blob.plaintext.Readable?
    requires mail.blob.group in db.conversations
  {
    var c := mail.blob.group;
    var id := ContactOf(db, c);
    var key := mail.blob.sender;
    var payload := mail.blob.plaintext.payload;
    var row := db.contacts[id];
    db.(contacts := db.contacts[id := Touched(row, key, payload)],
        changes := if row.publicKey == key then db.changes
                   else db.changes[id := Change(row.publicKey, AsI64(clock.noticed(mail.id)), false)],
        messages := match payload
                    case Text(body) => db.messages[mail.id := Message(c, Received, body, AsI64(clock.stored(mail.id)))]
                    case Hello(_, _) => db.messages)
  }

  function LiveAfter(live: map<Ident, Peer>, blob: Blob): map<Ident, Peer>
    requires blob.Application? && blob.plaintext.Readable?
  {
    match blob.plaintext.payload
    case Hello(inbox, _) => live[blob.group := Peer(inbox, blob.sender)]
    case Text(_) => live
  }

  function After(d: Device, mail: Mail, clock: Clock): Device
    requires Sound(d)
  {
    if !Opens(d, mail.blob) then d
    else
      var mls := Decrypted(d.mls, mail.blob.group, mail.blob.generation);
      if mail.blob.plaintext.Unreadable? then d.(mls := mls)
      else d.(mls := mls, db := DbAfter(d.db, mail, clock), live := LiveAfter(d.live, mail.blob))
  }

  /** The key is noticed first: one contact row, and one change noted if the key is a different one. */
  lemma {:induction false} NoticeRuns(db: Db, c: Ident, key: Bytes, now: u64)
    requires Integrity(db) && c in db.conversations
    ensures var id := ContactOf(db, c);
            var row := db.contacts[id];
            ExecAll(db, NoticeKeyProgram(db, c, key, now))
            == db.(contacts := db.contacts[id := row.(publicKey := key,
                                                      verified := row.verified && row.publicKey == key)],
                   changes := if row.publicKey == key then db.changes
                   else db.changes[id := Change(row.publicKey, AsI64(now), false)])
  {
    var id := ContactOf(db, c);
    var p := NoticeKeyProgram(db, c, key, now);
    if db.contacts[id].publicKey == key {
      assert p == [];
      assert db.contacts[id := db.contacts[id]] == db.contacts;
    } else {
      assert p[1..] == [p[1]] && p[1..][1..] == [];
      assert ExecAll(Exec(db, p[0]), p[1..]) == Exec(Exec(db, p[0]), p[1]);
    }
  }

  lemma {:induction false} StoreRuns(d: Device, before: Db, id: Ident, c: Ident, key: Bytes, payload: Payload, now: u64)
    requires c in before.conversations && d.db.conversations == before.conversations
    requires ContactOf(before, c) in d.db.contacts
    ensures var cid := ContactOf(before, c);
            Run(d, StoreProgram(before, id, c, key, payload, now))
            == match payload
               case Hello(inbox, name) =>
                 var row := d.db.contacts[cid].(displayName := name, inbox := inbox);
                 d.(db := d.db.(contacts := d.db.contacts[cid := row]),
                    live := d.live[c := Peer(inbox, key)])
               case Text(body) =>
                 d.(db := d.db.(messages := d.db.messages[id := Message(c, Received, body, AsI64(now))]))
  {
    var cid := ContactOf(before, c);
    var p := StoreProgram(before, id, c, key, payload, now);
    match payload
    case Hello(inbox, name) =>
      Restarts.ThreeSteps(d, p[0], p[1], p[2]);
      assert p == [p[0], p[1], p[2]];
      assert d.db.conversations[c := d.db.conversations[c]] == d.db.conversations;
    case Text(body) =>
      assert p[1..] == [];
  }

  lemma {:induction false} ReadOneIs(d: Device, mail: Mail, clock: Clock)
    requires Sound(d)
    ensures ReadOne(d, mail, clock) == After(d, mail, clock)
  {
    if Opens(d, mail.blob) {
      var c := mail.blob.group;
      var key := mail.blob.sender;
      var decrypt := [Decrypt(c, mail.blob.generation)];
      var d1 := Apply(d, decrypt[0]);
      assert decrypt[1..] == [] && Run(d, decrypt) == d1;
      if mail.blob.plaintext.Unreadable? {
        assert ReadProgram(d, mail, clock) == decrypt;
      } else {
        var payload := mail.blob.plaintext.payload;
        var notice := NoticeKeyProgram(d.db, c, key, clock.noticed(mail.id));
        var store := StoreProgram(d.db, mail.id, c, key, payload, clock.stored(mail.id));
        assert ReadProgram(d, mail, clock) == decrypt + (Sqls(notice) + store);
        RunConcat(d, decrypt, Sqls(notice) + store);
        RunConcat(d1, Sqls(notice), store);
        RunSqls(d1, notice);
        NoticeRuns(d.db, c, key, clock.noticed(mail.id));
        StoreRuns(Run(d1, Sqls(notice)), d.db, mail.id, c, key, payload, clock.stored(mail.id));
      }
    }
  }

  /** Reading keeps what the next reading relies on. */
  lemma {:induction false} ReadOneSound(d: Device, mail: Mail, clock: Clock)
    requires Sound(d)
    ensures var after := ReadOne(d, mail, clock);
            Sound(after) && after.live.Keys == d.live.Keys && after.db.conversations == d.db.conversations
            && after.db.contacts.Keys == d.db.contacts.Keys && after.mls.me == d.mls.me
            && after.mls.groups.Keys == d.mls.groups.Keys
  {
    ReadOneIs(d, mail, clock);
  }
}
