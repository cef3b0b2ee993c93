/** The rows of the durable store and the effect of its statements on them. */
module Tables {
  import opened Wrappers

  // ---- text order (SQLite compares TEXT byte by byte) -------------------------

  predicate Less(a: string, b: string)
  {
    b != [] && (a == [] || a[0] < b[0] || (a[0] == b[0] && Less(a[1..], b[1..])))
  }

  lemma {:induction false} LessIrreflexive(a: string)
    ensures !Less(a, a)
  {
    if a != [] { LessIrreflexive(a[1..]); }
  }

  lemma {:induction false} LessTransitive(a: string, b: string, c: string)
    requires Less(a, b) && Less(b, c)
    ensures Less(a, c)
  {
    if a != [] && a[0] == b[0] && b[0] == c[0] {
      LessTransitive(a[1..], b[1..], c[1..]);
    }
  }

  lemma {:induction false} LessTotal(a: string, b: string)
    ensures a == b || Less(a, b) || Less(b, a)
  {
    if a != [] && b != [] && a[0] == b[0] {
      LessTotal(a[1..], b[1..]);
      assert a == [a[0]] + a[1..] && b == [b[0]] + b[1..];
    }
  }

  // ---- keys and rows ----------------------------------------------------------

  /** A scope key. `Own` is what the runtime uses for one persona's conversation
      (the persona name, a bar, the transport key); `Shared` is a transport key
      as it stands. `KeyTextInjective` justifies telling them apart. */
  datatype Key = Own(persona: string, base: string) | Shared(name: string)

  function KeyText(key: Key): string {
    match key
    case Own(persona, base) => persona + "|" + base
    case Shared(name) => name
  }

  predicate IsNameCharacter(value: char) {
    || 'a' <= value <= 'z'
    || 'A' <= value <= 'Z'
    || '0' <= value <= '9'
    || value == '-'
  }

  /** A key that the runtime gives to a persona's conversation. */
  predicate IsOwnKey(key: Key) { key.Own? && IsPersonaName(key.persona) }

  /** What tells the texts of such keys apart from each other and from those of rooms. */
  predicate IsPersonaName(name: string) { '|' !in name && !("room:" <= name) }

  /** A key of the log outside the personas' conversations, as `RoomScope` makes it. */
  predicate IsRoomKey(key: Key) { key.Shared? && "room:" <= key.name }

  predicate IsStoredKey(key: Key) { IsOwnKey(key) || IsRoomKey(key) }

  /** The first bar of a persona's key text ends the persona's name. */
  lemma FirstBar(persona: string, base: string)
    requires IsPersonaName(persona)
    ensures var text := persona + "|" + base;
      text[|persona|] == '|' && text[..|persona|] == persona && text[|persona| + 1..] == base &&
      forall i :: 0 <= i < |persona| ==> text[i] != '|'
  {
    var text := persona + "|" + base;
    assert forall i :: 0 <= i < |persona| ==> text[i] == persona[i];
  }

  lemma KeyTextInjective(a: Key, b: Key)
    requires IsStoredKey(a) && IsStoredKey(b) && KeyText(a) == KeyText(b)
    ensures a == b
  {
    if a.Own? { FirstBar(a.persona, a.base); NameIsNoRoom(a.persona, a.base); }
    if b.Own? { FirstBar(b.persona, b.base); NameIsNoRoom(b.persona, b.base); }
  }

  lemma NameIsNoRoom(name: string, base: string)
    ensures "room:" <= name + "|" + base <==> "room:" <= name
  {
    var text := name + "|" + base;
    assert text[|name|] == '|';
    assert forall i :: 0 <= i < 5 ==> "room:"[i] != '|';
    assert forall i :: 0 <= i < |name| ==> text[i] == name[i];
  }

  /** Two different personas can be given keys of the same text exactly when one name and
      a bar start the other name and a bar; so never when the names hold no bar. */
  lemma NamesCollideExactly(a: string, b: string)
    requires a != b
    ensures (exists base, other :: KeyText(Own(a, base)) == KeyText(Own(b, other))) <==>
      a + "|" <= b + "|" || b + "|" <= a + "|"
  {
    if a + "|" <= b + "|" {
      var base := (b + "|")[|a| + 1..];
      assert KeyText(Own(a, base)) == a + "|" + base == KeyText(Own(b, ""));
    } else if b + "|" <= a + "|" {
      var other := (a + "|")[|b| + 1..];
      assert KeyText(Own(b, other)) == b + "|" + other == KeyText(Own(a, ""));
    }
    forall base, other | KeyText(Own(a, base)) == KeyText(Own(b, other))
      ensures a + "|" <= b + "|" || b + "|" <= a + "|"
    {
      var text := KeyText(Own(a, base));
      assert a + "|" <= text && b + "|" <= text;
    }
  }

  datatype Scope = Scope(key: Key, roomID: string, rootMessageID: string)

  datatype Role = User | Assistant

  datatype Message = Message(
    id: string, scope: Scope, role: Role, senderID: string, text: string,
    inReplyTo: string, contextEpoch: int, createdAt: string)

  /** `handoff` lists the messages whose rendering the row stores (see Handoff). */
  datatype Conversation = Conversation(
    scope: Scope, sessionID: string, generation: int, contextEpoch: int,
    completedTurns: int, handoff: seq<Message>)

  type Messages = map<string, Message>

  // ---- messages ---------------------------------------------------------------

  function ReplyID(id: string): string { "agent:" + id }

  predicate IsReplyID(id: string) { "agent:" <= id }

  lemma ReplyIDInjective(a: string, b: string)
    requires ReplyID(a) == ReplyID(b)
    ensures a == b
  {
    assert a == ReplyID(a)[6..] && b == ReplyID(b)[6..];
  }

  /** INSERT OR IGNORE; an epoch below 1 is stored as 1. */
  function AddMessage(messages: Messages, message: Message): (after: Messages)
    ensures message.id in after
    ensures forall id :: id in messages ==> id in after && after[id] == messages[id]
  {
    if message.id in messages then messages
    else messages[message.id :=
      message.(contextEpoch := if message.contextEpoch <= 0 then 1 else message.contextEpoch)]
  }

  /** The statement for each of `rows` in turn. */
  function AddAll(messages: Messages, rows: seq<Message>): Messages
    decreases rows
  {
    if rows == [] then messages else AddAll(AddMessage(messages, rows[0]), rows[1..])
  }

  predicate IsFirstWithID(rows: seq<Message>, i: nat) {
    i < |rows| && forall j :: 0 <= j < i ==> rows[j].id != rows[i].id
  }

  /** However often inserts are repeated, with whatever content, an ID that was there keeps
      its row, and no row appears that was not among them. */
  lemma {:induction false} OnlyInserted(messages: Messages, rows: seq<Message>, id: string)
    ensures
      var after := AddAll(messages, rows);
      && (id in messages ==> id in after && after[id] == messages[id])
      && (id in after && id !in messages ==> exists i: nat :: i < |rows| && rows[i].id == id)
    decreases rows
  {
    if rows != [] {
      var next := AddMessage(messages, rows[0]);
      OnlyInserted(next, rows[1..], id);
      if id in AddAll(next, rows[1..]) && id !in messages && rows[0].id != id {
        var i: nat :| i < |rows[1..]| && rows[1..][i].id == id;
        assert rows[i + 1].id == id;
      }
    }
  }

  /** An ID that was not there has the first row given for it, with its epoch raised to 1. */
  lemma {:induction false} FirstInsertWins(messages: Messages, rows: seq<Message>, i: nat)
    requires IsFirstWithID(rows, i) && rows[i].id !in messages
    ensures
      var after, id := AddAll(messages, rows), rows[i].id;
      && id in after
      && after[id] == rows[i].(contextEpoch := after[id].contextEpoch)
      && after[id].contextEpoch == (if rows[i].contextEpoch >= 1 then rows[i].contextEpoch else 1)
    decreases rows
  {
    var next := AddMessage(messages, rows[0]);
    if i == 0 {
      OnlyInserted(next, rows[1..], rows[0].id);
    } else {
      assert rows[0].id != rows[i].id;
      forall j | 0 <= j < i - 1 ensures rows[1..][j].id != rows[1..][i - 1].id {
        assert rows[j + 1].id != rows[i].id;
      }
      FirstInsertWins(next, rows[1..], i - 1);
    }
  }

  predicate Answers(message: Message, id: string) {
    message.inReplyTo == id && message.role == Assistant
  }

  /** What ReplyTo may return: the text of a latest assistant row answering `id`. */
  ghost predicate IsReplyTo(messages: Messages, id: string, reply: Option<string>) {
    match reply
    case None => forall k :: k in messages ==> !Answers(messages[k], id)
    case Some(text) =>
      exists k :: k in messages && Answers(messages[k], id) && messages[k].text == text &&
        forall j :: j in messages && Answers(messages[j], id) ==>
          !Less(messages[k].createdAt, messages[j].createdAt)
  }

  /** ORDER BY created_at, message_id. */
  predicate Before(a: Message, b: Message) {
    Less(a.createdAt, b.createdAt) || (a.createdAt == b.createdAt && Less(a.id, b.id))
  }

  lemma BeforeTransitive(a: Message, b: Message, c: Message)
    requires Before(a, b) && Before(b, c)
    ensures Before(a, c)
  {
    if Less(a.createdAt, b.createdAt) && Less(b.createdAt, c.createdAt) {
      LessTransitive(a.createdAt, b.createdAt, c.createdAt);
    } else if a.createdAt == b.createdAt == c.createdAt {
      LessTransitive(a.id, b.id, c.id);
    }
  }

  lemma BeforeAsymmetric(a: Message, b: Message)
    requires Before(a, b)
    ensures !Before(b, a) && a != b
  {
    LessIrreflexive(a.createdAt);
    LessIrreflexive(a.id);
    if Before(b, a) { BeforeTransitive(a, b, a); }
  }

  lemma BeforeTotal(a: Message, b: Message)
    requires a.id != b.id
    ensures Before(a, b) || Before(b, a)
  {
    LessTotal(a.createdAt, b.createdAt);
    LessTotal(a.id, b.id);
  }
}
