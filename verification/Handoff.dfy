/** BuildHandoff: which messages a handoff carries, and the text it makes of them. */
module Handoff {
  import opened Wrappers
  import opened Text
  import opened Tables

  // ---- ordered listings of a set of rows --------------------------------------

  /** The message ID is the primary key. */
  ghost predicate Keyed(rows: set<Message>) {
    forall a, b :: a in rows && b in rows && a.id == b.id ==> a == b
  }

  predicate IsNewest(rows: set<Message>, m: Message) {
    m in rows && forall n :: n in rows && n != m ==> Before(n, m)
  }

  lemma {:induction false} NewestExists(rows: set<Message>)
    requires rows != {} && Keyed(rows)
    ensures exists m :: IsNewest(rows, m)
    decreases |rows|
  {
    var m :| m in rows;
    if rows == {m} {
      assert IsNewest(rows, m);
    } else {
      NewestExists(rows - {m});
      var n :| IsNewest(rows - {m}, n);
      BeforeTotal(m, n);
      forall k | k in rows && k != m && k != n ensures Before(n, m) ==> Before(k, m) {
        if Before(n, m) { BeforeTransitive(k, n, m); }
      }
      assert IsNewest(rows, if Before(n, m) then m else n);
    }
  }

  ghost function Elements(s: seq<Message>): set<Message> { set m | m in s }

  ghost predicate IsAscending(s: seq<Message>) {
    forall i, j :: 0 <= i < j < |s| ==> Before(s[i], s[j])
  }

  ghost predicate IsDescending(s: seq<Message>) {
    forall i, j :: 0 <= i < j < |s| ==> Before(s[j], s[i])
  }

  /** `s` lists `rows` with ORDER BY created_at, message_id. */
  ghost predicate Lists(s: seq<Message>, rows: set<Message>) {
    IsAscending(s) && Elements(s) == rows
  }

  /** `s` lists `rows` with ORDER BY created_at DESC, message_id DESC. */
  ghost predicate ListsDown(s: seq<Message>, rows: set<Message>) {
    IsDescending(s) && Elements(s) == rows
  }

  lemma {:induction false} ListingExists(rows: set<Message>)
    requires Keyed(rows)
    ensures exists s :: ListsDown(s, rows)
    decreases |rows|
  {
    hide Before;
    if rows == {} {
      assert ListsDown([], rows);
    } else {
      NewestExists(rows);
      var m :| IsNewest(rows, m);
      ListingExists(rows - {m});
      var tail :| ListsDown(tail, rows - {m});
      PrependNewest(rows, m, tail);
    }
  }

  lemma PrependNewest(rows: set<Message>, m: Message, tail: seq<Message>)
    requires IsNewest(rows, m) && ListsDown(tail, rows - {m})
    ensures ListsDown([m] + tail, rows)
  {
    hide Before;
    assert Elements([m] + tail) == {m} + Elements(tail);
    forall i | 0 <= i < |tail| ensures Before(tail[i], m) {
      assert tail[i] in Elements(tail);
    }
  }

  function Reversed(s: seq<Message>): (r: seq<Message>)
    ensures |r| == |s| && forall i :: 0 <= i < |s| ==> r[i] == s[|s| - 1 - i]
  {
    seq(|s|, i requires 0 <= i < |s| => s[|s| - 1 - i])
  }

  lemma ReversedListing(s: seq<Message>, rows: set<Message>)
    requires ListsDown(s, rows)
    ensures Lists(Reversed(s), rows)
  {
    var r := Reversed(s);
    forall m | m in s ensures m in r {
      var i :| 0 <= i < |s| && s[i] == m;
      assert r[|s| - 1 - i] == m;
    }
  }

  /** There is one ascending listing of a set of rows. */
  lemma {:induction false} AscendingUnique(s: seq<Message>, t: seq<Message>)
    requires IsAscending(s) && IsAscending(t) && Elements(s) == Elements(t)
    ensures s == t
  {
    assert t != [] ==> t[0] in Elements(t);
    if s != [] {
      assert s[0] in Elements(t) && t != [];
      assert t[0] in Elements(s);
      var i :| 0 <= i < |s| && s[i] == t[0];
      var j :| 0 <= j < |t| && t[j] == s[0];
      if i > 0 && j > 0 { BeforeAsymmetric(s[0], s[i]); }
      HeadNotLater(s);
      HeadNotLater(t);
      assert Elements(s[1..]) == Elements(s) - {s[0]};
      assert Elements(t[1..]) == Elements(t) - {t[0]};
      AscendingUnique(s[1..], t[1..]);
      assert s == [s[0]] + s[1..] && t == [t[0]] + t[1..];
    }
  }

  lemma HeadNotLater(s: seq<Message>)
    requires IsAscending(s) && s != []
    ensures s[0] !in s[1..]
  {
    forall i | 0 < i < |s| ensures s[i] != s[0] { BeforeAsymmetric(s[0], s[i]); }
  }

  function Limited(s: seq<Message>, limit: nat): seq<Message> {
    if |s| <= limit then s else s[..limit]
  }

  function Suffix(s: seq<Message>, limit: nat): seq<Message> {
    if |s| <= limit then s else s[|s| - limit..]
  }

  /** What SELECT ... ORDER BY created_at DESC, message_id DESC LIMIT returns. */
  ghost predicate IsRecent(rows: set<Message>, limit: nat, recent: seq<Message>) {
    exists s :: ListsDown(s, rows) && recent == Limited(s, limit)
  }

  /** Selecting the newest rows first, keeping `limit` of them and reversing gives
      the last `limit` rows of the ascending order. */
  lemma RecentIsSuffix(rows: set<Message>, limit: nat, recent: seq<Message>, ascending: seq<Message>)
    requires IsRecent(rows, limit, recent) && Lists(ascending, rows)
    ensures Reversed(recent) == Suffix(ascending, limit)
  {
    var s :| ListsDown(s, rows) && recent == Limited(s, limit);
    ReversedListing(s, rows);
    AscendingUnique(Reversed(s), ascending);
    assert Reversed(Limited(s, limit)) == Suffix(Reversed(s), limit);
  }

  // ---- the messages a handoff carries -----------------------------------------

  /** The rows of one scope and epoch, without the excluded message. */
  ghost function ScopeRows(messages: Messages, key: Key, epoch: int, exclude: string): set<Message> {
    set id | id in messages && messages[id].scope.key == key &&
      messages[id].contextEpoch == epoch && messages[id].id != exclude :: messages[id]
  }

  /** The thread root and the first answer to it. */
  function Head(root: Option<Message>, answer: Option<Message>, exclude: string): seq<Message> {
    (if root.Some? && root.value.id != exclude then [root.value] else [])
    + (if answer.Some? && answer.value.id != exclude then [answer.value] else [])
  }

  predicate Mentions(s: seq<Message>, id: string) { exists i :: 0 <= i < |s| && s[i].id == id }

  lemma HeadMentions(root: Option<Message>, answer: Option<Message>, exclude: string, id: string)
    ensures Mentions(Head(root, answer, exclude), id) <==>
      || (root.Some? && root.value.id != exclude && root.value.id == id)
      || (answer.Some? && answer.value.id != exclude && answer.value.id == id)
  {
    var head := Head(root, answer, exclude);
    if answer.Some? && answer.value.id != exclude { assert head[|head| - 1] == answer.value; }
    if root.Some? && root.value.id != exclude { assert head[0] == root.value; }
  }

  /** The messages of `recent` whose ID does not occur in `head`, in order. */
  function Unseen(head: seq<Message>, recent: seq<Message>): (r: seq<Message>)
    ensures |r| <= |recent|
    ensures forall m :: m in r <==> m in recent && !Mentions(head, m.id)
  {
    if recent == [] then []
    else (if Mentions(head, recent[0].id) then [] else [recent[0]]) + Unseen(head, recent[1..])
  }

  /** Deciding on the row at `index` and moving on does not change the outcome. */
  lemma UnseenStep(head: seq<Message>, rows: seq<Message>, index: nat, messages: seq<Message>)
    requires index < |rows|
    ensures
      var kept := if Mentions(head, rows[index].id) then messages else messages + [rows[index]];
      kept + Unseen(head, rows[index + 1..]) == messages + Unseen(head, rows[index..])
  {
    assert rows[index..][1..] == rows[index + 1..];
  }

  ghost predicate NoIDTwice(s: seq<Message>) {
    forall i, j :: 0 <= i < j < |s| ==> s[i].id != s[j].id
  }

  lemma {:induction false} UnseenNoIDTwice(head: seq<Message>, recent: seq<Message>)
    requires NoIDTwice(recent)
    ensures NoIDTwice(Unseen(head, recent))
  {
    if recent != [] {
      UnseenNoIDTwice(head, recent[1..]);
      var tail := Unseen(head, recent[1..]);
      assert forall m :: m in tail ==> m in recent[1..];
    }
  }

  lemma AscendingNoIDTwice(s: seq<Message>, rows: set<Message>)
    requires Lists(s, rows) && Keyed(rows)
    ensures NoIDTwice(s) && |s| == |rows|
  {
    forall i, j | 0 <= i < j < |s| ensures s[i].id != s[j].id {
      BeforeAsymmetric(s[i], s[j]);
      assert s[i] in Elements(s) && s[j] in Elements(s);
    }
    ElementCount(s);
  }

  lemma {:induction false} ElementCount(s: seq<Message>)
    requires NoIDTwice(s)
    ensures |Elements(s)| == |s|
  {
    if s != [] {
      ElementCount(s[1..]);
      assert Elements(s) == {s[0]} + Elements(s[1..]);
    }
  }

  lemma SuffixNoIDTwice(s: seq<Message>, limit: nat)
    requires NoIDTwice(s)
    ensures NoIDTwice(Suffix(s, limit)) && |Suffix(s, limit)| <= limit
  {
  }

  /** The root and its answer have different IDs: an answer is stored under the ID made
      from that of the message it answers. */
  lemma HeadNoIDTwice(root: Option<Message>, answer: Option<Message>, exclude: string, rootID: string)
    requires root.Some? ==> root.value.id == rootID
    requires answer.Some? ==> answer.value.id == ReplyID(rootID)
    ensures NoIDTwice(Head(root, answer, exclude)) && |Head(root, answer, exclude)| <= 2
  {
    assert |ReplyID(rootID)| > |rootID|;
  }

  /** The carried messages are the root exchange and then the last messages of this
      scope and epoch in ascending order, but for those of the root exchange; none occurs
      twice, and there are at most two more than the limit. */
  lemma SelectedMessages(
    messages: Messages, key: Key, epoch: int, exclude: string, limit: nat,
    head: seq<Message>, recent: seq<Message>, ascending: seq<Message>)
    requires forall id :: id in messages ==> messages[id].id == id
    requires IsRecent(ScopeRows(messages, key, epoch, exclude), limit, recent)
    requires Lists(ascending, ScopeRows(messages, key, epoch, exclude))
    ensures head + Unseen(head, Reversed(recent)) == head + Unseen(head, Suffix(ascending, limit))
    ensures
      var selected := head + Unseen(head, Suffix(ascending, limit));
      && (NoIDTwice(selected) <==> NoIDTwice(head))
      && |selected| <= |head| + limit
  {
    var rows := ScopeRows(messages, key, epoch, exclude);
    var last := Suffix(ascending, limit);
    RecentIsSuffix(rows, limit, recent, ascending);
    SelectionNoIDTwice(messages, key, epoch, exclude, limit, head, ascending);
    var selected := head + Unseen(head, last);
    hide Unseen;
    hide Suffix;
    assert forall i :: 0 <= i < |head| ==> selected[i] == head[i];
  }

  lemma SelectionNoIDTwice(
    messages: Messages, key: Key, epoch: int, exclude: string, limit: nat,
    head: seq<Message>, ascending: seq<Message>)
    requires forall id :: id in messages ==> messages[id].id == id
    requires Lists(ascending, ScopeRows(messages, key, epoch, exclude))
    ensures
      var selected := head + Unseen(head, Suffix(ascending, limit));
      && (NoIDTwice(head) ==> NoIDTwice(selected))
      && |selected| <= |head| + limit
  {
    var rows := ScopeRows(messages, key, epoch, exclude);
    var last := Suffix(ascending, limit);
    assert NoIDTwice(last) && |last| <= limit by {
      AscendingNoIDTwice(ascending, rows);
      SuffixNoIDTwice(ascending, limit);
    }
    hide Unseen;
    hide Suffix;
    hide Elements;
    UnseenNoIDTwice(head, last);
    var tail := Unseen(head, last);
    forall i, j | 0 <= i < |head| && 0 <= j < |tail| ensures head[i].id != tail[j].id {
      assert tail[j] in tail;
    }
  }

  // ---- the text ---------------------------------------------------------------

  function Line(m: Message): (line: string)
    ensures line != [] && Between(0x21, line[0], 0x7F)
  {
    (if m.role == Assistant then "Agent" else "Human") + ": " + TrimSpace(m.text) + "\n"
  }

  function Transcript(ms: seq<Message>): string {
    if ms == [] then "" else Line(ms[0]) + Transcript(ms[1..])
  }

  /** The builder after appending `ms` to `written`, stopping at the first line
      that does not fit. */
  function Filled(ms: seq<Message>, written: string, maxChars: nat): string
    requires |written| <= maxChars
  {
    if ms == [] then written
    else if |written| + |Line(ms[0])| > maxChars then
      written + Truncated(Line(ms[0]), maxChars - |written|)
    else Filled(ms[1..], written + Line(ms[0]), maxChars)
  }

  function HandoffText(ms: seq<Message>, maxChars: nat): string {
    TrimSpace(Filled(ms, "", maxChars))
  }

  lemma {:induction false} FilledIsFront(ms: seq<Message>, written: string, maxChars: nat)
    requires |written| <= maxChars
    ensures Filled(ms, written, maxChars) <= written + Transcript(ms)
    ensures |Filled(ms, written, maxChars)| <= maxChars
    ensures written <= Filled(ms, written, maxChars)
  {
    if ms != [] {
      var line := Line(ms[0]);
      assert written + Transcript(ms) == written + line + Transcript(ms[1..]);
      if |written| + |line| <= maxChars {
        FilledIsFront(ms[1..], written + line, maxChars);
      }
    }
  }

  /** The lines that are written whole. */
  function Fitting(ms: seq<Message>, written: string, maxChars: nat): string {
    if ms == [] || |written| + |Line(ms[0])| > maxChars then written
    else Fitting(ms[1..], written + Line(ms[0]), maxChars)
  }

  predicate IsWhole(written: string) { written == "" || written[|written| - 1] == '\n' }

  /** Filling line by line is truncating the whole transcript exactly when nothing has to be
      cut or the lines before the cut are well-formed UTF-8. */
  lemma {:induction false} FilledExactly(ms: seq<Message>, written: string, maxChars: nat)
    requires |written| <= maxChars && IsWhole(written)
    ensures
      Filled(ms, written, maxChars) == Truncated(written + Transcript(ms), maxChars) <==>
        |written + Transcript(ms)| <= maxChars || Valid(Fitting(ms, written, maxChars))
  {
    hide Truncated;
    hide Valid;
    hide Line;
    hide IsWhole;
    if ms == [] {
      assert written + Transcript(ms) == written;
      TruncatedShort(written, maxChars);
    } else {
      var line, rest := Line(ms[0]), Transcript(ms[1..]);
      assert written + Transcript(ms) == written + line + rest == written + (line + rest);
      if |written| + |line| > maxChars {
        if Valid(written) {
          TruncatedAfter(written, line + rest, maxChars);
          TruncatedWithin(line, rest, maxChars - |written|);
        } else {
          NotTruncated(written, line, rest, maxChars);
        }
      } else {
        LineIsWhole(written, ms[0]);
        FilledExactly(ms[1..], written + line, maxChars);
      }
    }
  }

  lemma TruncatedShort(s: string, limit: nat)
    requires |s| <= limit
    ensures Truncated(s, limit) == s
  {
  }

  lemma LineIsWhole(written: string, m: Message)
    ensures IsWhole(written + Line(m))
  {
    var line := Line(m);
    assert line[|line| - 1] == '\n' && (written + line)[|written| + |line| - 1] == line[|line| - 1];
  }

  /** A line break ends whatever well-formed text it stands in. */
  lemma WholeFront(written: string, more: string)
    requires IsWhole(written) && Valid(written + more)
    ensures Valid(written)
  {
    if written != "" {
      var front := written[..|written| - 1];
      assert written == front + "\n" && written + more == front + ("\n" + more);
      assert ("\n" + more)[0] == '\n';
      AsciiValid("\n");
      hide Valid;
      ValidFront(front, "\n" + more);
      ValidAppend(front, "\n");
    }
  }

  /** What follows ill-formed lines is never well-formed as a whole, so the truncation ends
      before. */
  lemma NotTruncated(written: string, line: string, rest: string, maxChars: nat)
    requires |written| <= maxChars < |written| + |line| && IsWhole(written) && !Valid(written)
    ensures written + Truncated(line, maxChars - |written|) !=
      Truncated(written + (line + rest), maxChars)
  {
    hide Valid;
    hide IsWhole;
    var more := Truncated(line, maxChars - |written|);
    if Valid(written + more) { WholeFront(written, more); }
  }

  lemma LineValid(m: Message)
    requires Valid(m.text)
    ensures Valid(Line(m))
  {
    hide TrimSpace;
    hide Valid;
    TrimSpaceValid(m.text);
    var prefix := if m.role == Assistant then "Agent: " else "Human: ";
    AsciiValid(prefix);
    AsciiValid("\n");
    ValidAppend(prefix, TrimSpace(m.text));
    ValidAppend(prefix + TrimSpace(m.text), "\n");
    assert Line(m) == prefix + TrimSpace(m.text) + "\n";
  }

  lemma {:induction false} AsciiValid(s: string)
    requires forall i :: 0 <= i < |s| ==> Between(0, s[i], 0x7F)
    ensures Valid(s)
  {
    if s != [] { AsciiValid(s[1..]); }
  }

  /** Bytes past the limit do not matter. */
  lemma TruncatedWithin(a: string, b: string, limit: nat)
    requires limit < |a|
    ensures Truncated(a + b, limit) == Truncated(a, limit)
  {
    var r := Truncated(a, limit);
    assert r <= a + b;
    forall k | |r| < k <= limit ensures !Valid((a + b)[..k]) {
      assert (a + b)[..k] == a[..k];
    }
    TruncatedIs(a + b, limit, r);
  }

  /** A handoff is a front of the full transcript within the limit, and it is empty
      exactly when it carries no message. */
  lemma HandoffBounded(ms: seq<Message>, maxChars: nat)
    requires maxChars > 0
    ensures HandoffText(ms, maxChars) <= Transcript(ms)
    ensures |HandoffText(ms, maxChars)| <= maxChars
    ensures HandoffText(ms, maxChars) == "" <==> ms == []
  {
    FilledIsFront(ms, "", maxChars);
    var text := Filled(ms, "", maxChars);
    assert "" + Transcript(ms) == Transcript(ms);
    if ms != [] {
      var line := Line(ms[0]);
      assert "" + line == line && Transcript(ms)[0] == line[0];
      assert text != [] by {
        if |line| > maxChars {
          AsciiValid(line[..1]);
          assert |Truncated(line, maxChars)| >= 1;
        } else {
          FilledIsFront(ms[1..], line, maxChars);
        }
      }
      assert text[0] == line[0];
      TrimSpaceFront(text);
    }
  }

  /** What is written is the truncation of the transcript exactly when it fits or the lines
      before the cut are well-formed. On well-formed texts, then, the handoff is the trimmed
      truncation of the transcript, and well-formed. */
  lemma HandoffIsTruncatedTranscript(ms: seq<Message>, maxChars: nat)
    ensures
      Filled(ms, "", maxChars) == Truncated(Transcript(ms), maxChars) <==>
        |Transcript(ms)| <= maxChars || Valid(Fitting(ms, "", maxChars))
    ensures (forall m :: m in ms ==> Valid(m.text)) ==>
      && HandoffText(ms, maxChars) == TrimSpace(Truncated(Transcript(ms), maxChars))
      && Valid(HandoffText(ms, maxChars))
  {
    FilledExactly(ms, "", maxChars);
    assert "" + Transcript(ms) == Transcript(ms);
    hide Filled;
    hide Fitting;
    hide Truncated;
    hide TrimSpace;
    if forall m :: m in ms ==> Valid(m.text) {
      FittingValid(ms, "", maxChars);
      TranscriptValid(ms);
      hide Valid;
      TruncatedKeepsText(Transcript(ms), maxChars);
      TrimSpaceValid(Truncated(Transcript(ms), maxChars));
    }
  }

  lemma {:induction false} FittingValid(ms: seq<Message>, written: string, maxChars: nat)
    requires Valid(written) && forall m :: m in ms ==> Valid(m.text)
    ensures Valid(Fitting(ms, written, maxChars))
  {
    hide Valid;
    hide Line;
    if ms != [] {
      LineValid(ms[0]);
      ValidAppend(written, Line(ms[0]));
      FittingValid(ms[1..], written + Line(ms[0]), maxChars);
    }
  }

  lemma {:induction false} TranscriptValid(ms: seq<Message>)
    requires forall m :: m in ms ==> Valid(m.text)
    ensures Valid(Transcript(ms))
  {
    if ms != [] {
      LineValid(ms[0]);
      TranscriptValid(ms[1..]);
      ValidAppend(Line(ms[0]), Transcript(ms[1..]));
    }
  }

  // ---- the procedure ----------------------------------------------------------

  /** The newest rows first. */
  method SelectRecent(messages: Messages, key: Key, epoch: int, exclude: string, limit: nat)
    returns (recent: seq<Message>)
    requires forall id :: id in messages ==> messages[id].id == id
    ensures IsRecent(ScopeRows(messages, key, epoch, exclude), limit, recent)
  {
    var rows := set id | id in messages && messages[id].scope.key == key &&
      messages[id].contextEpoch == epoch && messages[id].id != exclude :: messages[id];
    assert rows == ScopeRows(messages, key, epoch, exclude);
    var s: seq<Message> := [];
    var left := rows;
    while left != {}
      invariant left <= rows && IsDescending(s) && Elements(s) == rows - left
      invariant forall m, n :: m in s && n in left ==> Before(n, m)
      decreases left
    {
      NewestExists(left);
      var m :| m in left && IsNewest(left, m);
      AppendOldest(s, left, m);
      s := s + [m];
      left := left - {m};
    }
    recent := Limited(s, limit);
    assert ListsDown(s, rows);
  }

  lemma AppendOldest(s: seq<Message>, left: set<Message>, m: Message)
    requires IsDescending(s) && IsNewest(left, m)
    requires forall n, k :: n in s && k in left ==> Before(k, n)
    ensures IsDescending(s + [m]) && Elements(s + [m]) == Elements(s) + {m}
    ensures forall n, k :: n in s + [m] && k in left - {m} ==> Before(k, n)
  {
    hide Before;
    forall i, j | 0 <= i < j < |s + [m]| ensures Before((s + [m])[j], (s + [m])[i]) {
      if j == |s| { assert s[i] in s; }
    }
  }

  /** The slice swap loop. */
  method ReverseRows(rows: array<Message>)
    modifies rows
    ensures rows[..] == Reversed(old(rows[..]))
  {
    var left, right := 0, rows.Length - 1;
    while left < right
      invariant 0 <= left <= right + 1 && right == rows.Length - 1 - left
      invariant forall k :: 0 <= k < rows.Length ==>
        rows[k] == old(if k < left || k > right then rows[rows.Length - 1 - k] else rows[k])
    {
      rows[left], rows[right] := rows[right], rows[left];
      left, right := left + 1, right - 1;
    }
  }

  /** BuildHandoff on the rows its three queries returned. */
  method BuildHandoff(
    root: Option<Message>, answer: Option<Message>, recent: array<Message>, exclude: string,
    maxMessages: int, maxChars: int) returns (handoff: string)
    modifies recent
    ensures maxMessages <= 0 || maxChars <= 0 ==> handoff == ""
    ensures maxMessages > 0 && maxChars > 0 ==>
      var head := Head(root, answer, exclude);
      handoff == HandoffText(head + Unseen(head, Reversed(old(recent[..]))), maxChars)
  {
    hide HandoffText;
    if maxMessages <= 0 || maxChars <= 0 {
      return "";
    }
    var messages: seq<Message> := [];
    var seen: set<string> := {};
    if root.Some? && root.value.id != exclude {
      messages := messages + [root.value];
      seen := seen + {root.value.id};
    }
    if answer.Some? && answer.value.id != exclude {
      messages := messages + [answer.value];
      seen := seen + {answer.value.id};
    }
    ghost var head := Head(root, answer, exclude);
    assert messages == head;
    forall id ensures id in seen <==> Mentions(head, id) {
      HeadMentions(root, answer, exclude, id);
    }
    ReverseRows(recent);
    ghost var rows := recent[..];
    assert rows[0..] == rows;
    var index := 0;
    while index < recent.Length
      invariant 0 <= index <= recent.Length && recent[..] == rows
      invariant messages + Unseen(head, rows[index..]) == head + Unseen(head, rows)
    {
      UnseenStep(head, rows, index, messages);
      if recent[index].id !in seen {
        messages := messages + [recent[index]];
      }
      index := index + 1;
    }
    assert messages == head + Unseen(head, rows);
    handoff := Render(messages, maxChars);
  }

  method Render(messages: seq<Message>, maxChars: nat) returns (handoff: string)
    ensures handoff == HandoffText(messages, maxChars)
  {
    var builder := "";
    var index := 0;
    while index < |messages|
      invariant 0 <= index <= |messages|
      invariant |builder| <= maxChars
      invariant Filled(messages[index..], builder, maxChars) == Filled(messages, "", maxChars)
    {
      var line := Line(messages[index]);
      if |builder| + |line| > maxChars {
        var remaining := maxChars - |builder|;
        if remaining > 0 {
          var part := TruncateUTF8(line, remaining);
          builder := builder + part;
        }
        assert builder == Filled(messages, "", maxChars);
        return TrimSpace(builder);
      }
      builder := builder + line;
      assert messages[index..][1..] == messages[index + 1..];
      index := index + 1;
    }
    handoff := TrimSpace(builder);
  }
}
