/** The roster of personas: which messages mention one, and who answers a message. */
module Personas {
  import opened Wrappers
  import opened Tables
  import Text

  datatype Persona = Persona(name: string, slots: int, isDefault: bool, disabled: bool)

  datatype SetError = DuplicateName(name: string) | Defaults(found: nat)

  datatype SetResult = Set(personas: seq<Persona>) | Rejected(error: SetError)

  // ---- names ------------------------------------------------------------------

  /** Lower case of one byte; names are written in ASCII. */
  function LowerChar(c: char): char {
    if 'A' <= c <= 'Z' then (c as int + 32) as char else c
  }

  function Lower(s: string): (r: string)
    ensures |r| == |s|
    ensures forall i :: 0 <= i < |s| ==> r[i] == LowerChar(s[i])
  {
    seq(|s|, i requires 0 <= i < |s| => LowerChar(s[i]))
  }

  function Normal(name: string): string { Lower(Text.TrimSpace(name)) }

  // ---- mentions ---------------------------------------------------------------

  predicate StartsMention(text: string, i: nat) {
    && i < |text| && text[i] == '@'
    && (i == 0 || !IsNameCharacter(text[i - 1]))
    && i + 1 < |text| && IsNameCharacter(text[i + 1])
  }

  /** Where the run of name characters that covers `i` ends. */
  function NameEnd(text: string, i: nat): (end: nat)
    requires i <= |text|
    ensures i <= end <= |text|
    ensures forall k :: i <= k < end ==> IsNameCharacter(text[k])
    ensures end == |text| || !IsNameCharacter(text[end])
    decreases |text| - i
  {
    if i < |text| && IsNameCharacter(text[i]) then NameEnd(text, i + 1) else i
  }

  function MentionAt(text: string, i: nat): string
    requires StartsMention(text, i)
  {
    Lower(text[i + 1..NameEnd(text, i + 1)])
  }

  /** The mentions from `i` on, looking at every position. */
  function MentionsFrom(text: string, i: nat): seq<string>
    decreases |text| - i
  {
    if i >= |text| then []
    else (if StartsMention(text, i) then [MentionAt(text, i)] else []) + MentionsFrom(text, i + 1)
  }

  /** Nothing starts between two positions. */
  lemma {:induction false} NoMentions(text: string, i: nat, end: nat)
    requires i <= end <= |text|
    requires forall k: nat :: i <= k < end ==> !StartsMention(text, k)
    ensures MentionsFrom(text, i) == MentionsFrom(text, end)
    decreases end - i
  {
    if i < end { NoMentions(text, i + 1, end); }
  }

  /** The positions where mentions start, from `i` on. */
  ghost function Starts(text: string, i: nat): seq<nat>
    decreases |text| - i
  {
    if i >= |text| then []
    else (if StartsMention(text, i) then [i] else []) + Starts(text, i + 1)
  }

  lemma {:induction false} StartsAreAll(text: string, i: nat, k: nat)
    ensures k in Starts(text, i) <==> i <= k && StartsMention(text, k)
    decreases |text| - i
  {
    if i < |text| { StartsAreAll(text, i + 1, k); }
  }

  lemma {:induction false} StartsAscend(text: string, i: nat, j: nat, k: nat)
    requires j < k < |Starts(text, i)|
    ensures Starts(text, i)[j] < Starts(text, i)[k]
    decreases |text| - i
  {
    hide StartsMention;
    var rest := Starts(text, i + 1);
    if StartsMention(text, i) {
      assert Starts(text, i) == [i] + rest;
      if j == 0 { StartsAreAll(text, i + 1, rest[k - 1]); } else { StartsAscend(text, i + 1, j - 1, k - 1); }
    } else {
      StartsAscend(text, i + 1, j, k);
    }
  }

  lemma {:induction false} MentionsFollowStarts(text: string, i: nat)
    ensures |MentionsFrom(text, i)| == |Starts(text, i)|
    ensures forall k :: 0 <= k < |Starts(text, i)| ==>
      IsMentionOf(text, Starts(text, i), k, MentionsFrom(text, i))
    decreases |text| - i
  {
    hide StartsMention;
    hide MentionAt;
    if i < |text| {
      MentionsFollowStarts(text, i + 1);
      var at, names := Starts(text, i + 1), MentionsFrom(text, i + 1);
      if StartsMention(text, i) {
        assert Starts(text, i) == [i] + at;
        assert MentionsFrom(text, i) == [MentionAt(text, i)] + names;
        hide Starts;
        hide MentionsFrom;
        forall k | 0 <= k < |at| + 1
          ensures IsMentionOf(text, [i] + at, k, [MentionAt(text, i)] + names)
        {
          if k > 0 { assert IsMentionOf(text, at, k - 1, names); }
        }
      } else {
        assert Starts(text, i) == at && MentionsFrom(text, i) == names;
      }
    }
  }

  ghost predicate IsMentionOf(text: string, at: seq<nat>, k: nat, names: seq<string>) {
    k < |at| && k < |names| && StartsMention(text, at[k]) && names[k] == MentionAt(text, at[k])
  }

  /** The mentions are the lower-cased maximal runs of name characters after each `@`
      that does not itself follow a name character: all of them, in text order. */
  lemma MentionsAreRuns(text: string) returns (at: seq<nat>)
    ensures forall j, k :: 0 <= j < k < |at| ==> at[j] < at[k]
    ensures forall i: nat :: i in at <==> StartsMention(text, i)
    ensures |MentionsFrom(text, 0)| == |at|
    ensures forall k :: 0 <= k < |at| ==> IsMentionOf(text, at, k, MentionsFrom(text, 0))
  {
    at := Starts(text, 0);
    forall j, k | 0 <= j < k < |at| ensures at[j] < at[k] { StartsAscend(text, 0, j, k); }
    forall i: nat ensures i in at <==> StartsMention(text, i) { StartsAreAll(text, 0, i); }
    MentionsFollowStarts(text, 0);
  }

  /** The scan jumps over the name it has just read; no mention starts inside a name. */
  method Mentions(text: string) returns (names: seq<string>)
    ensures names == MentionsFrom(text, 0)
  {
    hide MentionsFrom;
    names := [];
    var index := 0;
    MentionsEnd(text);
    while index < |text|
      invariant index <= |text|
      invariant names + MentionsFrom(text, index) == MentionsFrom(text, 0)
    {
      if text[index] != '@' || (index > 0 && IsNameCharacter(text[index - 1])) {
        NoMentions(text, index, index + 1);
        index := index + 1;
        continue;
      }
      var end := index + 1;
      while end < |text| && IsNameCharacter(text[end])
        invariant index + 1 <= end <= |text|
        invariant forall k :: index + 1 <= k < end ==> IsNameCharacter(text[k])
        invariant NameEnd(text, end) == NameEnd(text, index + 1)
      {
        end := end + 1;
      }
      NoMentions(text, index + 1, end);
      MentionsStep(text, index);
      if end > index + 1 {
        names := names + [Lower(text[index + 1..end])];
      }
      index := end;
    }
  }

  lemma MentionsStep(text: string, i: nat)
    requires i < |text|
    ensures MentionsFrom(text, i) ==
      (if StartsMention(text, i) then [MentionAt(text, i)] else []) + MentionsFrom(text, i + 1)
  {
  }

  lemma MentionsEnd(text: string)
    ensures MentionsFrom(text, |text|) == []
  {
  }

  // ---- the roster -------------------------------------------------------------

  predicate IsEnabledDefault(p: Persona) { p.isDefault && !p.disabled }

  function EnabledDefaults(ps: seq<Persona>): nat {
    if ps == [] then 0
    else EnabledDefaults(ps[..|ps| - 1]) + if IsEnabledDefault(ps[|ps| - 1]) then 1 else 0
  }

  ghost predicate DistinctNames(ps: seq<Persona>) {
    forall i, j :: 0 <= i < j < |ps| ==> ps[i].name != ps[j].name
  }

  ghost predicate IsRoster(ps: seq<Persona>) { DistinctNames(ps) && EnabledDefaults(ps) == 1 }

  function Normalized(p: Persona): Persona { p.(name := Normal(p.name)) }

  function AllNormalized(ps: seq<Persona>): (r: seq<Persona>)
    ensures |r| == |ps| && forall i :: 0 <= i < |ps| ==> r[i] == Normalized(ps[i])
  {
    seq(|ps|, i requires 0 <= i < |ps| => Normalized(ps[i]))
  }

  ghost predicate HasName(ps: seq<Persona>, name: string) {
    exists k :: 0 <= k < |ps| && ps[k].name == name
  }

  ghost predicate IsRepeated(ps: seq<Persona>, name: string) {
    exists i, j :: 0 <= i < j < |ps| && ps[i].name == name && ps[j].name == name
  }

  /** A set is accepted exactly when its normalised names differ and one enabled member
      is the default. A repeated name is reported before the defaults are counted. */
  method NewSet(personas: seq<Persona>) returns (result: SetResult)
    ensures Settles(AllNormalized(personas), result)
  {
    var stored: seq<Persona> := [];
    var seen: set<string> := {};
    var defaults := 0;
    assert IsSeen(stored, seen);
    hide *;
    for i := 0 to |personas|
      invariant IsFront(personas, stored, i) && IsSeen(stored, seen)
      invariant DistinctNames(stored) && defaults == EnabledDefaults(stored)
    {
      var value := Normalized(personas[i]);
      if value.name in seen {
        NameRepeats(personas, stored, i, seen);
        return Rejected(DuplicateName(value.name));
      }
      StoreOne(stored, value, seen);
      FrontGrows(personas, stored, i);
      seen := seen + {value.name};
      if IsEnabledDefault(value) {
        defaults := defaults + 1;
      }
      stored := stored + [value];
    }
    AllStored(personas, stored);
    if defaults != 1 {
      return Rejected(Defaults(defaults));
    }
    return Set(stored);
  }

  ghost predicate Settles(all: seq<Persona>, result: SetResult) {
    match result
    case Set(stored) => IsRoster(all) && stored == all
    case Rejected(DuplicateName(name)) => IsRepeated(all, name)
    case Rejected(Defaults(found)) =>
      DistinctNames(all) && found == EnabledDefaults(all) && found != 1
  }

  ghost predicate IsSeen(stored: seq<Persona>, seen: set<string>) {
    forall name :: name in seen <==> HasName(stored, name)
  }

  ghost predicate IsFront(personas: seq<Persona>, stored: seq<Persona>, i: nat) {
    i <= |personas| && stored == AllNormalized(personas)[..i]
  }

  lemma FrontGrows(personas: seq<Persona>, stored: seq<Persona>, i: nat)
    requires i < |personas| && IsFront(personas, stored, i)
    ensures IsFront(personas, stored + [Normalized(personas[i])], i + 1)
  {
    hide Normalized;
    hide AllNormalized;
    var all := AllNormalized(personas);
    assert all[i] == Normalized(personas[i]);
    assert all[..i + 1] == all[..i] + [all[i]];
  }

  lemma NameRepeats(personas: seq<Persona>, stored: seq<Persona>, i: nat, seen: set<string>)
    requires i < |personas| && IsFront(personas, stored, i) && IsSeen(stored, seen)
    requires Normalized(personas[i]).name in seen
    ensures Settles(AllNormalized(personas), Rejected(DuplicateName(Normalized(personas[i]).name)))
  {
    hide Normalized;
    hide AllNormalized;
    var all, name := AllNormalized(personas), Normalized(personas[i]).name;
    var k :| 0 <= k < |stored| && stored[k].name == name;
    assert all[k].name == name && all[i].name == name;
  }

  lemma AllStored(personas: seq<Persona>, stored: seq<Persona>)
    requires IsFront(personas, stored, |personas|) && DistinctNames(stored)
    ensures var defaults := EnabledDefaults(stored);
      Settles(AllNormalized(personas), if defaults == 1 then Set(stored) else Rejected(Defaults(defaults)))
  {
    hide Normalized;
    hide AllNormalized;
    assert stored == AllNormalized(personas);
  }

  lemma StoreOne(stored: seq<Persona>, value: Persona, seen: set<string>)
    requires DistinctNames(stored) && IsSeen(stored, seen) && value.name !in seen
    ensures var more := stored + [value];
      && DistinctNames(more) && IsSeen(more, seen + {value.name})
      && EnabledDefaults(more) ==
           EnabledDefaults(stored) + if IsEnabledDefault(value) then 1 else 0
  {
    var more := stored + [value];
    assert more[..|stored|] == stored;
    assert !HasName(stored, value.name);
    forall i, j | 0 <= i < j < |more| ensures more[i].name != more[j].name {
      if j == |stored| { assert stored[i].name != value.name; }
    }
    forall name ensures name in seen + {value.name} <==> HasName(more, name) {
      if HasName(stored, name) {
        var k :| 0 <= k < |stored| && stored[k].name == name;
        assert more[k].name == name;
      }
      if name == value.name { assert more[|stored|].name == name; }
    }
  }

  // ---- who answers ------------------------------------------------------------

  predicate IsEnabled(p: Persona, name: string) { !p.disabled && p.name == name }

  /** The first enabled member of that name. */
  function Found(ps: seq<Persona>, name: string): (found: Option<Persona>)
    ensures found.Some? ==> found.value in ps && IsEnabled(found.value, name)
    ensures found.None? ==> forall i :: 0 <= i < |ps| ==> !IsEnabled(ps[i], name)
  {
    if ps == [] then None
    else if IsEnabled(ps[0], name) then Some(ps[0])
    else Found(ps[1..], name)
  }

  method Lookup(ps: seq<Persona>, name: string) returns (found: Option<Persona>)
    ensures found == Found(ps, Normal(name))
  {
    var wanted := Normal(name);
    for i := 0 to |ps|
      invariant Found(ps, wanted) == Found(ps[i..], wanted)
    {
      if !ps[i].disabled && ps[i].name == wanted {
        return Some(ps[i]);
      }
      assert ps[i..][1..] == ps[i + 1..];
    }
    return None;
  }

  /** With one enabled default, this finds it and there is no other. */
  method Default(ps: seq<Persona>) returns (value: Persona)
    requires EnabledDefaults(ps) == 1
    ensures value in ps && IsEnabledDefault(value)
    ensures forall i :: 0 <= i < |ps| && IsEnabledDefault(ps[i]) ==> ps[i] == value
  {
    for i := 0 to |ps|
      invariant forall k :: 0 <= k < i ==> !IsEnabledDefault(ps[k])
    {
      if ps[i].isDefault && !ps[i].disabled {
        forall k: nat | k < |ps| && IsEnabledDefault(ps[k]) ensures k == i {
          OnlyDefault(ps, i, k);
        }
        return ps[i];
      }
    }
    NoDefaults(ps);
    assert false;
    return Persona("", 0, false, false);
  }

  lemma OnlyDefault(ps: seq<Persona>, i: nat, k: nat)
    requires EnabledDefaults(ps) == 1 && i < |ps| && k < |ps|
    requires IsEnabledDefault(ps[i]) && IsEnabledDefault(ps[k])
    ensures i == k
  {
    if k < i { TwoDefaults(ps, k, i); }
    if i < k { TwoDefaults(ps, i, k); }
  }

  lemma {:induction false} TwoDefaults(ps: seq<Persona>, i: nat, j: nat)
    requires i < j < |ps| && IsEnabledDefault(ps[i]) && IsEnabledDefault(ps[j])
    ensures EnabledDefaults(ps) >= 2
  {
    var n := |ps| - 1;
    if j < n { TwoDefaults(ps[..n], i, j); } else { OneDefault(ps[..n], i); }
  }

  lemma {:induction false} OneDefault(ps: seq<Persona>, i: nat)
    requires i < |ps| && IsEnabledDefault(ps[i])
    ensures EnabledDefaults(ps) >= 1
  {
    var n := |ps| - 1;
    if i < n { OneDefault(ps[..n], i); }
  }

  lemma {:induction false} NoDefaults(ps: seq<Persona>)
    requires forall k :: 0 <= k < |ps| ==> !IsEnabledDefault(ps[k])
    ensures EnabledDefaults(ps) == 0
  {
    if ps != [] { NoDefaults(ps[..|ps| - 1]); }
  }

  /** Mention `k` names an enabled member and no earlier one does. */
  ghost predicate IsFirstHit(ps: seq<Persona>, names: seq<string>, k: nat) {
    && k < |names| && Found(ps, Normal(names[k])).Some?
    && forall j :: 0 <= j < k ==> Found(ps, Normal(names[j])).None?
  }

  ghost predicate NoHit(ps: seq<Persona>, names: seq<string>) {
    forall j :: 0 <= j < |names| ==> Found(ps, Normal(names[j])).None?
  }

  /** The first enabled mention, else the saved owner if enabled, else the default. */
  ghost predicate IsRouted(ps: seq<Persona>, text: string, owner: string, member: Persona) {
    var names := MentionsFrom(text, 0);
    if NoHit(ps, names) then
      if Found(ps, Normal(owner)).Some? then Some(member) == Found(ps, Normal(owner))
      else member in ps && IsEnabledDefault(member)
    else exists k: nat :: IsFirstHit(ps, names, k) && Some(member) == Found(ps, Normal(names[k]))
  }

  method RouteText(ps: seq<Persona>, text: string, owner: string) returns (member: Persona)
    requires IsRoster(ps)
    ensures IsRouted(ps, text, owner, member)
    ensures member in ps && !member.disabled
  {
    hide MentionsFrom;
    hide Normal;
    var names := Mentions(text);
    for k := 0 to |names|
      invariant forall j :: 0 <= j < k ==> Found(ps, Normal(names[j])).None?
    {
      var found := Lookup(ps, names[k]);
      if found.Some? {
        assert IsFirstHit(ps, names, k);
        return found.value;
      }
    }
    var saved := Lookup(ps, owner);
    if saved.Some? {
      return saved.value;
    }
    member := Default(ps);
  }

  /** Routing leaves no choice. */
  lemma RoutedUnique(ps: seq<Persona>, text: string, owner: string, a: Persona, b: Persona)
    requires IsRoster(ps) && IsRouted(ps, text, owner, a) && IsRouted(ps, text, owner, b)
    ensures a == b
  {
    var names := MentionsFrom(text, 0);
    hide MentionsFrom;
    hide Found;
    if NoHit(ps, names) {
      if Found(ps, Normal(owner)).None? {
        var i: nat :| i < |ps| && ps[i] == a;
        var j: nat :| j < |ps| && ps[j] == b;
        OnlyDefault(ps, i, j);
      }
    } else {
      var k: nat :| IsFirstHit(ps, names, k) && Some(a) == Found(ps, Normal(names[k]));
      var l: nat :| IsFirstHit(ps, names, l) && Some(b) == Found(ps, Normal(names[l]));
      SameHit(ps, names, k, l);
    }
  }

  lemma SameHit(ps: seq<Persona>, names: seq<string>, k: nat, l: nat)
    requires IsFirstHit(ps, names, k) && IsFirstHit(ps, names, l)
    ensures k == l
  {
    hide Found;
    hide Normal;
  }

  // ---- stored names stay as they are ------------------------------------------

  lemma LowerKeepsSpaces(s: string)
    ensures Text.LeadingSpace(Lower(s)) == Text.LeadingSpace(s)
    ensures Text.TrailingSpace(Lower(s)) == Text.TrailingSpace(s)
  {
    var n := |s|;
    hide Text.IsSpace;
    if n >= 1 { LowerKeepsWindow(s, 0, 1); LowerKeepsWindow(s, n - 1, n); }
    if n >= 2 { LowerKeepsWindow(s, 0, 2); LowerKeepsWindow(s, n - 2, n); }
    if n >= 3 { LowerKeepsWindow(s, 0, 3); LowerKeepsWindow(s, n - 3, n); }
  }

  lemma LowerKeepsWindow(s: string, i: nat, j: nat)
    requires i <= j <= |s|
    ensures i == 0 ==> Text.IsSpace(Lower(s)[..j]) == Text.IsSpace(s[..j])
    ensures j == |s| ==> Text.IsSpace(Lower(s)[i..]) == Text.IsSpace(s[i..])
  {
    LowerKeepsSpace(s[i..j]);
    hide Text.IsSpace;
    assert Lower(s)[i..j] == Lower(s[i..j]);
    if i == 0 { assert s[..j] == s[i..j] && Lower(s)[..j] == Lower(s)[i..j]; }
    if j == |s| { assert s[i..] == s[i..j] && Lower(s)[i..] == Lower(s)[i..j]; }
  }

  lemma LowerKeepsSpace(w: string)
    ensures Text.IsSpace(Lower(w)) == Text.IsSpace(w)
  {
  }

  lemma LowerIdempotent(s: string)
    ensures Lower(Lower(s)) == Lower(s)
  {
  }

  lemma NormalIdempotent(name: string)
    ensures Normal(Normal(name)) == Normal(name)
  {
    var trimmed := Text.TrimSpace(name);
    Text.TrimmedEnds(name);
    hide Text.TrimSpace;
    hide Text.LeadingSpace;
    hide Text.TrailingSpace;
    LowerKeepsSpaces(trimmed);
    Text.NothingToTrim(Lower(trimmed));
    LowerIdempotent(trimmed);
  }

  // ---- the runtime's routing --------------------------------------------------

  /** The roster and the stored owners of the transport keys. */
  class Router {
    const roster: seq<Persona>
    var routes: map<string, string>

    constructor (roster: seq<Persona>, routes: map<string, string>)
      ensures this.roster == roster && this.routes == routes
    {
      this.roster := roster;
      this.routes := routes;
    }

    function Owner(key: string): string
      reads this
    {
      if key in routes then routes[key] else ""
    }

    /** An explicit persona must exist; otherwise the text and the saved owner decide.
        Whoever answers becomes the saved owner. */
    method Route(asked: string, key: string, text: string, readable: bool, write: Outcome)
      returns (member: Option<Persona>)
      requires IsRoster(roster)
      modifies this`routes
      ensures member.Some? ==>
        && routes == old(routes)[key := member.value.name]
        && member.value in roster && !member.value.disabled
        && (asked != "" ==> member == Found(roster, Normal(asked)))
        && (asked == "" ==> IsRouted(roster, text, old(Owner(key)), member.value))
      ensures member.None? <==>
        || !write.Done?
        || (asked != "" && Found(roster, Normal(asked)).None?)
        || (asked == "" && !readable)
      ensures member.None? && !write.Unknown? ==> routes == old(routes)
      ensures routes - {key} == old(routes) - {key}
    {
      hide IsRouted;
      hide IsRoster;
      hide Found;
      hide Normal;
      var chosen: Persona;
      if asked != "" {
        var found := Lookup(roster, asked);
        if found.None? {
          return None;
        }
        chosen := found.value;
      } else {
        if !readable {
          return None;
        }
        chosen := RouteText(roster, text, Owner(key));
      }
      if write.Effective() {
        routes := routes[key := chosen.name];
      }
      return if write.Done? then Some(chosen) else None;
    }
  }

  /** The owner sticks: once a persona of a roster owns a key, messages that mention no
      enabled member go to it. */
  lemma OwnerSticks(personas: seq<Persona>, text: string, owner: Persona, member: Persona)
    requires var roster := AllNormalized(personas);
      && IsRoster(roster) && owner in roster && !owner.disabled
      && NoHit(roster, MentionsFrom(text, 0))
      && IsRouted(roster, text, owner.name, member)
    ensures member == owner
  {
    var roster := AllNormalized(personas);
    var i :| 0 <= i < |roster| && roster[i] == owner;
    NormalIdempotent(personas[i].name);
    assert IsEnabled(roster[i], Normal(owner.name));
    var found := Found(roster, Normal(owner.name));
    var j :| 0 <= j < |roster| && roster[j] == found.value;
  }

  /** What a change of the saved owner does: two deliveries of one message go to different
      personas exactly when it mentions no enabled member and the two owners stand for
      different members, where an owner that is no enabled member stands for the default. */
  lemma OwnersRouteApart(
    ps: seq<Persona>, text: string, first: string, second: string, a: Persona, b: Persona)
    requires IsRoster(ps) && IsRouted(ps, text, first, a) && IsRouted(ps, text, second, b)
    ensures
      var f, g := Found(ps, Normal(first)), Found(ps, Normal(second));
      a != b <==>
        && NoHit(ps, MentionsFrom(text, 0))
        && f != g
        && (f.None? ==> !IsEnabledDefault(g.value))
        && (g.None? ==> !IsEnabledDefault(f.value))
  {
    var f, g := Found(ps, Normal(first)), Found(ps, Normal(second));
    if NoHit(ps, MentionsFrom(text, 0)) {
      hide MentionsFrom;
      hide Normal;
      if f.None? { DefaultUnique(ps, a); }
      if g.None? { DefaultUnique(ps, b); }
    } else {
      assert IsRouted(ps, text, second, a);
      RoutedUnique(ps, text, second, a, b);
    }
  }

  lemma DefaultUnique(ps: seq<Persona>, a: Persona)
    requires IsRoster(ps) && a in ps && IsEnabledDefault(a)
    ensures forall b :: b in ps && IsEnabledDefault(b) ==> a == b
  {
    forall b | b in ps && IsEnabledDefault(b) ensures a == b {
      var i: nat :| i < |ps| && ps[i] == a;
      var j: nat :| j < |ps| && ps[j] == b;
      OnlyDefault(ps, i, j);
    }
  }
}
