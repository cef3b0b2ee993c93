/** Who answers a message: the route that the runtime reads, chooses and stores before it
    calls a persona's conversation. */
module Routing {
  import opened Wrappers
  import opened Tables
  import opened Personas
  import C = Conversations

  /** What routing looks at: the transport key, the persona asked for, if any, the text. */
  datatype Asked = Asked(base: string, persona: string, text: string)

  /** How far a call has got. `owner` is the saved owner it read. */
  datatype Attempt =
    | Chosen(asked: Asked, owner: string, member: Persona)
    | Routed(asked: Asked, owner: string, member: Persona)
    | Refused

  /** `owners` is the routes table; `attempts` goes with the process; `saved` is a history
      of the keys and names ever stored together. */
  datatype State = State(
    owners: map<string, string>, attempts: map<C.Tid, Attempt>, saved: set<(string, string)>)

  const NOTHING := State(map[], map[], {})

  function Owner(s: State, base: string): string {
    if base in s.owners then s.owners[base] else ""
  }

  /** What the runtime makes of the roster, the message and the saved owner. */
  ghost predicate IsChoice(roster: seq<Persona>, asked: Asked, owner: string, member: Persona) {
    if asked.persona != "" then Some(member) == Found(roster, Normal(asked.persona))
    else IsRouted(roster, asked.text, owner, member)
  }

  /** A set as it is loaded: names are normalised, not empty, and tell keys apart. */
  ghost predicate IsLoaded(roster: seq<Persona>) {
    && IsRoster(roster)
    && forall p {:trigger IsTidy(p)} :: p in roster ==> IsTidy(p)
  }

  predicate IsTidy(p: Persona) {
    p.name != "" && Normal(p.name) == p.name && IsPersonaName(p.name)
  }

  /** What the validator checks of a submission. */
  predicate IsKnown(roster: seq<Persona>, persona: string) {
    persona == "" || Found(roster, Normal(persona)).Some?
  }

  // ---- steps ------------------------------------------------------------------

  /** Choosing reads the saved owner; saving stores the one chosen. */
  datatype Event = Choose(asked: Asked, member: Persona) | Save(outcome: Outcome) | GiveUp

  ghost predicate CanDo(roster: seq<Persona>, s: State, t: C.Tid, e: Event) {
    match e
    case Choose(asked, member) =>
      t !in s.attempts && asked.base != "" && IsChoice(roster, asked, Owner(s, asked.base), member)
    case Save(_) => t in s.attempts && s.attempts[t].Chosen?
    case GiveUp => t.Webex? && t in s.attempts && !s.attempts[t].Chosen?
  }

  function AfterSave(s: State, t: C.Tid, a: Attempt, outcome: Outcome): State
    requires a.Chosen?
  {
    var base, name := a.asked.base, a.member.name;
    var stored := outcome.Effective();
    State(if stored then s.owners[base := name] else s.owners,
      s.attempts[t := if outcome.Done? then Routed(a.asked, a.owner, a.member) else Refused],
      if stored then s.saved + {(base, name)} else s.saved)
  }

  ghost function After(roster: seq<Persona>, s: State, t: C.Tid, e: Event): State
    requires CanDo(roster, s, t, e)
  {
    match e
    case Choose(asked, member) =>
      s.(attempts := s.attempts[t := Chosen(asked, Owner(s, asked.base), member)])
    case Save(outcome) => AfterSave(s, t, s.attempts[t], outcome)
    case GiveUp => Ended(s, t)
  }

  function Ended(s: State, t: C.Tid): State { s.(attempts := s.attempts - {t}) }

  function Crashed(s: State): State { s.(attempts := map[]) }

  /** The route of the call is stored, and it goes to this persona. */
  predicate IsRoutedTo(s: State, t: C.Tid, asked: Asked, persona: string) {
    && t in s.attempts && s.attempts[t].Routed?
    && s.attempts[t].asked == asked && s.attempts[t].member.name == persona
  }

  /** The call can end without a conversation: the saved owner cannot be read, the persona
      asked for is unknown, the route cannot be stored, or no slot takes the call. */
  predicate CanFail(roster: seq<Persona>, s: State, t: C.Tid, asked: Asked) {
    if t in s.attempts then !s.attempts[t].Chosen?
    else asked.persona == "" || Found(roster, Normal(asked.persona)).None?
  }

  // ---- choices ----------------------------------------------------------------

  lemma SomeDefault(ps: seq<Persona>) returns (p: Persona)
    requires EnabledDefaults(ps) == 1
    ensures p in ps && IsEnabledDefault(p)
  {
    if forall k :: 0 <= k < |ps| ==> !IsEnabledDefault(ps[k]) {
      NoDefaults(ps);
      assert false;
    } else {
      var k :| 0 <= k < |ps| && IsEnabledDefault(ps[k]);
      p := ps[k];
    }
  }

  lemma {:induction false} FirstHit(ps: seq<Persona>, names: seq<string>, k: nat)
    requires k < |names| && Found(ps, Normal(names[k])).Some?
    ensures exists j: nat :: IsFirstHit(ps, names, j)
  {
    hide Found;
    hide Normal;
    if j :| 0 <= j < k && Found(ps, Normal(names[j])).Some? {
      FirstHit(ps, names, j);
    } else {
      assert IsFirstHit(ps, names, k);
    }
  }

  /** Somebody always answers, unless an unknown persona is asked for. */
  lemma ChoiceExists(roster: seq<Persona>, asked: Asked, owner: string) returns (member: Persona)
    requires IsRoster(roster) && IsKnown(roster, asked.persona)
    ensures IsChoice(roster, asked, owner, member)
  {
    var names := MentionsFrom(asked.text, 0);
    hide MentionsFrom;
    hide Normal;
    hide Found;
    if asked.persona != "" {
      member := Found(roster, Normal(asked.persona)).value;
    } else if !NoHit(roster, names) {
      var k :| 0 <= k < |names| && Found(roster, Normal(names[k])).Some?;
      FirstHit(roster, names, k);
      var j: nat :| IsFirstHit(roster, names, j);
      member := Found(roster, Normal(names[j])).value;
    } else if Found(roster, Normal(owner)).Some? {
      member := Found(roster, Normal(owner)).value;
    } else {
      member := SomeDefault(roster);
    }
  }

  /** Whoever is chosen is an enabled member. */
  lemma ChoiceIsMember(roster: seq<Persona>, asked: Asked, owner: string, member: Persona)
    requires IsChoice(roster, asked, owner, member)
    ensures member in roster && !member.disabled
  {
  }

  ghost predicate IsMember(roster: seq<Persona>, member: Persona) {
    member in roster && !member.disabled
  }

  /** Names stand for members. */
  lemma MemberFound(roster: seq<Persona>, member: Persona)
    requires IsLoaded(roster) && IsMember(roster, member)
    ensures Found(roster, Normal(member.name)) == Some(member)
  {
    assert IsTidy(member);
    var i :| 0 <= i < |roster| && roster[i] == member;
    assert IsEnabled(roster[i], Normal(member.name));
    var found := Found(roster, Normal(member.name));
    var j :| 0 <= j < |roster| && roster[j] == found.value;
  }

  /** Two attempts at one message go to different personas exactly when it asks for none and
      mentions no enabled member, and the saved owner that the second attempt read is not
      the persona of the first. */
  lemma ChoicesApart(
    roster: seq<Persona>, asked: Asked, first: string, a: Persona, owner: Persona, b: Persona)
    requires IsLoaded(roster) && IsMember(roster, owner)
    requires IsChoice(roster, asked, first, a) && IsChoice(roster, asked, owner.name, b)
    ensures a.name != b.name <==>
      && asked.persona == ""
      && NoHit(roster, MentionsFrom(asked.text, 0))
      && owner.name != a.name
  {
    ChoiceIsMember(roster, asked, first, a);
    ChoiceIsMember(roster, asked, owner.name, b);
    MemberFound(roster, a);
    MemberFound(roster, b);
    MemberFound(roster, owner);
    hide MentionsFrom;
    hide Normal;
    hide Found;
    if asked.persona == "" {
      if NoHit(roster, MentionsFrom(asked.text, 0)) {
        assert b == owner;
      } else {
        assert IsRouted(roster, asked.text, owner.name, b);
        HitsAgree(roster, asked.text, first, a, owner.name, b);
      }
    }
  }

  lemma HitsAgree(
    roster: seq<Persona>, text: string, first: string, a: Persona, second: string, b: Persona)
    requires IsRoster(roster) && !NoHit(roster, MentionsFrom(text, 0))
    requires IsRouted(roster, text, first, a) && IsRouted(roster, text, second, b)
    ensures a == b
  {
    hide MentionsFrom;
    hide NoHit;
    assert IsRouted(roster, text, first, b);
    RoutedUnique(roster, text, first, a, b);
  }
}
