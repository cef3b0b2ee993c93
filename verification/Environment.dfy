/** The environment of an adapter process, built as a list with a position index. */
module Environment {
  import opened Wrappers

  const INHERITED: seq<string> :=
    ["HOME", "LANG", "LC_ALL", "LC_CTYPE", "LOGNAME", "PATH", "SHELL", "TMPDIR", "USER"]

  // ---- entries ----------------------------------------------------------------

  /** Where the first `=` is, or the length. */
  function Cut(entry: string): (i: nat)
    ensures i <= |entry| && '=' !in entry[..i]
    ensures i < |entry| ==> entry[i] == '='
  {
    if entry == "" || entry[0] == '=' then 0
    else
      assert entry[..Cut(entry[1..]) + 1] == [entry[0]] + entry[1..][..Cut(entry[1..])];
      Cut(entry[1..]) + 1
  }

  /** The name of a well-formed entry. */
  function Name(entry: string): Option<string> {
    if Cut(entry) == |entry| || Cut(entry) == 0 then None else Some(entry[..Cut(entry)])
  }

  // ---- what the list should be ------------------------------------------------

  predicate IsNamed(entry: string, name: string) { Name(entry) == Some(name) }

  predicate Mentions(all: seq<string>, name: string) {
    exists i :: 0 <= i < |all| && IsNamed(all[i], name)
  }

  /** An entry has a place in the result if it is malformed or the first of its name. */
  predicate IsKept(all: seq<string>, i: nat)
    requires i < |all|
  {
    Name(all[i]).None? || !Mentions(all[..i], Name(all[i]).value)
  }

  /** The last entry of a name. */
  function Last(all: seq<string>, name: string): string
    requires Mentions(all, name)
  {
    var n := |all| - 1;
    if IsNamed(all[n], name) then all[n] else Last(all[..n], name)
  }

  /** What stands in that place in the end: a malformed entry itself, or the last entry
      of the name. */
  function Settled(all: seq<string>, i: nat): string
    requires i < |all|
  {
    if Name(all[i]).None? then all[i]
    else
      assert IsNamed(all[i], Name(all[i]).value);
      Last(all, Name(all[i]).value)
  }

  /** The kept entries among the first `n`, settled, in order of first occurrence. */
  function Merged(all: seq<string>, n: nat): (r: seq<string>)
    requires n <= |all|
    ensures |r| <= n
  {
    if n == 0 then []
    else Merged(all, n - 1) + if IsKept(all, n - 1) then [Settled(all, n - 1)] else []
  }

  function Environ(all: seq<string>): seq<string> { Merged(all, |all|) }

  // ---- adding an entry --------------------------------------------------------

  lemma LastIsNamed(all: seq<string>, name: string)
    requires Mentions(all, name)
    ensures IsNamed(Last(all, name), name) && Last(all, name) in all
  {
  }

  lemma MentionsMore(all: seq<string>, entry: string, name: string)
    ensures Mentions(all + [entry], name) <==> Mentions(all, name) || IsNamed(entry, name)
  {
    var more := all + [entry];
    if Mentions(all, name) {
      var i :| 0 <= i < |all| && IsNamed(all[i], name);
      assert IsNamed(more[i], name);
    }
    if IsNamed(entry, name) { assert IsNamed(more[|all|], name); }
  }

  lemma LastOfMore(all: seq<string>, entry: string, name: string)
    requires Mentions(all + [entry], name)
    ensures Last(all + [entry], name) ==
      if IsNamed(entry, name) then entry else
      (MentionsMore(all, entry, name); Last(all, name))
  {
    MentionsMore(all, entry, name);
    assert (all + [entry])[..|all|] == all;
  }

  /** A later entry changes no place before it but the one of its own name. */
  lemma {:induction false} MergedOfMore(all: seq<string>, entry: string, n: nat)
    requires n <= |all|
    ensures |Merged(all + [entry], n)| == |Merged(all, n)|
    ensures forall p :: 0 <= p < |Merged(all, n)| ==>
      Merged(all + [entry], n)[p] ==
        if Name(entry).Some? && IsNamed(Merged(all, n)[p], Name(entry).value) then entry
        else Merged(all, n)[p]
  {
    if n > 0 {
      var i, more := n - 1, all + [entry];
      MergedOfMore(all, entry, i);
      assert more[..i] == all[..i];
      if IsKept(all, i) && Name(all[i]).Some? {
        var name := Name(all[i]).value;
        assert IsNamed(all[i], name);
        MentionsMore(all, entry, name);
        LastOfMore(all, entry, name);
        LastIsNamed(all, name);
      }
    }
  }

  /** Where a name has its place. */
  lemma {:induction false} PlaceExists(all: seq<string>, n: nat, name: string)
    requires n <= |all| && Mentions(all[..n], name)
    ensures exists p :: 0 <= p < |Merged(all, n)| && IsNamed(Merged(all, n)[p], name)
  {
    var i := n - 1;
    assert all[..n][..i] == all[..i];
    if Mentions(all[..i], name) {
      PlaceExists(all, i, name);
      var p :| 0 <= p < |Merged(all, i)| && IsNamed(Merged(all, i)[p], name);
      assert Merged(all, n)[p] == Merged(all, i)[p];
    } else {
      assert IsNamed(all[i], name) && IsKept(all, i);
      LastIsNamed(all, name);
      assert IsNamed(Merged(all, n)[|Merged(all, i)|], name);
    }
  }

  lemma {:induction false} MergedIsMentioned(all: seq<string>, n: nat, p: nat, name: string)
    requires n <= |all| && p < |Merged(all, n)| && IsNamed(Merged(all, n)[p], name)
    ensures Mentions(all[..n], name) && Merged(all, n)[p] == (MentionsFront(all, n, name); Last(all, name))
  {
    var i := n - 1;
    assert all[..n][..i] == all[..i] && all[..n][i] == all[i];
    if p < |Merged(all, i)| {
      MergedIsMentioned(all, i, p, name);
      MentionsMore(all[..i], all[i], name);
      assert all[..n] == all[..i] + [all[i]];
    } else if Name(all[i]).Some? {
      LastIsNamed(all, Name(all[i]).value);
    }
    MentionsFront(all, n, name);
  }

  lemma MentionsFront(all: seq<string>, n: nat, name: string)
    requires n <= |all|
    ensures Mentions(all[..n], name) ==> Mentions(all, name)
  {
    if Mentions(all[..n], name) {
      var i :| 0 <= i < n && IsNamed(all[..n][i], name);
      assert IsNamed(all[i], name);
    }
  }

  /** No name has two places. */
  lemma {:induction false} PlaceUnique(all: seq<string>, n: nat, p: nat, q: nat, name: string)
    requires n <= |all| && p < q < |Merged(all, n)|
    ensures !IsNamed(Merged(all, n)[p], name) || !IsNamed(Merged(all, n)[q], name)
  {
    var i := n - 1;
    if q < |Merged(all, i)| {
      PlaceUnique(all, i, p, q, name);
    } else if IsNamed(Merged(all, n)[p], name) {
      MergedIsMentioned(all, i, p, name);
      if Name(all[i]).Some? { LastIsNamed(all, Name(all[i]).value); }
    }
  }

  /** `entry` stands at `p`, and its name nowhere else. */
  ghost predicate IsOnlyEntry(environment: seq<string>, p: nat, name: string, entry: string) {
    && p < |environment| && environment[p] == entry && IsNamed(entry, name)
    && forall q :: 0 <= q < |environment| && IsNamed(environment[q], name) ==> q == p
  }

  /** The list refines the override of earlier entries by later ones: every name that
      was ever set has exactly one entry, which is the last one given for it. */
  lemma OverrideIsRefined(all: seq<string>, name: string)
    requires Mentions(all, name)
    ensures exists p: nat :: IsOnlyEntry(Environ(all), p, name, Last(all, name))
  {
    var n := |all|;
    assert all[..n] == all;
    PlaceExists(all, n, name);
    hide Merged;
    hide Last;
    hide Mentions;
    var p: nat :| p < |Environ(all)| && IsNamed(Environ(all)[p], name);
    PlaceIsOnly(all, p, name);
  }

  lemma PlaceIsOnly(all: seq<string>, p: nat, name: string)
    requires p < |Environ(all)| && IsNamed(Environ(all)[p], name) && Mentions(all, name)
    ensures IsOnlyEntry(Environ(all), p, name, Last(all, name))
  {
    MergedIsMentioned(all, |all|, p, name);
    hide Merged;
    hide Last;
    hide Mentions;
    forall q: nat | q < |Environ(all)| && IsNamed(Environ(all)[q], name) ensures q == p {
      OnePlace(all, p, q, name);
    }
  }

  lemma OnePlace(all: seq<string>, p: nat, q: nat, name: string)
    requires p < |Environ(all)| && q < |Environ(all)|
    requires IsNamed(Environ(all)[p], name) && IsNamed(Environ(all)[q], name)
    ensures p == q
  {
    if q < p { PlaceUnique(all, |all|, q, p, name); }
    if p < q { PlaceUnique(all, |all|, p, q, name); }
  }

  /** Malformed entries all stay, in their order. */
  function Malformed(all: seq<string>): seq<string> {
    if all == [] then []
    else
      var n := |all| - 1;
      Malformed(all[..n]) + if Name(all[n]).None? then [all[n]] else []
  }

  lemma MalformedOfMore(s: seq<string>, entry: string)
    ensures Malformed(s + [entry]) == Malformed(s) + if Name(entry).None? then [entry] else []
  {
    assert (s + [entry])[..|s|] == s;
  }

  lemma {:induction false} MalformedStay(all: seq<string>, n: nat)
    requires n <= |all|
    ensures Malformed(Merged(all, n)) == Malformed(all[..n])
  {
    if n == 0 {
      assert all[..0] == [];
    } else {
      var i := n - 1;
      MalformedStay(all, i);
      assert all[..n] == all[..i] + [all[i]];
      MalformedOfMore(all[..i], all[i]);
      if IsKept(all, i) {
        MalformedOfMore(Merged(all, i), Settled(all, i));
        if Name(all[i]).Some? {
          assert IsNamed(all[i], Name(all[i]).value);
          LastIsNamed(all, Name(all[i]).value);
        }
      } else {
        assert Merged(all, n) == Merged(all, i);
      }
    }
  }

  // ---- the list and its index -------------------------------------------------

  class Builder {
    var environment: seq<string>
    var positions: map<string, nat>
    ghost var all: seq<string>

    /** The list is what the entries so far come to, and the index points every name at
        its own place. */
    ghost predicate Valid()
      reads this
    {
      && environment == Environ(all)
      && (forall name :: name in positions <==> Mentions(all, name))
      && forall name :: name in positions ==>
           positions[name] < |environment| && IsNamed(environment[positions[name]], name)
    }

    constructor ()
      ensures Valid() && all == []
    {
      environment, positions, all := [], map[], [];
    }

    method Set(entry: string)
      requires Valid()
      modifies this
      ensures Valid() && all == old(all) + [entry]
    {
      ghost var more := all + [entry];
      MergedOfMore(all, entry, |all|);
      assert more[..|all|] == all && all[..|all|] == all;
      forall name ensures Mentions(more, name) <==> Mentions(all, name) || IsNamed(entry, name) {
        MentionsMore(all, entry, name);
      }
      var i := Cut(entry);
      if i == |entry| || i == 0 {
        AppendUnnamed(all, entry);
        environment := environment + [entry];
      } else {
        var name := entry[..i];
        if name in positions {
          Overwrite(all, entry, positions[name], name);
          environment := environment[positions[name] := entry];
        } else {
          AppendNew(all, entry, name);
          positions := positions[name := |environment|];
          environment := environment + [entry];
        }
      }
      all := more;
    }
  }

  lemma AppendUnnamed(all: seq<string>, entry: string)
    requires Name(entry).None?
    ensures Environ(all + [entry]) == Environ(all) + [entry]
  {
    MergedOfMore(all, entry, |all|);
  }

  lemma AppendNew(all: seq<string>, entry: string, name: string)
    requires IsNamed(entry, name) && !Mentions(all, name)
    ensures Environ(all + [entry]) == Environ(all) + [entry]
  {
    MergedOfMore(all, entry, |all|);
    assert (all + [entry])[..|all|] == all && all[..|all|] == all;
    forall p | 0 <= p < |Environ(all)| ensures !IsNamed(Environ(all)[p], name) {
      if IsNamed(Environ(all)[p], name) { MergedIsMentioned(all, |all|, p, name); }
    }
    assert IsNamed((all + [entry])[|all|], name);
    LastOfMore(all, entry, name);
  }

  lemma Overwrite(all: seq<string>, entry: string, p: nat, name: string)
    requires IsNamed(entry, name) && Mentions(all, name)
    requires p < |Environ(all)| && IsNamed(Environ(all)[p], name)
    ensures Environ(all + [entry]) == Environ(all)[p := entry]
  {
    MergedOfMore(all, entry, |all|);
    assert (all + [entry])[..|all|] == all;
    forall q | 0 <= q < |Environ(all)| && q != p ensures !IsNamed(Environ(all)[q], name) {
      if q < p { PlaceUnique(all, |all|, q, p, name); } else { PlaceUnique(all, |all|, p, q, name); }
    }
  }

  /** What the adapter's environment is made from, in order. */
  function Given(names: seq<string>, vars: map<string, string>): seq<string> {
    if names == [] then []
    else
      var n := |names| - 1;
      Given(names[..n], vars) +
        if names[n] in vars then [names[n] + "=" + vars[names[n]]] else []
  }

  function Entries(vars: map<string, string>, configured: seq<string>, dir: string): seq<string> {
    Given(INHERITED, vars) + configured + ["PWD=" + dir]
  }

  method AdapterEnvironment(vars: map<string, string>, configured: seq<string>, dir: string)
    returns (environment: seq<string>)
    ensures environment == Environ(Entries(vars, configured, dir))
  {
    hide Environ;
    hide Mentions;
    hide IsNamed;
    var builder := new Builder();
    for i := 0 to |INHERITED|
      invariant builder.Valid() && fresh(builder)
      invariant builder.all == Given(INHERITED[..i], vars)
    {
      assert INHERITED[..i + 1][..i] == INHERITED[..i];
      if INHERITED[i] in vars {
        builder.Set(INHERITED[i] + "=" + vars[INHERITED[i]]);
      }
    }
    assert INHERITED[..|INHERITED|] == INHERITED;
    for i := 0 to |configured|
      invariant builder.Valid() && fresh(builder)
      invariant builder.all == Given(INHERITED, vars) + configured[..i]
    {
      builder.Set(configured[i]);
      assert configured[..i + 1] == configured[..i] + [configured[i]];
    }
    assert configured[..|configured|] == configured;
    builder.Set("PWD=" + dir);
    return builder.environment;
  }

  lemma {:induction false} CutFirst(name: string, value: string)
    requires '=' !in name
    ensures Cut(name + "=" + value) == |name|
  {
    if name != "" {
      CutFirst(name[1..], value);
      assert (name + "=" + value)[1..] == name[1..] + "=" + value;
    }
  }

  /** Whatever was inherited or configured, the directory wins. */
  lemma DirectoryWins(vars: map<string, string>, configured: seq<string>, dir: string)
    ensures exists p: nat ::
      IsOnlyEntry(Environ(Entries(vars, configured, dir)), p, "PWD", "PWD=" + dir)
  {
    var all := Entries(vars, configured, dir);
    CutFirst("PWD", dir);
    assert "PWD" + "=" + dir == "PWD=" + dir;
    assert ("PWD=" + dir)[..3] == "PWD";
    assert IsNamed(all[|all| - 1], "PWD");
    OverrideIsRefined(all, "PWD");
  }
}
