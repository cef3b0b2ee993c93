/** Runs of a state machine, and induction over them. */
module Runs {

  /** The two neighbouring states at position `i` are related by `next`. */
  ghost predicate StepAt<S(!new)>(next: (S, S) -> bool, run: seq<S>, i: nat)
  {
    i + 1 < |run| ==> next(run[i], run[i + 1])
  }

  ghost predicate IsRun<S(!new)>(init: S -> bool, next: (S, S) -> bool, run: seq<S>)
  {
    && |run| > 0
    && init(run[0])
    && forall i: nat :: StepAt(next, run, i)
  }

  /** The state of the run at this moment. */
  ghost predicate IsAt<S>(run: seq<S>, i: nat, s: S) { i < |run| && run[i] == s }

  ghost predicate IsLast<S>(run: seq<S>, s: S) { run != [] && run[|run| - 1] == s }

  ghost predicate AreNext<S>(run: seq<S>, i: nat, s: S, j: nat, s': S) {
    j == i + 1 && IsAt(run, i, s) && IsAt(run, j, s')
  }

  /** What `init` establishes and every step keeps holds all along every run. */
  lemma {:induction false} Invariant<S(!new)>(
    init: S -> bool, next: (S, S) -> bool, inv: S -> bool, run: seq<S>, i: nat)
    requires IsRun(init, next, run) && i < |run|
    requires forall s :: init(s) ==> inv(s)
    requires forall s, t :: inv(s) && next(s, t) ==> inv(t)
    ensures inv(run[i])
  {
    if i > 0 {
      Invariant(init, next, inv, run, i - 1);
      assert StepAt(next, run, i - 1);
    }
  }

  /** A reflexive and transitive relation kept by every step relates any earlier
      state of a run to any later one. */
  lemma {:induction false} Progress<S(!new)>(
    init: S -> bool, next: (S, S) -> bool, inv: S -> bool, rel: (S, S) -> bool,
    run: seq<S>, i: nat, j: nat)
    requires IsRun(init, next, run) && i <= j < |run|
    requires forall k: nat :: k < |run| ==> inv(run[k])
    requires forall s :: rel(s, s)
    requires forall s, t, u :: rel(s, t) && rel(t, u) ==> rel(s, u)
    requires forall s, t :: inv(s) && next(s, t) ==> rel(s, t)
    ensures rel(run[i], run[j])
    decreases j
  {
    if i < j {
      Progress(init, next, inv, rel, run, i, j - 1);
      assert StepAt(next, run, j - 1);
      assert inv(run[j - 1]);
    }
  }

  // ---- paths ------------------------------------------------------------------

  ghost predicate IsPath<S(!new)>(next: (S, S) -> bool, path: seq<S>, s: S, s': S) {
    && path != [] && path[0] == s && path[|path| - 1] == s'
    && forall i: nat :: StepAt(next, path, i)
  }

  ghost predicate Leads<S(!new)>(next: (S, S) -> bool, s: S, s': S) {
    exists path :: IsPath(next, path, s, s')
  }

  lemma LeadsItself<S(!new)>(next: (S, S) -> bool, s: S)
    ensures Leads(next, s, s)
  {
    assert IsPath(next, [s], s, s);
  }

  lemma LeadsOn<S(!new)>(next: (S, S) -> bool, from: S, s: S, s': S)
    requires Leads(next, from, s) && next(s, s')
    ensures Leads(next, from, s')
  {
    var path :| IsPath(next, path, from, s);
    var more := path + [s'];
    forall i: nat ensures StepAt(next, more, i) { assert StepAt(next, path, i); }
    assert IsPath(next, more, from, s');
  }

  lemma LeadsFurther<S(!new)>(next: (S, S) -> bool, from: S, s: S, s': S)
    requires Leads(next, from, s) && Leads(next, s, s')
    ensures Leads(next, from, s')
  {
    var path :| IsPath(next, path, from, s);
    var rest :| IsPath(next, rest, s, s');
    forall i: nat ensures StepAt(next, path + rest[1..], i) { JoinedStep(next, path, rest, i); }
    assert IsPath(next, path + rest[1..], from, s');
  }

  lemma LeadsSo<S(!new)>(next: (S, S) -> bool, wider: (S, S) -> bool, s: S, s': S)
    requires Leads(next, s, s') && forall x, y :: next(x, y) ==> wider(x, y)
    ensures Leads(wider, s, s')
  {
    var path :| IsPath(next, path, s, s');
    forall i: nat ensures StepAt(wider, path, i) { assert StepAt(next, path, i); }
    assert IsPath(wider, path, s, s');
  }

  lemma JoinedStep<S(!new)>(next: (S, S) -> bool, path: seq<S>, rest: seq<S>, i: nat)
    requires path != [] && rest != [] && path[|path| - 1] == rest[0]
    requires forall k: nat :: StepAt(next, path, k)
    requires forall k: nat :: StepAt(next, rest, k)
    ensures StepAt(next, path + rest[1..], i)
  {
    assert StepAt(next, path, i);
    if |path| <= i + 1 < |path + rest[1..]| {
      assert StepAt(next, rest, i + 1 - |path|);
      assert (path + rest[1..])[i] == rest[i + 1 - |path|];
    }
  }

  lemma RunLeadsOn<S(!new)>(init: S -> bool, next: (S, S) -> bool, run: seq<S>, s: S, s': S)
    returns (longer: seq<S>)
    requires IsRun(init, next, run) && IsLast(run, s) && Leads(next, s, s')
    ensures IsRun(init, next, longer) && IsLast(longer, s') && run <= longer
  {
    var path :| IsPath(next, path, s, s');
    longer := run + path[1..];
    forall i: nat ensures StepAt(next, longer, i) { JoinedStep(next, run, path, i); }
  }

  /** What every step keeps holds wherever they lead. */
  lemma LeadsKeeping<S(!new)>(next: (S, S) -> bool, inv: S -> bool, s: S, s': S)
    requires Leads(next, s, s') && inv(s)
    requires forall x, y :: inv(x) && next(x, y) ==> inv(y)
    ensures inv(s')
  {
    var path :| IsPath(next, path, s, s');
    Invariant(x => x == s, next, inv, path, |path| - 1);
  }

  // ---- one machine within another ---------------------------------------------

  /** What `part` shows of a run, without repeating itself. */
  ghost function Image<S, T>(part: S -> T, run: seq<S>): (image: seq<T>)
    ensures run != [] ==> IsLast(image, part(run[|run| - 1]))
  {
    if run == [] then []
    else
      var n := |run| - 1;
      var before := Image(part, run[..n]);
      if IsLast(before, part(run[n])) then before else before + [part(run[n])]
  }

  lemma {:induction false} ImageGrows<S, T>(part: S -> T, run: seq<S>, i: nat, j: nat)
    requires i <= j < |run|
    ensures Image(part, run[..i + 1]) <= Image(part, run[..j + 1])
    decreases j
  {
    if i < j {
      ImageGrows(part, run, i, j - 1);
      assert run[..j + 1][..j] == run[..j];
    }
  }

  /** Each step of what `part` shows is a step of the run; before it the run shows what
      came before. */
  lemma {:induction false} ImageStep<S, T>(part: S -> T, run: seq<S>, g: nat) returns (b: nat)
    requires g + 1 < |Image(part, run)|
    ensures b + 1 < |run|
    ensures part(run[b]) == Image(part, run)[g] && part(run[b + 1]) == Image(part, run)[g + 1]
    ensures Image(part, run[..b + 1]) == Image(part, run)[..g + 1]
  {
    var n := |run| - 1;
    assert n > 0;
    var before := Image(part, run[..n]);
    if g + 1 < |before| {
      b := ImageStep(part, run[..n], g);
      assert run[..n][..b + 1] == run[..b + 1];
    } else {
      b := n - 1;
    }
  }

  lemma FrontIsRun<S(!new)>(init: S -> bool, next: (S, S) -> bool, run: seq<S>, n: nat)
    requires IsRun(init, next, run) && 0 < n <= |run|
    ensures IsRun(init, next, run[..n])
  {
    forall i: nat ensures StepAt(next, run[..n], i) { assert StepAt(next, run, i); }
  }

  /** When every step is one of the part or does not touch it, a run shows a run of the
      part. */
  lemma {:induction false} ImageIsRun<S(!new), T(!new)>(
    init: S -> bool, next: (S, S) -> bool, inv: S -> bool,
    part: S -> T, partInit: T -> bool, partNext: (T, T) -> bool, run: seq<S>)
    requires IsRun(init, next, run)
    requires forall s :: s in run ==> inv(s)
    requires forall s :: init(s) ==> partInit(part(s))
    requires forall s, t :: inv(s) && next(s, t) ==>
      part(s) == part(t) || partNext(part(s), part(t))
    ensures IsRun(partInit, partNext, Image(part, run))
  {
    var n := |run| - 1;
    if n > 0 {
      FrontIsRun(init, next, run, n);
      ImageIsRun(init, next, inv, part, partInit, partNext, run[..n]);
      assert StepAt(next, run, n - 1) && inv(run[n - 1]);
      var before, image := Image(part, run[..n]), Image(part, run);
      forall i: nat ensures StepAt(partNext, image, i) { assert StepAt(partNext, before, i); }
    } else {
      assert Image(part, run) == [part(run[0])];
    }
  }
}
