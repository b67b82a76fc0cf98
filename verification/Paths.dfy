/** Paths of the protocol that start anywhere, and what everybody else may do between two steps of one of its actors. */
module Paths {
  import opened Domain
  import opened Protocol
  import opened ProtocolTheorems

  predicate StepAt(path: seq<State>, acts: seq<Action>, i: nat)
    requires i < |acts| < |path|
  {
    Step(path[i], acts[i], path[i + 1])
  }

  ghost predicate IsPath(path: seq<State>, acts: seq<Action>) {
    |path| == |acts| + 1 && forall i {:trigger StepAt(path, acts, i)} :: 0 <= i < |acts| ==> StepAt(path, acts, i)
  }

  /** The actions lead from `s` to `s'`. */
  ghost predicate Leads(s: State, acts: seq<Action>, s': State) {
    exists path :: IsPath(path, acts) && path[0] == s && path[|acts|] == s'
  }

  lemma LeadsNowhere(s: State)
    ensures Leads(s, [], s)
  {
    assert IsPath([s], []);
  }

  lemma LeadsOn(s0: State, first: seq<Action>, s: State, second: seq<Action>, s': State)
    requires Leads(s0, first, s) && Leads(s, second, s')
    ensures Leads(s0, first + second, s')
  {
    var p :| IsPath(p, first) && p[0] == s0 && p[|first|] == s;
    var q :| IsPath(q, second) && q[0] == s && q[|second|] == s';
    var path := p + q[1..];
    forall i: nat | i < |first + second| ensures StepAt(path, first + second, i) {
      if i < |first| { assert StepAt(p, first, i); } else { assert StepAt(q, second, i - |first|); }
    }
    assert IsPath(path, first + second);
  }

  lemma LeadsOneStep(s: State, a: Action)
    requires Enabled(s, a)
    ensures Leads(s, [a], Apply(s, a))
  {
    assert StepAt([s, Apply(s, a)], [a], 0);
    assert IsPath([s, Apply(s, a)], [a]);
  }

  lemma LeadsOneMore(s0: State, acts: seq<Action>, s: State, a: Action)
    requires Leads(s0, acts, s) && Enabled(s, a)
    ensures Leads(s0, acts + [a], Apply(s, a))
  {
    LeadsOneStep(s, a);
    LeadsOn(s0, acts, s, [a], Apply(s, a));
  }

  /** Steps taken from a state that a run reaches continue that run, so every theorem about runs applies. */
  lemma LeadsExtendsRun(run: seq<State>, acts: seq<Action>, more: seq<Action>, s: State) returns (longer: seq<State>)
    requires IsRun(run, acts) && Leads(run[|acts|], more, s)
    ensures IsRun(longer, acts + more) && longer[|acts + more|] == s && run <= longer
  {
    var path :| IsPath(path, more) && path[0] == run[|acts|] && path[|more|] == s;
    longer := run + path[1..];
    forall i: nat | i < |acts + more| ensures Step(longer[i], (acts + more)[i], longer[i + 1]) {
      if i >= |acts| { assert StepAt(path, more, i - |acts|); }
    }
  }

  // ================================================================ the others

  /** Who runs a piece of code: a worker, or the reconciler. */
  datatype Actor = Worker(w: WorkerId) | Reconciler

  predicate IsOwn(actor: Actor, a: Action) {
    match actor
    case Worker(w) => a.Work? && a.w == w
    case Reconciler => a.Reconcile?
  }

  /** An action that is not the actor's own and is possible now. */
  predicate MayIntervene(s: State, actor: Actor, a: Action) {
    !IsOwn(actor, a) && Enabled(s, a)
  }

  /** The state after the others did what they could of `wanted`, in this order. */
  function Meanwhile(s: State, actor: Actor, wanted: seq<Action>): State {
    if wanted == [] then s
    else
      var before, a := Meanwhile(s, actor, wanted[..|wanted| - 1]), wanted[|wanted| - 1];
      if MayIntervene(before, actor, a) then Apply(before, a) else before
  }

  /** What they did. */
  function Happened(s: State, actor: Actor, wanted: seq<Action>): seq<Action> {
    if wanted == [] then []
    else
      var before, a := Meanwhile(s, actor, wanted[..|wanted| - 1]), wanted[|wanted| - 1];
      Happened(s, actor, wanted[..|wanted| - 1]) + if MayIntervene(before, actor, a) then [a] else []
  }

  /** None of the actions is the actor's own. */
  predicate NoneOwn(actor: Actor, acts: seq<Action>) {
    forall i :: 0 <= i < |acts| ==> !IsOwn(actor, acts[i])
  }

  lemma {:induction false} MeanwhileLeads(s: State, actor: Actor, wanted: seq<Action>)
    ensures Leads(s, Happened(s, actor, wanted), Meanwhile(s, actor, wanted))
    ensures NoneOwn(actor, Happened(s, actor, wanted))
  {
    if wanted == [] {
      LeadsNowhere(s);
    } else {
      var before, a := Meanwhile(s, actor, wanted[..|wanted| - 1]), wanted[|wanted| - 1];
      MeanwhileLeads(s, actor, wanted[..|wanted| - 1]);
      if MayIntervene(before, actor, a) {
        LeadsOneMore(s, Happened(s, actor, wanted[..|wanted| - 1]), before, a);
      } else {
        assert Happened(s, actor, wanted) == Happened(s, actor, wanted[..|wanted| - 1]);
      }
    }
  }

  /** The others leave a worker where it is. */
  lemma {:induction false} MeanwhileKeepsPc(s: State, w: WorkerId, wanted: seq<Action>)
    ensures At(Meanwhile(s, Worker(w), wanted), w) == At(s, w)
  {
    if wanted != [] {
      var before, a := Meanwhile(s, Worker(w), wanted[..|wanted| - 1]), wanted[|wanted| - 1];
      MeanwhileKeepsPc(s, w, wanted[..|wanted| - 1]);
      if MayIntervene(before, Worker(w), a) { StepLeavesOthers(before, a, w); }
    }
  }
}
