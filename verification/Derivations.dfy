/** Derivation inputs, outputs and the recorded edges they stand for: two views of the
    same facts, kept in step. */
module Derivations {
  import opened Domain
  import opened Seqs
  import opened Store

  type DerivationId = int

  const INPUT_RELATIONS := {DirectInput, ContextExposure, RetrievedMemory, DistilledFrom, GeneratedFromTrace, ImportedDependency}

  datatype Input = Input(derivation: DerivationId, parent: Id, relation: Relation)

  datatype Problem = Died | NoSuchDerivation | NoSuchArtifact | UnknownRelation | SelfEdge | OutputImmutable

  datatype Facts = Facts(artifacts: set<Id>, outputs: map<DerivationId, Option<Id>>, inputs: seq<Input>, edges: set<Edge>) {
    function EdgeOf(i: Input): Option<Edge> {
      if i.derivation in outputs && outputs[i.derivation].Some?
      then Some(Edge(i.parent, outputs[i.derivation].value, i.relation)) else None
    }
  }

  /** Every edge comes from a recorded input of a derivation with an output; no input
      is its own derivation's output. Holds even in the middle of an operation. */
  ghost predicate Backed(s: Facts) {
    && (forall e :: e in s.edges ==> exists i :: i in s.inputs && s.EdgeOf(i) == Some(e))
    && (forall i :: i in s.inputs ==> i.derivation in s.outputs && s.outputs[i.derivation] != Some(i.parent))
  }

  ghost predicate Complete(s: Facts, i: Input) {
    s.EdgeOf(i).Some? ==> s.EdgeOf(i).value in s.edges
  }

  /** The edges are exactly the triples of the recorded inputs. */
  ghost predicate Lockstep(s: Facts) {
    Backed(s) && forall i :: i in s.inputs ==> Complete(s, i)
  }

  // ----- the operations

  function Created(s: Facts, d: DerivationId): Facts {
    if d in s.outputs then s else s.(outputs := s.outputs[d := None])
  }

  function Materialized(s: Facts, i: Input): Facts {
    match s.EdgeOf(i)
    case Some(e) => s.(edges := s.edges + {e})
    case None => s
  }

  function Attached(s: Facts, i: Input): Facts {
    Materialized(s.(inputs := s.inputs + [i]), i)
  }

  function InputProblem(s: Facts, i: Input): Option<Problem>
    requires i.derivation in s.outputs
  {
    if i.relation !in INPUT_RELATIONS then Some(UnknownRelation)
    else if i.parent !in s.artifacts then Some(NoSuchArtifact)
    else if s.outputs[i.derivation] == Some(i.parent) then Some(SelfEdge)
    else None
  }

  /** The inputs before the first bad one are kept. */
  function Added(s: Facts, d: DerivationId, todo: seq<(Id, Relation)>): (Facts, Option<Problem>)
    decreases |todo|
  {
    if d !in s.outputs then (s, Some(NoSuchDerivation))
    else if todo == [] then (s, None)
    else
      var i := Input(d, todo[0].0, todo[0].1);
      if InputProblem(s, i).Some? then (s, InputProblem(s, i))
      else Added(if i in s.inputs then s else Attached(s, i), d, todo[1..])
  }

  predicate HasParent(s: Facts, d: DerivationId, out: Id) {
    exists i :: i in s.inputs && i.derivation == d && i.parent == out
  }

  function MaterializedAll(s: Facts, d: DerivationId, todo: seq<Input>): Facts
    decreases |todo|
  {
    if todo == [] then s
    else MaterializedAll(if todo[0].derivation == d then Materialized(s, todo[0]) else s, d, todo[1..])
  }

  function OutputProblem(s: Facts, d: DerivationId, out: Id): Option<Problem> {
    if d !in s.outputs then Some(NoSuchDerivation)
    else if out !in s.artifacts then Some(NoSuchArtifact)
    else if HasParent(s, d, out) then Some(SelfEdge)
    else if s.outputs[d].Some? && s.outputs[d].value != out then Some(OutputImmutable)
    else None
  }

  function WithOutput(s: Facts, d: DerivationId, out: Id): (Facts, Option<Problem>) {
    if OutputProblem(s, d, out).Some? then (s, OutputProblem(s, d, out))
    else (MaterializedAll(s.(outputs := s.outputs[d := Some(out)]), d, s.inputs), None)
  }

  // ----- each keeps the views in step

  lemma MaterializedKeeps(s: Facts, i: Input)
    requires Backed(s) && i in s.inputs
    ensures Backed(Materialized(s, i)) && Complete(Materialized(s, i), i)
    ensures forall j :: Complete(s, j) ==> Complete(Materialized(s, i), j)
  {
  }

  lemma AttachedKeeps(s: Facts, i: Input)
    requires Backed(s) && i.derivation in s.outputs && s.outputs[i.derivation] != Some(i.parent)
    ensures Backed(s.(inputs := s.inputs + [i])) && Backed(Attached(s, i))
    ensures Lockstep(s) ==> Lockstep(Attached(s, i))
  {
    var mid := s.(inputs := s.inputs + [i]);
    assert i in mid.inputs;
    forall e | e in mid.edges ensures exists j :: j in mid.inputs && mid.EdgeOf(j) == Some(e) {
      var j :| j in s.inputs && s.EdgeOf(j) == Some(e);
      assert j in mid.inputs && mid.EdgeOf(j) == Some(e);
    }
    MaterializedKeeps(mid, i);
    if Lockstep(s) {
      forall j | j in Attached(s, i).inputs ensures Complete(Attached(s, i), j) {
        if j != i {
          assert j in s.inputs && Complete(s, j) && Complete(mid, j);
        }
      }
    }
  }

  lemma {:induction false} AddedKeeps(s: Facts, d: DerivationId, todo: seq<(Id, Relation)>)
    requires Backed(s)
    ensures var t := Added(s, d, todo).0;
      && Backed(t) && (Lockstep(s) ==> Lockstep(t))
      && t.outputs == s.outputs && t.artifacts == s.artifacts
    decreases |todo|
  {
    if d in s.outputs && todo != [] {
      var i := Input(d, todo[0].0, todo[0].1);
      if InputProblem(s, i).None? {
        AttachedKeeps(s, i);
        AddedKeeps(if i in s.inputs then s else Attached(s, i), d, todo[1..]);
      }
    }
  }

  lemma {:induction false} MaterializedAllKeeps(s: Facts, d: DerivationId, todo: seq<Input>)
    requires Backed(s) && forall i :: i in todo ==> i in s.inputs
    ensures var t := MaterializedAll(s, d, todo);
      && Backed(t) && t == s.(edges := t.edges)
      && (forall i :: i in todo && i.derivation == d ==> Complete(t, i))
      && (forall j :: Complete(s, j) ==> Complete(t, j))
    decreases |todo|
  {
    if todo != [] {
      assert todo[0] in todo;
      if todo[0].derivation == d {
        MaterializedKeeps(s, todo[0]);
      }
      var next := if todo[0].derivation == d then Materialized(s, todo[0]) else s;
      MaterializedAllKeeps(next, d, todo[1..]);
      assert forall i :: i in todo <==> i == todo[0] || i in todo[1..];
    }
  }

  lemma {:induction false} MaterializedOnly(s: Facts, d: DerivationId, todo: seq<Input>)
    ensures MaterializedAll(s, d, todo) == s.(edges := MaterializedAll(s, d, todo).edges)
    decreases |todo|
  {
    if todo != [] {
      MaterializedOnly(if todo[0].derivation == d then Materialized(s, todo[0]) else s, d, todo[1..]);
    }
  }

  /** `set_output` is refused for an unknown derivation, an unknown artifact, an artifact
      that is an input already, and another output than the one set, in this order; it
      changes nothing then, and otherwise the output and edges only. */
  lemma OutputMeans(s: Facts, d: DerivationId, out: Id)
    ensures var (t, r) := WithOutput(s, d, out);
      && (r == Some(NoSuchDerivation) <==> d !in s.outputs)
      && (r == Some(NoSuchArtifact) <==> d in s.outputs && out !in s.artifacts)
      && (r == Some(SelfEdge) <==> d in s.outputs && out in s.artifacts
                                   && exists i :: i in s.inputs && i.derivation == d && i.parent == out)
      && (r == Some(OutputImmutable) <==> d in s.outputs && out in s.artifacts && s.outputs[d] !in {None, Some(out)}
                                          && !(exists i :: i in s.inputs && i.derivation == d && i.parent == out))
      && r !in {Some(Died), Some(UnknownRelation)}
      && (r.Some? ==> t == s)
      && (r.None? ==> t == s.(outputs := s.outputs[d := Some(out)], edges := t.edges))
  {
    MaterializedOnly(s.(outputs := s.outputs[d := Some(out)]), d, s.inputs);
  }

  /** What `add_inputs` finds wrong with one input. */
  ghost predicate Wrong(s: Facts, d: DerivationId, x: (Id, Relation), r: Problem)
    requires d in s.outputs
  {
    var known := x.1 in {DirectInput, ContextExposure, RetrievedMemory, DistilledFrom, GeneratedFromTrace, ImportedDependency};
    match r
    case UnknownRelation => !known
    case NoSuchArtifact => known && x.0 !in s.artifacts
    case SelfEdge => known && x.0 in s.artifacts && s.outputs[d] == Some(x.0)
    case _ => false
  }

  /** `add_inputs` records the inputs before the first wrong one, each once, and stops
      there with what is wrong with it; without one it records them all. */
  lemma {:induction false} AddedMeans(s: Facts, d: DerivationId, todo: seq<(Id, Relation)>) returns (k: nat)
    ensures d !in s.outputs ==> Added(s, d, todo) == (s, Some(NoSuchDerivation))
    ensures d in s.outputs ==>
              var (t, r) := Added(s, d, todo);
              && k <= |todo| && (r.None? <==> k == |todo|)
              && (forall j, q :: 0 <= j < k ==> !Wrong(s, d, todo[j], q))
              && (k < |todo| ==> Wrong(s, d, todo[k], r.value))
              && (forall i :: i in t.inputs <==> i in s.inputs || exists j :: 0 <= j < k && i == Input(d, todo[j].0, todo[j].1))
              && s.inputs <= t.inputs && t == s.(inputs := t.inputs, edges := t.edges)
              && (Distinct(s.inputs) ==> Distinct(t.inputs))
    decreases |todo|
  {
    k := 0;
    if d in s.outputs && todo != [] {
      var i := Input(d, todo[0].0, todo[0].1);
      if InputProblem(s, i).None? {
        var next := if i in s.inputs then s else Attached(s, i);
        k := AddedMeans(next, d, todo[1..]);
        k := k + 1;
        var t := Added(s, d, todo).0;
        forall j, q | 0 <= j < k ensures !Wrong(s, d, todo[j], q) {
          if j > 0 {
            assert todo[1..][j - 1] == todo[j];
            assert Wrong(next, d, todo[j], q) == Wrong(s, d, todo[j], q);
          }
        }
        RowsListed(s.inputs, next.inputs, t.inputs, d, todo, k);
      }
    }
  }

  /** The rows of the first input and those of the rest are the rows of all. */
  lemma RowsListed(was: seq<Input>, mid: seq<Input>, now: seq<Input>, d: DerivationId, todo: seq<(Id, Relation)>, k: nat)
    requires 0 < k <= |todo|
    requires forall i :: i in mid <==> i in was || i == Input(d, todo[0].0, todo[0].1)
    requires forall i :: i in now <==> i in mid || exists j :: 0 <= j < k - 1 && i == Input(d, todo[1..][j].0, todo[1..][j].1)
    ensures forall i :: i in now <==> i in was || exists j :: 0 <= j < k && i == Input(d, todo[j].0, todo[j].1)
  {
    forall i ensures i in now <==> i in was || exists j :: 0 <= j < k && i == Input(d, todo[j].0, todo[j].1) {
      if i == Input(d, todo[0].0, todo[0].1) {
        assert 0 < k && i == Input(d, todo[0].0, todo[0].1);
      }
      if j :| 0 <= j < k - 1 && i == Input(d, todo[1..][j].0, todo[1..][j].1) {
        assert i == Input(d, todo[j + 1].0, todo[j + 1].1);
      }
      if j :| 0 < j < k && i == Input(d, todo[j].0, todo[j].1) {
        assert i == Input(d, todo[1..][j - 1].0, todo[1..][j - 1].1);
      }
    }
  }

  /** Setting the output completes every edge of the derivation, whatever an earlier
      crash left out; if nothing else was missing, the views are in step again. */
  lemma OutputCompletes(s: Facts, d: DerivationId, out: Id)
    requires Backed(s) && OutputProblem(s, d, out).None?
    ensures var t := WithOutput(s, d, out).0;
      && Backed(t) && t.outputs == s.outputs[d := Some(out)] && t.inputs == s.inputs && t.artifacts == s.artifacts
      && ((forall i :: i in s.inputs && i.derivation != d ==> Complete(s, i)) ==> Lockstep(t))
  {
    var mid := s.(outputs := s.outputs[d := Some(out)]);
    OutputBacked(s, d, out);
    MaterializedAllKeeps(mid, d, s.inputs);
    var t := WithOutput(s, d, out).0;
    if forall i :: i in s.inputs && i.derivation != d ==> Complete(s, i) {
      forall i | i in t.inputs ensures Complete(t, i) {
        if i.derivation != d {
          assert Complete(s, i) && Complete(mid, i);
        }
      }
    }
  }

  // ----- any interleaving

  datatype Op =
    | Create(d: DerivationId)
    | AddInputs(d: DerivationId, todo: seq<(Id, Relation)>)
    | SetOutput(d: DerivationId, out: Id)
    | NewArtifact(id: Id)

  function Apply(s: Facts, op: Op): Facts {
    match op
    case Create(d) => Created(s, d)
    case AddInputs(d, todo) => Added(s, d, todo).0
    case SetOutput(d, out) => WithOutput(s, d, out).0
    case NewArtifact(id) => s.(artifacts := s.artifacts + {id})
  }

  function Run(s: Facts, ops: seq<Op>): Facts
    decreases |ops|
  {
    if ops == [] then s else Run(Apply(s, ops[0]), ops[1..])
  }

  lemma ApplyKeeps(s: Facts, op: Op)
    requires Lockstep(s)
    ensures Lockstep(Apply(s, op))
    ensures forall d :: d in s.outputs && s.outputs[d].Some? ==>
              d in Apply(s, op).outputs && Apply(s, op).outputs[d] == s.outputs[d]
    ensures s.artifacts <= Apply(s, op).artifacts && s.outputs.Keys <= Apply(s, op).outputs.Keys
    ensures op.NewArtifact? ==> op.id in Apply(s, op).artifacts
    ensures op.Create? ==> op.d in Apply(s, op).outputs
  {
    match op
    case Create(d) => CreateKeeps(s, d);
    case AddInputs(d, todo) => AddedKeeps(s, d, todo);
    case SetOutput(d, out) => if OutputProblem(s, d, out).None? { OutputCompletes(s, d, out); }
    case NewArtifact(id) => ArtifactKeeps(s, id);
  }

  lemma CreateKeeps(s: Facts, d: DerivationId)
    requires Lockstep(s)
    ensures Lockstep(Created(s, d))
  {
    var t := Created(s, d);
    forall i | i in s.inputs ensures t.EdgeOf(i) == s.EdgeOf(i) {
    }
    forall i | i in t.inputs ensures Complete(t, i) {
      assert Complete(s, i);
    }
  }

  lemma ArtifactKeeps(s: Facts, id: Id)
    requires Lockstep(s)
    ensures Lockstep(s.(artifacts := s.artifacts + {id}))
  {
    var t := s.(artifacts := s.artifacts + {id});
    forall i ensures t.EdgeOf(i) == s.EdgeOf(i) {
    }
    forall i | i in t.inputs ensures Complete(t, i) {
      assert Complete(s, i);
    }
  }

  /** Edge `e` stands for a recorded input: it runs from the parent to the output of the
      derivation and bears the relation of the input. */
  ghost predicate Stands(s: Facts, e: Edge) {
    exists i :: i in s.inputs && i.derivation in s.outputs
      && i.parent == e.source && s.outputs[i.derivation] == Some(e.target) && i.relation == e.relation
  }

  lemma EdgeStands(s: Facts, e: Edge)
    ensures Stands(s, e) <==> exists i :: i in s.inputs && s.EdgeOf(i) == Some(e)
  {
    if Stands(s, e) {
      var i :| i in s.inputs && i.derivation in s.outputs
        && i.parent == e.source && s.outputs[i.derivation] == Some(e.target) && i.relation == e.relation;
      assert s.EdgeOf(i) == Some(e);
    }
    if i :| i in s.inputs && s.EdgeOf(i) == Some(e) {
      assert i.parent == e.source && s.outputs[i.derivation] == Some(e.target) && i.relation == e.relation;
    }
  }

  /** After any interleaving the edges are exactly those that stand for a recorded input,
      none is a self-edge, and an output once set is never changed. */
  lemma {:induction false} AlwaysInStep(s: Facts, ops: seq<Op>)
    requires Lockstep(s)
    ensures var t := Run(s, ops);
      && (forall e :: e in t.edges <==> Stands(t, e))
      && (forall e :: e in t.edges ==> e.source != e.target)
      && (forall d :: d in s.outputs && s.outputs[d].Some? ==> d in t.outputs && t.outputs[d] == s.outputs[d])
      && s.artifacts <= t.artifacts && s.outputs.Keys <= t.outputs.Keys
      && (forall id :: NewArtifact(id) in ops ==> id in t.artifacts)
      && (forall d :: Create(d) in ops ==> d in t.outputs)
      && Lockstep(t)
    decreases |ops|
  {
    if ops == [] {
      hide Stands;
      forall e ensures e in s.edges <==> Stands(s, e) {
        EdgeStands(s, e);
        if i :| i in s.inputs && s.EdgeOf(i) == Some(e) {
          assert Complete(s, i);
        }
      }
    } else {
      assert forall op :: op in ops <==> op == ops[0] || op in ops[1..];
      ApplyKeeps(s, ops[0]);
      AlwaysInStep(Apply(s, ops[0]), ops[1..]);
    }
  }

  // ----- order

  /** Two stores in step with the same outputs and the same inputs have the same edges. */
  lemma EdgesDetermined(a: Facts, b: Facts)
    requires Lockstep(a) && Lockstep(b) && a.outputs == b.outputs && forall i :: i in a.inputs <==> i in b.inputs
    ensures a.edges == b.edges
  {
    forall e ensures e in a.edges <==> e in b.edges {
      EdgeCarries(a, b, e);
      EdgeCarries(b, a, e);
    }
  }

  lemma EdgeCarries(a: Facts, b: Facts, e: Edge)
    requires Lockstep(a) && Lockstep(b) && a.outputs == b.outputs && forall i :: i in a.inputs <==> i in b.inputs
    ensures e in a.edges ==> e in b.edges
  {
    if e in a.edges {
      var i :| i in a.inputs && a.EdgeOf(i) == Some(e);
      assert i in b.inputs && b.EdgeOf(i) == Some(e) && Complete(b, i);
    }
  }

  predicate Acceptable(s: Facts, d: DerivationId, out: Id, todo: seq<(Id, Relation)>) {
    && d in s.outputs && s.outputs[d].None? && out in s.artifacts && !HasParent(s, d, out)
    && forall x :: x in todo ==> x.1 in INPUT_RELATIONS && x.0 in s.artifacts && x.0 != out
  }

  function Rows(s: Facts, d: DerivationId, todo: seq<(Id, Relation)>): seq<Input>
    decreases |todo|
  {
    if todo == [] then s.inputs
    else
      var i := Input(d, todo[0].0, todo[0].1);
      Rows(if i in s.inputs then s else s.(inputs := s.inputs + [i]), d, todo[1..])
  }

  lemma {:induction false} RowsIgnore(a: Facts, b: Facts, d: DerivationId, todo: seq<(Id, Relation)>)
    requires a.inputs == b.inputs
    ensures Rows(a, d, todo) == Rows(b, d, todo)
    decreases |todo|
  {
    if todo != [] {
      var i := Input(d, todo[0].0, todo[0].1);
      RowsIgnore(if i in a.inputs then a else a.(inputs := a.inputs + [i]),
                 if i in b.inputs then b else b.(inputs := b.inputs + [i]), d, todo[1..]);
    }
  }

  lemma {:induction false} AddedRows(s: Facts, d: DerivationId, todo: seq<(Id, Relation)>)
    requires d in s.outputs
    requires forall x :: x in todo ==> x.1 in INPUT_RELATIONS && x.0 in s.artifacts && s.outputs[d] != Some(x.0)
    ensures Added(s, d, todo).1.None? && Added(s, d, todo).0.inputs == Rows(s, d, todo)
    ensures Added(s, d, todo).0.outputs == s.outputs && Added(s, d, todo).0.artifacts == s.artifacts
    decreases |todo|
  {
    if todo != [] {
      assert todo[0] in todo;
      var i := Input(d, todo[0].0, todo[0].1);
      var next := if i in s.inputs then s else Attached(s, i);
      AddedRows(next, d, todo[1..]);
      RowsIgnore(next, if i in s.inputs then s else s.(inputs := s.inputs + [i]), d, todo[1..]);
    }
  }

  lemma {:induction false} RowsParents(s: Facts, d: DerivationId, todo: seq<(Id, Relation)>, i: Input)
    requires i in Rows(s, d, todo)
    ensures i in s.inputs || (i.derivation == d && (i.parent, i.relation) in todo)
    decreases |todo|
  {
    if todo != [] {
      var j := Input(d, todo[0].0, todo[0].1);
      RowsParents(if j in s.inputs then s else s.(inputs := s.inputs + [j]), d, todo[1..], i);
    }
  }

  /** Inputs first or output first: the same store. */
  lemma OrderDoesNotMatter(s: Facts, d: DerivationId, out: Id, todo: seq<(Id, Relation)>)
    requires Lockstep(s) && Acceptable(s, d, out, todo)
    ensures Run(s, [AddInputs(d, todo), SetOutput(d, out)]) == Run(s, [SetOutput(d, out), AddInputs(d, todo)])
  {
    var a, b := Apply(s, AddInputs(d, todo)), Apply(s, SetOutput(d, out));
    AddedRows(s, d, todo);
    AddedKeeps(s, d, todo);
    if HasParent(a, d, out) {
      var i :| i in a.inputs && i.derivation == d && i.parent == out;
      RowsParents(s, d, todo, i);
      assert false;
    }
    OutputCompletes(a, d, out);
    OutputCompletes(s, d, out);
    AddedRows(b, d, todo);
    AddedKeeps(b, d, todo);
    RowsIgnore(s, b, d, todo);
    var x, y := Apply(a, SetOutput(d, out)), Apply(b, AddInputs(d, todo));
    EdgesDetermined(x, y);
    assert [AddInputs(d, todo), SetOutput(d, out)][1..] == [SetOutput(d, out)];
    assert [SetOutput(d, out), AddInputs(d, todo)][1..] == [AddInputs(d, todo)];
    assert Run(x, []) == x && Run(y, []) == y;
  }

  // ----- after a crash

  /** A retry of `add_inputs` passes over every row already there, so an edge whose row
      was saved just before a crash stays missing until the output is set again. */
  lemma {:induction false} RetryRepairsNothing(s: Facts, d: DerivationId, todo: seq<(Id, Relation)>)
    requires forall x :: x in todo ==> Input(d, x.0, x.1) in s.inputs
    ensures Added(s, d, todo).0 == s
    decreases |todo|
  {
    if todo != [] {
      assert todo[0] in todo;
      RetryRepairsNothing(s, d, todo[1..]);
    }
  }

  // ----- the repository object

  /** Every row and every edge is a commit of its own; a process that has used up its
      lifetime dies before its next one. */
  class Repository {
    var state: Facts
    var lifetime: Option<nat>

    constructor ()
      ensures state == Facts({}, map[], [], {}) && lifetime.None?
    {
      state := Facts({}, map[], [], {});
      lifetime := None;
    }

    method Commit(next: Facts) returns (alive: bool)
      modifies this
      ensures state == if alive then next else old(state)
      ensures old(lifetime).None? ==> alive && lifetime.None?
    {
      alive := lifetime != Some(0);
      if !alive {
        return;
      }
      if lifetime.Some? {
        lifetime := Some(lifetime.value - 1);
      }
      state := next;
    }

    method Create(d: DerivationId) returns (alive: bool)
      modifies this
      ensures state == if alive then Created(old(state), d) else old(state)
      ensures old(lifetime).None? ==> alive && lifetime.None?
    {
      if d in state.outputs {
        return true;
      }
      alive := Commit(Created(state, d));
    }

    /** Adds the edge from the parent to the output, once, and nothing else. */
    method MaterializeEdge(i: Input) returns (alive: bool)
      requires i.derivation in state.outputs && state.outputs[i.derivation].Some?
      modifies this
      ensures state == if alive then Materialized(old(state), i) else old(state)
      ensures alive ==> old(state).outputs == state.outputs && i.derivation in state.outputs && state.outputs[i.derivation].Some?
      ensures alive ==>
                state == old(state).(edges := old(state).edges + {Edge(i.parent, state.outputs[i.derivation].value, i.relation)})
      ensures old(lifetime).None? ==> alive && lifetime.None?
    {
      var e := state.EdgeOf(i).value;
      if e in state.edges {
        assert state.edges + {e} == state.edges;
        return true;
      }
      alive := Commit(Materialized(state, i));
    }

    /** Without a crash, exactly `Added`; with one, the store is still backed. */
    method AddInputs(d: DerivationId, todo: seq<(Id, Relation)>) returns (r: Option<Problem>)
      requires Backed(state)
      modifies this
      ensures Backed(state) && state.outputs == old(state).outputs
      ensures r != Some(Died) ==> (state, r) == Added(old(state), d, todo)
      ensures old(lifetime).None? ==> r != Some(Died) && lifetime.None?
    {
      if d !in state.outputs {
        return Some(NoSuchDerivation);
      }
      for k := 0 to |todo|
        invariant Backed(state) && state.outputs == old(state).outputs
        invariant Added(state, d, todo[k..]) == Added(old(state), d, todo)
        invariant old(lifetime).None? ==> lifetime.None?
      {
        assert todo[k..][1..] == todo[k + 1..];
        var i := Input(d, todo[k].0, todo[k].1);
        if i.relation !in INPUT_RELATIONS {
          return Some(UnknownRelation);
        }
        if i.parent !in state.artifacts {
          return Some(NoSuchArtifact);
        }
        if state.outputs[d] == Some(i.parent) {
          return Some(SelfEdge);
        }
        if i in state.inputs {
          continue;
        }
        AttachedKeeps(state, i);
        var alive := Commit(state.(inputs := state.inputs + [i]));
        if !alive {
          return Some(Died);
        }
        if state.outputs[d].Some? {
          alive := MaterializeEdge(i);
          if !alive {
            return Some(Died);
          }
        }
      }
      return None;
    }

    /** The output row, then one edge per input. */
    method SetOutput(d: DerivationId, out: Id) returns (r: Option<Problem>)
      requires Backed(state)
      modifies this
      ensures Backed(state) && state.inputs == old(state).inputs
      ensures r != Some(Died) ==> (state, r) == WithOutput(old(state), d, out)
      ensures old(lifetime).None? ==> r != Some(Died) && lifetime.None?
    {
      if d !in state.outputs {
        return Some(NoSuchDerivation);
      }
      if out !in state.artifacts {
        return Some(NoSuchArtifact);
      }
      if HasParent(state, d, out) {
        return Some(SelfEdge);
      }
      if state.outputs[d].Some? && state.outputs[d].value != out {
        return Some(OutputImmutable);
      }
      OutputBacked(state, d, out);
      var inputs := state.inputs;
      var alive := Commit(state.(outputs := state.outputs[d := Some(out)]));
      if !alive {
        return Some(Died);
      }
      ghost var mid := state;
      for k := 0 to |inputs|
        invariant Backed(state) && state == mid.(edges := state.edges)
        invariant MaterializedAll(state, d, inputs[k..]) == MaterializedAll(mid, d, inputs)
        invariant old(lifetime).None? ==> lifetime.None?
      {
        assert inputs[k..][1..] == inputs[k + 1..];
        if inputs[k].derivation == d {
          MaterializedKeeps(state, inputs[k]);
          alive := MaterializeEdge(inputs[k]);
          if !alive {
            return Some(Died);
          }
        }
      }
      return None;
    }
  }

  lemma OutputBacked(s: Facts, d: DerivationId, out: Id)
    requires Backed(s) && OutputProblem(s, d, out).None?
    ensures Backed(s.(outputs := s.outputs[d := Some(out)]))
  {
    var mid := s.(outputs := s.outputs[d := Some(out)]);
    forall e | e in mid.edges ensures exists i :: i in mid.inputs && mid.EdgeOf(i) == Some(e) {
      var i :| i in s.inputs && s.EdgeOf(i) == Some(e);
      assert mid.EdgeOf(i) == Some(e);
    }
  }
}
