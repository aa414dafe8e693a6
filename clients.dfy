/**
  A value-level meaning for client code that works with cars: the cars a
  client holds are numbered in the order they were made, and a client
  program is a sequence of operations on them, each standing for one call on
  `Prototype.Car` (its constructor, `Clone`, a property setter, `Drive`) or
  for writing one car's model to the console.

  This is the reference against which the class is read: `Simulation.Exec`
  proves, for every operation, that the corresponding call on real objects
  has the effect `Step` gives on the numbered cars and on the output. The
  lemmas below state the pattern's promises for every client program, not
  only the demonstration.
 */
module Clients {
  import opened Prototype

  /** One operation of a client program; a car is named by its number. */
  datatype Op =
    | Construct(model: string, color: string, year: Int32)
    | CloneOf(source: nat)
    | SetModel(target: nat, model: string)
    | SetColor(target: nat, color: string)
    | SetYear(target: nat, year: Int32)
    | Drive(target: nat)
    | ReportModel(caption: string, target: nat)

  /** The cars made so far, numbered from 0, and the lines written so far. */
  datatype World = World(cars: seq<Snapshot>, out: seq<Line>)

  /** Every car that `op` names is one of the first `n` cars. */
  predicate NamesExisting(op: Op, n: nat)
  {
    match op
    case Construct(_, _, _) => true
    case CloneOf(s) => s < n
    case SetModel(t, _) => t < n
    case SetColor(t, _) => t < n
    case SetYear(t, _) => t < n
    case Drive(t) => t < n
    case ReportModel(_, t) => t < n
  }

  /** How many cars `op` makes. */
  function Makes(op: Op): nat
  {
    if op.Construct? || op.CloneOf? then 1 else 0
  }

  /** `op` assigns a property of car `i`. */
  predicate Writes(op: Op, i: nat)
  {
    (op.SetModel? || op.SetColor? || op.SetYear?) && op.target == i
  }

  /** Run on `n` cars, every operation of `ops` names a car that exists when it runs. */
  predicate WellFormed(n: nat, ops: seq<Op>)
    decreases |ops|
  {
    ops == [] || (NamesExisting(ops[0], n) && WellFormed(n + Makes(ops[0]), ops[1..]))
  }

  /** How many cars `ops` makes. */
  function MadeBy(ops: seq<Op>): nat
  {
    if ops == [] then 0 else Makes(ops[0]) + MadeBy(ops[1..])
  }

  /** The property values of the cars constructed by `ops`, in order. */
  function Constructed(ops: seq<Op>): seq<Snapshot>
  {
    if ops == [] then []
    else if ops[0].Construct? then [Snapshot(ops[0].model, ops[0].color, ops[0].year)] + Constructed(ops[1..])
    else Constructed(ops[1..])
  }

  /** The cars announced by the `Created` lines of `out`, in order. */
  function Announced(out: seq<Line>): seq<Snapshot>
  {
    if out == [] then []
    else if out[0].Created? then [Snapshot(out[0].model, out[0].color, out[0].year)] + Announced(out[1..])
    else Announced(out[1..])
  }

  /** Car `i` is not assigned by any operation of `ops`. */
  predicate Untouched(ops: seq<Op>, i: nat)
  {
    forall k :: 0 <= k < |ops| ==> !Writes(ops[k], i)
  }

  /**
    The effect of one operation. Only a constructed or cloned car is added,
    at the end; every car the operation does not assign keeps its values;
    output is only ever appended to.
   */
  function Step(w: World, op: Op): (w': World)
    requires NamesExisting(op, |w.cars|)
    ensures |w'.cars| == |w.cars| + Makes(op)
    ensures forall i :: 0 <= i < |w.cars| && !Writes(op, i) ==> w'.cars[i] == w.cars[i]
    ensures w.out <= w'.out
  {
    match op
    case Construct(m, c, y) => World(w.cars + [Snapshot(m, c, y)], w.out + [Created(c, y, m)])
    case CloneOf(s) => World(w.cars + [w.cars[s]], w.out)
    case SetModel(t, m) => World(w.cars[t := w.cars[t].(model := m)], w.out)
    case SetColor(t, c) => World(w.cars[t := w.cars[t].(color := c)], w.out)
    case SetYear(t, y) => World(w.cars[t := w.cars[t].(year := y)], w.out)
    case Drive(t) => World(w.cars, w.out + [Driving(w.cars[t].color, w.cars[t].year, w.cars[t].model)])
    case ReportModel(caption, t) => World(w.cars, w.out + [ModelReport(caption, w.cars[t].model)])
  }

  /** The effect of a whole program: the cars it makes are added and output is only appended to. */
  function Run(w: World, ops: seq<Op>): (w': World)
    requires WellFormed(|w.cars|, ops)
    ensures |w'.cars| == |w.cars| + MadeBy(ops)
    ensures w.out <= w'.out
    decreases |ops|
  {
    if ops == [] then w else Run(Step(w, ops[0]), ops[1..])
  }

  /** Running an operation and then a program is running the program on the operation's result. */
  lemma RunCons(w: World, op: Op, ops: seq<Op>)
    requires NamesExisting(op, |w.cars|)
    requires WellFormed(|w.cars| + Makes(op), ops)
    ensures WellFormed(|w.cars|, [op] + ops)
    ensures Run(w, [op] + ops) == Run(Step(w, op), ops)
  {
    assert ([op] + ops)[0] == op;
    assert ([op] + ops)[1..] == ops;
  }

  /** Running two programs one after the other is running their concatenation. */
  lemma {:induction false} RunAppend(w: World, a: seq<Op>, b: seq<Op>)
    requires WellFormed(|w.cars|, a)
    requires WellFormed(|Run(w, a).cars|, b)
    ensures WellFormed(|w.cars|, a + b)
    ensures Run(w, a + b) == Run(Run(w, a), b)
    decreases |a|
  {
    if a == [] {
      assert [] + b == b;
    } else {
      assert (a + b)[0] == a[0];
      assert (a + b)[1..] == a[1..] + b;
      RunAppend(Step(w, a[0]), a[1..], b);
    }
  }

  /** A program followed by one more operation is well formed when both parts are. */
  lemma {:induction false} WellFormedSnoc(n: nat, ops: seq<Op>, op: Op)
    ensures WellFormed(n, ops + [op]) <==> WellFormed(n, ops) && NamesExisting(op, n + MadeBy(ops))
    decreases |ops|
  {
    if ops == [] {
      assert [] + [op] == [op];
      assert [op][1..] == [];
    } else {
      assert (ops + [op])[0] == ops[0];
      assert (ops + [op])[1..] == ops[1..] + [op];
      WellFormedSnoc(n + Makes(ops[0]), ops[1..], op);
    }
  }

  /** Running one more operation is one more `Step` after the rest. */
  lemma {:induction false} RunSnoc(w: World, ops: seq<Op>, op: Op)
    requires WellFormed(|w.cars|, ops)
    requires NamesExisting(op, |w.cars| + MadeBy(ops))
    ensures WellFormed(|w.cars|, ops + [op])
    ensures Run(w, ops + [op]) == Step(Run(w, ops), op)
    decreases |ops|
  {
    WellFormedSnoc(|w.cars|, ops, op);
    if ops == [] {
      assert [] + [op] == [op];
      assert [op][1..] == [];
    } else {
      assert (ops + [op])[0] == ops[0];
      assert (ops + [op])[1..] == ops[1..] + [op];
      RunSnoc(Step(w, ops[0]), ops[1..], op);
    }
  }

  /**
    Independence: a car that no operation assigns ends with the values it
    started with, whatever the program does to the other cars, its clones
    included.
   */
  lemma {:induction false} UntouchedCarKeepsValues(w: World, ops: seq<Op>, i: nat)
    requires WellFormed(|w.cars|, ops)
    requires i < |w.cars|
    requires Untouched(ops, i)
    ensures Run(w, ops).cars[i] == w.cars[i]
    decreases |ops|
  {
    if ops != [] {
      assert !Writes(ops[0], i);
      assert Untouched(ops[1..], i) by {
        forall k | 0 <= k < |ops[1..]| ensures !Writes(ops[1..][k], i) {
          assert ops[1..][k] == ops[k + 1];
        }
      }
      UntouchedCarKeepsValues(Step(w, ops[0]), ops[1..], i);
    }
  }

  /** `Announced` of a concatenation is the concatenation of the parts' announcements. */
  lemma {:induction false} AnnouncedAppend(a: seq<Line>, b: seq<Line>)
    ensures Announced(a + b) == Announced(a) + Announced(b)
    decreases |a|
  {
    if a == [] {
      assert [] + b == b;
    } else {
      assert (a + b)[0] == a[0];
      assert (a + b)[1..] == a[1..] + b;
      AnnouncedAppend(a[1..], b);
    }
  }

  /** `Constructed` of a concatenation is the concatenation of the parts' constructions. */
  lemma {:induction false} ConstructedAppend(a: seq<Op>, b: seq<Op>)
    ensures Constructed(a + b) == Constructed(a) + Constructed(b)
    decreases |a|
  {
    if a == [] {
      assert [] + b == b;
    } else {
      assert (a + b)[0] == a[0];
      assert (a + b)[1..] == a[1..] + b;
      ConstructedAppend(a[1..], b);
    }
  }

  /**
    Construction is the only operation that announces a car: the `Created`
    lines a program writes are exactly one per `Construct`, in order and
    with its values. A clone is never announced.
   */
  lemma {:induction false} OnlyConstructionAnnounces(w: World, ops: seq<Op>)
    requires WellFormed(|w.cars|, ops)
    ensures Announced(Run(w, ops).out) == Announced(w.out) + Constructed(ops)
    decreases |ops|
  {
    if ops != [] {
      var w1 := Step(w, ops[0]);
      OnlyConstructionAnnounces(w1, ops[1..]);
      if ops[0].Construct? {
        var s := Snapshot(ops[0].model, ops[0].color, ops[0].year);
        AnnouncedAppend(w.out, [Created(s.color, s.year, s.model)]);
        assert Announced([Created(s.color, s.year, s.model)]) == [s];
      } else if ops[0].Drive? || ops[0].ReportModel? {
        AnnouncedAppend(w.out, [w1.out[|w1.out| - 1]]);
        assert w1.out == w.out + [w1.out[|w1.out| - 1]];
      }
    }
  }

  /**
    A clone starts with its source's values at the moment of cloning, and
    afterwards each of the two keeps its values as long as nothing assigns
    that one, whatever is done to the other.
   */
  lemma {:induction false} CloneIsIndependent(w: World, s: nat, ops: seq<Op>)
    requires s < |w.cars|
    requires WellFormed(|w.cars| + 1, ops)
    ensures WellFormed(|w.cars|, [CloneOf(s)] + ops)
    ensures var w' := Run(w, [CloneOf(s)] + ops);
      && (Untouched(ops, s) ==> w'.cars[s] == w.cars[s])
      && (Untouched(ops, |w.cars|) ==> w'.cars[|w.cars|] == w.cars[s])
  {
    var c := Step(w, CloneOf(s));
    RunCons(w, CloneOf(s), ops);
    if Untouched(ops, s) {
      UntouchedCarKeepsValues(c, ops, s);
    }
    if Untouched(ops, |w.cars|) {
      UntouchedCarKeepsValues(c, ops, |w.cars|);
    }
  }

  /**
    Cloning a clone: the original, its clone and the clone's clone all start
    equal, and each keeps its values under any program that does not assign
    it, so no state is shared across generations.
   */
  lemma {:induction false} CloneOfCloneIsIndependent(w: World, s: nat, ops: seq<Op>)
    requires s < |w.cars|
    requires WellFormed(|w.cars| + 2, ops)
    ensures WellFormed(|w.cars|, [CloneOf(s), CloneOf(|w.cars|)] + ops)
    ensures var w' := Run(w, [CloneOf(s), CloneOf(|w.cars|)] + ops);
      && (Untouched(ops, s) ==> w'.cars[s] == w.cars[s])
      && (Untouched(ops, |w.cars|) ==> w'.cars[|w.cars|] == w.cars[s])
      && (Untouched(ops, |w.cars| + 1) ==> w'.cars[|w.cars| + 1] == w.cars[s])
  {
    var n := |w.cars|;
    var c1 := Step(w, CloneOf(s));
    var c2 := Step(c1, CloneOf(n));
    assert c2.cars[s] == w.cars[s] && c2.cars[n] == w.cars[s] && c2.cars[n + 1] == w.cars[s];
    RunCons(c1, CloneOf(n), ops);
    RunCons(w, CloneOf(s), [CloneOf(n)] + ops);
    assert [CloneOf(s), CloneOf(n)] + ops == [CloneOf(s)] + ([CloneOf(n)] + ops);
    if Untouched(ops, s) {
      UntouchedCarKeepsValues(c2, ops, s);
    }
    if Untouched(ops, n) {
      UntouchedCarKeepsValues(c2, ops, n);
    }
    if Untouched(ops, n + 1) {
      UntouchedCarKeepsValues(c2, ops, n + 1);
    }
  }

  /**
    `Drive` reports the car's values at the time of the call, after
    whatever the program did to it before, and changes no car.
   */
  lemma {:induction false} DriveReportsCurrentValues(w: World, ops: seq<Op>, i: nat)
    requires WellFormed(|w.cars|, ops)
    requires i < |w.cars| + MadeBy(ops)
    ensures WellFormed(|w.cars|, ops + [Drive(i)])
    ensures var before := Run(w, ops);
      var after := Run(w, ops + [Drive(i)]);
      && after.cars == before.cars
      && after.out == before.out + [Driving(before.cars[i].color, before.cars[i].year, before.cars[i].model)]
  {
    RunSnoc(w, ops, Drive(i));
  }
}
