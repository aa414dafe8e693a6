/**
  The class against its reference semantics. A client holds its cars in the
  order they were made; `Exec` performs one `Op` on those objects by calling
  the corresponding constructor or method, and is proved to have exactly the
  effect `Clients.Step` gives on the cars' values and on the console. It
  keeps the cars distinct and only appends to them, so a client that
  performs a program one `Exec` after another ends, step by step through
  `Clients.RunSnoc`, with the values and the output `Clients.Run` gives.
 */
module Simulation {
  import opened Prototype
  import opened Clients

  /** No car occurs twice: each number names its own object. */
  ghost predicate Distinct(cars: seq<Car>)
  {
    forall i, j :: 0 <= i < j < |cars| ==> cars[i] != cars[j]
  }

  /** The current values of the numbered cars. */
  function Views(cars: seq<Car>): seq<Snapshot>
    reads cars
  {
    seq(|cars|, i requires 0 <= i < |cars| reads cars => cars[i].View())
  }

  /** Construction or cloning: a fresh car is added at the end and only a construction writes. */
  method Add(cars: seq<Car>, console: Console, op: Op) returns (cars': seq<Car>)
    requires op.Construct? || op.CloneOf?
    requires Distinct(cars)
    requires NamesExisting(op, |cars|)
    modifies console
    ensures Distinct(cars')
    ensures |cars'| == |cars| + 1 && cars'[..|cars|] == cars && fresh(cars'[|cars|])
    ensures Views(cars') == Step(World(old(Views(cars)), old(console.lines)), op).cars
    ensures console.lines == Step(World(old(Views(cars)), old(console.lines)), op).out
  {
    var car: Car;
    if op.Construct? {
      car := new Car(op.model, op.color, op.year, console);
    } else {
      car := cars[op.source].Clone();
    }
    cars' := cars + [car];
  }

  /** A property setter on one of the cars: only that car changes, and nothing is written. */
  method Assign(cars: seq<Car>, op: Op)
    requires op.SetModel? || op.SetColor? || op.SetYear?
    requires Distinct(cars)
    requires NamesExisting(op, |cars|)
    modifies cars
    ensures Views(cars) == Step(World(old(Views(cars)), []), op).cars
  {
    match op
    case SetModel(t, m) => cars[t].SetModel(m);
    case SetColor(t, c) => cars[t].SetColor(c);
    case SetYear(t, y) => cars[t].SetYear(y);
  }

  /** Driving or reporting a model: one line is written about one car, and no car changes. */
  method Write(cars: seq<Car>, console: Console, op: Op)
    requires op.Drive? || op.ReportModel?
    requires NamesExisting(op, |cars|)
    modifies console
    ensures console.lines == Step(World(Views(cars), old(console.lines)), op).out
  {
    match op
    case Drive(t) => cars[t].Drive(console);
    case ReportModel(caption, t) => console.WriteLine(ModelReport(caption, cars[t].model));
  }

  /**
    One operation on real objects. Construction and cloning add a fresh car
    at the end; the other operations keep the same objects. The new values of
    the cars and the new console contents are those `Step` gives.
   */
  method Exec(cars: seq<Car>, console: Console, op: Op) returns (cars': seq<Car>)
    requires Distinct(cars)
    requires NamesExisting(op, |cars|)
    modifies cars
    modifies console
    ensures Distinct(cars')
    ensures |cars'| == |cars| + Makes(op) && cars'[..|cars|] == cars
    ensures forall i :: |cars| <= i < |cars'| ==> fresh(cars'[i])
    ensures Views(cars') == Step(World(old(Views(cars)), old(console.lines)), op).cars
    ensures console.lines == Step(World(old(Views(cars)), old(console.lines)), op).out
  {
    if op.Construct? || op.CloneOf? {
      cars' := Add(cars, console, op);
    } else if op.Drive? || op.ReportModel? {
      Write(cars, console, op);
      cars' := cars;
    } else {
      Assign(cars, op);
      cars' := cars;
    }
  }
}
