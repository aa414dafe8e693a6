# Prototype pattern: a verified model of the `Car` prototype

The program is a teaching example of the Prototype design pattern in C#.
One `Car` is built by its constructor, which stands for an expensive
initialisation and announces itself on the console ("Car created: …").
Further cars are made by calling `Clone()` on an existing one. `Clone()` is a
member-wise copy and announces nothing. Each car has three public, mutable
properties: `Model`, `Color` and `Year`. `Drive()` writes a line that reports
them. `Main` builds the original, clones it twice, changes two properties
of each clone, drives all three cars and prints their models. The point is
that the three cars stay independent.

The model has four modules:

- `Prototype` (prototype.dfy) holds the objects themselves.
  - `Car` is a class with the three fields. It has the announcing
    constructor, `Clone`, `Drive` and the three property setters, each with
    `modifies`/`fresh`/`unchanged` contracts stated through the car's
    `View()`.
  - `Console` stands for standard output. It records the lines written, as
    structured `Line` values.
  - `Int32` is C#'s `int`.
- `Clients` (clients.dfy) is a value-level reference semantics for any
  client code that uses cars.
  - A client program is a sequence of `Op`s. Each `Op` is one call of the
    constructor, `Clone`, a setter or `Drive`, or a model report.
  - Cars are numbered in the order they were made.
  - `Step` and `Run` give the effect of an operation and of a program on
    the cars and on the output.
  - The pattern's promises are proved as lemmas for every client program:
    independence, clone-of-clone independence, "only construction
    announces", and "`Drive` reports current values".
- `Simulation` (simulation.dfy) ties the two together.
  - A client holds its cars as a sequence of distinct objects, numbered in
    the order they were made.
  - `Exec` performs one `Op` by calling the constructor, `Clone`, a setter,
    `Drive` or `Console.WriteLine` on those objects.
  - It is proved, for every operation, to leave the cars' values and the
    console exactly as `Step` says. It keeps the cars distinct and only
    appends to them. So by `RunSnoc` a client that performs a program one
    `Exec` after another ends as `Run` says, and the `Clients` lemmas apply
    to it.
- `Demo` (demo.dfy) is `Main`'s fixed sequence.
  - `DemoProgram` is written section by section as a client program.
  - `DemoOutcome` computes its effect.
  - `RunDemo` runs the same sequence on real `Car` objects. It is proved to
    end with the three final cars and the output that `Run(DemoProgram)`
    gives.

The C# interface `ICarPrototype` declares `Clone` and `Drive`. Here they are
members of `Car` itself, and `Clone` returns a `Car`. So the model has no
downcast.

The second clone starts as a copy of the original (Mustang, Red, 1969).
Its color is then set to "Black" (PrototypeDP/Program.cs:88) and its model
to "Camaro" (PrototypeDP/Program.cs:89). It keeps the copied year 1969, so
it ends as (Camaro, Black, 1969).

## Model

| member | source | states |
|---|---|---|
| `Prototype.Console.WriteLine` | PrototypeDP/Program.cs:97-99 | Appends exactly the one given line to what was written before. Nothing else changes (`modifies this`). |
| `Prototype.Car.constructor` | PrototypeDP/Program.cs:34-43 | The fields hold exactly the given model, color and year. Exactly one line, `Created` with those three values, is appended to the console. |
| `Prototype.Car.Copy` | PrototypeDP/Program.cs:54 | Stands for the member-wise copy. The new car's fields equal the source's. The source is unchanged. Nothing is written. |
| `Prototype.Car.Clone` | PrototypeDP/Program.cs:46-55 | The result is a freshly allocated car, so it is not the receiver and not any existing object. Its model, color and year equal the receiver's at the call. It has no `modifies` clause, so the receiver and the console are unchanged. A clone is never announced. |
| `Prototype.Car.Drive` | PrototypeDP/Program.cs:57-60 | Appends exactly one `Driving` line with the car's current color, year and model. The car is unchanged. |
| `Prototype.Car.SetModel` | PrototypeDP/Program.cs:29 | Only this car's model becomes the new value. Its color and year are kept. No other object may change (`modifies this`). |
| `Prototype.Car.SetColor` | PrototypeDP/Program.cs:30 | Only this car's color becomes the new value. Its model and year are kept. No other object may change. |
| `Prototype.Car.SetYear` | PrototypeDP/Program.cs:31 | Only this car's year becomes the new value. Its model and color are kept. No other object may change. |
| `Clients.Step` | PrototypeDP/Program.cs:29-60 | One operation adds a car only when it constructs or clones. Every car the operation does not assign keeps its values. Output is only appended to. |
| `Clients.Run` | PrototypeDP/Program.cs:79-99 | A client program adds one car per construction or clone. Earlier output is kept as a prefix. |
| `Clients.RunAppend` | PrototypeDP/Program.cs:79-99 | Running two parts of a client program one after the other equals running the whole. |
| `Clients.RunSnoc` | PrototypeDP/Program.cs:79-99 | A program followed by one more operation is one more `Step` after the program. |
| `Clients.UntouchedCarKeepsValues` | PrototypeDP/Program.cs:83-89 | For any client program, a car that no operation assigns ends with the values it started with, whatever happens to the other cars. |
| `Clients.CloneIsIndependent` | PrototypeDP/Program.cs:46-54 | A clone starts equal to its source at the moment of cloning. After that, the source keeps its values under any program that does not assign it, and so does the clone. |
| `Clients.CloneOfCloneIsIndependent` | PrototypeDP/Program.cs:46-54 | A car, its clone and the clone's clone all start equal. Each keeps its values under any program that does not assign that car, so no state is shared across generations. |
| `Clients.OnlyConstructionAnnounces` | PrototypeDP/Program.cs:40 | The `Created` lines a program writes are exactly one per construction, in order and with the constructed values. Cloning, setting and driving add none. |
| `Clients.DriveReportsCurrentValues` | PrototypeDP/Program.cs:57-60 | After any prior program, `Drive` on a car appends exactly a `Driving` line with that car's values at that moment. No car changes. |
| `Simulation.Add` | PrototypeDP/Program.cs:34-55 | Constructing or cloning adds one fresh car at the end and keeps the cars distinct. The new values and the console are those `Step` gives for that operation. |
| `Simulation.Assign` | PrototypeDP/Program.cs:29-31 | A setter on car `t` leaves the cars' values as `Step` gives: only car `t`'s one property changes. The console cannot change. |
| `Simulation.Write` | PrototypeDP/Program.cs:57-60 | Driving a car or reporting its model leaves the console as `Step` gives: exactly the one line about that car appended. No car can change. |
| `Simulation.Exec` | PrototypeDP/Program.cs:29-60 | For every operation on distinct cars, the call on real objects keeps them distinct and only appends fresh cars. It ends with the cars' values and the console output that `Step` gives from their values and output before the call. |
| `Demo.PrototypePhase` | PrototypeDP/Program.cs:79 | Constructing the original gives car 0 = (Mustang, Red, 1969) and one `Created` line. |
| `Demo.ClonePhases` | PrototypeDP/Program.cs:83-89 | Clone 1 becomes (Mustang, Blue, 1970) and clone 2 becomes (Camaro, Black, 1969). The original stays (Mustang, Red, 1969). Nothing is written. |
| `Demo.ReportPhases` | PrototypeDP/Program.cs:92-99 | Driving the three cars writes their three current states in order. Reporting writes the models Mustang, Mustang, Camaro. No car changes. |
| `Demo.DemoOutcome` | PrototypeDP/Program.cs:79-99 | After any earlier output, the whole sequence ends with the three final cars. It appends exactly the announcement, the three drive lines and the three model reports. |
| `Demo.DemoAnnouncesOnlyOriginal` | PrototypeDP/Program.cs:79-89 | Of the three cars, only the original is announced as created. |
| `Demo.RunDemo` | PrototypeDP/Program.cs:70-103 | On real objects, the three cars are distinct. They end as (Mustang, Red, 1969), (Mustang, Blue, 1970) and (Camaro, Black, 1969). Their states and the console output equal what `Run` gives for the demonstration program. |

## Left out

- Console output is modelled as a recorded sequence of structured lines,
  not as real I/O.
- The banner and section lines (PrototypeDP/Program.cs:72-78, 82, 91, 96,
  102) are not modelled. `DemoOutcome` holds after any earlier output, so
  it allows for the opening banner. The section lines printed between the
  demonstration's parts are not in the modelled output.
- The exact text of each line is not modelled: the interpolation and the
  decimal formatting of `Year`. A `Line` keeps the values that the text is
  made from. `Created` and `Driving` hold color, year and model, the order
  the text shows them in.
- C#'s `string` may be null, and the setters at PrototypeDP/Program.cs:29-30
  accept null. It is also a sequence of UTF-16 code units. The model's
  `string` is a non-null `seq<char>`, so null properties and encoding are
  not represented.
- The reflection-based `Object.MemberwiseClone()` is a runtime facility.
  It is replaced by the explicit field-by-field copy constructor
  `Car.Copy`.
- The interface `ICarPrototype` is not a separate type. Its two operations
  are members of `Car`, so the polymorphism over other prototype variants
  and the `(Car)` downcasts at PrototypeDP/Program.cs:83 and 87 are not
  represented. `Clone` returns a `Car` directly.
- Process start-up, the `args` parameter of `Main` and the exit status are
  not modelled. Neither is the fatal failure on running out of memory.
- `Clients.Step`: a client program names cars by allocation number, not by
  variables. Rebinding a variable to another car is outside the model. The
  demonstration never rebinds one.
