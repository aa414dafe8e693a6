/**
  The demonstration the program runs: make one car, clone it twice, change
  two properties of each clone, drive all three and report their models.
  The banner and section lines it prints in between are not modelled.
 */
module Demo {
  import opened Prototype
  import opened Clients

  /** What the three cars hold at the end of the demonstration. */
  const OriginalFinal := Snapshot("Mustang", "Red", 1969)
  const Clone1Final := Snapshot("Mustang", "Blue", 1970)
  const Clone2Final := Snapshot("Camaro", "Black", 1969)

  /**
    The demonstration as a client program, section by section: car 0 is the
    original, cars 1 and 2 its clones.
   */
  const MakePrototype: seq<Op> := [Construct("Mustang", "Red", 1969)]
  const MakeClone1: seq<Op> := [CloneOf(0), SetColor(1, "Blue"), SetYear(1, 1970)]
  const MakeClone2: seq<Op> := [CloneOf(0), SetColor(2, "Black"), SetModel(2, "Camaro")]
  const DriveAll: seq<Op> := [Drive(0), Drive(1), Drive(2)]
  const ReportModels: seq<Op> := [
    ReportModel("Original Car Model", 0),
    ReportModel("Clone 1 Car Model", 1),
    ReportModel("Clone 2 Car Model", 2)
  ]
  const DemoProgram: seq<Op> := MakePrototype + MakeClone1 + MakeClone2 + DriveAll + ReportModels

  /** The lines the demonstration writes, banners left aside. */
  const Announcement: seq<Line> := [Created("Red", 1969, "Mustang")]
  const DriveLines: seq<Line> := [
    Driving("Red", 1969, "Mustang"),
    Driving("Blue", 1970, "Mustang"),
    Driving("Black", 1969, "Camaro")
  ]
  const ReportLines: seq<Line> := [
    ModelReport("Original Car Model", "Mustang"),
    ModelReport("Clone 1 Car Model", "Mustang"),
    ModelReport("Clone 2 Car Model", "Camaro")
  ]
  const DemoOutput: seq<Line> := Announcement + DriveLines + ReportLines

  const Finals := [OriginalFinal, Clone1Final, Clone2Final]

  /** The constructor makes car 0 and announces it after whatever was written before. */
  lemma PrototypePhase(out: seq<Line>)
    ensures WellFormed(0, MakePrototype)
    ensures Run(World([], out), MakePrototype) == World([OriginalFinal], out + Announcement)
  {
  }

  /** Each clone starts as the original and only its own setters change it; nothing is written. */
  lemma ClonePhases(out: seq<Line>)
    ensures WellFormed(1, MakeClone1)
    ensures Run(World([OriginalFinal], out), MakeClone1) == World([OriginalFinal, Clone1Final], out)
    ensures WellFormed(2, MakeClone2)
    ensures Run(World([OriginalFinal, Clone1Final], out), MakeClone2) == World(Finals, out)
  {
  }

  /** Driving and reporting read the cars, change none of them, and write one line each. */
  lemma ReportPhases(out: seq<Line>)
    ensures WellFormed(3, DriveAll)
    ensures Run(World(Finals, out), DriveAll) == World(Finals, out + DriveLines)
    ensures WellFormed(3, ReportModels)
    ensures Run(World(Finals, out), ReportModels) == World(Finals, out + ReportLines)
  {
  }

  /** The demonstration's lines, written after earlier output, follow it section by section. */
  lemma OutputAfter(out: seq<Line>)
    ensures out + Announcement + DriveLines + ReportLines == out + DemoOutput
  {
  }

  /**
    Run after any earlier output, the demonstration ends with the original
    unchanged and each clone holding its own two changes, and appends
    exactly the announcement, the three drive lines and the three model
    reports.
   */
  lemma {:induction false} DemoOutcome(out: seq<Line>)
    ensures WellFormed(0, DemoProgram)
    ensures Run(World([], out), DemoProgram) == World(Finals, out + DemoOutput)
  {
    var w0 := World([], out);
    PrototypePhase(out);
    ClonePhases(out + Announcement);
    ReportPhases(out + Announcement);
    ReportPhases(out + Announcement + DriveLines);
    RunAppend(w0, MakePrototype, MakeClone1);
    RunAppend(w0, MakePrototype + MakeClone1, MakeClone2);
    RunAppend(w0, MakePrototype + MakeClone1 + MakeClone2, DriveAll);
    RunAppend(w0, MakePrototype + MakeClone1 + MakeClone2 + DriveAll, ReportModels);
    OutputAfter(out);
  }

  /**
    Of the three cars, only the original is announced as created: the two
    clones are made without the construction message.
   */
  lemma {:induction false} DemoAnnouncesOnlyOriginal(out: seq<Line>)
    ensures WellFormed(0, DemoProgram)
    ensures Announced(Run(World([], out), DemoProgram).out) == Announced(out) + [OriginalFinal]
  {
    DemoOutcome(out);
    OnlyConstructionAnnounces(World([], out), DemoProgram);
    ConstructedAppend(MakePrototype, MakeClone1);
    ConstructedAppend(MakePrototype + MakeClone1, MakeClone2);
    ConstructedAppend(MakePrototype + MakeClone1 + MakeClone2, DriveAll);
    ConstructedAppend(MakePrototype + MakeClone1 + MakeClone2 + DriveAll, ReportModels);
  }

  /** The demonstration's output, one line after another as it is written. */
  lemma OutputLineByLine()
    ensures Announcement + DriveLines
      == Announcement + [DriveLines[0]] + [DriveLines[1]] + [DriveLines[2]]
    ensures DemoOutput
      == Announcement + DriveLines + [ReportLines[0]] + [ReportLines[1]] + [ReportLines[2]]
  {
  }

  /**
    The demonstration on real objects: three distinct cars whose final
    properties and whose console output are those of `DemoProgram`.
   */
  method RunDemo() returns (originalCar: Car, cloneCar1: Car, cloneCar2: Car, output: seq<Line>)
    ensures originalCar != cloneCar1 && originalCar != cloneCar2 && cloneCar1 != cloneCar2
    ensures originalCar.View() == OriginalFinal
    ensures cloneCar1.View() == Clone1Final
    ensures cloneCar2.View() == Clone2Final
    ensures WellFormed(0, DemoProgram)
    ensures [originalCar.View(), cloneCar1.View(), cloneCar2.View()] == Run(World([], []), DemoProgram).cars
    ensures output == Run(World([], []), DemoProgram).out
  {
    DemoOutcome([]);
    OutputLineByLine();
    var console := new Console();

    originalCar := new Car("Mustang", "Red", 1969, console);
    assert originalCar.View() == OriginalFinal && console.lines == Announcement;

    cloneCar1 := originalCar.Clone();
    cloneCar1.SetColor("Blue");
    cloneCar1.SetYear(1970);
    assert originalCar.View() == OriginalFinal && cloneCar1.View() == Clone1Final;

    cloneCar2 := originalCar.Clone();
    cloneCar2.SetColor("Black");
    cloneCar2.SetModel("Camaro");

    // Cloning and setting wrote nothing: only the constructor has written.
    assert console.lines == Announcement;
    assert [originalCar.View(), cloneCar1.View(), cloneCar2.View()] == Finals;

    originalCar.Drive(console);
    cloneCar1.Drive(console);
    cloneCar2.Drive(console);
    assert console.lines == Announcement + DriveLines;

    console.WriteLine(ModelReport("Original Car Model", originalCar.model));
    console.WriteLine(ModelReport("Clone 1 Car Model", cloneCar1.model));
    console.WriteLine(ModelReport("Clone 2 Car Model", cloneCar2.model));

    assert console.lines == DemoOutput;
    output := console.lines;
  }
}
