/**
  The Prototype design pattern on cars: a `Car` made once by its (expensive)
  constructor, and further cars made cheaply by cloning an existing one.

  The prototype capability (`Clone` and `Drive`) is declared directly on the
  one concrete prototype, `Car`, so `Clone` returns a `Car` and callers need
  no downcast. Standard output is a `Console` object whose `lines` record
  what was written, one structured `Line` per written line.
 */
module Prototype {

  /** C#'s `int`: a signed 32-bit integer. */
  newtype Int32 = x: int | -0x8000_0000 <= x < 0x8000_0000

  /** The values of a car's three properties at one moment. */
  datatype Snapshot = Snapshot(model: string, color: string, year: Int32)

  /** A line written to standard output, kept in structured form. */
  datatype Line =
    | Created(color: string, year: Int32, model: string)  // "Car created: <color> <year> <model>"
    | Driving(color: string, year: Int32, model: string)  // "Driving the <color> <year> <model>."
    | ModelReport(caption: string, model: string)         // "<caption>: <model>"

  /** Standard output: the lines written so far, oldest first. */
  class Console {
    var lines: seq<Line>

    constructor ()
      ensures lines == []
    {
      lines := [];
    }

    method WriteLine(line: Line)
      modifies this
      ensures lines == old(lines) + [line]
    {
      lines := lines + [line];
    }
  }

  /** The concrete prototype. Its three properties are public and mutable. */
  class Car {
    var model: string
    var color: string
    var year: Int32

    /** The car's current property values. */
    function View(): Snapshot
      reads this
    {
      Snapshot(model, color, year)
    }

    /**
      The expensive construction: stores the three arguments and announces
      the new car on the console. It is the only way a `Created` line is
      written.
     */
    constructor (model: string, color: string, year: Int32, console: Console)
      modifies console
      ensures this.model == model && this.color == color && this.year == year
      ensures console.lines == old(console.lines) + [Created(color, year, model)]
    {
      this.model := model;
      this.color := color;
      this.year := year;
      new;
      console.WriteLine(Created(color, year, model));
    }

    /**
      Field-by-field copy that stands for the runtime's member-wise clone:
      the new car has the source's values and nothing is written anywhere.
     */
    constructor Copy(source: Car)
      ensures View() == source.View()
      ensures unchanged(source)
    {
      model := source.model;
      color := source.color;
      year := source.year;
    }

    /**
      A new car, distinct from every object that existed before the call,
      whose properties equal this car's at the moment of the call. With no
      `modifies` clause, no existing object changes: not this car, not the
      console.
     */
    method Clone() returns (copy: Car)
      ensures fresh(copy)
      ensures copy != this
      ensures copy.View() == View()
    {
      copy := new Car.Copy(this);
    }

    /** Writes a line that reports the car's current properties; the car does not change. */
    method Drive(console: Console)
      modifies console
      ensures unchanged(this)
      ensures console.lines == old(console.lines) + [Driving(color, year, model)]
    {
      console.WriteLine(Driving(color, year, model));
    }

    /** The `Model` setter: changes this car's model and nothing else. */
    method SetModel(model: string)
      modifies this
      ensures View() == old(View()).(model := model)
    {
      this.model := model;
    }

    /** The `Color` setter: changes this car's color and nothing else. */
    method SetColor(color: string)
      modifies this
      ensures View() == old(View()).(color := color)
    {
      this.color := color;
    }

    /** The `Year` setter: changes this car's year and nothing else. */
    method SetYear(year: Int32)
      modifies this
      ensures View() == old(View()).(year := year)
    {
      this.year := year;
    }
  }
}
