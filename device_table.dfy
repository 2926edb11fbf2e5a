/**
 * The editable appliance table held in the session: three default rows at the
 * start, every row rewritten from its form widgets on each run of the script,
 * rows appended by "add" and the last row removed by "delete" while more than
 * three remain.
 */
module DeviceTable {
  import opened Energy
  import Tariff

  /** What a widget yields when the script reads it: the value it showed, or one the user entered. */
  datatype Entry<T> = Kept | Entered(value: T)

  /** The three widgets of one row: name, power in watts and daily hours. */
  datatype FormRow = FormRow(name: Entry<string>, watts: Entry<int>, hours: Entry<int>)

  /** The table never has fewer rows than this. */
  const MIN_ROWS: nat := 3

  /** A freshly added row: no name, 1 W, 1 hour. */
  const DEFAULT_DEVICE: Device := Device("", 1, 1)

  /**
   * The value a number widget with a lower bound of 1 yields: the stored value raised
   * to 1 when left as shown, and the entered value held at 1 or above otherwise.
   */
  function NumberWidget(stored: int, e: Entry<int>): (r: int)
    ensures r >= 1
    ensures e.Kept? && stored >= 1 ==> r == stored
    ensures e.Entered? && e.value >= 1 ==> r == e.value
  {
    match e
    case Kept => if stored >= 1 then stored else 1
    case Entered(v) => if v >= 1 then v else 1
  }

  /** The value a text widget yields: the stored name, or the one entered. */
  function TextWidget(stored: string, e: Entry<string>): string
  {
    match e
    case Kept => stored
    case Entered(s) => s
  }

  /** The row written back from the three widgets of a row that held `d`. */
  function FromForm(d: Device, f: FormRow): (r: Device)
    ensures Stored(r)
    ensures r.name == if f.name.Entered? then f.name.value else d.name
    ensures f.watts.Entered? && f.watts.value >= 1 ==> r.watts == f.watts.value
    ensures f.hours.Entered? && f.hours.value >= 1 ==> r.hours == f.hours.value
    ensures f.watts.Kept? && d.watts >= 1 ==> r.watts == d.watts
    ensures f.hours.Kept? && d.hours >= 1 ==> r.hours == d.hours
  {
    Device(TextWidget(d.name, f.name), NumberWidget(d.watts, f.watts), NumberWidget(d.hours, f.hours))
  }

  /**
   * The table after every row has been rewritten from its widgets: row by row, each
   * row is the one its own widgets yield, and every row is then storable.
   */
  function Edited(rows: seq<Device>, form: seq<FormRow>): (r: seq<Device>)
    requires |form| == |rows|
    ensures |r| == |rows|
    ensures forall i :: 0 <= i < |r| ==> r[i] == FromForm(rows[i], form[i]) && Stored(r[i])
  {
    if rows == [] then [] else [FromForm(rows[0], form[0])] + Edited(rows[1..], form[1..])
  }

  class Table {
    /** The rows in display order. */
    var rows: seq<Device>

    /** At least three rows, each with power and hours at least 1. */
    predicate Valid()
      reads this
    {
      |rows| >= MIN_ROWS && forall i :: 0 <= i < |rows| ==> Stored(rows[i])
    }

    /** The session starts with three default rows. */
    constructor ()
      ensures Valid()
      ensures rows == [DEFAULT_DEVICE, DEFAULT_DEVICE, DEFAULT_DEVICE]
    {
      rows := [DEFAULT_DEVICE, DEFAULT_DEVICE, DEFAULT_DEVICE];
    }

    /** Overwrites row `idx` with `d`; no other row changes. */
    method Store(idx: nat, d: Device)
      requires Valid() && idx < |rows| && Stored(d)
      modifies this
      ensures Valid()
      ensures rows == old(rows)[idx := d]
      ensures |rows| == |old(rows)| && rows[idx] == d
      ensures forall j :: 0 <= j < |rows| && j != idx ==> rows[j] == old(rows)[j]
    {
      rows := rows[idx := d];
    }

    /** Rewrites every row from its widgets, row by row in order. */
    method ApplyForm(form: seq<FormRow>)
      requires Valid() && |form| == |rows|
      modifies this
      ensures Valid()
      ensures rows == Edited(old(rows), form)
    {
      for idx := 0 to |rows|
        invariant Valid()
        invariant |rows| == |old(rows)|
        invariant forall k :: 0 <= k < idx ==> rows[k] == FromForm(old(rows)[k], form[k])
        invariant forall k :: idx <= k < |rows| ==> rows[k] == old(rows)[k]
      {
        var device := rows[idx];
        Store(idx, FromForm(device, form[idx]));
      }
      assert rows == Edited(old(rows), form);
    }

    /** "Add": appends a default row and leaves the existing rows as they are. */
    method Add()
      requires Valid()
      modifies this
      ensures Valid()
      ensures rows == old(rows) + [DEFAULT_DEVICE]
    {
      rows := rows + [DEFAULT_DEVICE];
    }

    /**
     * "Delete": the button is offered only while more than three rows remain, and
     * then removes the last row; otherwise nothing changes.
     */
    method Delete() returns (deleted: bool)
      requires Valid()
      modifies this
      ensures Valid()
      ensures deleted <==> |old(rows)| > MIN_ROWS
      ensures rows == if deleted then old(rows)[..|old(rows)| - 1] else old(rows)
      ensures |rows| >= MIN_ROWS
    {
      deleted := |rows| > MIN_ROWS;
      if deleted {
        rows := rows[..|rows| - 1];
      }
    }

    /**
     * One run of the calculator tab: the widgets rewrite every row, then a click on
     * "add" appends a default row, then a click on "delete" removes the last row if
     * the button is offered.
     */
    method Rerun(form: seq<FormRow>, addClicked: bool, deleteClicked: bool) returns (deleted: bool)
      requires Valid() && |form| == |rows|
      modifies this
      ensures Valid()
      ensures var grown := if addClicked then Edited(old(rows), form) + [DEFAULT_DEVICE]
                                       else Edited(old(rows), form);
              deleted == (deleteClicked && |grown| > MIN_ROWS) &&
              rows == if deleted then grown[..|grown| - 1] else grown
    {
      ApplyForm(form);
      if addClicked {
        Add();
      }
      deleted := false;
      if deleteClicked {
        deleted := Delete();
      }
    }
  }

  /** Adding a row raises the monthly total by exactly 0.03 kWh, the default row's 1 W for 1 hour a day. */
  lemma AddRaisesTotal(rows: seq<Device>)
    ensures TotalMonthlyKWh(rows + [DEFAULT_DEVICE]) == TotalMonthlyKWh(rows) + 0.03
  {
    TotalOfConcat(rows, [DEFAULT_DEVICE]);
  }

  /** Deleting the last row lowers the monthly total by exactly that row's monthly figure. */
  lemma DeleteLowersTotal(rows: seq<Device>)
    requires rows != []
    ensures TotalMonthlyKWh(rows[..|rows| - 1]) == TotalMonthlyKWh(rows) - MonthlyKWh(rows[|rows| - 1])
  {
    var front, last := rows[..|rows| - 1], rows[|rows| - 1];
    assert rows == front + [last];
    TotalOfConcat(front, [last]);
    assert TotalMonthlyKWh([last]) == MonthlyKWh(last) + TotalMonthlyKWh([]);
  }

  /** A valid table always draws at least 0.09 kWh a month: three rows of at least 0.03 kWh. */
  lemma ValidTableTotal(rows: seq<Device>)
    requires |rows| >= MIN_ROWS && forall i :: 0 <= i < |rows| ==> Stored(rows[i])
    ensures TotalMonthlyKWh(rows) >= 0.09
  {
  }

  /** The bill of a valid table is at least 9: its 0.09 kWh at the first rate. */
  lemma ValidTableBill(rows: seq<Device>)
    requires |rows| >= MIN_ROWS && forall i :: 0 <= i < |rows| ==> Stored(rows[i])
    ensures Tariff.Bill(TotalMonthlyKWh(rows)) >= 9.0
  {
    ValidTableTotal(rows);
  }
}
