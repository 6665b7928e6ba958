/**
 * The hardware-free `Base` of fake.py: it tracks position and heading like the
 * real drive base, moves instantly, and logs every call.
 *
 * The `log` decorator appends one entry per call once the method body has
 * run: the method's name, its arguments with defaults filled in, and every
 * attribute whose name does not start with an underscore. The Python values
 * in an entry are the datatype `Value`; an entry, a Python dict, keeps its
 * keys in insertion order, so it is a sequence of (key, value) pairs.
 */
module Fake {
  import opened Wrappers
  import Geometry
  import Headings

  /** The Python values that appear in a log entry. */
  datatype Value =
    | Num(n: real)
    | Flag(b: bool)
    | NoneValue
    | Text(s: string)
    | Params(args: seq<(string, Value)>)

  /** One log entry: a dict from attribute or column name to value. */
  type Entry = seq<(string, Value)>

  /** One row of strings per entry, under one header per column. */
  datatype Table = Table(headers: seq<string>, rows: seq<seq<string>>)

  /** The keys of every entry the decorator writes: the two it adds, then the public attributes. */
  const StandardKeys: seq<string> := ["method", "params", "x", "y", "heading"]

  /** `list(entry.keys())`. */
  function Keys(e: Entry): (ks: seq<string>)
  {
    seq(|e|, i requires 0 <= i < |e| => e[i].0)
  }

  /** `entry[key]`; `None` where Python raises `KeyError`. */
  function Lookup(e: Entry, k: string): (r: Option<Value>)
  {
    if |e| == 0 then None
    else if e[0].0 == k then Some(e[0].1)
    else Lookup(e[1..], k)
  }

  /** An entry shaped as the decorator writes it. */
  predicate Standard(e: Entry)
  {
    Keys(e) == StandardKeys && e[1].1.Params?
  }

  /**
   * The entry the decorator appends: method name and bound arguments, then
   * the public attributes `x`, `y`, `heading`; it always has the standard shape.
   */
  function MakeEntry(name: string, params: seq<(string, Value)>, x: real, y: real, heading: real): (e: Entry)
    ensures Standard(e)
  {
    var e := [("method", Text(name)), ("params", Params(params)),
              ("x", Num(x)), ("y", Num(y)), ("heading", Num(heading))];
    assert Keys(e) == StandardKeys;
    e
  }

  /** `sep.join(parts)`. */
  function Join(sep: string, parts: seq<string>): (r: string)
  {
    if |parts| == 0 then ""
    else if |parts| == 1 then parts[0]
    else parts[0] + sep + Join(sep, parts[1..])
  }

  /** `', '.join(f'{k}={v!r}' for k, v in params.items())`. */
  function ParamsText(args: seq<(string, Value)>, repr: Value -> string): (r: string)
  {
    Join(", ", seq(|args|, i requires 0 <= i < |args| => args[i].0 + "=" + repr(args[i].1)))
  }

  /**
   * The text `_format_log_rows` puts in the cell of `e` under `key`; `None`
   * where Python raises (a missing key, or a `params` value that is not a dict).
   */
  function Cell(e: Entry, key: string, str: Value -> string, repr: Value -> string): (r: Option<string>)
    ensures r.Some? <==> key in Keys(e) && (key == "params" ==> Lookup(e, key).Some? && Lookup(e, key).value.Params?)
  {
    LookupFindsKey(e, key);
    match Lookup(e, key)
    case None => None
    case Some(v) =>
      if key == "params" then
        if v.Params? then Some(ParamsText(v.args, repr)) else None
      else Some(str(v))
  }

  /** Every cell of the table is defined. */
  predicate AllCells(log: seq<Entry>, headers: seq<string>, str: Value -> string, repr: Value -> string)
  {
    forall i, j :: 0 <= i < |log| && 0 <= j < |headers| ==> Cell(log[i], headers[j], str, repr).Some?
  }

  /** A lookup succeeds exactly for the keys the entry has. */
  lemma {:induction false} LookupFindsKey(e: Entry, k: string)
    ensures Lookup(e, k).Some? <==> k in Keys(e)
  {
    if |e| > 0 {
      LookupFindsKey(e[1..], k);
      assert Keys(e) == [e[0].0] + Keys(e[1..]);
    }
  }

  /** Looking up a key finds the value stored with its first occurrence. */
  lemma {:induction false} LookupFirst(e: Entry, j: int)
    requires 0 <= j < |e|
    requires forall b :: 0 <= b < j ==> e[b].0 != e[j].0
    ensures Lookup(e, e[j].0) == Some(e[j].1)
  {
    if j > 0 {
      assert e[1..][j - 1] == e[j];
      LookupFirst(e[1..], j - 1);
    }
  }

  /**
   * An entry holds the method name, the bound arguments and the public
   * attributes, and none of the underscore ones (`_verbose`, `_log`).
   */
  lemma EntryRecordsState(name: string, params: seq<(string, Value)>, x: real, y: real, heading: real)
    ensures var e := MakeEntry(name, params, x, y, heading);
      && Standard(e)
      && Lookup(e, "method") == Some(Text(name))
      && Lookup(e, "params") == Some(Params(params))
      && Lookup(e, "x") == Some(Num(x))
      && Lookup(e, "y") == Some(Num(y))
      && Lookup(e, "heading") == Some(Num(heading))
      && Lookup(e, "_verbose") == None
      && Lookup(e, "_log") == None
  {
    var e := MakeEntry(name, params, x, y, heading);
    assert Keys(e) == StandardKeys;
    LookupFirst(e, 0);
    LookupFirst(e, 1);
    LookupFirst(e, 2);
    LookupFirst(e, 3);
    LookupFirst(e, 4);
    LookupFindsKey(e, "_verbose");
    LookupFindsKey(e, "_log");
  }

  /** Every column of a decorator-written entry can be formatted. */
  lemma StandardCellsDefined(e: Entry, str: Value -> string, repr: Value -> string)
    requires Standard(e)
    ensures forall j :: 0 <= j < |StandardKeys| ==> Cell(e, StandardKeys[j], str, repr).Some?
  {
    assert |Keys(e)| == |e| == 5;
    assert e[0].0 == Keys(e)[0] && e[1].0 == Keys(e)[1];
    LookupFirst(e, 1);
    forall j | 0 <= j < |StandardKeys|
      ensures Cell(e, StandardKeys[j], str, repr).Some?
    {
      assert StandardKeys[j] == Keys(e)[j];
      LookupFindsKey(e, StandardKeys[j]);
    }
  }

  /**
   * `_format_log_rows`: no entries give no headers and no rows; otherwise the
   * headers are the first entry's keys and each entry gives one row with one
   * cell per header, unless some cell cannot be formatted. `str` and `repr`
   * are Python's conversions of a value to text.
   */
  method FormatRows(log: seq<Entry>, str: Value -> string, repr: Value -> string) returns (r: Option<Table>)
    ensures |log| == 0 ==> r == Some(Table([], []))
    ensures |log| > 0 ==> (r.Some? <==> AllCells(log, Keys(log[0]), str, repr))
    ensures |log| > 0 && r.Some? ==>
      && r.value.headers == Keys(log[0])
      && |r.value.rows| == |log|
      && (forall i :: 0 <= i < |log| ==> |r.value.rows[i]| == |r.value.headers|)
      && (forall i, j :: 0 <= i < |log| && 0 <= j < |r.value.headers| ==>
            Cell(log[i], r.value.headers[j], str, repr) == Some(r.value.rows[i][j]))
  {
    if |log| == 0 {
      return Some(Table([], []));
    }
    var headers := Keys(log[0]);
    var rows: seq<seq<string>> := [];
    var i := 0;
    while i < |log|
      invariant 0 <= i <= |log|
      invariant |rows| == i
      invariant forall a :: 0 <= a < i ==> |rows[a]| == |headers|
      invariant forall a, b :: 0 <= a < i && 0 <= b < |headers| ==>
        Cell(log[a], headers[b], str, repr) == Some(rows[a][b])
    {
      var row: seq<string> := [];
      var j := 0;
      while j < |headers|
        invariant 0 <= j <= |headers|
        invariant |row| == j
        invariant forall b :: 0 <= b < j ==> Cell(log[i], headers[b], str, repr) == Some(row[b])
      {
        var key := headers[j];
        var found := Lookup(log[i], key);
        if found.None? {
          assert Cell(log[i], headers[j], str, repr).None?;
          return None;
        }
        var text: string;
        if key == "params" {
          if !found.value.Params? {
            assert Cell(log[i], headers[j], str, repr).None?;
            return None;
          }
          text := ParamsText(found.value.args, repr);
        } else {
          text := str(found.value);
        }
        row := row + [text];
        j := j + 1;
      }
      rows := rows + [row];
      i := i + 1;
    }
    return Some(Table(headers, rows));
  }

  /**
   * The column widths of `_ascii_table`: `zip` stops at the shortest of the
   * header and the rows, and each width is the longest text in its column,
   * header included.
   */
  method ColumnWidths(headers: seq<string>, rows: seq<seq<string>>) returns (widths: seq<nat>)
    ensures |widths| <= |headers| && forall i :: 0 <= i < |rows| ==> |widths| <= |rows[i]|
    ensures |widths| == |headers| || exists i :: 0 <= i < |rows| && |widths| == |rows[i]|
    ensures forall j :: 0 <= j < |widths| ==> |headers[j]| <= widths[j]
    ensures forall i, j :: 0 <= i < |rows| && 0 <= j < |widths| ==> |rows[i][j]| <= widths[j]
    ensures forall j :: 0 <= j < |widths| ==>
      widths[j] == |headers[j]| || exists i :: 0 <= i < |rows| && widths[j] == |rows[i][j]|
  {
    var n := |headers|;
    var k := 0;
    while k < |rows|
      invariant 0 <= k <= |rows|
      invariant n <= |headers| && forall i :: 0 <= i < k ==> n <= |rows[i]|
      invariant n == |headers| || exists i :: 0 <= i < k && n == |rows[i]|
    {
      if |rows[k]| < n {
        n := |rows[k]|;
      }
      k := k + 1;
    }
    widths := [];
    var j := 0;
    while j < n
      invariant 0 <= j <= n
      invariant |widths| == j
      invariant forall b :: 0 <= b < j ==> |headers[b]| <= widths[b]
      invariant forall a, b :: 0 <= a < |rows| && 0 <= b < j ==> |rows[a][b]| <= widths[b]
      invariant forall b :: 0 <= b < j ==>
        widths[b] == |headers[b]| || exists a :: 0 <= a < |rows| && widths[b] == |rows[a][b]|
    {
      var w := |headers[j]|;
      var i := 0;
      while i < |rows|
        invariant 0 <= i <= |rows|
        invariant |headers[j]| <= w && forall a :: 0 <= a < i ==> |rows[a][j]| <= w
        invariant w == |headers[j]| || exists a :: 0 <= a < i && w == |rows[a][j]|
      {
        if |rows[i][j]| > w {
          w := |rows[i][j]|;
        }
        i := i + 1;
      }
      widths := widths + [w];
      j := j + 1;
    }
  }

  class Base {
    /** Python's `math`, which stands in for `umath` when the geometry is imported here. */
    const math: Geometry.Umath
    var x: real
    var y: real
    /** In degrees. */
    var heading: real
    /** `_verbose`: only switches printing on; not logged. */
    var verbose: bool
    /** `_log`. */
    var log: seq<Entry>

    /** Every entry was written by the decorator. */
    predicate Valid()
      reads this
    {
      forall i :: 0 <= i < |log| ==> Standard(log[i])
    }

    /** The `log` decorator's step after the body: one entry, recording the state the body left. */
    method Record(name: string, params: seq<(string, Value)>)
      modifies this`log
      ensures log == old(log) + [MakeEntry(name, params, x, y, heading)]
    {
      log := log + [MakeEntry(name, params, x, y, heading)];
    }

    /** `__init__`: at the origin, facing 0, with one entry in the log, its own. */
    constructor(math: Geometry.Umath, verbose: bool := false)
      ensures this.math == math && this.verbose == verbose
      ensures x == 0.0 && y == 0.0 && heading == 0.0
      ensures log == [MakeEntry("__init__", [("verbose", Flag(verbose))], 0.0, 0.0, 0.0)]
      ensures Valid()
    {
      this.math := math;
      x := 0.0;
      y := 0.0;
      heading := 0.0;
      this.verbose := verbose;
      log := [];
      new;
      Record("__init__", [("verbose", Flag(verbose))]);
      EntryRecordsState("__init__", [("verbose", Flag(verbose))], 0.0, 0.0, 0.0);
    }

    /** `reset_position`: overwrites `x` and `y`; the heading is untouched. */
    method ResetPosition(x: real := 0.0, y: real := 0.0)
      requires Valid()
      modifies this`x, this`y, this`log
      ensures this.x == x && this.y == y && heading == old(heading)
      ensures log == old(log) + [MakeEntry("reset_position", [("x", Num(x)), ("y", Num(y))], x, y, heading)]
      ensures Valid()
    {
      this.x := x;
      this.y := y;
      Record("reset_position", [("x", Num(x)), ("y", Num(y))]);
      EntryRecordsState("reset_position", [("x", Num(x)), ("y", Num(y))], x, y, heading);
    }

    /**
     * `turn_to`: turns by the shortest relative turn, so the new heading is
     * the requested one reduced to [0, 360).
     */
    method TurnTo(heading: real, stop: Value := NoneValue, wait: bool := true)
      requires Valid()
      modifies this`heading, this`log
      ensures this.heading == Headings.Mod360(heading)
      ensures log == old(log) + [MakeEntry("turn_to", [("heading", Num(heading)), ("then", stop), ("wait", Flag(wait))],
                                           x, y, this.heading)]
      ensures Valid()
    {
      var current := this.heading;
      var turn := Headings.RelativeTurn(heading - current);
      this.heading := Headings.Mod360(this.heading + turn);
      Headings.TurnReachesTarget(current, heading);
      Record("turn_to", [("heading", Num(heading)), ("then", stop), ("wait", Flag(wait))]);
      EntryRecordsState("turn_to", [("heading", Num(heading)), ("then", stop), ("wait", Flag(wait))], x, y, this.heading);
    }

    /**
     * `drive_to`: turns to the trajectory heading through `turn_to`, which logs
     * first, then moves to the target exactly and logs its own entry.
     */
    method DriveTo(x: real, y: real, stop: Value := NoneValue, wait: bool := true)
      requires Valid()
      modifies this`x, this`y, this`heading, this`log
      ensures var t := Geometry.ComputeTrajectory(math, old(this.x), old(this.y), x, y);
        && heading == Headings.Mod360(t.heading)
        && log == old(log) + [
             MakeEntry("turn_to", [("heading", Num(t.heading)), ("then", NoneValue), ("wait", Flag(true))],
                       old(this.x), old(this.y), heading),
             MakeEntry("drive_to", [("x", Num(x)), ("y", Num(y)), ("then", stop), ("wait", Flag(wait))],
                       x, y, heading)]
      ensures this.x == x && this.y == y
      ensures Valid()
    {
      var t := Geometry.ComputeTrajectory(math, this.x, this.y, x, y);
      TurnTo(t.heading);
      this.x := x;
      this.y := y;
      Record("drive_to", [("x", Num(x)), ("y", Num(y)), ("then", stop), ("wait", Flag(wait))]);
      EntryRecordsState("drive_to", [("x", Num(x)), ("y", Num(y)), ("then", stop), ("wait", Flag(wait))], x, y, heading);
    }

    /**
     * `_format_log_rows` on this base's log: every entry comes from the
     * decorator, so formatting cannot fail and the columns are the standard keys.
     */
    method FormatLogRows(str: Value -> string, repr: Value -> string) returns (r: Option<Table>)
      requires Valid()
      ensures |log| == 0 ==> r == Some(Table([], []))
      ensures |log| > 0 ==> r.Some? && r.value.headers == StandardKeys && |r.value.rows| == |log|
      ensures |log| > 0 ==> forall i, j :: 0 <= i < |log| && 0 <= j < |StandardKeys| ==>
        |r.value.rows[i]| == |StandardKeys| && Cell(log[i], StandardKeys[j], str, repr) == Some(r.value.rows[i][j])
    {
      forall i | 0 <= i < |log|
        ensures forall j :: 0 <= j < |StandardKeys| ==> Cell(log[i], StandardKeys[j], str, repr).Some?
      {
        StandardCellsDefined(log[i], str, repr);
      }
      r := FormatRows(log, str, repr);
    }
  }
}
