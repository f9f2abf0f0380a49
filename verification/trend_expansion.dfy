/** `trend_processing` of the silver-to-gold job: every weekly Google Trends
    row becomes seven daily rows, the week's last day being its `Week` date.
    Dates are day numbers. */
module TrendExpansion {

  const DaysPerWeek: nat := 7

  datatype WeekRow<T> = WeekRow(week: int, trendIndex: T)

  datatype DayRow<T> = DayRow(date: int, trendIndex: T)

  /** The seven rows one weekly row becomes: `week - 6` up to `week`. */
  function Block<T>(row: WeekRow<T>): (b: seq<DayRow<T>>)
    ensures |b| == DaysPerWeek
  {
    seq(DaysPerWeek, i requires 0 <= i < DaysPerWeek => DayRow(row.week - 6 + i, row.trendIndex))
  }

  /** The expansion of a table: the blocks of its rows, in row order. */
  function Expand<T>(rows: seq<WeekRow<T>>): (days: seq<DayRow<T>>)
  {
    if rows == [] then [] else Expand(rows[..|rows| - 1]) + Block(rows[|rows| - 1])
  }

  lemma {:induction false} ExpandLength<T>(rows: seq<WeekRow<T>>)
    ensures |Expand(rows)| == DaysPerWeek * |rows|
  {
    if rows != [] {
      ExpandLength(rows[..|rows| - 1]);
    }
  }

  /** Row `k` of the output is day `k % 7` of input row `k / 7`'s week. */
  lemma {:induction false} ExpandAt<T>(rows: seq<WeekRow<T>>, k: int)
    requires 0 <= k < DaysPerWeek * |rows|
    ensures |Expand(rows)| == DaysPerWeek * |rows|
    ensures Expand(rows)[k]
            == DayRow(rows[k / DaysPerWeek].week - 6 + k % DaysPerWeek, rows[k / DaysPerWeek].trendIndex)
  {
    ExpandLength(rows);
    var init := rows[..|rows| - 1];
    ExpandLength(init);
    if k < DaysPerWeek * |init| {
      ExpandAt(init, k);
    } else {
      assert k / DaysPerWeek == |init|;
    }
  }

  /** The two nested loops of `trend_processing`, appending one row per day. */
  method TrendProcessing<T>(rows: seq<WeekRow<T>>) returns (out: seq<DayRow<T>>)
    ensures out == Expand(rows)
  {
    out := [];
    var i := 0;
    while i < |rows|
      invariant 0 <= i <= |rows|
      invariant out == Expand(rows[..i])
    {
      var weekStart := rows[i].week - 6;
      var j := 0;
      while j < DaysPerWeek
        invariant 0 <= j <= DaysPerWeek
        invariant out == Expand(rows[..i]) + Block(rows[i])[..j]
      {
        out := out + [DayRow(weekStart + j, rows[i].trendIndex)];
        j := j + 1;
      }
      assert rows[..i + 1][..i] == rows[..i];
      i := i + 1;
    }
    assert rows[..i] == rows;
  }

  /** Seven output rows per input row; no input, no output. */
  lemma SevenRowsPerWeek<T>(rows: seq<WeekRow<T>>)
    ensures |Expand(rows)| == DaysPerWeek * |rows|
    ensures Expand(rows) == [] <==> rows == []
  {
    ExpandLength(rows);
  }

  /** Within one week's block the dates are consecutive and ascending, from
      `week - 6` to `week`, and every row carries the week's trend index. */
  lemma BlockDates<T>(rows: seq<WeekRow<T>>, i: int, j: int)
    requires 0 <= i < |rows| && 0 <= j < DaysPerWeek
    ensures |Expand(rows)| == DaysPerWeek * |rows|
    ensures Expand(rows)[DaysPerWeek * i + j].date == rows[i].week - 6 + j
    ensures Expand(rows)[DaysPerWeek * i + j].trendIndex == rows[i].trendIndex
    ensures j > 0 ==> Expand(rows)[DaysPerWeek * i + j].date == Expand(rows)[DaysPerWeek * i + j - 1].date + 1
  {
    ExpandAt(rows, DaysPerWeek * i + j);
    if j > 0 {
      ExpandAt(rows, DaysPerWeek * i + j - 1);
    }
  }

  /** The last row of each block is dated the week's own date. */
  lemma BlockEndsOnWeek<T>(rows: seq<WeekRow<T>>, i: int)
    requires 0 <= i < |rows|
    ensures |Expand(rows)| == DaysPerWeek * |rows|
    ensures Expand(rows)[DaysPerWeek * i + DaysPerWeek - 1].date == rows[i].week
  {
    BlockDates(rows, i, DaysPerWeek - 1);
  }

  /** Blocks keep the input order: the expansion of a concatenation is the
      concatenation of the expansions. */
  lemma {:induction false} ExpandAppend<T>(a: seq<WeekRow<T>>, b: seq<WeekRow<T>>)
    ensures Expand(a + b) == Expand(a) + Expand(b)
  {
    if b == [] {
      assert a + b == a;
    } else {
      var b' := b[..|b| - 1];
      var last := b[|b| - 1];
      ExpandAppend(a, b');
      assert (a + b)[..|a + b| - 1] == a + b' && (a + b)[|a + b| - 1] == last;
      calc {
        Expand(a + b);
        Expand(a + b') + Block(last);
        Expand(a) + Expand(b') + Block(last);
        Expand(a) + (Expand(b') + Block(last));
        Expand(a) + Expand(b);
      }
    }
  }
}
