/**
 * pandas DataFrames as the modelled code uses them: an ordered list of column
 * names and the rows, each a dictionary from column name to cell. A cell
 * pandas would hold as missing (NaN) is `VNone` here.
 */
module Frames {
  import opened Values

  datatype Frame = Frame(columns: seq<string>, rows: seq<Dict>)
  {
    /** `df.empty`: no rows or no columns. */
    predicate IsEmpty() { |columns| == 0 || |rows| == 0 }

    /** Every row has a cell for exactly the frame's columns. */
    predicate WellFormed()
    {
      forall i | 0 <= i < |rows| :: rows[i].Keys == set c | c in columns
    }
  }
}
