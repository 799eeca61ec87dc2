/** The block stages of compression.js that use no trigonometry, over a block held in place. */
module Compression {
  import opened QuantizationTable
  import opened Samples

  /** The 8x8 zero matrix, built row by row with pushes (initializeEmptyMatrix). */
  method InitializeEmptyMatrix() returns (matrix: seq<seq<int>>)
    ensures |matrix| == 8
    ensures forall x :: 0 <= x < 8 ==> |matrix[x]| == 8 && forall y :: 0 <= y < 8 ==> matrix[x][y] == 0
  {
    matrix := [];
    var x := 0;
    while x < 8
      invariant 0 <= x <= 8 && |matrix| == x
      invariant forall i :: 0 <= i < x ==> |matrix[i]| == 8 && forall j :: 0 <= j < 8 ==> matrix[i][j] == 0
    {
      var xMatrix := [];
      var y := 0;
      while y < 8
        invariant 0 <= y <= 8 && |xMatrix| == y
        invariant forall j :: 0 <= j < y ==> xMatrix[j] == 0
      {
        xMatrix := xMatrix + [0];
        y := y + 1;
      }
      matrix := matrix + [xMatrix];
      x := x + 1;
    }
  }

  /** Whether sample (x, y), channel c, comes before the loop position (channel, curX, curY)
      of a loop nest that runs channel outermost, then x, then y. */
  predicate Visited(x: int, y: int, c: int, channel: int, curX: int, curY: int) {
    c < channel || (c == channel && (x < curX || (x == curX && y < curY)))
  }

  /** normalize(section, factor): level-shifts channels 0 to 2 of the 8x8 samples; the alpha
      channel and anything beyond the 8x8 grid are left alone. */
  method Normalize(section: array3<real>, factor: int)
    requires section.Length0 >= 8 && section.Length1 >= 8 && section.Length2 >= 3
    modifies section
    ensures forall x, y, c :: 0 <= x < section.Length0 && 0 <= y < section.Length1 && 0 <= c < section.Length2 ==>
      section[x, y, c] == if x < 8 && y < 8 && c < 3 then LevelShift(old(section[x, y, c]), factor) else old(section[x, y, c])
  {
    var channel := 0;
    while channel < 3
      invariant 0 <= channel <= 3
      invariant forall x, y, c :: 0 <= x < section.Length0 && 0 <= y < section.Length1 && 0 <= c < section.Length2 ==>
        section[x, y, c] == if x < 8 && y < 8 && c < channel then LevelShift(old(section[x, y, c]), factor) else old(section[x, y, c])
    {
      var x := 0;
      while x < 8
        invariant 0 <= x <= 8
        invariant forall i, y, c :: 0 <= i < section.Length0 && 0 <= y < section.Length1 && 0 <= c < section.Length2 ==>
          section[i, y, c] == if i < 8 && y < 8 && Visited(i, y, c, channel, x, 0) then LevelShift(old(section[i, y, c]), factor) else old(section[i, y, c])
      {
        var y := 0;
        while y < 8
          invariant 0 <= y <= 8
          invariant forall i, j, c :: 0 <= i < section.Length0 && 0 <= j < section.Length1 && 0 <= c < section.Length2 ==>
            section[i, j, c] == if i < 8 && j < 8 && Visited(i, j, c, channel, x, y) then LevelShift(old(section[i, j, c]), factor) else old(section[i, j, c])
        {
          section[x, y, channel] := section[x, y, channel] + (128 * factor) as real;
          if section[x, y, channel] > 255.0 {
            section[x, y, channel] := 255.0;
          }
          y := y + 1;
        }
        x := x + 1;
      }
      channel := channel + 1;
    }
  }

  /** The script's global state: the adjusted quantization table shared by every block. */
  class Compressor {
    const adjustedTable: array2<int>

    ghost predicate Valid()
      reads this
    {
      adjustedTable.Length0 == 8 && adjustedTable.Length1 == 8
    }

    /** Whether the stored table is t, cell for cell. */
    ghost predicate Holds(t: seq<seq<int>>)
      reads this, adjustedTable
      requires Valid()
    {
      |t| == 8 && (forall x :: 0 <= x < 8 ==> |t[x]| == 8) &&
      forall x, y :: 0 <= x < 8 && 0 <= y < 8 ==> adjustedTable[x, y] == t[x][y]
    }

    /** Whether every stored step is at least 1, so quantize never divides by zero. */
    ghost predicate StepsPositive()
      reads this, adjustedTable
      requires Valid()
    {
      forall x, y :: 0 <= x < 8 && 0 <= y < 8 ==> adjustedTable[x, y] >= 1
    }

    /** The table starts as the zero matrix. */
    constructor ()
      ensures Valid() && fresh(adjustedTable)
      ensures forall x, y :: 0 <= x < 8 && 0 <= y < 8 ==> adjustedTable[x, y] == 0
    {
      var m := InitializeEmptyMatrix();
      adjustedTable := new int[8, 8]((x: int, y: int) requires 0 <= x < 8 && 0 <= y < 8 => m[x][y]);
    }

    /** calculateQuantizationTable(quality): overwrites all 64 cells from quality alone, so a
        second call with the same quality changes nothing. */
    method CalculateQuantizationTable(quality: int)
      requires Valid() && 1 <= quality <= 100
      modifies adjustedTable
      ensures Valid() && Holds(AdjustedTable(quality)) && StepsPositive()
      ensures old(Holds(AdjustedTable(quality))) ==> forall x, y :: 0 <= x < 8 && 0 <= y < 8 ==> adjustedTable[x, y] == old(adjustedTable[x, y])
    {
      ghost var target := AdjustedTable(quality);
      var x := 0;
      while x < 8
        invariant 0 <= x <= 8
        invariant forall i, j :: 0 <= i < x && 0 <= j < 8 ==> adjustedTable[i, j] == target[i][j]
      {
        var y := 0;
        while y < 8
          invariant 0 <= y <= 8
          invariant forall i, j :: 0 <= i < 8 && 0 <= j < 8 && (i < x || (i == x && j < y)) ==> adjustedTable[i, j] == target[i][j]
        {
          var quantizationValue;
          if quality < 50 {
            quantizationValue := (5000 * StandardQuantization[x][y] + 50 * quality) / (100 * quality);
          } else {
            quantizationValue := ((200 - 2 * quality) * StandardQuantization[x][y] + 50) / 100;
          }
          if quantizationValue == 0 {
            quantizationValue := 1;
          }
          adjustedTable[x, y] := quantizationValue;
          y := y + 1;
        }
        x := x + 1;
      }
    }

    /** quantize(section): channels 0 to 2 of every sample divided by the step at the same
        (x, y) and rounded; the loops run to the section's own dimensions. */
    method Quantize(section: array3<real>)
      requires Valid() && StepsPositive()
      requires section.Length0 <= 8 && section.Length1 <= 8 && section.Length2 >= 3
      modifies section
      ensures forall x, y, c :: 0 <= x < section.Length0 && 0 <= y < section.Length1 && 0 <= c < section.Length2 ==>
        section[x, y, c] == if c < 3 then QuantizeSample(old(section[x, y, c]), adjustedTable[x, y]) else old(section[x, y, c])
    {
      var channel := 0;
      while channel < 3
        invariant 0 <= channel <= 3
        invariant forall x, y, c :: 0 <= x < section.Length0 && 0 <= y < section.Length1 && 0 <= c < section.Length2 ==>
          section[x, y, c] == if c < channel then QuantizeSample(old(section[x, y, c]), adjustedTable[x, y]) else old(section[x, y, c])
      {
        var x := 0;
        while x < section.Length0
          invariant 0 <= x <= section.Length0
          invariant forall i, y, c :: 0 <= i < section.Length0 && 0 <= y < section.Length1 && 0 <= c < section.Length2 ==>
            section[i, y, c] == if Visited(i, y, c, channel, x, 0) then QuantizeSample(old(section[i, y, c]), adjustedTable[i, y]) else old(section[i, y, c])
        {
          var y := 0;
          while y < section.Length1
            invariant 0 <= y <= section.Length1
            invariant forall i, j, c :: 0 <= i < section.Length0 && 0 <= j < section.Length1 && 0 <= c < section.Length2 ==>
              section[i, j, c] == if Visited(i, j, c, channel, x, y) then QuantizeSample(old(section[i, j, c]), adjustedTable[i, j]) else old(section[i, j, c])
          {
            section[x, y, channel] := RoundHalfUp(section[x, y, channel] / adjustedTable[x, y] as real) as real;
            y := y + 1;
          }
          x := x + 1;
        }
        channel := channel + 1;
      }
    }

    /** dequantize(section): channels 0 to 2 of every sample multiplied by the step at the same
        (x, y); the loops run to the section's own dimensions. */
    method Dequantize(section: array3<real>)
      requires Valid()
      requires section.Length0 <= 8 && section.Length1 <= 8 && section.Length2 >= 3
      modifies section
      ensures forall x, y, c :: 0 <= x < section.Length0 && 0 <= y < section.Length1 && 0 <= c < section.Length2 ==>
        section[x, y, c] == if c < 3 then DequantizeSample(old(section[x, y, c]), adjustedTable[x, y]) else old(section[x, y, c])
    {
      var channel := 0;
      while channel < 3
        invariant 0 <= channel <= 3
        invariant forall x, y, c :: 0 <= x < section.Length0 && 0 <= y < section.Length1 && 0 <= c < section.Length2 ==>
          section[x, y, c] == if c < channel then DequantizeSample(old(section[x, y, c]), adjustedTable[x, y]) else old(section[x, y, c])
      {
        var x := 0;
        while x < section.Length0
          invariant 0 <= x <= section.Length0
          invariant forall i, y, c :: 0 <= i < section.Length0 && 0 <= y < section.Length1 && 0 <= c < section.Length2 ==>
            section[i, y, c] == if Visited(i, y, c, channel, x, 0) then DequantizeSample(old(section[i, y, c]), adjustedTable[i, y]) else old(section[i, y, c])
        {
          var y := 0;
          while y < section.Length1
            invariant 0 <= y <= section.Length1
            invariant forall i, j, c :: 0 <= i < section.Length0 && 0 <= j < section.Length1 && 0 <= c < section.Length2 ==>
              section[i, j, c] == if Visited(i, j, c, channel, x, y) then DequantizeSample(old(section[i, j, c]), adjustedTable[i, j]) else old(section[i, j, c])
          {
            section[x, y, channel] := section[x, y, channel] * adjustedTable[x, y] as real;
            y := y + 1;
          }
          x := x + 1;
        }
        channel := channel + 1;
      }
    }

    /** operate(section) without its two transform stages: the table for quality, then
        normalize(-1), quantize, dequantize and normalize(1), in the source's order. */
    method Operate(section: array3<real>, quality: int)
      requires Valid() && 1 <= quality <= 100
      requires section.Length0 == 8 && section.Length1 == 8 && section.Length2 >= 3
      modifies adjustedTable, section
      ensures Valid() && Holds(AdjustedTable(quality))
      ensures forall x, y, c :: 0 <= x < 8 && 0 <= y < 8 && 0 <= c < section.Length2 ==>
        section[x, y, c] == if c < 3 then Reconstruct(old(section[x, y, c]), AdjustedTable(quality)[x][y]) else old(section[x, y, c])
    {
      CalculateQuantizationTable(quality);
      Normalize(section, -1);
      Quantize(section);
      Dequantize(section);
      Normalize(section, 1);
    }
  }

  /** At quality 100 the covered stages give back every integer sample in [0, 255] exactly. */
  lemma CoveredStagesLosslessAtQuality100(k: int, x: int, y: int)
    requires 0 <= k <= 255 && 0 <= x < 8 && 0 <= y < 8
    ensures Reconstruct(k as real, AdjustedTable(100)[x][y]) == k as real
  {
    AdjustedTableAtQuality100();
    ReconstructExactAtUnitStep(k);
  }

  /** At any quality a sample in [0, 255] comes back within half the step at its position. */
  lemma CoveredStagesWithinHalfStep(v: real, quality: int, x: int, y: int)
    requires 0.0 <= v <= 255.0 && 1 <= quality <= 100 && 0 <= x < 8 && 0 <= y < 8
    ensures var t := AdjustedTable(quality)[x][y] as real;
      v - t / 2.0 < Reconstruct(v, AdjustedTable(quality)[x][y]) <= v + t / 2.0
  {
    ReconstructError(v, AdjustedTable(quality)[x][y]);
  }
}
