/**
 * Master stock as the handlers compute it: the sum of the variants' stocks, each counted
 * from zero.
 */
module StockSum {
  import opened Wrappers

  function Sum(levels: seq<int>): (t: int)
    ensures t >= 0
  {
    if levels == [] then 0 else Max(0, levels[0]) + Sum(levels[1..])
  }

  lemma SumCons(level: int, levels: seq<int>)
    ensures Sum([level] + levels) == Max(0, level) + Sum(levels)
  {
    assert ([level] + levels)[1..] == levels;
  }

  lemma {:induction false} SumChange(levels: seq<int>, k: nat, level: int)
    requires k < |levels|
    ensures Sum(levels[k := level]) == Sum(levels) - Max(0, levels[k]) + Max(0, level)
  {
    if k == 0 {
      assert levels[k := level][1..] == levels[1..];
    } else {
      SumChange(levels[1..], k - 1, level);
      assert levels[k := level][1..] == levels[1..][k - 1 := level];
    }
  }
}
