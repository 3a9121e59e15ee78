/** Quantities in whole lots, and the threshold below which a quantity counts as zero. */
module Lots {
  const DUST: real := 0.000000000001

  function Lots(k: int, lot: real): real {
    k as real * lot
  }

  ghost predicate IsLots(x: real, lot: real) {
    exists k :: x == Lots(k, lot)
  }

  /** Whole lots above the threshold are zero or clearly not zero. */
  lemma {:induction false} LotsApart(x: real, lot: real)
    requires IsLots(x, lot) && lot > DUST
    ensures x == 0.0 || x > DUST || x < -DUST
  {
    var k :| x == Lots(k, lot);
    if k >= 1 {
      assert x >= lot by {
        assert x == (k - 1) as real * lot + lot;
      }
    } else if k <= -1 {
      assert x <= -lot by {
        assert x == (k + 1) as real * lot - lot;
      }
    }
  }

  lemma {:induction false} LotsSum(x: real, y: real, lot: real)
    requires IsLots(x, lot) && IsLots(y, lot)
    ensures IsLots(x + y, lot) && IsLots(x - y, lot)
  {
    var k :| x == Lots(k, lot);
    var j :| y == Lots(j, lot);
    assert x + y == Lots(k + j, lot);
    assert x - y == Lots(k - j, lot);
  }

  lemma {:induction false} NoLots(lot: real)
    ensures IsLots(0.0, lot)
  {
    assert 0.0 == Lots(0, lot);
  }
}
