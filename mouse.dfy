/** The mouse side of the HID layer: a persistent button byte, and reports of
    four bytes (buttons, x, y, wheel) that every movement and every change of
    the buttons sends.  A button is one bit of the button byte. */
module BeanMouse {
  import opened HidReport

  /** Bit `i` of `x` is set. */
  predicate Bit(x: bv8, i: nat)
    requires i < 8
  {
    (x >> i) & 1 == 1
  }

  /** `a` and `b` have some button in common. */
  predicate SharesButton(a: bv8, b: bv8) {
    exists i :: 0 <= i < 8 && Bit(a, i) && Bit(b, i)
  }

  /** Two button bytes share a button exactly when their bitwise AND is not
      zero, which is the test `isPressed` makes. */
  lemma SharesButtonIff(a: bv8, b: bv8)
    ensures SharesButton(a, b) <==> a & b != 0
  {
    if a & b != 0 {
      var i: nat :=
        if (a & b) & 0x01 != 0 then 0
        else if (a & b) & 0x02 != 0 then 1
        else if (a & b) & 0x04 != 0 then 2
        else if (a & b) & 0x08 != 0 then 3
        else if (a & b) & 0x10 != 0 then 4
        else if (a & b) & 0x20 != 0 then 5
        else if (a & b) & 0x40 != 0 then 6
        else 7;
      assert Bit(a, i) && Bit(b, i);
    } else {
      forall i | 0 <= i < 8
        ensures !(Bit(a, i) && Bit(b, i))
      {
        assert (a & b) >> i == 0;
      }
    }
  }

  /** What `buttons(b)` does to the button byte `cur`: the new byte, and the
      reports it sends (one, with no movement, only when the byte changes). */
  function ButtonsResult(cur: bv8, b: bv8): (r: (bv8, seq<Report>))
    ensures r.0 == b
    ensures r.1 != [] <==> b != cur
    ensures r.1 != [] ==> r.1 == [MouseReport(b, 0, 0, 0)]
  {
    if b != cur then (b, [MouseReport(b, 0, 0, 0)]) else (cur, [])
  }

  /** Pressing holds the union of the held and the pressed buttons, so that
      afterwards `isPressed` reports every pressed button as held. */
  lemma PressHolds(cur: bv8, b: bv8)
    ensures var n := ButtonsResult(cur, cur | b).0;
      n == cur | b && (b != 0 ==> SharesButton(n, b))
  {
    var n := cur | b;
    assert ButtonsResult(cur, n).0 == n;
    if b != 0 {
      assert SharesButton(n, b) by { SharesButtonIff(n, b); }
    }
  }

  /** Pressing sends a report exactly when some pressed button was up. */
  lemma PressReports(cur: bv8, b: bv8)
    ensures ButtonsResult(cur, cur | b).1 != [] <==> b & !cur != 0
  {
  }

  /** Releasing takes the released buttons out and leaves the others as they
      were, so that afterwards `isPressed` reports none of them as held. */
  lemma ReleaseHolds(cur: bv8, b: bv8)
    ensures var n := ButtonsResult(cur, cur & !b).0;
      n == cur & !b && !SharesButton(n, b)
  {
    var n := cur & !b;
    assert ButtonsResult(cur, n).0 == n;
    assert !SharesButton(n, b) by { SharesButtonIff(n, b); }
  }

  /** Releasing sends a report exactly when some released button was held,
      which is what `isPressed` tells. */
  lemma ReleaseReports(cur: bv8, b: bv8)
    ensures ButtonsResult(cur, cur & !b).1 != [] <==> SharesButton(cur, b)
  {
    SharesButtonIff(cur, b);
  }

  /** Pressing and then releasing the same buttons leaves exactly the buttons
      that were held and are not among them. */
  lemma PressThenRelease(cur: bv8, b: bv8)
    ensures ButtonsResult(ButtonsResult(cur, cur | b).0, ButtonsResult(cur, cur | b).0 & !b).0 ==
      cur & !b
  {
    var n := cur | b;
    assert ButtonsResult(cur, cur | b).0 == n;
    assert ButtonsResult(n, n & !b).0 == n & !b;
    UnionMinus(cur, b);
  }

  /** Taking `b` out of `cur | b` gives `cur` without `b`. */
  lemma UnionMinus(cur: bv8, b: bv8)
    ensures (cur | b) & !b == cur & !b
  {
  }

  class Mouse {
    /** `_buttons`: the buttons currently held. */
    var buttons: bv8
    /** Every report handed to the serial transport, oldest first. */
    ghost var sent: seq<Report>

    /** The mouse object starts with no button held. */
    constructor ()
      ensures buttons == 0 && sent == []
    {
      buttons := 0;
      sent := [];
    }

    /** `sendReport`: hands a four-byte mouse report to the transport. */
    method SendReport(b: bv8, x: int8, y: int8, wheel: int8)
      modifies this`sent
      ensures sent == old(sent) + [MouseReport(b, x, y, wheel)]
    {
      if MouseInReportLen as nat <= DevDataLen {
        sent := sent + [MouseReport(b, x, y, wheel)];
      }
    }

    /** `move(x, y, wheel)`: sends the held buttons with a relative movement. */
    method Move(x: int8, y: int8, wheel: int8)
      modifies this`sent
      ensures sent == old(sent) + [MouseReport(buttons, x, y, wheel)]
    {
      SendReport(buttons, x, y, wheel);
    }

    /** `click(b)`: sends `b` held and then nothing held, without movement, and
        leaves no button held whatever was held before. */
    method Click(b: bv8)
      modifies this`buttons, this`sent
      ensures buttons == 0
      ensures sent == old(sent) + [MouseReport(b, 0, 0, 0), MouseReport(0, 0, 0, 0)]
    {
      buttons := b;
      Move(0, 0, 0);
      buttons := 0;
      Move(0, 0, 0);
    }

    /** `buttons(b)`: makes `b` the held buttons, reporting only a change. */
    method SetButtons(b: bv8)
      modifies this`buttons, this`sent
      ensures buttons == ButtonsResult(old(buttons), b).0
      ensures sent == old(sent) + ButtonsResult(old(buttons), b).1
    {
      if b != buttons {
        buttons := b;
        Move(0, 0, 0);
      } else {
        assert sent == old(sent) + [];
      }
    }

    /** `press(b)`: adds the buttons of `b` to the held ones. */
    method Press(b: bv8)
      modifies this`buttons, this`sent
      ensures buttons == ButtonsResult(old(buttons), old(buttons) | b).0
      ensures sent == old(sent) + ButtonsResult(old(buttons), old(buttons) | b).1
    {
      SetButtons(buttons | b);
    }

    /** `release(b)`: takes the buttons of `b` out of the held ones. */
    method Release(b: bv8)
      modifies this`buttons, this`sent
      ensures buttons == ButtonsResult(old(buttons), old(buttons) & !b).0
      ensures sent == old(sent) + ButtonsResult(old(buttons), old(buttons) & !b).1
    {
      SetButtons(buttons & !b);
    }

    /** `isPressed(b)`: whether any button of `b` is held. */
    method IsPressed(b: bv8) returns (r: bool)
      ensures r <==> SharesButton(b, buttons)
    {
      SharesButtonIff(b, buttons);
      r := b & buttons > 0;
    }
  }
}
