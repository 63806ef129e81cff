/** Reading a booking's price text back as a number, and summing those
    numbers the way the provider views do (`reduce` over `parseFloat`). */
module Pricing {
  import opened Types
  import opened Text
  import opened Numbers

  /** The Indian rupee sign U+20B9, one UTF-16 unit. */
  const Rupee: char := '\U{20B9}'

  /** `price.replace('₹', '').replace(',', '') || '0'`: only the first rupee
      sign and the first comma are removed, and empty text becomes "0". */
  function PriceText(price: string): (t: string)
    ensures t != ""
  {
    var u := RemoveFirst(RemoveFirst(price, Rupee), ',');
    if u == "" then "0" else u
  }

  /** The value the provider views read out of a price text; None is NaN. */
  function PriceValue(price: string): Option<real> {
    ParseFloat(PriceText(price))
  }

  /** `+` on numbers that may be NaN. */
  function Add(x: Option<real>, y: Option<real>): (r: Option<real>)
    ensures r.None? <==> x.None? || y.None?
  {
    if x.Some? && y.Some? then Some(x.value + y.value) else None
  }

  /** `bs.reduce((acc, b) => acc + PriceValue(b.price), 0)` */
  function Total(bs: seq<Booking>): Option<real> {
    if bs == [] then Some(0.0) else Add(PriceValue(bs[0].price), Total(bs[1..]))
  }

  /** The total is NaN exactly when some booking's price reads as NaN. */
  lemma {:induction false} TotalIsNaN(bs: seq<Booking>)
    ensures Total(bs).None? <==> exists i :: 0 <= i < |bs| && PriceValue(bs[i].price).None?
  {
    if bs != [] {
      var tail := bs[1..];
      TotalIsNaN(tail);
      if Total(bs).None? {
        if PriceValue(bs[0].price).Some? {
          var j :| 0 <= j < |tail| && PriceValue(tail[j].price).None?;
          assert bs[j + 1] == tail[j];
        }
      } else {
        forall i | 0 <= i < |bs| ensures PriceValue(bs[i].price).Some? {
          if i > 0 {
            assert bs[i] == tail[i - 1];
          }
        }
      }
    }
  }

  /** The total of two lists joined is the sum of their totals. */
  lemma {:induction false} TotalAppend(a: seq<Booking>, b: seq<Booking>)
    ensures Total(a + b) == Add(Total(a), Total(b))
  {
    if a == [] {
      assert a + b == b;
    } else {
      assert (a + b)[0] == a[0];
      assert (a + b)[1..] == a[1..] + b;
      TotalAppend(a[1..], b);
      var x, y, z := PriceValue(a[0].price), Total(a[1..]), Total(b);
      calc {
        Total(a + b);
        Add(x, Total(a[1..] + b));
        Add(x, Add(y, z));
        { AddAssociative(x, y, z); }
        Add(Add(x, y), z);
      }
    }
  }

  lemma {:induction false} AddAssociative(x: Option<real>, y: Option<real>, z: Option<real>)
    ensures Add(x, Add(y, z)) == Add(Add(x, y), z)
  {
  }

  lemma {:induction false} TotalSingle(b: Booking)
    ensures Total([b]) == Add(PriceValue(b.price), Some(0.0))
  {
    assert [b][1..] == [];
  }

  /** A price printed as "₹" followed by `String(x)` reads back as x. */
  lemma {:induction false} PriceOfNumberText(h: nat)
    ensures PriceValue([Rupee] + NumberText(h)) == Some(h as real / 100.0)
  {
    RemoveFirstLeading(Rupee, NumberText(h));
    NoCommaInNumberText(h);
    ParseNumberText(h);
  }

  /** A price printed as "₹" followed by `x.toFixed(2)` reads back as x. */
  lemma {:induction false} PriceOfFixed2(h: nat)
    ensures PriceValue([Rupee] + Fixed2(h)) == Some(h as real / 100.0)
  {
    RemoveFirstLeading(Rupee, Fixed2(h));
    assert ',' !in Fixed2(h) by {
      var t := Fixed2(h);
      assert forall i :: 0 <= i < |t| ==> IsDigit(t[i]) || t[i] == '.';
    }
    ParseFixed2(h);
  }

  lemma {:induction false} NoCommaInNumberText(h: nat)
    ensures ',' !in NumberText(h)
  {
    var t := NumberText(h);
    assert forall i :: 0 <= i < |t| ==> IsDigit(t[i]) || t[i] == '.';
  }

  /** A rupee sign followed by text with no comma that does not start a
      number reads as NaN. */
  lemma {:induction false} NoNumberIsNaN(s: string)
    requires |s| > 0 && !IsDigit(s[0]) && s[0] != '.' && s[0] != '-' && s[0] != '+'
    requires ',' !in s
    ensures PriceValue([Rupee] + s) == None
  {
    RemoveFirstLeading(Rupee, s);
    assert PriceText([Rupee] + s) == s;
  }

  /** Text left empty by the removals counts as zero. */
  lemma EmptyPriceIsZero()
    ensures PriceValue("") == Some(0.0)
    ensures PriceValue([Rupee]) == Some(0.0)
  {
    assert PriceText([Rupee]) == "0";
    NatTextThenStop(0, []);
    assert NatText(0) + [] == "0";
  }

  /** The price text of "₹", a comma-free head, a comma and a tail is
      the head and tail joined. */
  lemma {:induction false} PriceTextDropsFirstComma(head: string, tail: string)
    requires ',' !in head && head + tail != []
    ensures PriceText([Rupee] + (head + [','] + tail)) == head + tail
  {
    RemoveFirstLeading(Rupee, head + [','] + tail);
    RemoveFirstAfter(head, ',', tail);
  }

  lemma NatText100()
    ensures NatText(100) == "100"
  {
    assert NatText(1) == "1";
    assert NatText(10) == NatText(1) + "0";
  }

  lemma NatText1499()
    ensures NatText(1499) == "1" + "499"
  {
    assert NatText(1) == "1";
    assert NatText(14) == NatText(1) + "4";
    assert NatText(149) == NatText(14) + "9";
  }

  /** Only the first comma goes: "₹1,499" is 1499 ... */
  lemma CommaRemoved()
    ensures PriceValue([Rupee] + "1,499") == Some(1499.0)
  {
    PriceTextDropsFirstComma("1", "499");
    CommaPieces();
    NatText1499();
    NatTextThenStop(1499, []);
    assert NatText(1499) + [] == NatText(1499);
  }

  lemma CommaPieces()
    ensures "1" + [','] + "499" == "1,499"
  {
  }

  /** ... but "₹1,00,000" is 100, because parsing stops at the second comma. */
  lemma SecondCommaStopsParse()
    ensures PriceValue([Rupee] + "1,00,000") == Some(100.0)
  {
    SecondCommaText([Rupee] + "1,00,000");
    NatTextThenStop(100, ",000");
  }

  lemma {:induction false} SecondCommaText(price: string)
    requires price == [Rupee] + "1,00,000"
    ensures PriceText(price) == NatText(100) + ",000"
  {
    PriceTextDropsFirstComma("1", "00,000");
    SecondCommaPieces();
    NatText100();
  }

  lemma SecondCommaPieces()
    ensures "1" + [','] + "00,000" == "1,00,000"
    ensures "100" + ",000" == "1" + "00,000"
  {
  }
}
