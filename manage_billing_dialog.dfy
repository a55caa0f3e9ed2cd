/**
 * The billing dialog's display helpers: the status badge colour and
 * label, the zero-padded expiry month, and the separators between
 * history entries.
 */
module ManageBillingDialog {
  import opened JsText
  import opened Lists

  /** `getStatusColor`. */
  function StatusColor(status: string): (r: string)
    ensures status == "paid" ==> r == "bg-green-100 text-green-800 border-green-200"
    ensures status == "pending" ==> r == "bg-yellow-100 text-yellow-800 border-yellow-200"
    ensures status == "failed" ==> r == "bg-red-100 text-red-800 border-red-200"
    ensures status != "paid" && status != "pending" && status != "failed" ==> r == GrayBadge
  {
    if status == "paid" then "bg-green-100 text-green-800 border-green-200"
    else if status == "pending" then "bg-yellow-100 text-yellow-800 border-yellow-200"
    else if status == "failed" then "bg-red-100 text-red-800 border-red-200"
    else GrayBadge
  }

  const GrayBadge := "bg-gray-100 text-gray-800 border-gray-200"

  /** Each known status has its own colour, and only unknown statuses are gray. */
  lemma StatusColorsDistinct(s: string, t: string)
    ensures StatusColor(s) == GrayBadge <==> s != "paid" && s != "pending" && s != "failed"
    ensures StatusColor(s) == StatusColor(t) && StatusColor(s) != GrayBadge ==> s == t
  {
    assert "bg-green-100 text-green-800 border-green-200"[3] == 'g';
    assert "bg-yellow-100 text-yellow-800 border-yellow-200"[3] == 'y';
    assert "bg-red-100 text-red-800 border-red-200"[3] == 'r';
    assert GrayBadge[3] == 'g' && GrayBadge[4] == 'r';
    assert "bg-green-100 text-green-800 border-green-200"[4] == 'r';
    assert "bg-green-100 text-green-800 border-green-200"[5] == 'e';
    assert GrayBadge[5] == 'a';
  }

  /** `s.padStart(n, c)` with a one-character filler. */
  function PadStart(s: string, n: nat, c: char): (r: string)
    ensures |r| == if |s| >= n then |s| else n
    ensures r[|r| - |s|..] == s
    ensures forall i | 0 <= i < |r| - |s| :: r[i] == c
  {
    if |s| >= n then s else seq(n - |s|, _ => c) + s
  }

  /** `expiryMonth.toString().padStart(2, '0')`. */
  function MonthLabel(month: int): (r: string)
    ensures |r| >= 2
  {
    PadStart(IntToString(month), 2, '0')
  }

  /** A month of the year is shown as exactly two digits, and reads back as the same month. */
  lemma MonthLabelReadsBack(month: int)
    requires 1 <= month <= 12
    ensures |MonthLabel(month)| == 2 && AllDigits(MonthLabel(month))
    ensures ParseInt(MonthLabel(month)) == Some(month)
  {
    if month < 10 {
      SingleDigitMonth(month);
      ZeroThenDigit(DigitChar(month));
    } else {
      TwoDigitMonth(month);
      ParseIntOfIntToString(month);
    }
  }

  lemma SingleDigitMonth(month: nat)
    requires month < 10
    ensures MonthLabel(month) == ['0', DigitChar(month)]
    ensures DigitValue(DigitChar(month)) == month
  {
    assert IntToString(month) == [DigitChar(month)];
  }

  lemma TwoDigitMonth(month: nat)
    requires 10 <= month < 100
    ensures MonthLabel(month) == IntToString(month)
    ensures |IntToString(month)| == 2 && AllDigits(IntToString(month))
  {
    assert IntToString(month) == NatToString(month / 10) + [DigitChar(month % 10)];
    assert NatToString(month / 10) == [DigitChar(month / 10)];
  }

  /** `parseInt` of a '0' followed by a digit is that digit's value. */
  lemma ZeroThenDigit(d: char)
    requires IsDigit(d)
    ensures ParseInt(['0', d]) == Some(DigitValue(d))
  {
    var r := ['0', d];
    ParseIntUnsigned(r);
    assert r[1..] == [d] && [d][1..] == [];
    assert DigitPrefix(r, 10) == r;
    assert r[..1] == ['0'] && ['0'][..0] == [];
    assert RadixValue(['0'], 10) == 0;
    assert RadixValue(r, 10) == DigitValue(d);
  }

  /** `s.charAt(0).toUpperCase() + s.slice(1)`. */
  function Capitalize(s: string): (r: string)
    ensures |r| == |s|
    ensures s != [] ==> r[0] == UpperChar(s[0]) && r[1..] == s[1..]
  {
    if s == [] then [] else [UpperChar(s[0])] + s[1..]
  }

  /** Capitalising only changes case, so it is undone by lower-casing. */
  lemma CapitalizeLowers(s: string)
    ensures Lower(Capitalize(s)) == Lower(s)
    ensures Capitalize(Capitalize(s)) == Capitalize(s)
  {
    if s != [] {
      assert Lower(Capitalize(s))[0] == Lower(s)[0];
      assert Capitalize(Capitalize(s))[0] == Capitalize(s)[0];
    }
  }

  lemma StatusLabels()
    ensures Capitalize("paid") == "Paid" && Capitalize("pending") == "Pending" && Capitalize("failed") == "Failed"
  {
  }

  /** `index < history.length - 1` for each entry: whether a separator follows it. */
  function Separators(count: nat): (r: seq<bool>)
    ensures |r| == count
  {
    seq(count, i => i < count - 1)
  }

  /** A separator follows every entry but the last, so there is one fewer than entries. */
  lemma SeparatorsBetween(count: nat)
    ensures forall i | 0 <= i < count :: Separators(count)[i] <==> i != count - 1
    ensures Count(Separators(count), (b: bool) => b) == if count == 0 then 0 else count - 1
  {
    if count > 0 {
      var s := Separators(count);
      var p := (b: bool) => b;
      assert s == s[..count - 1] + [s[count - 1]];
      CountAppend(s[..count - 1], [s[count - 1]], p);
      AllPass(s[..count - 1], p);
      assert Count([s[count - 1]], p) == 0 by {
        assert [s[count - 1]][1..] == [];
      }
    }
  }

  lemma {:induction false} AllPass(s: seq<bool>, p: bool -> bool)
    requires forall i | 0 <= i < |s| :: p(s[i])
    ensures Count(s, p) == |s|
    decreases |s|
  {
    if s != [] {
      AllPass(s[1..], p);
    }
  }

  lemma {:induction false} CountAppend(a: seq<bool>, b: seq<bool>, p: bool -> bool)
    ensures Count(a + b, p) == Count(a, p) + Count(b, p)
    decreases |a|
  {
    if a == [] {
      assert a + b == b;
    } else {
      assert (a + b)[1..] == a[1..] + b;
      CountAppend(a[1..], b, p);
    }
  }
}
