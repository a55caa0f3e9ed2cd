/**
 * The payment dialog: the four field rules of its schema, the card-number
 * grouping and expiry shaping applied on every keystroke, and the
 * processing/success flags of a submission.
 */
module PaymentModal {
  import opened JsText

  // ---------------------------------------------------------------------
  // Field rules
  // ---------------------------------------------------------------------

  /** A character allowed by `/^[0-9\s-]+$/`. */
  predicate CardChar(c: char) {
    IsDigit(c) || IsJsWhitespace(c) || c == '-'
  }

  /** Card number: 16 to 19 characters, each a digit, a white-space character or a hyphen. */
  predicate CardNumberRule(s: string) {
    16 <= |s| <= 19 && forall i | 0 <= i < |s| :: CardChar(s[i])
  }

  /** Card holder: at least 2 characters. */
  predicate CardHolderRule(s: string) {
    |s| >= 2
  }

  /** A month `01` to `12`, as two characters. */
  predicate MonthDigits(a: char, b: char) {
    (a == '0' && '1' <= b <= '9') || (a == '1' && '0' <= b <= '2')
  }

  /** Expiry: exactly `MM/YY`, with `MM` a month and `YY` any two digits. */
  predicate ExpiryRule(s: string) {
    |s| == 5 && MonthDigits(s[0], s[1]) && s[2] == '/' && IsDigit(s[3]) && IsDigit(s[4])
  }

  /** CVV: 3 or 4 characters, all digits. */
  predicate CvvRule(s: string) {
    3 <= |s| <= 4 && AllDigits(s)
  }

  datatype PaymentValues = PaymentValues(cardNumber: string, cardHolder: string, expiryDate: string, cvv: string)

  /**
   * The whole schema. An accepted expiry and CVV are left unchanged by
   * the shaping their inputs apply.
   */
  predicate ValidPayment(v: PaymentValues)
    ensures ValidPayment(v) ==> ShapeExpiry(v.expiryDate) == v.expiryDate && DigitsOf(v.cvv) == v.cvv
  {
    if CardNumberRule(v.cardNumber) && CardHolderRule(v.cardHolder) && ExpiryRule(v.expiryDate) && CvvRule(v.cvv) then
      ExpiryRuleShaped(v.expiryDate);
      DigitsOfFixpoint(v.cvv);
      true
    else false
  }

  /** The CVV rule accepts exactly the strings of 3 or 4 decimal digits. */
  lemma CvvRuleIff(s: string)
    ensures CvvRule(s) <==> (|s| == 3 || |s| == 4) && DigitsOf(s) == s
  {
    DigitsOfFixpoint(s);
  }

  // ---------------------------------------------------------------------
  // Card-number grouping
  // ---------------------------------------------------------------------

  /** `digits.replace(/(\d{4})(?=\d)/g, '$1 ')` on a string of digits. */
  function Group(d: string): string
    decreases |d|
  {
    if |d| > 4 then d[..4] + " " + Group(d[4..]) else d
  }

  /**
   * `formatCardNumber(value)`: the digits of the input, in groups of four;
   * n digits take n + (n - 1) / 4 characters.
   */
  function FormatCardNumber(value: string): (r: string)
    ensures DigitsOf(r) == DigitsOf(value)
    ensures |r| == if DigitsOf(value) == [] then 0 else |DigitsOf(value)| + (|DigitsOf(value)| - 1) / 4
  {
    var d := DigitsOf(value);
    DigitsOfGroup(d);
    GroupShape(d);
    Group(d)
  }

  /** The text without its space characters. */
  function RemoveSpaces(s: string): (r: string)
    ensures |r| <= |s|
    ensures ' ' !in r
    decreases |s|
  {
    if s == [] then [] else (if s[0] == ' ' then [] else [s[0]]) + RemoveSpaces(s[1..])
  }

  lemma {:induction false} RemoveSpacesAppend(a: string, b: string)
    ensures RemoveSpaces(a + b) == RemoveSpaces(a) + RemoveSpaces(b)
    decreases |a|
  {
    if a == [] {
      assert a + b == b;
    } else {
      assert (a + b)[1..] == a[1..] + b;
      RemoveSpacesAppend(a[1..], b);
    }
  }

  lemma {:induction false} RemoveSpacesOfDigits(d: string)
    requires AllDigits(d)
    ensures RemoveSpaces(d) == d
    decreases |d|
  {
    if d != [] {
      RemoveSpacesOfDigits(d[1..]);
      assert d == [d[0]] + d[1..];
    }
  }

  /**
   * The shape of a grouped string: its length, spaces exactly at the
   * positions 4, 9, 14, ... and digits everywhere else.
   */
  lemma {:induction false} GroupShape(d: string)
    requires AllDigits(d)
    ensures |Group(d)| == if d == [] then 0 else |d| + (|d| - 1) / 4
    ensures forall i | 0 <= i < |Group(d)| :: Group(d)[i] == ' ' <==> i % 5 == 4
    ensures forall i | 0 <= i < |Group(d)| :: Group(d)[i] != ' ' ==> IsDigit(Group(d)[i])
    decreases |d|
  {
    if |d| > 4 {
      var rest := Group(d[4..]);
      GroupShape(d[4..]);
      var r := Group(d);
      assert r == d[..4] + " " + rest;
      forall i | 0 <= i < |r| ensures (r[i] == ' ' <==> i % 5 == 4) && (r[i] != ' ' ==> IsDigit(r[i])) {
        if i < 4 {
          assert r[i] == d[i];
        } else if i > 4 {
          assert r[i] == rest[i - 5];
        }
      }
    }
  }

  /** Removing the spaces from a grouped string gives the digits back. */
  lemma {:induction false} RemoveSpacesOfGroup(d: string)
    requires AllDigits(d)
    ensures RemoveSpaces(Group(d)) == d
    decreases |d|
  {
    if |d| > 4 {
      RemoveSpacesOfGroup(d[4..]);
      RemoveSpacesAppend(d[..4] + " ", Group(d[4..]));
      RemoveSpacesAppend(d[..4], " ");
      RemoveSpacesOfDigits(d[..4]);
      assert d == d[..4] + d[4..];
    } else {
      RemoveSpacesOfDigits(d);
    }
  }

  lemma {:induction false} DigitsOfGroup(d: string)
    requires AllDigits(d)
    ensures DigitsOf(Group(d)) == d
    decreases |d|
  {
    if |d| > 4 {
      DigitsOfGroup(d[4..]);
      DigitsOfAppend(d[..4] + " ", Group(d[4..]));
      DigitsOfAppend(d[..4], " ");
      DigitsOfFixpoint(d[..4]);
      assert DigitsOf(" ") == [];
      assert d == d[..4] + d[4..];
    } else {
      DigitsOfFixpoint(d);
    }
  }

  /** Removing the spaces from the formatted number yields exactly the digits typed, in order. */
  lemma FormatKeepsDigits(value: string)
    ensures RemoveSpaces(FormatCardNumber(value)) == DigitsOf(value)
  {
    RemoveSpacesOfGroup(DigitsOf(value));
  }

  /**
   * One space follows each full group of four digits that has another
   * digit after it, and there is no space anywhere else: none at the start
   * and none at the end.
   */
  lemma FormatSpacing(value: string)
    ensures var r := FormatCardNumber(value);
      (forall i | 0 <= i < |r| :: r[i] == ' ' <==> i % 5 == 4)
      && (forall i | 0 <= i < |r| :: r[i] != ' ' ==> IsDigit(r[i]))
      && (r != [] ==> r[0] != ' ' && r[|r| - 1] != ' ')
  {
    var d := DigitsOf(value);
    GroupShape(d);
    var r := Group(d);
    if r != [] {
      var n := |d|;
      assert |r| - 1 == n - 1 + (n - 1) / 4;
      assert (|r| - 1) % 5 != 4;
    }
  }

  /** Formatting an already formatted number changes nothing. */
  lemma FormatIdempotent(value: string)
    ensures FormatCardNumber(FormatCardNumber(value)) == FormatCardNumber(value)
  {
    DigitsOfGroup(DigitsOf(value));
  }

  /**
   * A formatted number passes the card-number rule exactly when the input
   * held 13 to 16 digits; sixteen digits give the 19-character form.
   */
  lemma FormatAccepted(value: string)
    ensures CardNumberRule(FormatCardNumber(value)) <==> 13 <= |DigitsOf(value)| <= 16
    ensures |DigitsOf(value)| == 16 ==> |FormatCardNumber(value)| == 19
  {
    var d := DigitsOf(value);
    GroupShape(d);
    var r := Group(d);
    forall i | 0 <= i < |r| ensures CardChar(r[i]) {
    }
  }

  // ---------------------------------------------------------------------
  // Expiry shaping
  // ---------------------------------------------------------------------

  function Min(a: int, b: int): int {
    if a < b then a else b
  }

  /**
   * What `handleExpiryDateChange` writes for a typed value: up to two
   * digits unchanged, otherwise the first two digits, a slash and at most
   * the next two digits.
   */
  function ShapeExpiry(input: string): (r: string)
    ensures |r| <= 5
  {
    var d := DigitsOf(input);
    if |d| > 2 then d[..2] + "/" + d[2..Min(4, |d|)] else d
  }

  /** A value that passes the expiry rule is already in shape. */
  lemma ExpiryRuleShaped(s: string)
    requires ExpiryRule(s)
    ensures ShapeExpiry(s) == s
  {
    DigitsOfAppend(s[..2] + "/", s[3..]);
    DigitsOfAppend(s[..2], "/");
    DigitsOfFixpoint(s[..2]);
    DigitsOfFixpoint(s[3..]);
    assert DigitsOf("/") == [];
    assert s == s[..2] + "/" + s[3..];
  }

  /** The shaped value keeps the first (at most) four digits and drops the rest. */
  lemma ShapeExpiryDigits(input: string)
    ensures DigitsOf(ShapeExpiry(input)) == DigitsOf(input)[..Min(4, |DigitsOf(input)|)]
  {
    var d := DigitsOf(input);
    if |d| > 2 {
      DigitsOfAppend(d[..2] + "/", d[2..Min(4, |d|)]);
      DigitsOfAppend(d[..2], "/");
      DigitsOfFixpoint(d[..2]);
      DigitsOfFixpoint(d[2..Min(4, |d|)]);
      assert DigitsOf("/") == [];
      assert d[..Min(4, |d|)] == d[..2] + d[2..Min(4, |d|)];
    } else {
      DigitsOfFixpoint(d);
    }
  }

  /** Shaping an already shaped value changes nothing. */
  lemma ShapeExpiryIdempotent(input: string)
    ensures ShapeExpiry(ShapeExpiry(input)) == ShapeExpiry(input)
  {
    ShapeExpiryDigits(input);
    var d := DigitsOf(input);
    var e := d[..Min(4, |d|)];
    if |d| > 2 {
      assert e[..2] == d[..2] && e[2..Min(4, |e|)] == d[2..Min(4, |d|)];
    }
  }

  /**
   * The shaped value passes the expiry rule exactly when at least four
   * digits were typed and the first two form a month 01 to 12.
   */
  lemma ShapeExpiryAccepted(input: string)
    ensures var d := DigitsOf(input);
      ExpiryRule(ShapeExpiry(input)) <==> |d| >= 4 && MonthDigits(d[0], d[1])
  {
  }

  // ---------------------------------------------------------------------
  // The dialog's state
  // ---------------------------------------------------------------------

  class PaymentForm {
    var values: PaymentValues
    var isProcessing: bool
    var isSuccess: bool
    /** The `open` prop, changed through `onOpenChange`. */
    var open: bool

    /** The dialog as first rendered: empty fields, nothing in progress. */
    constructor ()
      ensures values == PaymentValues("", "", "", "")
      ensures !isProcessing && !isSuccess && open
    {
      values := PaymentValues("", "", "", "");
      isProcessing := false;
      isSuccess := false;
      open := true;
    }

    /** `handleCardNumberChange`: the field holds the formatted number. */
    method OnCardNumberChange(input: string)
      modifies this
      ensures values == old(values).(cardNumber := FormatCardNumber(input))
      ensures isProcessing == old(isProcessing) && isSuccess == old(isSuccess) && open == old(open)
    {
      values := values.(cardNumber := FormatCardNumber(input));
    }

    /** The card-holder input. */
    method SetCardHolder(text: string)
      modifies this
      ensures values == old(values).(cardHolder := text)
      ensures isProcessing == old(isProcessing) && isSuccess == old(isSuccess) && open == old(open)
    {
      values := values.(cardHolder := text);
    }

    /** The CVV input. */
    method SetCvv(text: string)
      modifies this
      ensures values == old(values).(cvv := text)
      ensures isProcessing == old(isProcessing) && isSuccess == old(isSuccess) && open == old(open)
    {
      values := values.(cvv := text);
    }

    /** `handleExpiryDateChange`: the field holds the shaped expiry. */
    method OnExpiryDateChange(input: string)
      modifies this
      ensures values == old(values).(expiryDate := ShapeExpiry(input))
      ensures |values.expiryDate| <= 5
      ensures isProcessing == old(isProcessing) && isSuccess == old(isSuccess) && open == old(open)
    {
      var value := DigitsOf(input);
      if |value| > 2 {
        value := value[..2] + "/" + value[2..Min(4, |value|)];
      }
      values := values.(expiryDate := value);
    }

    /** The pay button is disabled while processing. */
    predicate PayDisabled()
      reads this
    {
      isProcessing
    }

    /**
     * A submit: the form library runs `handleSubmit` only for values that
     * pass the schema, and `handleSubmit` first sets `isProcessing`.
     */
    method Submit()
      modifies this
      ensures isProcessing == (old(isProcessing) || ValidPayment(values))
      ensures values == old(values) && isSuccess == old(isSuccess) && open == old(open)
    {
      if ValidPayment(values) {
        isProcessing := true;
      }
    }

    /**
     * The end of `handleSubmit` after its two awaits: success is shown only
     * when `onSubscribe` resolved, and `isProcessing` is cleared either way.
     */
    method FinishPayment(subscribed: bool)
      modifies this
      ensures !isProcessing
      ensures isSuccess == (old(isSuccess) || subscribed)
      ensures values == old(values) && open == old(open)
    {
      if subscribed {
        isSuccess := true;
      }
      isProcessing := false;
    }

    /** The timer 2000 ms after a success closes the dialog and clears the success view. */
    method CloseAfterSuccess()
      modifies this
      ensures !open && !isSuccess
      ensures values == old(values) && isProcessing == old(isProcessing)
    {
      open := false;
      isSuccess := false;
    }
  }
}
